/**
 * The FreeD layout of the first version (layout A): pan and tilt as signed
 * 24-bit big-endian integers at bytes [2:5) and [5:8), zoom assembled from
 * bytes 21, 22 and 23 with shifts and bitwise or; a packet needs at least
 * 26 bytes. Pan is scaled by 180 and tilt by 90 per 32768 raw units, and
 * each reading only updates the camera's pan, tilt and zoom.
 */
module LegacyListener {
  import opened Wrappers
  import opened BigEndian
  import opened Bits
  import opened OverlayCamera

  /** Shortest packet that is decoded. */
  const MinPacket: nat := 26

  /** One decoded packet: raw fields and pan/tilt in degrees. */
  datatype Reading = Reading(rawPan: int, rawTilt: int, rawZoom: nat, panDeg: real, tiltDeg: real)

  /** Why a packet was dropped. */
  datatype ParseError = TooShort(length: nat)

  /**
   * `(byte21 << 16) | (byte22 << 8) | byte23`: the big-endian unsigned value
   * of the three bytes, a 24-bit unsigned number.
   */
  function PackZoom(byte21: byte, byte22: byte, byte23: byte): (r: nat)
    ensures r == Unsigned([byte21, byte22, byte23])
    ensures r < 0x1000000
  {
    PackZoomIsBigEndian(byte21, byte22, byte23);
    Or(Or(ShiftLeft(byte21, 16), ShiftLeft(byte22, 8)), byte23)
  }

  /**
   * The shifts and ors assemble the big-endian unsigned value of the three
   * bytes, so the zoom is a 24-bit unsigned number.
   */
  lemma PackZoomIsBigEndian(byte21: byte, byte22: byte, byte23: byte)
    ensures Or(Or(ShiftLeft(byte21, 16), ShiftLeft(byte22, 8)), byte23) == Unsigned([byte21, byte22, byte23])
    ensures Or(Or(ShiftLeft(byte21, 16), ShiftLeft(byte22, 8)), byte23) < 0x1000000
  {
    assert Pow2(8) == 0x100 && Pow2(16) == 0x10000;
    var high := byte21 * 0x100;
    ShiftIsProduct(byte21, 8);
    ShiftIsProduct(byte21, 16);
    ShiftIsProduct(high, 8);
    ShiftIsProduct(byte22, 8);
    assert ShiftLeft(byte21, 16) == ShiftLeft(high, 8);
    OrShifted(high, byte22, 8);
    OrDisjoint(byte21, byte22, 8);
    assert Or(high, byte22) == high + byte22;
    OrDisjoint(high + byte22, byte23, 8);
    ShiftIsProduct(high + byte22, 8);
    Unsigned24([byte21, byte22, byte23]);
  }

  /**
   * The decode of `parse_freed_packet`: too-short packets are refused, and
   * every packet of 26 bytes or more decodes (no byte access can fail), with
   * pan and tilt in signed 24-bit range.
   */
  function Decode(data: seq<byte>): (r: Result<Reading, ParseError>)
    ensures r.Err? <==> |data| < MinPacket
    ensures r.Err? ==> r.error == TooShort(|data|)
    ensures r.Ok? ==> Int24(r.value.rawPan) && Int24(r.value.rawTilt)
    ensures r.Ok? ==> -46080.0 <= r.value.panDeg < 46080.0 && -23040.0 <= r.value.tiltDeg < 23040.0
  {
    if |data| < MinPacket then Err(TooShort(|data|))
    else
      var rawPan := Signed(data[2..5]);
      var rawTilt := Signed(data[5..8]);
      var rawZoom := PackZoom(data[21], data[22], data[23]);
      Signed24(data[2..5]);
      Signed24(data[5..8]);
      Ok(Reading(rawPan, rawTilt, rawZoom, Degrees(rawPan, 180.0), Degrees(rawTilt, 90.0)))
  }

  /** The zoom of a decoded packet is the big-endian value of bytes [21:24). */
  lemma DecodedZoom(data: seq<byte>)
    requires |data| >= MinPacket
    ensures Decode(data).Ok? && Decode(data).value.rawZoom == Unsigned(data[21..24])
    ensures Decode(data).value.rawZoom < 0x1000000
  {
    assert data[21..24] == [data[21], data[22], data[23]];
  }

  /**
   * The angles of a decoded packet: the signed fields at [2..5) and [5..8),
   * pan at 180 and tilt at 90 degrees per 32768 raw units.
   */
  lemma DecodedDegrees(data: seq<byte>)
    requires |data| >= MinPacket
    ensures Decode(data).Ok?
    ensures Decode(data).value.rawPan == Signed(data[2..5]) && Decode(data).value.rawTilt == Signed(data[5..8])
    ensures Decode(data).value.panDeg == Signed(data[2..5]) as real / 32768.0 * 180.0
    ensures Decode(data).value.tiltDeg == Signed(data[5..8]) as real / 32768.0 * 90.0
  {
  }

  /** A packet of the minimum length whose fields hold the given raw values; other bytes are `fill`. */
  function EncodePacket(rawPan: int, rawTilt: int, rawZoom: nat, fill: byte): (data: seq<byte>)
    requires Int24(rawPan) && Int24(rawTilt) && rawZoom < 0x1000000
    ensures |data| == MinPacket
  {
    [fill, fill] + EncodeSigned24(rawPan) + EncodeSigned24(rawTilt)
      + seq(13, _ => fill) + Encode24(rawZoom) + [fill, fill]
  }

  /**
   * Every triple of raw values is carried by a packet, which decodes back to
   * it, with pan at 180 and tilt at 90 degrees per 32768 raw units.
   */
  lemma DecodeEncoded(rawPan: int, rawTilt: int, rawZoom: nat, fill: byte)
    requires Int24(rawPan) && Int24(rawTilt) && rawZoom < 0x1000000
    ensures var r := Decode(EncodePacket(rawPan, rawTilt, rawZoom, fill));
      r.Ok? && r.value.rawPan == rawPan && r.value.rawTilt == rawTilt && r.value.rawZoom == rawZoom &&
      r.value.panDeg == rawPan as real / 32768.0 * 180.0 && r.value.tiltDeg == rawTilt as real / 32768.0 * 90.0
  {
    var data := EncodePacket(rawPan, rawTilt, rawZoom, fill);
    assert data[2..5] == EncodeSigned24(rawPan);
    assert data[5..8] == EncodeSigned24(rawTilt);
    assert data[21..24] == Encode24(rawZoom);
    SignedEncode24(rawPan);
    SignedEncode24(rawTilt);
    UnsignedEncode24(rawZoom);
    DecodedZoom(data);
  }

  /** Only bytes 2 to 7 and 21 to 23 of a long-enough packet matter. */
  lemma DecodeReadsOnlyFields(a: seq<byte>, b: seq<byte>)
    requires |a| >= MinPacket && |b| >= MinPacket
    requires a[2..8] == b[2..8] && a[21..24] == b[21..24]
    ensures Decode(a) == Decode(b)
  {
    assert a[2..5] == a[2..8][..3] == b[2..8][..3] == b[2..5];
    assert a[5..8] == a[2..8][3..] == b[2..8][3..] == b[5..8];
    assert a[21] == a[21..24][0] == b[21..24][0] == b[21];
    assert a[22] == a[21..24][1] == b[21..24][1] == b[22];
    assert a[23] == a[21..24][2] == b[21..24][2] == b[23];
  }

  /**
   * `parse_freed_packet`: a short packet changes nothing; otherwise only
   * the filtered pan, tilt and zoom (and the stored raw inputs) move — no
   * calibration step and no telemetry timestamp.
   */
  method ParseFreedPacket(cam: CameraState, data: seq<byte>) returns (r: Result<Reading, ParseError>)
    modifies cam
    ensures r == Decode(data)
    ensures r.Err? ==> unchanged(cam)
    ensures r.Ok? ==> var d := r.value;
      cam.rawPan == d.panDeg && cam.rawTilt == d.tiltDeg && cam.rawZoom == d.rawZoom as real &&
      cam.pan == Smooth(old(cam.pan), TargetPan(d.panDeg), PanGain) &&
      cam.tilt == Smooth(old(cam.tilt), TargetTilt(d.tiltDeg, cam.tiltOffset, cam.autoCalibrateTilt),
        TiltGain(d.rawZoom as real)) &&
      cam.zoom == Smooth(old(cam.zoom), d.rawZoom as real, ZoomGain)
    ensures cam.CalibrationState() == old(cam.CalibrationState())
    ensures cam.lastFreedTime == old(cam.lastFreedTime) && cam.lastIdleStart == old(cam.lastIdleStart)
    ensures cam.x == old(cam.x) && cam.y == old(cam.y) && cam.z == old(cam.z)
    ensures cam.autoCalibrateTilt == old(cam.autoCalibrateTilt)
    ensures old(cam.InRange()) ==> cam.InRange()
  {
    r := Decode(data);
    if r.Ok? {
      cam.UpdateFromFreed(r.value.panDeg, r.value.tiltDeg, r.value.rawZoom as real);
    }
  }
}
