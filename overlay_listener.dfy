/**
 * The FreeD layout read by the RTSP overlay (layout B): pan and tilt as
 * signed 24-bit big-endian integers at bytes [3:6) and [6:9), zoom as an
 * unsigned 24-bit big-endian integer at [21:24); a packet needs at least 26
 * bytes. Pan is scaled by 180 and tilt by 120 per 32768 raw units, and each
 * reading drives the filtering camera and then its calibration clock.
 */
module OverlayListener {
  import opened Wrappers
  import opened BigEndian
  import opened OverlayCamera

  /** Shortest packet that is decoded. */
  const MinPacket: nat := 26

  /** One decoded packet: raw fields and pan/tilt in degrees. */
  datatype Reading = Reading(rawPan: int, rawTilt: int, rawZoom: nat, panDeg: real, tiltDeg: real)

  /** Why a packet was dropped. */
  datatype ParseError = TooShort(length: nat)

  /**
   * The decode of `parse_freed_packet`: too-short packets are refused, and
   * every packet of 26 bytes or more decodes, with fields in 24-bit range.
   */
  function Decode(data: seq<byte>): (r: Result<Reading, ParseError>)
    ensures r.Err? <==> |data| < MinPacket
    ensures r.Err? ==> r.error == TooShort(|data|)
    ensures r.Ok? ==> Int24(r.value.rawPan) && Int24(r.value.rawTilt) && r.value.rawZoom < 0x1000000
    ensures r.Ok? ==> -46080.0 <= r.value.panDeg < 46080.0 && -30720.0 <= r.value.tiltDeg < 30720.0
  {
    if |data| < MinPacket then Err(TooShort(|data|))
    else
      var rawPan := Signed(data[3..6]);
      var rawTilt := Signed(data[6..9]);
      var rawZoom := Unsigned(data[21..24]);
      Signed24(data[3..6]);
      Signed24(data[6..9]);
      assert Pow256(3) == 0x1000000;
      Ok(Reading(rawPan, rawTilt, rawZoom, Degrees(rawPan, 180.0), Degrees(rawTilt, 120.0)))
  }

  /**
   * The angles of a decoded packet: the signed fields at [3..6) and [6..9),
   * pan at 180 and tilt at 120 degrees per 32768 raw units.
   */
  lemma DecodedDegrees(data: seq<byte>)
    requires |data| >= MinPacket
    ensures Decode(data).Ok?
    ensures Decode(data).value.rawPan == Signed(data[3..6]) && Decode(data).value.rawTilt == Signed(data[6..9])
    ensures Decode(data).value.panDeg == Signed(data[3..6]) as real / 32768.0 * 180.0
    ensures Decode(data).value.tiltDeg == Signed(data[6..9]) as real / 32768.0 * 120.0
  {
  }

  /** A packet of the minimum length whose fields hold the given raw values; other bytes are `fill`. */
  function EncodePacket(rawPan: int, rawTilt: int, rawZoom: nat, fill: byte): (data: seq<byte>)
    requires Int24(rawPan) && Int24(rawTilt) && rawZoom < 0x1000000
    ensures |data| == MinPacket
  {
    [fill, fill, fill] + EncodeSigned24(rawPan) + EncodeSigned24(rawTilt)
      + seq(12, _ => fill) + Encode24(rawZoom) + [fill, fill]
  }

  /**
   * Every triple of raw values is carried by a packet, which decodes back to
   * it, with pan at 180 and tilt at 120 degrees per 32768 raw units.
   */
  lemma DecodeEncoded(rawPan: int, rawTilt: int, rawZoom: nat, fill: byte)
    requires Int24(rawPan) && Int24(rawTilt) && rawZoom < 0x1000000
    ensures var r := Decode(EncodePacket(rawPan, rawTilt, rawZoom, fill));
      r.Ok? && r.value.rawPan == rawPan && r.value.rawTilt == rawTilt && r.value.rawZoom == rawZoom &&
      r.value.panDeg == rawPan as real / 32768.0 * 180.0 && r.value.tiltDeg == rawTilt as real / 32768.0 * 120.0
  {
    var data := EncodePacket(rawPan, rawTilt, rawZoom, fill);
    assert data[3..6] == EncodeSigned24(rawPan);
    assert data[6..9] == EncodeSigned24(rawTilt);
    assert data[21..24] == Encode24(rawZoom);
    SignedEncode24(rawPan);
    SignedEncode24(rawTilt);
    UnsignedEncode24(rawZoom);
  }

  /** Only bytes 3 to 8 and 21 to 23 of a long-enough packet matter. */
  lemma DecodeReadsOnlyFields(a: seq<byte>, b: seq<byte>)
    requires |a| >= MinPacket && |b| >= MinPacket
    requires a[3..9] == b[3..9] && a[21..24] == b[21..24]
    ensures Decode(a) == Decode(b)
  {
    assert a[3..6] == a[3..9][..3] == b[3..9][..3] == b[3..6];
    assert a[6..9] == a[3..9][3..] == b[3..9][3..] == b[6..9];
  }

  /**
   * An example: raw pan 16384, raw tilt 8192 and zoom 0x200000 are
   * 90 and 30 degrees, and from a camera at rest with no bias one update
   * moves pan to 13.5, tilt to 4.5 (tilt gain 0.15 at half zoom) and zoom
   * to 314572.8.
   */
  lemma ExamplePacket()
    ensures var r := Decode(EncodePacket(16384, 8192, 0x200000, 0));
      r.Ok? && r.value.panDeg == 90.0 && r.value.tiltDeg == 30.0 &&
      Smooth(0.0, TargetPan(r.value.panDeg), PanGain) == 13.5 &&
      Smooth(0.0, TargetTilt(r.value.tiltDeg, 0.0, true), TiltGain(r.value.rawZoom as real)) == 4.5 &&
      Smooth(0.0, r.value.rawZoom as real, ZoomGain) == 314572.8
  {
    DecodeEncoded(16384, 8192, 0x200000, 0);
    TargetsFixOnGrid(90.0, 30.0);
  }

  /**
   * `parse_freed_packet`: a short packet changes nothing; otherwise the
   * camera is first updated with the reading (tilt corrected by the bias in
   * force before this packet) and then marked as receiving at `now`, which
   * feeds this packet's raw tilt to the calibration. A bias computed now
   * therefore first applies to the next packet.
   */
  method ParseFreedPacket(cam: CameraState, data: seq<byte>, now: real) returns (r: Result<Reading, ParseError>)
    requires cam.Valid()
    modifies cam
    ensures cam.Valid()
    ensures r == Decode(data)
    ensures r.Err? ==> unchanged(cam)
    ensures r.Ok? ==> var d := r.value;
      cam.rawPan == d.panDeg && cam.rawTilt == d.tiltDeg && cam.rawZoom == d.rawZoom as real &&
      cam.pan == Smooth(old(cam.pan), TargetPan(d.panDeg), PanGain) &&
      cam.tilt == Smooth(old(cam.tilt), TargetTilt(d.tiltDeg, old(cam.tiltOffset), cam.autoCalibrateTilt),
        TiltGain(d.rawZoom as real)) &&
      cam.zoom == Smooth(old(cam.zoom), d.rawZoom as real, ZoomGain) &&
      cam.lastFreedTime == now && cam.lastIdleStart == now &&
      cam.CalibrationState() ==
        (if cam.autoCalibrateTilt then Observe(old(cam.CalibrationState()), d.tiltDeg, now)
         else old(cam.CalibrationState()))
    ensures cam.x == old(cam.x) && cam.y == old(cam.y) && cam.z == old(cam.z)
    ensures cam.autoCalibrateTilt == old(cam.autoCalibrateTilt)
    ensures old(cam.InRange()) ==> cam.InRange()
  {
    r := Decode(data);
    if r.Ok? {
      var d := r.value;
      cam.UpdateFromFreed(d.panDeg, d.tiltDeg, d.rawZoom as real);
      cam.MarkFreedReceived(now);
    }
  }
}
