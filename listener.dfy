/**
 * The minimal FreeD layout (layout C): pan, tilt and zoom as raw integers
 * at bytes [0:3), [3:6), [6:9), and the position x, y, z in millimetres at
 * [9:12), [12:15), [15:18), converted to metres. Datagrams shorter than 29
 * bytes are ignored by the receive loop; the decoder itself reads with
 * Python slices and so accepts any length.
 */
module Listener {
  import opened BigEndian
  import Camera

  /** Shortest datagram the receive loop hands to the decoder. */
  const MinDatagram: nat := 29

  /** One decoded datagram: raw pan/tilt/zoom and the position in metres. */
  datatype Pose = Pose(pan: int, tilt: int, zoom: nat, x: real, y: real, z: real)

  /** The six fields of `parse_freed_data`, read from the (possibly short) slices. */
  function Decode(data: seq<byte>): (p: Pose)
    ensures |data| >= 18 ==> Int24(p.pan) && Int24(p.tilt) && p.zoom < 0x1000000
    ensures |data| >= 18 ==>
      -8388.608 <= p.x < 8388.608 && -8388.608 <= p.y < 8388.608 && -8388.608 <= p.z < 8388.608
  {
    assert Pow256(3) == 0x1000000;
    Pose(
      Signed(Slice(data, 0, 3)),
      Signed(Slice(data, 3, 6)),
      Unsigned(Slice(data, 6, 9)),
      Signed(Slice(data, 9, 12)) as real / 1000.0,
      Signed(Slice(data, 12, 15)) as real / 1000.0,
      Signed(Slice(data, 15, 18)) as real / 1000.0)
  }

  /** The 18 bytes that carry a pose with pan, tilt, zoom and millimetre position. */
  function EncodeFields(pan: int, tilt: int, zoom: nat, xmm: int, ymm: int, zmm: int): (s: seq<byte>)
    requires Int24(pan) && Int24(tilt) && zoom < 0x1000000
    requires Int24(xmm) && Int24(ymm) && Int24(zmm)
    ensures |s| == 18
  {
    EncodeSigned24(pan) + EncodeSigned24(tilt) + Encode24(zoom)
      + EncodeSigned24(xmm) + EncodeSigned24(ymm) + EncodeSigned24(zmm)
  }

  /**
   * Every pose is carried by some datagram: the encoded fields, followed by
   * any trailer, decode to exactly the values encoded.
   */
  lemma DecodeEncoded(pan: int, tilt: int, zoom: nat, xmm: int, ymm: int, zmm: int, trailer: seq<byte>)
    requires Int24(pan) && Int24(tilt) && zoom < 0x1000000
    requires Int24(xmm) && Int24(ymm) && Int24(zmm)
    ensures Decode(EncodeFields(pan, tilt, zoom, xmm, ymm, zmm) + trailer)
      == Pose(pan, tilt, zoom, xmm as real / 1000.0, ymm as real / 1000.0, zmm as real / 1000.0)
  {
    var data := EncodeFields(pan, tilt, zoom, xmm, ymm, zmm) + trailer;
    assert data[0..3] == EncodeSigned24(pan);
    assert data[3..6] == EncodeSigned24(tilt);
    assert data[6..9] == Encode24(zoom);
    assert data[9..12] == EncodeSigned24(xmm);
    assert data[12..15] == EncodeSigned24(ymm);
    assert data[15..18] == EncodeSigned24(zmm);
    SignedEncode24(pan);
    SignedEncode24(tilt);
    UnsignedEncode24(zoom);
    SignedEncode24(xmm);
    SignedEncode24(ymm);
    SignedEncode24(zmm);
  }

  /** Only the first 18 bytes matter: datagrams that agree on them decode alike. */
  lemma DecodeReadsFirst18(a: seq<byte>, b: seq<byte>)
    requires |a| >= 18 && |b| >= 18 && a[..18] == b[..18]
    ensures Decode(a) == Decode(b)
  {
    assert a[0..3] == b[0..3] && a[3..6] == b[3..6] && a[6..9] == b[6..9];
    assert a[9..12] == b[9..12] && a[12..15] == b[12..15] && a[15..18] == b[15..18];
  }

  /** `parse_freed_data`: writes the six decoded values into the camera as they are. */
  method ParseFreedData(cam: Camera.CameraState, data: seq<byte>)
    modifies cam
    ensures var p := Decode(data);
      cam.pan == p.pan as real && cam.tilt == p.tilt as real && cam.zoom == p.zoom as real &&
      cam.x == p.x && cam.y == p.y && cam.z == p.z
  {
    var p := Decode(data);
    cam.pan := p.pan as real;
    cam.tilt := p.tilt as real;
    cam.zoom := p.zoom as real;
    cam.x := p.x;
    cam.y := p.y;
    cam.z := p.z;
  }

  /**
   * One datagram of the receive loop: one shorter than 29 bytes leaves the
   * camera untouched, any other is decoded into it.
   */
  method HandleDatagram(cam: Camera.CameraState, data: seq<byte>)
    modifies cam
    ensures |data| < MinDatagram ==> unchanged(cam)
    ensures |data| >= MinDatagram ==> var p := Decode(data);
      cam.pan == p.pan as real && cam.tilt == p.tilt as real && cam.zoom == p.zoom as real &&
      cam.x == p.x && cam.y == p.y && cam.z == p.z
  {
    if |data| >= MinDatagram {
      ParseFreedData(cam, data);
    }
  }
}
