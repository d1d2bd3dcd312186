/**
 * The passthrough camera state used with the minimal (layout C) decoder:
 * a fixed eye position and the last pan/tilt/zoom, with no filtering.
 */
module Camera {

  class CameraState {
    var x: real
    var y: real
    var z: real
    var pan: real
    var tilt: real
    var zoom: real

    /** Eye at (0, -10, 2), looking straight ahead at no zoom. */
    constructor ()
      ensures x == 0.0 && y == -10.0 && z == 2.0
      ensures pan == 0.0 && tilt == 0.0 && zoom == 0.0
    {
      x, y, z := 0.0, -10.0, 2.0;
      pan, tilt, zoom := 0.0, 0.0, 0.0;
    }

    /** Takes pan, tilt and zoom exactly as given (zoom 0 when left out); the position stays. */
    method UpdateFromFreed(pan: real, tilt: real, zoom: real := 0.0)
      modifies this`pan, this`tilt, this`zoom
      ensures this.pan == pan && this.tilt == tilt && this.zoom == zoom
      ensures x == old(x) && y == old(y) && z == old(z)
    {
      this.pan := pan;
      this.tilt := tilt;
      this.zoom := zoom;
    }
  }
}
