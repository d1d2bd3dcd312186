/**
 * The filtering camera state of the RTSP overlay: each decoded FreeD
 * reading is offset-corrected, clamped, quantized and exponentially
 * smoothed into pan/tilt/zoom, while a small timed state machine measures
 * the rig's static tilt bias as the median of the raw tilt over a window,
 * and an idle check tells the renderer when telemetry has gone stale.
 *
 * Time is the caller's `now`, in seconds; each operation reads the clock
 * once.
 */
module OverlayCamera {
  import opened Wrappers
  import opened PyRound
  import Median

  /** Fixed smoothing gain of pan. */
  const PanGain: real := 0.15
  /** Fixed smoothing gain of zoom. */
  const ZoomGain: real := 0.15
  /** Raw zoom reading taken as full zoom when computing the zoom ratio (0x400000). */
  const ZoomFullScale: real := 4194304.0
  /** Seconds after the first reading before tilt samples are collected. */
  const SettleSeconds: real := 3.0
  /** Seconds after the first reading at which the collection window closes. */
  const WindowSeconds: real := 8.0
  /** Default staleness timeout of the idle check, in seconds. */
  const IdleTimeout: real := 2.0

  /** `max(min(v, hi), lo)`. */
  function Clamp(v: real, lo: real, hi: real): (r: real)
    requires lo <= hi
    ensures lo <= r <= hi
    ensures lo <= v <= hi ==> r == v
    ensures v < lo ==> r == lo
    ensures v > hi ==> r == hi
  {
    var capped := if v < hi then v else hi;
    if capped > lo then capped else lo
  }

  /** t is a whole number of quarter degrees. */
  predicate QuarterStep(t: real)
  {
    (t * 4.0).Floor as real == t * 4.0
  }

  /** t is a whole number of half degrees. */
  predicate HalfStep(t: real)
  {
    (t * 2.0).Floor as real == t * 2.0
  }

  /**
   * The pan target: the pan clamped to [-180, 180], then rounded to the
   * nearest quarter degree (`round(pan * 4) / 4`).
   */
  function TargetPan(pan: real): (t: real)
    ensures -180.0 <= t <= 180.0
    ensures QuarterStep(t)
    ensures var c := Clamp(pan, -180.0, 180.0); c - 0.125 <= t <= c + 0.125
    ensures var c := Clamp(pan, -180.0, 180.0); (t == c - 0.125 || t == c + 0.125) ==> (t * 4.0).Floor % 2 == 0
  {
    var clamped := Clamp(pan, -180.0, 180.0);
    RoundWithin(clamped * 4.0, -720, 720);
    RoundHalfEven(clamped * 4.0) as real / 4.0
  }

  /** The tilt the filter works on: the bias is taken off only while auto-calibration is on. */
  function CorrectedTilt(tilt: real, offset: real, autoCalibrate: bool): (r: real)
    ensures r == tilt <==> !autoCalibrate || offset == 0.0
    ensures autoCalibrate ==> r + offset == tilt
  {
    if autoCalibrate then tilt - offset else tilt
  }

  /**
   * The tilt target: the corrected tilt clamped to [-30, 90], then rounded
   * to the nearest half degree (`round(tilt * 2) / 2`).
   */
  function TargetTilt(tilt: real, offset: real, autoCalibrate: bool): (t: real)
    ensures -30.0 <= t <= 90.0
    ensures HalfStep(t)
    ensures var c := Clamp(CorrectedTilt(tilt, offset, autoCalibrate), -30.0, 90.0);
      c - 0.25 <= t <= c + 0.25
    ensures var c := Clamp(CorrectedTilt(tilt, offset, autoCalibrate), -30.0, 90.0);
      (t == c - 0.25 || t == c + 0.25) ==> (t * 2.0).Floor % 2 == 0
  {
    var clamped := Clamp(CorrectedTilt(tilt, offset, autoCalibrate), -30.0, 90.0);
    RoundWithin(clamped * 2.0, -60, 180);
    RoundHalfEven(clamped * 2.0) as real / 2.0
  }

  /** Quantizing to the step of an axis leaves a value already on that step as it is. */
  lemma TargetsFixOnGrid(pan: real, tilt: real)
    requires -180.0 <= pan <= 180.0 && QuarterStep(pan)
    requires -30.0 <= tilt <= 90.0 && HalfStep(tilt)
    ensures TargetPan(pan) == pan
    ensures TargetTilt(tilt, 0.0, false) == tilt
  {
  }

  /** Halfway cases go to the even step: 5.625 degrees of pan target 5.5, 11.25 degrees of tilt target 11.0. */
  lemma TargetsRoundTiesToEven()
    ensures TargetPan(5.625) == 5.5
    ensures TargetTilt(11.25, 0.0, false) == 11.0
  {
    RoundHalfEvenUnique(22.5, 22);
  }

  /** `zoom / 0x400000` clamped to [0, 1]. */
  function ZoomRatio(zoom: real): (r: real)
    ensures 0.0 <= r <= 1.0
    ensures 0.0 <= zoom <= ZoomFullScale ==> r * ZoomFullScale == zoom
    ensures zoom <= 0.0 ==> r == 0.0
    ensures zoom >= ZoomFullScale ==> r == 1.0
  {
    Clamp((zoom - 0.0) / ZoomFullScale, 0.0, 1.0)
  }

  /**
   * The zoom-dependent tilt gain `max(0.05, 0.25 - 0.2 * ratio)`. Since the
   * ratio never exceeds 1 the lower bound never binds: the gain falls
   * linearly from 0.25 at no zoom to 0.05 at full zoom.
   */
  function TiltGain(zoom: real): (g: real)
    ensures 0.05 <= g <= 0.25
    ensures g == 0.25 - 0.2 * ZoomRatio(zoom)
  {
    var g := 0.25 - ZoomRatio(zoom) * 0.2;
    if g > 0.05 then g else 0.05
  }

  /** More zoom never makes tilt more responsive. */
  lemma TiltGainNonIncreasing(zoom1: real, zoom2: real)
    requires zoom1 <= zoom2
    ensures TiltGain(zoom2) <= TiltGain(zoom1)
  {
  }

  /**
   * One step of exponential smoothing, `(1 - gain) * current + gain * target`:
   * the gap to the target shrinks by the factor 1 - gain.
   */
  function Smooth(current: real, target: real, gain: real): (r: real)
    ensures r - target == (1.0 - gain) * (current - target)
  {
    (1.0 - gain) * current + gain * target
  }

  /** A product of non-negative reals is non-negative. */
  lemma ProductNonNegative(a: real, b: real)
    requires a >= 0.0 && b >= 0.0
    ensures a * b >= 0.0
  {
  }

  /** A fraction in [0, 1] of a gap has the gap's sign and no more than its size. */
  lemma ScaledGap(gain: real, gap: real)
    requires 0.0 <= gain <= 1.0
    ensures gap >= 0.0 ==> 0.0 <= gain * gap <= gap
    ensures gap <= 0.0 ==> gap <= gain * gap <= 0.0
  {
    var size := if gap >= 0.0 then gap else -gap;
    ProductNonNegative(gain, size);
    ProductNonNegative(1.0 - gain, size);
    assert size - gain * size == (1.0 - gain) * size;
    assert gap < 0.0 ==> gain * gap == -(gain * size);
  }

  /** With a gain in [0, 1] a smoothing step lands between the current value and the target. */
  lemma SmoothBetween(current: real, target: real, gain: real)
    requires 0.0 <= gain <= 1.0
    ensures current <= target ==> current <= Smooth(current, target, gain) <= target
    ensures target <= current ==> target <= Smooth(current, target, gain) <= current
  {
    var gap := target - current;
    assert Smooth(current, target, gain) == current + gain * gap;
    ScaledGap(gain, gap);
  }

  /** x to the power n. */
  function Power(x: real, n: nat): real
  {
    if n == 0 then 1.0 else x * Power(x, n - 1)
  }

  /** n smoothing steps towards the same target, as repeated identical readings give. */
  function SmoothSteps(current: real, target: real, gain: real, n: nat): real
    decreases n
  {
    if n == 0 then current else SmoothSteps(Smooth(current, target, gain), target, gain, n - 1)
  }

  /**
   * Feeding the same target repeatedly never overshoots it and closes the
   * gap geometrically: after n steps the gap is (1 - gain)^n times the first.
   */
  lemma {:induction false} SmoothingConverges(current: real, target: real, gain: real, n: nat)
    requires 0.0 <= gain <= 1.0
    ensures var r := SmoothSteps(current, target, gain, n);
      (current <= target ==> current <= r <= target) &&
      (target <= current ==> target <= r <= current) &&
      r - target == Power(1.0 - gain, n) * (current - target)
    decreases n
  {
    if n > 0 {
      var next := Smooth(current, target, gain);
      SmoothBetween(current, target, gain);
      SmoothingConverges(next, target, gain, n - 1);
      var p, q, d := Power(1.0 - gain, n - 1), 1.0 - gain, current - target;
      assert next - target == q * d;
      assert Power(1.0 - gain, n) == q * p;
      calc {
        SmoothSteps(current, target, gain, n) - target;
        p * (next - target);
        p * (q * d);
        (q * p) * d;
      }
    }
  }

  /** The tilt-calibration part of the camera state. */
  datatype Calibration = Calibration(
    collecting: bool,        // the sample window is open
    startTime: Option<real>, // when the first reading of this round arrived
    buffer: seq<real>,       // raw tilt samples of the current window
    offset: real)            // the tilt bias in force

  /** A window can only be open once it has a start time. */
  predicate Consistent(c: Calibration)
  {
    c.collecting ==> c.startTime.Some?
  }

  /**
   * One arrival of telemetry with raw tilt `rawTilt` at time `now`: the
   * first arrival starts the clock; more than 3 s later the window opens
   * with an empty buffer; while open every arrival adds its sample, and the
   * first one more than 8 s after the start closes the window, sets the
   * offset to the upper median of the buffer and starts a new round. The
   * buffer is left as it was at the close.
   */
  function Observe(c: Calibration, rawTilt: real, now: real): (c': Calibration)
    requires Consistent(c)
    ensures Consistent(c')
    ensures c'.offset != c.offset ==> c.collecting && !c'.collecting && c'.offset in c'.buffer
  {
    if !c.collecting then
      if c.startTime.None? then c.(startTime := Some(now))
      else if now - c.startTime.value > SettleSeconds then c.(collecting := true, buffer := [])
      else c
    else
      var samples := c.buffer + [rawTilt];
      if now - c.startTime.value > WindowSeconds then
        Calibration(false, None, samples, Median.UpperMedian(samples))
      else c.(buffer := samples)
  }

  /** The first arrival only records the start time; nothing is collected yet. */
  lemma FirstArrivalStartsClock(c: Calibration, rawTilt: real, now: real)
    requires !c.collecting && c.startTime.None?
    ensures Observe(c, rawTilt, now) == c.(startTime := Some(now))
  {
  }

  /**
   * Before the window opens, the state moves only once more than 3 s have
   * passed since the start, and then opens the window with an empty buffer.
   */
  lemma SettlingOpensWindow(c: Calibration, rawTilt: real, now: real)
    requires !c.collecting && c.startTime.Some?
    ensures var c' := Observe(c, rawTilt, now);
      c'.collecting == (now - c.startTime.value > SettleSeconds) &&
      c'.startTime == c.startTime && c'.offset == c.offset &&
      (c'.collecting ==> c'.buffer == []) &&
      (!c'.collecting ==> c' == c)
  {
  }

  /**
   * While the window is open every arrival appends its sample before the
   * time check, so the buffer the offset comes from is never empty; past
   * 8 s the window closes with the offset set to a median of the samples
   * and the start time cleared.
   */
  lemma CollectingAppendsThenCloses(c: Calibration, rawTilt: real, now: real)
    requires c.collecting && c.startTime.Some?
    ensures var c' := Observe(c, rawTilt, now);
      c'.buffer == c.buffer + [rawTilt] &&
      (now - c.startTime.value > WindowSeconds ==>
        !c'.collecting && c'.startTime.None? &&
        c'.offset == Median.UpperMedian(c'.buffer) &&
        Median.CountBelow(c'.buffer, c'.offset) <= |c'.buffer| / 2 &&
        Median.CountAbove(c'.buffer, c'.offset) <= |c'.buffer| - 1 - |c'.buffer| / 2) &&
      (now - c.startTime.value <= WindowSeconds ==>
        c'.collecting && c'.startTime == c.startTime && c'.offset == c.offset)
  {
    if now - c.startTime.value > WindowSeconds {
      Median.MedianSplitsSamples(c.buffer + [rawTilt]);
    }
  }

  /** An example window of samples: 10, 20, 30, 20, 10 have median 20. */
  lemma MedianOfExample()
    ensures Median.UpperMedian([10.0, 20.0, 30.0, 20.0, 10.0]) == 20.0
  {
  }

  /**
   * A whole calibration round: readings at 0 s, 4 s and then 5 s to 9 s
   * with raw tilts 10, 20, 30, 20, 10 set the offset to 20 at 9 s (8 s is
   * not yet past the window) and make the calibrator start over.
   */
  lemma CalibrationRound()
    ensures var c0 := Calibration(false, None, [], 0.0);
      var c1 := Observe(c0, 0.0, 0.0);
      var c2 := Observe(c1, 0.0, 4.0);
      var c3 := Observe(Observe(Observe(c2, 10.0, 5.0), 20.0, 6.0), 30.0, 7.0);
      var c4 := Observe(c3, 20.0, 8.0);
      var c5 := Observe(c4, 10.0, 9.0);
      c4.collecting && c4.offset == 0.0 &&
      !c5.collecting && c5.startTime.None? && c5.offset == 20.0
  {
    var c0 := Calibration(false, None, [], 0.0);
    var c1 := Observe(c0, 0.0, 0.0);
    assert c1 == Calibration(false, Some(0.0), [], 0.0);
    var c2 := Observe(c1, 0.0, 4.0);
    assert c2 == Calibration(true, Some(0.0), [], 0.0);
    var c3 := Observe(Observe(Observe(c2, 10.0, 5.0), 20.0, 6.0), 30.0, 7.0);
    assert c3 == Calibration(true, Some(0.0), [10.0, 20.0, 30.0], 0.0);
    var c4 := Observe(c3, 20.0, 8.0);
    assert c4 == Calibration(true, Some(0.0), [10.0, 20.0, 30.0, 20.0], 0.0);
    assert c4.buffer + [10.0] == [10.0, 20.0, 30.0, 20.0, 10.0];
    MedianOfExample();
  }

  /** The idle classification: no telemetry for more than `timeout` seconds. */
  predicate Stale(lastFreedTime: real, now: real, timeout: real)
    ensures Stale(lastFreedTime, now, timeout) && timeout >= 0.0 ==> lastFreedTime < now
  {
    now - lastFreedTime > timeout
  }

  /** Without a new packet, telemetry that has gone stale stays stale. */
  lemma StaleStaysStale(lastFreedTime: real, now: real, later: real, timeout: real)
    requires now <= later
    ensures Stale(lastFreedTime, now, timeout) ==> Stale(lastFreedTime, later, timeout)
  {
  }

  /**
   * The shared camera: smoothed pan/tilt in degrees and zoom in raw device
   * units, the last raw inputs, the calibration state and the idle clocks.
   */
  class CameraState {
    var x: real
    var y: real
    var z: real
    var pan: real
    var tilt: real
    var zoom: real

    var rawPan: real
    var rawTilt: real
    var rawZoom: real

    var lastFreedTime: real
    var lastIdleStart: real

    var tiltBuffer: seq<real>
    var tiltOffset: real
    var collectingTilt: bool
    var tiltStartTime: Option<real>
    var autoCalibrateTilt: bool

    /** The calibration fields as one value. */
    function CalibrationState(): Calibration
      reads this
    {
      Calibration(collectingTilt, tiltStartTime, tiltBuffer, tiltOffset)
    }

    /** Object invariant: the window is only open after a start time was taken. */
    ghost predicate Valid()
      reads this
    {
      Consistent(CalibrationState())
    }

    /** Smoothed pan and tilt within the ranges their targets are clamped to. */
    ghost predicate InRange()
      reads this
    {
      -180.0 <= pan <= 180.0 && -30.0 <= tilt <= 90.0
    }

    /** A camera at (0, -10, 2) looking straight ahead, with calibration on and not started. */
    constructor (now: real)
      ensures Valid() && InRange()
      ensures x == 0.0 && y == -10.0 && z == 2.0
      ensures pan == 0.0 && tilt == 0.0 && zoom == 0.0
      ensures rawPan == 0.0 && rawTilt == 0.0 && rawZoom == 0.0
      ensures lastFreedTime == 0.0 && lastIdleStart == now
      ensures CalibrationState() == Calibration(false, None, [], 0.0)
      ensures autoCalibrateTilt
    {
      x, y, z := 0.0, -10.0, 2.0;
      pan, tilt, zoom := 0.0, 0.0, 0.0;
      rawPan, rawTilt, rawZoom := 0.0, 0.0, 0.0;
      lastFreedTime := 0.0;
      lastIdleStart := now;
      tiltBuffer := [];
      tiltOffset := 0.0;
      collectingTilt := false;
      tiltStartTime := None;
      autoCalibrateTilt := true;
    }

    /**
     * Whether telemetry is stale; when it is and the idle phase is older
     * than the timeout, the idle phase restarts at `now`. Nothing else moves.
     */
    method ShouldIdle(now: real, timeout: real := IdleTimeout) returns (idle: bool)
      modifies this`lastIdleStart
      ensures idle == Stale(lastFreedTime, now, timeout)
      ensures lastIdleStart == if idle && now - old(lastIdleStart) > timeout then now else old(lastIdleStart)
    {
      idle := now - lastFreedTime > timeout;
      if idle && now - lastIdleStart > timeout {
        lastIdleStart := now;
      }
    }

    /**
     * Records an arrival of telemetry at `now` and, with calibration on,
     * advances the calibration by the raw tilt last stored.
     */
    method MarkFreedReceived(now: real)
      requires Valid()
      modifies this`lastFreedTime, this`lastIdleStart, this`tiltBuffer, this`tiltOffset,
        this`collectingTilt, this`tiltStartTime
      ensures Valid()
      ensures lastFreedTime == now && lastIdleStart == now
      ensures pan == old(pan) && tilt == old(tilt) && zoom == old(zoom)
      ensures x == old(x) && y == old(y) && z == old(z)
      ensures CalibrationState() ==
        if autoCalibrateTilt then Observe(old(CalibrationState()), rawTilt, now)
        else old(CalibrationState())
    {
      lastFreedTime := now;
      lastIdleStart := now;
      if autoCalibrateTilt {
        if !collectingTilt {
          if tiltStartTime.None? {
            tiltStartTime := Some(now);
          } else if now - tiltStartTime.value > SettleSeconds {
            collectingTilt := true;
            tiltBuffer := [];
          }
        } else {
          tiltBuffer := tiltBuffer + [rawTilt];
          if now - tiltStartTime.value > WindowSeconds {
            tiltOffset := Median.UpperMedian(tiltBuffer);
            collectingTilt := false;
            tiltStartTime := None;
          }
        }
      }
    }

    /**
     * Feeds one reading (pan and tilt in degrees, zoom in raw units): keeps
     * the raw inputs, then moves each axis one smoothing step towards its
     * target, tilt with the bias in force before this reading.
     */
    method UpdateFromFreed(pan: real, tilt: real, zoom: real := 0.0)
      modifies this`pan, this`tilt, this`zoom, this`rawPan, this`rawTilt, this`rawZoom
      ensures rawPan == pan && rawTilt == tilt && rawZoom == zoom
      ensures this.pan == Smooth(old(this.pan), TargetPan(pan), PanGain)
      ensures this.tilt == Smooth(old(this.tilt), TargetTilt(tilt, tiltOffset, autoCalibrateTilt), TiltGain(zoom))
      ensures this.zoom == Smooth(old(this.zoom), zoom, ZoomGain)
      ensures old(InRange()) ==> InRange()
      ensures CalibrationState() == old(CalibrationState())
      ensures x == old(x) && y == old(y) && z == old(z)
    {
      rawPan, rawTilt, rawZoom := pan, tilt, zoom;
      var panTarget := TargetPan(pan);
      var tiltTarget := TargetTilt(tilt, tiltOffset, autoCalibrateTilt);
      var tiltGain := TiltGain(zoom);
      this.pan := Smooth(this.pan, panTarget, PanGain);
      this.tilt := Smooth(this.tilt, tiltTarget, tiltGain);
      this.zoom := Smooth(this.zoom, zoom, ZoomGain);
      SmoothBetween(old(this.pan), panTarget, PanGain);
      SmoothBetween(old(this.tilt), tiltTarget, tiltGain);
    }
  }
}
