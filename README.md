# FreeD camera tracking — a verified Dafny model

The system listens on a UDP port for FreeD camera-tracking datagrams sent by a
studio camera head. It decodes each datagram into pan, tilt, zoom (and, in one
layout, position) and hands the values to a camera state object that the
renderer reads every frame. There are three generations of the listener:

* **Layout A** (`LEGACY/v1/FreeD_Virtual_World/freed_listener.py`): a 26-byte
  gate, pan from bytes 2..5 and tilt from bytes 5..8 as signed 24-bit
  big-endian integers, zoom packed from bytes 21..23 with shifts and bitwise
  or. The angles are scaled to degrees with `raw / 32768 * 180` (pan) and
  `raw / 32768 * 90` (tilt).
* **Layout B** (`RTSP_OVERLAY/freed_listener.py`): a 26-byte gate, pan from
  bytes 3..6, tilt from 6..9, zoom from 21..24; pan is scaled by 180 and tilt by 120.
  Each accepted packet first updates the filtering camera state and then
  marks the arrival time, which also drives the automatic tilt calibration.
* **Layout C** (`freed_listener.py`): a 29-byte gate in the receive loop, then
  pan, tilt, zoom and x/y/z from the first 18 bytes. The values go unfiltered
  into a passthrough camera state; positions are millimetres divided by 1000.

The filtering camera state (`RTSP_OVERLAY/camera_state.py`) clamps its
targets (pan to ±180°, tilt to -30°..90° after the calibration offset), rounds
them to a 0.25° and 0.5° grid, and moves the camera a fixed fraction of the
way to the target each update. The tilt gain falls from 0.25 to 0.05 as zoom
rises to full scale. The first packet starts a calibration clock. The first
packet more than 3 s after that start opens a collection window, without
restarting the clock. From then on every packet's raw tilt is collected, and
the first packet more than 8 s after the start closes the window. So the
window lasts about 5 s. At the close, the offset becomes the element at index
n/2 of the sorted readings, and the clock is cleared. It reports "idle" once
no packet has arrived for more than two seconds.

Modules:

| file | module | contents |
|---|---|---|
| `wrappers.dfy` | `Wrappers` | `Option`, `Result` |
| `big_endian.dfy` | `BigEndian` | Python `int.from_bytes` (signed, unsigned), Python slicing, 24-bit encoders |
| `bits.dfy` | `Bits` | `<<` and bitwise `\|` on naturals |
| `py_round.dfy` | `PyRound` | Python's `round()` (ties to even) |
| `median.dfy` | `Median` | `sorted(buffer)[len(buffer) // 2]`: the element at index n/2 of a sorted copy |
| `overlay_camera.dfy` | `OverlayCamera` | the filtering camera state: targets, gains, smoothing, calibration, idle detection |
| `overlay_listener.dfy` | `OverlayListener` | layout B |
| `legacy_listener.dfy` | `LegacyListener` | layout A, driving the filtering camera state |
| `camera.dfy` | `Camera` | the passthrough camera state |
| `listener.dfy` | `Listener` | layout C |

Floating point is modelled as `real`, and the wall clock as a `now: real`
parameter. The tilt calibration is specified by a pure transition function,
`OverlayCamera.Observe`, over a `Calibration` value. The class method
`MarkFreedReceived` is proved to perform exactly that transition on its fields.

Two consequences of the code:

* When the calibration window closes, the code keeps the collected tilt
  readings in the buffer. It sets the offset, clears the collecting flag and
  clears the start time.
* The filtered pan and tilt cannot leave their clamp ranges. The target is
  clamped and each smoothing step is a convex combination of the current
  value and the target, so an in-range camera stays in range
  (`UpdateFromFreed`).

## Model

| member | source | states |
|---|---|---|
| BigEndian.Unsigned | RTSP_OVERLAY/freed_listener.py:14 | an unsigned big-endian byte string denotes a natural below 256^n |
| BigEndian.Signed | RTSP_OVERLAY/freed_listener.py:12-13 | a signed big-endian value is negative exactly when the first byte has its top bit set; it lies in [-256^n/2, 256^n/2); the empty string denotes 0 |
| BigEndian.Unsigned24 | RTSP_OVERLAY/freed_listener.py:14 | a three-byte unsigned value is b0·65536 + b1·256 + b2 |
| BigEndian.Signed24 | freed_listener.py:26-28 | a three-byte signed value is the unsigned value, minus 2^24 when it is at least 0x800000, and always fits in 24 bits |
| BigEndian.Degrees | RTSP_OVERLAY/freed_listener.py:16-17 | `raw / 32768 * scale`: with a positive scale, the degrees have the sign of the raw value, are zero only for raw 0, and for a 24-bit raw value lie in [-256·scale, 256·scale) |
| BigEndian.Slice | freed_listener.py:26-31 | Python slicing: the ordinary sub-sequence when in bounds, truncated at the end of the buffer otherwise, never failing |
| BigEndian.UnsignedEncode24 | RTSP_OVERLAY/freed_listener.py:14 | decoding the 3-byte encoding of any 24-bit natural gives it back |
| BigEndian.EncodeUnsigned24 | RTSP_OVERLAY/freed_listener.py:14 | every 3 bytes are the encoding of their unsigned value (the decoder is a bijection) |
| BigEndian.SignedEncode24 | RTSP_OVERLAY/freed_listener.py:12-13 | decoding the two's-complement encoding of any signed 24-bit integer gives it back |
| BigEndian.EncodeSigned24Inverse | RTSP_OVERLAY/freed_listener.py:12-13 | every 3 bytes are the two's-complement encoding of their signed value |
| Bits.ShiftLeft | LEGACY/v1/FreeD_Virtual_World/freed_listener.py:20 | `a << k` is zero exactly when a is, and never below a |
| Bits.Or | LEGACY/v1/FreeD_Virtual_World/freed_listener.py:20 | `a \| b` is at least each operand and at most their sum |
| Bits.ShiftIsProduct | LEGACY/v1/FreeD_Virtual_World/freed_listener.py:20 | `a << k` equals a·2^k |
| Bits.OrDisjoint | LEGACY/v1/FreeD_Virtual_World/freed_listener.py:20 | or-ing a value below 2^k into a value shifted by k is addition |
| Bits.OrShifted | LEGACY/v1/FreeD_Virtual_World/freed_listener.py:20 | shifting distributes over bitwise or |
| PyRound.RoundHalfEven | RTSP_OVERLAY/camera_state.py:65-66 | Python `round`: the result is within 0.5 of x and, on a tie, even |
| PyRound.RoundHalfEvenUnique | RTSP_OVERLAY/camera_state.py:65-66 | any integer within 0.5 of x that is even on a tie is the rounding of x |
| PyRound.RoundWithin | RTSP_OVERLAY/camera_state.py:62-66 | rounding a value between two integers stays between them |
| Median.SortedCopy | RTSP_OVERLAY/camera_state.py:49 | `sorted` by insertion: the copy has as many elements as the samples (order and permutation in `SortedCopySorts`) |
| Median.InsertSorted | RTSP_OVERLAY/camera_state.py:49 | inserting into a sorted list keeps it sorted and adds exactly that element |
| Median.SortedCopySorts | RTSP_OVERLAY/camera_state.py:49 | the sorted copy is sorted and a permutation of the samples |
| Median.UpperMedian | RTSP_OVERLAY/camera_state.py:49 | the high median is one of the samples |
| Median.MedianSplitsSamples | RTSP_OVERLAY/camera_state.py:49 | at most ⌊n/2⌋ samples lie strictly below the high median and at most n-1-⌊n/2⌋ strictly above it |
| OverlayCamera.Clamp | RTSP_OVERLAY/camera_state.py:62-63 | the result lies in [lo, hi], equals v when v is inside, and equals the nearer bound otherwise |
| OverlayCamera.TargetPan | RTSP_OVERLAY/camera_state.py:62-65 | the pan target is within ±180°, on the 0.25° grid and within 0.125° of the clamped pan; a pan exactly halfway between two steps goes to the even quarter degree, as Python's `round` does |
| OverlayCamera.TargetTilt | RTSP_OVERLAY/camera_state.py:59-66 | the tilt target (after the calibration offset, when enabled) is within -30°..90°, on the 0.5° grid and within 0.25° of the clamped tilt; a tilt exactly halfway between two steps goes to the even half degree |
| OverlayCamera.CorrectedTilt | RTSP_OVERLAY/camera_state.py:59-60 | the offset is subtracted only while auto-calibration is on; the tilt is unchanged exactly when calibration is off or the offset is 0 |
| OverlayCamera.TargetsFixOnGrid | RTSP_OVERLAY/camera_state.py:62-66 | an in-range pan or tilt already on its grid is its own target |
| OverlayCamera.TargetsRoundTiesToEven | RTSP_OVERLAY/camera_state.py:65-66 | pan 5.625 gives target 5.5 (not 5.75) and tilt 11.25 gives target 11.0 (not 11.5) |
| OverlayCamera.ZoomRatio | RTSP_OVERLAY/camera_state.py:68-69 | the zoom ratio lies in [0, 1], is zoom/4194304 inside the range, 0 below it and 1 above it |
| OverlayCamera.TiltGain | RTSP_OVERLAY/camera_state.py:68-72 | the tilt gain is 0.25 - 0.2·ratio and lies in [0.05, 0.25] |
| OverlayCamera.TiltGainNonIncreasing | RTSP_OVERLAY/camera_state.py:68-72 | more zoom never gives a larger tilt gain |
| OverlayCamera.Smooth | RTSP_OVERLAY/camera_state.py:75-77 | one smoothing step shrinks the gap to the target by the factor (1 - gain) |
| OverlayCamera.SmoothBetween | RTSP_OVERLAY/camera_state.py:75-77 | with a gain in [0, 1] the new value lies between the current value and the target |
| OverlayCamera.SmoothingConverges | RTSP_OVERLAY/camera_state.py:75-77 | after n steps toward a fixed target, the gap is (1 - gain)^n times the initial gap, and the value stays between start and target |
| OverlayCamera.Observe | RTSP_OVERLAY/camera_state.py:31-52 | the calibration transition keeps the start time set while collecting; the offset changes only when a collection window closes, and then to one of the collected readings |
| OverlayCamera.FirstArrivalStartsClock | RTSP_OVERLAY/camera_state.py:38-40 | the first packet records its time as the start time and changes nothing else |
| OverlayCamera.SettlingOpensWindow | RTSP_OVERLAY/camera_state.py:38-43 | after 3 s of settling, collection begins with an empty buffer and the start time kept; before that nothing changes |
| OverlayCamera.CollectingAppendsThenCloses | RTSP_OVERLAY/camera_state.py:46-52 | while collecting, each reading is appended; once more than 8 s have passed since the start the offset becomes the high median, which splits the buffer |
| OverlayCamera.MedianOfExample | RTSP_OVERLAY/camera_state.py:49 | the high median of the readings 10, 20, 30, 20, 10 is 20 |
| OverlayCamera.CalibrationRound | RTSP_OVERLAY/camera_state.py:31-52 | packets at 0 s and 4 s start the clock and open the window; raw tilts 10, 20, 30, 20 at 5–8 s are collected with the offset still 0; the reading at 9 s closes the window with offset 20 and clears the start time |
| OverlayCamera.CameraState.constructor | RTSP_OVERLAY/camera_state.py:4-23 | the initial position, angles, raw values, calibration state (auto-calibration on, no start time, empty buffer, offset 0) and times |
| OverlayCamera.Stale | RTSP_OVERLAY/camera_state.py:26 | stale means more than the timeout has passed since the last packet; with a non-negative timeout, a stale camera's last packet lies in the past |
| OverlayCamera.StaleStaysStale | RTSP_OVERLAY/camera_state.py:26 | without a new packet, a camera that is stale at one time is stale at every later time |
| OverlayCamera.CameraState.ShouldIdle | RTSP_OVERLAY/camera_state.py:25-29 | idle exactly when more than the timeout has passed since the last packet; the idle start moves to now only when idle and the idle phase is older than the timeout; nothing else changes |
| OverlayCamera.CameraState.MarkFreedReceived | RTSP_OVERLAY/camera_state.py:31-52 | records the packet time and, when auto-calibration is on, performs exactly the `Observe` transition on the calibration fields; pose and position are unchanged |
| OverlayCamera.CameraState.UpdateFromFreed | RTSP_OVERLAY/camera_state.py:54-77 | stores the raw values, moves pan by gain 0.15 toward its target, tilt by the zoom-dependent gain toward its target, zoom by 0.15; an in-range camera stays in range; calibration and position are unchanged |
| OverlayListener.Decode | RTSP_OVERLAY/freed_listener.py:7-17 | a packet is rejected exactly when shorter than 26 bytes; otherwise the raw fields fit 24 bits and pan, tilt are within ±46080° and ±30720° |
| OverlayListener.DecodedDegrees | RTSP_OVERLAY/freed_listener.py:12-17 | for every packet of at least 26 bytes, pan is the signed value of bytes 3..5 times 180/32768 and tilt the signed value of bytes 6..8 times 120/32768 |
| OverlayListener.DecodeEncoded | RTSP_OVERLAY/freed_listener.py:12-17 | decoding a packet built from given raw fields returns those fields, with pan raw/32768·180 and tilt raw/32768·120 degrees |
| OverlayListener.DecodeReadsOnlyFields | RTSP_OVERLAY/freed_listener.py:12-14 | the decoder depends only on bytes 3..8 and 21..23 |
| OverlayListener.ExamplePacket | RTSP_OVERLAY/freed_listener.py:12-21 | raw pan 16384, tilt 8192, zoom 0x200000 decode to 90° and 30°; one update from rest moves pan to 13.5, tilt to 4.5 and zoom to 314572.8 |
| OverlayListener.ParseFreedPacket | RTSP_OVERLAY/freed_listener.py:5-24 | a short packet changes nothing; otherwise the camera is updated from the decoded values and then the arrival is marked with that packet's raw tilt |
| LegacyListener.PackZoom | LEGACY/v1/FreeD_Virtual_World/freed_listener.py:20 | `(b21 << 16) \| (b22 << 8) \| b23` is the unsigned big-endian value of the three bytes, below 2^24 |
| LegacyListener.PackZoomIsBigEndian | LEGACY/v1/FreeD_Virtual_World/freed_listener.py:17-20 | the shift-and-or expression equals the unsigned big-endian value of bytes 21..23, below 2^24 |
| LegacyListener.Decode | LEGACY/v1/FreeD_Virtual_World/freed_listener.py:7-24 | a packet is rejected exactly when shorter than 26 bytes; otherwise pan and tilt fit 24 bits and are within ±46080° and ±23040° |
| LegacyListener.DecodedDegrees | LEGACY/v1/FreeD_Virtual_World/freed_listener.py:13-24 | for every packet of at least 26 bytes, pan is the signed value of bytes 2..4 times 180/32768 and tilt the signed value of bytes 5..7 times 90/32768 |
| LegacyListener.DecodedZoom | LEGACY/v1/FreeD_Virtual_World/freed_listener.py:17-20 | the decoded zoom is the unsigned value of bytes 21..23 |
| LegacyListener.DecodeEncoded | LEGACY/v1/FreeD_Virtual_World/freed_listener.py:13-24 | decoding a packet built from given raw fields returns those fields, with pan raw/32768·180 and tilt raw/32768·90 degrees |
| LegacyListener.DecodeReadsOnlyFields | LEGACY/v1/FreeD_Virtual_World/freed_listener.py:13-20 | the decoder depends only on bytes 2..7 and 21..23 |
| LegacyListener.ParseFreedPacket | LEGACY/v1/FreeD_Virtual_World/freed_listener.py:5-31 | a short packet changes nothing; otherwise only the camera's raw inputs and filtered pan, tilt and zoom are updated; calibration, the auto-calibration flag, times and position are untouched |
| Listener.Decode | freed_listener.py:25-31 | with at least 18 bytes, the angles and positions fit 24 bits and the positions lie within ±8388.608 m |
| Listener.DecodeEncoded | freed_listener.py:26-31 | decoding the 18-byte encoding of given fields, followed by any trailer, returns them (positions in metres) |
| Listener.DecodeReadsFirst18 | freed_listener.py:26-31 | only the first 18 bytes of a datagram matter |
| Listener.ParseFreedData | freed_listener.py:25-38 | the camera's six fields become exactly the decoded pose |
| Listener.HandleDatagram | freed_listener.py:14-22 | a datagram shorter than 29 bytes changes nothing; otherwise the camera takes its decoded pose |
| Camera.CameraState.constructor | camera_state.py:2-8 | the camera starts at (0, -10, 2) with pan, tilt and zoom 0 |
| Camera.CameraState.UpdateFromFreed | camera_state.py:10-13 | pan, tilt and zoom are taken verbatim and the position is unchanged |

## Left out

- UDP sockets, the receive threads, the `listener_active` flag and starting and stopping the listeners: I/O and concurrency. A datagram is a parameter.
- The 1024-byte limit of `recvfrom`: the model accepts datagrams of any length.
- The locking between the listener thread and the renderer: concurrency is not modelled.
- Logging and console output.
- The `try`/`except` around decoding: on a byte string that passed the length gate, none of the modelled operations can raise.
- IEEE floating point: all arithmetic is over `real`. Rounding error in the scaling and smoothing is not modelled.
- `time.time()`: each operation takes the current time as a parameter `now`. The source reads the clock separately in each call; a packet is modelled with one timestamp per call.
- LEGACY/v1/FreeD_Virtual_World/camera_state.py is not part of this model. The layout A decoder drives the filtering camera state and calls only its update.
- The renderers, the RTSP streaming, the scene manager (which also overwrites pan and tilt for its own animation), the world builder and the mesh converters are not part of this model.
- OverlayCamera.CameraState.UpdateFromFreed: keeps pan and tilt in range only when they start in range, because other code may write these fields directly.
- OverlayListener.ParseFreedPacket: returns the decode result, which the source only logs.
- LegacyListener.ParseFreedPacket: returns the decode result, which the source only logs.
