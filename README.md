# FLL (face locked loop): tracker, Maestro servo protocol and time arithmetic in Dafny

FLL points a camera at a face using two hobby servos (pan and tilt) driven
by a Pololu Maestro servo controller. This project models the three parts of
the C code that carry checkable logic, and proves what each promises.

- **The tracking stage** (`facelockedloop/track.c`, module `Track`).
  - The tracker record (`struct tracker_params`, with per-axis
    `servo_params` and statistics) lives in the `params` field of the class
    `Track.Tracker`, which the methods update in place.
  - The servo library is an abstract device, `Track.ServoBus`. It logs every
    call with the value it answered, and that value is arbitrary.
  - `Track.TrackRun` states one `track_run` as a function of the record and
    the device's answers. `Track.Tracker.Run` is the step-by-step method,
    proved equal to it.
- **The Maestro compact serial protocol** (`servolib/servoio.c`, module
  `Maestro`). It follows section 5.e, "Serial Servo Commands", of the Pololu
  Maestro Servo Controller User's Guide.
  - The frame builders are functions over unsigned bytes.
  - `Maestro.Parse` states how the controller reads a byte stream. Every
    data byte, the channel byte included, must have its high bit clear.
    `Maestro.ParseWire` proves by induction that any sequence of frames with
    channels below 128 and 14-bit targets reads back as the commands written.
  - servoio.c writes the channel byte without a range check. A channel whose
    low byte is 128 or more therefore makes the frame unreadable: the
    controller would take that byte for a command byte. The frame contracts
    say so.
  - Replies are decoded, and `write()`/`read()` results are mapped to status
    codes.
  - The controller behind `/dev/ttyACM<id>` is the class `Maestro.Controller`.
    Its field `frames` logs every frame handed to `write()`. Its field
    `delivered` keeps only the frames whose `write()` accepted bytes, which
    are what reaches the controller. The outcome of opening the device, and
    of each `write()`/`read()`, is a parameter.
- **Time arithmetic** (`include/time_utils.h`, module `TimeUtils`).
  - `struct timespec` and `struct timeval` are value datatypes.
  - A helper that writes `*r` returns the new value. When `*r` is also read
    (the add helpers), the old value is passed in.
  - All of these helpers read their inputs before any write that could
    change them, so this agrees with the C code even when `r` aliases an
    input.
  - The static `timespec_substract(diff, start, end)` copied into three test
    programs is modelled once per program: modules `TestDisplay`,
    `TestBgr2Gray` and `TestHaar`.

C semantics the model writes out explicitly:
- `(char)v` on the wire is `v % 256`.
- `v & 0x7f` is `v % 128`.
- `>> 7` is an arithmetic shift, so `/ 128` in Dafny's flooring division.
- C's `/` truncates toward zero (`TimeUtils.TruncDiv`).
- An `unsigned long` result is taken modulo 2^64 (`TimeUtils.ToULong`).

The code does not compile as written in several places. The model follows
the evident intent:
- `track.c` uses an undeclared `tracker->dev` and `p` (lines 19, 53). The
  model uses the record's `dev` and the record itself (`&t->params`, as
  line 38 passes).
- `track.c` also reads `t->dev` (lines 41, 47, 86, 111), which is not a
  field of `struct tracker` (facelockedloop/track.h:25-30). The model uses
  the record's `dev` there too.
- `track_get_max_abse` returns `max(panabserr, tiltabserr)` (line 137). Both
  names are undeclared, and no file here defines `max`. The model reads them
  as the `pabse` and `tabse` computed at lines 131-135, and reads `max` as
  the larger of two ints.
- `track.c` calls `servoio_set_pulse` with two arguments (lines 73, 101). The
  model passes the device id as the first argument.
- Line 102 sends `t->tilt.pan_tgt`. The model sends `tilt_tgt`, as lines 100,
  109 and 112 use.
- `track.c` uses `poserr` and `home_position` in `servo_params` (lines 97,
  122, 62-63), and `pan_stats`/`tilt_stats` under `params`. The headers do
  not declare them, so they are fields of the model's records.
- In `time_utils.h`, misspelled or undefined constants take their evident
  values:
  - `FLL_MICROSECONS_IN_SECOND` (line 47) is 1,000,000.
  - `NANOSECONS_IN_SECOND` (line 99) is 1,000,000,000.
  - `FLL_MILISECONDS_IN_SECOND` (lines 58, 112) is 1,000.
  - `FLL_MICROSECONDS_IN_MILISECOND` (line 59) is 1,000.
  - `FLL_NANOSECONDS_IN_MICROSECOND` (line 107) is 1,000.
- `timespec_substract` is declared `void` but returns the sign flag (line
  89), so the model returns the flag.
- `timespec_usecs` is defined twice (lines 51 and 104). The first, which takes
  a `struct timeval`, is `TimeUtils.TimevalUsecs`.
- `timeval_zero` takes a `struct timespec` but writes `tv_usec` (lines
  11-15). The model gives it the `struct timeval` its name and body mean.

Two behaviours are modelled as written:
- `__servoio_write_speed` and `__servoio_write_accel` send command byte
  0x84. Their comments document Set Speed (0x87) and Set Acceleration
  (0x89), but the frames are byte-identical to Set Target frames.
  `Maestro.ConfigureAsSeenByController` proves what follows: in
  `servoio_configure` the controller receives the speed and acceleration
  values as pulse targets.
- `track_teardown` assigns the tilt home position to itself (line 63), so
  the tilt home is unchanged.

## Model

| member | source | states |
|---|---|---|
| TimeUtils.TimevalZero | include/time_utils.h:11-15 | the result is a normalised timeval of total value 0 |
| TimeUtils.TimevalSubtract | include/time_utils.h:17-38 | total of the result is t1-t2 when t1 has more seconds, else t2-t1; normalised inputs give a normalised result; the flag is set iff the total is negative, iff the seconds are equal and t1 has more microseconds; otherwise the total is the absolute difference |
| TimeUtils.TimevalAdd | include/time_utils.h:40-49 | the total grows by exactly t's total; normalised inputs give a normalised sum |
| TimeUtils.TimevalUsecs | include/time_utils.h:51-54 | the unsigned long result is the timeval's total microseconds whenever that fits in 64 bits |
| TimeUtils.TimevalMsecs | include/time_utils.h:56-60 | for a normalised timeval the result is its total microseconds floored to milliseconds, when that fits in 64 bits |
| TimeUtils.TimespecZero | include/time_utils.h:63-67 | the result is a normalised timespec of total value 0 |
| TimeUtils.TimespecSubstract | include/time_utils.h:69-90 | total of the result is t1-t2 when t1 has more seconds, else t2-t1; normalised inputs give a normalised result; the flag is set iff the total is negative, iff the seconds are equal and t1 has more nanoseconds; otherwise the total is the absolute difference |
| TimeUtils.TimespecAdd | include/time_utils.h:92-101 | the total grows by exactly t's total; normalised inputs give a normalised sum |
| TimeUtils.TimespecUsecs | include/time_utils.h:104-108 | for a normalised timespec the result is its total nanoseconds floored to microseconds, when that fits in 64 bits |
| TimeUtils.TimespecMsecs | include/time_utils.h:110-114 | for a normalised timespec the result is its total nanoseconds floored to milliseconds, when that fits in 64 bits |
| TimeUtils.MsecsAreUsecsOverThousand | include/time_utils.h:104-114 | the millisecond conversion is the microsecond conversion floored by 1000 |
| TestDisplay.TimespecSubstract | facelockedloop/test-display.c:18-29 | diff's total is end-start (no absolute value); a borrow happens iff end has fewer nanoseconds; without one the result is the fieldwise difference; normalised inputs give a normalised diff, non-negative when end >= start |
| TestBgr2Gray.TimespecSubstract | facelockedloop/test-BGR2GRAY.c:18-29 | as TestDisplay.TimespecSubstract, for this program's copy |
| TestHaar.TimespecSubstract | facelockedloop/test-haar.c:19-30 | as TestDisplay.TimespecSubstract, for this program's copy |
| Maestro.SetTargetFrame | servolib/servoio.c:108-116 | the frame is [0x84, channel, low 7 bits, high 7 bits]; both data bytes are below 128 and recombine to the pulse modulo 16384; with a channel below 128 and 0 <= pulse < 16384 the controller reads a Set Target of that pulse; a channel byte of 128 or more makes the frame unreadable |
| Maestro.SevenBitHalves | servolib/servoio.c:115-116 | the low and high 7-bit data bytes recombine to the value modulo 16384, for every int value |
| Maestro.SpeedFrame | servolib/servoio.c:137-145 | the speed frame is byte-identical to a Set Target frame of the speed value, and with a channel below 128 the controller reads it as one |
| Maestro.AccelFrame | servolib/servoio.c:171-179 | the acceleration frame is byte-identical to a Set Target frame of the acceleration value, and with a channel below 128 the controller reads it as one |
| Maestro.GetPositionFrame | servolib/servoio.c:80-87 | the request is the two bytes [0x90, channel], read as a Get Position of that channel when the channel is below 128, and unreadable otherwise |
| Maestro.GetErrorsFrame | servolib/servoio.c:200-206 | the request is the single byte 0xa1, read as Get Errors |
| Maestro.GoHomeFrame | servolib/servoio.c:224-229 | the request is the single byte 0xa2 with no channel byte, read as Go Home |
| Maestro.ParseFrameThenRest | servolib/servoio.c:108-116 | a frame followed by any bytes is read as its command followed by whatever those bytes read as |
| Maestro.ParseWire | servolib/servoio.c:80-234 | any sequence of frames servolib writes, with channels below 128 and 14-bit targets, reads back as exactly the commands written |
| Maestro.ConfigureAsSeenByController | servolib/servoio.c:269-305 | with a channel below 128, the four frames of servoio_configure reach the controller as four Set Target commands: 0, speed, accel, pulse |
| Maestro.FlattenAppend | servolib/servoio.c:278-299 | frames written one after another form the concatenation of their bytes |
| Maestro.ParseAppend | servolib/servoio.c:278-299 | two readable byte streams sent back to back read as the first's commands followed by the second's |
| Maestro.DecodeReply | servolib/servoio.c:92-95 | the reply decodes to lo + 256*hi, which lies in [0, 65535], with lo its low byte and hi its high byte |
| Maestro.DecodeReplySignedChar | servolib/servoio.c:83-95 | with a signed char, each byte with its high bit set lowers the decoded value by 256 or 65536 from the unsigned decode |
| Maestro.SignedCharMisreadsPosition4000 | servolib/servoio.c:83-95 | the reply bytes 0xa0 0x0f mean 4000, and a signed-char decode yields 3744 |
| Maestro.FailureCode | servolib/servoio.c:89-90 | a system call returning 0 gives -EINVAL; a negative return gives -errno |
| Maestro.WriteStatus | servolib/servoio.c:117-121 | a frame write that accepted bytes gives 0; a failed one gives exactly -errno, or -EINVAL when write() returned 0 |
| Maestro.QueryStatus | servolib/servoio.c:88-95 | a failed write gives its code without reading; a failed read gives its code; otherwise the decoded reply; the status is negative iff either call failed |
| Maestro.Controller.ReadPos | servolib/servoio.c:80-96 | appends [0x90, channel] to the frames written; returns the write or read failure code, or the decoded reply; the frame reaches the controller only if write() accepted bytes |
| Maestro.Controller.WritePulse | servolib/servoio.c:108-122 | appends the Set Target frame; returns 0 or the write failure code; the frame reaches the controller only if write() accepted bytes |
| Maestro.Controller.WriteSpeed | servolib/servoio.c:137-151 | appends the speed frame; returns 0 or the write failure code; the frame reaches the controller only if write() accepted bytes |
| Maestro.Controller.WriteAccel | servolib/servoio.c:171-185 | appends the acceleration frame; returns 0 or the write failure code; the frame reaches the controller only if write() accepted bytes |
| Maestro.Controller.ReadError | servolib/servoio.c:200-214 | appends [0xa1]; returns the write or read failure code, or the decoded reply; the frame reaches the controller only if write() accepted bytes |
| Maestro.Controller.ResetAll | servolib/servoio.c:224-234 | appends [0xa2]; returns 0 or the write failure code; the frame reaches the controller only if write() accepted bytes |
| Maestro.Controller.SetAccel | servolib/servoio.c:236-245 | an open failure is returned unchanged with nothing written; otherwise one acceleration frame is written and its status returned, the frame reaching the controller only if write() accepted bytes |
| Maestro.Controller.SetSpeed | servolib/servoio.c:247-256 | an open failure is returned unchanged with nothing written; otherwise one speed frame is written and its status returned, the frame reaching the controller only if write() accepted bytes |
| Maestro.Controller.SetPulse | servolib/servoio.c:258-267 | an open failure is returned unchanged with nothing written; otherwise one Set Target frame is written and its status returned, the frame reaching the controller only if write() accepted bytes |
| Maestro.Controller.Configure | servolib/servoio.c:269-305 | an open failure is returned unchanged with nothing written; otherwise pulse 0, speed, accel and pulse frames are written to the channel in that order, and only the last write's status is returned; of these, only the frames whose write was accepted reach the controller; when all four are accepted, a controller that could read what it had received before then reads four more Set Target commands: 0, speed, accel, pulse |
| Maestro.Controller.GetPosition | servolib/servoio.c:307-317 | an open failure is returned unchanged with nothing written; otherwise one Get Position request and its query status, the frame reaching the controller only if write() accepted bytes |
| Maestro.Controller.GetAnyError | servolib/servoio.c:319-329 | an open failure is returned unchanged with nothing written; otherwise one Get Errors request and its query status, the frame reaching the controller only if write() accepted bytes |
| Maestro.Controller.AllGoHome | servolib/servoio.c:331-341 | an open failure is returned unchanged with nothing written; otherwise one Go Home frame and its write status, the frame reaching the controller only if write() accepted bytes |
| Track.TrackRun | facelockedloop/track.c:67-126 | no device call iff both axes are on target, and then the result is 0 and the record unchanged; a skipped axis keeps its fields and statistics; a processed axis adopts its target iff the pulse was accepted; poserr is target minus read-back and is folded into min/max; pan min_position is the minimum with the new position, and tilt keeps none; the result is that of the last pulse sent; the calls are set-pulse then get-position per processed axis, pan first; nothing else changes |
| Track.RunKeepsStatisticsBracketed | facelockedloop/track.c:83-97 | after a run each axis' min_poserr <= poserr <= max_poserr and pan min_position <= position still hold |
| Track.AcceptedRunSettles | facelockedloop/track.c:72-81 | once both pulses of a run are accepted, the next run makes no device call and returns 0 |
| Track.MaxAbse | facelockedloop/track.c:128-138 | the result is one of the four recorded error extremes and no smaller than any of them |
| Track.Tracker.Initialize | facelockedloop/track.c:15-32 | sends go-home, then reads pan and tilt positions; both positions become the read-back values, nothing else changes, and the go-home result is returned |
| Track.Tracker.Teardown | facelockedloop/track.c:34-65 | the initialize calls, configure(channel, 0, 0, 0) for pan then tilt, and two position reads are issued in that order; positions become the last read-backs, pan home becomes the pan position, tilt home is unchanged; returns 0 |
| Track.Tracker.Run | facelockedloop/track.c:67-126 | the new record, the result and the calls issued are those of TrackRun on the old record and the device's answers |
| Track.Tracker.CorrectPan | facelockedloop/track.c:72-97 | the pan block: sends the pulse, then reads back; the record becomes the pan correction of the two answers |
| Track.Tracker.CorrectTilt | facelockedloop/track.c:99-122 | the tilt block: sends the pulse, then reads back; the record becomes the tilt correction of the two answers |

## Left out

- Opening the device (`__servoio_open`: the `/dev/ttyACM%d` path, `open`, termios flags and baud rate) and `close`. The descriptor or error that opening produced is a parameter, and closing has no modelled effect.
- Maestro.Controller.Configure: states what the controller reads only when all four writes are accepted. When some are refused, `delivered` says which frames arrived, but no reading of them is stated.
- Maestro.Controller.ReadPos: reads the reply bytes as unsigned char (the corrected `Maestro.DecodeReply`). Where plain char is signed, the C code returns `Maestro.DecodeReplySignedChar` instead (see "## Findings").
- Maestro.Controller.ReadError: reads the reply bytes as unsigned char, as ReadPos does.
- Maestro.Controller.GetPosition: returns ReadPos's unsigned reading of the reply.
- Maestro.Controller.GetAnyError: returns ReadError's unsigned reading of the reply.
- Partial reads and writes: a `write()` or `read()` that returns a positive count is taken to have moved the whole frame or reply.
- The servo device behind the tracker is unconstrained. Every answer of `Track.ServoBus` is arbitrary, and no motion or settling of the hardware is modelled.
- Track.Tracker.Initialize: works on the tracker's own record. The C function takes the record through a separate pointer, which `track_teardown` sets to the tracker's own.
- Track.TrackRun: values are unbounded integers. The 32-bit `int` fields and the wrap-around of `target - readback` are not modelled.
- TimeUtils.TimevalSubtract: seconds and sub-second fields are unbounded integers, so `time_t` and `long` overflow is not modelled. The same holds for TimespecSubstract, TimevalAdd, TimespecAdd and the three test-program copies.
- The `printf`/`printdbg` logging in track.c and servoio.c, and `track_print_stats`, which only returns 0.
- OpenCV capture, detection and display, the pipeline scheduler, the test programs' main loops, and `detect_store`. None of these is part of this model.

## Findings

| source | as written | input that shows it | evidently intended | confidence | as-written member | corrected member |
|---|---|---|---|---|---|---|
| servolib/servoio.c:83-95 (and 203-213) | the reply is kept in `char buf[2]` and decoded as `buf[0] + (buf[1] << 8)`; where plain char is signed (x86), bytes of 128 or more are sign-extended | reply bytes 0xa0 0x0f, the controller's answer for position 4000 (1000 us), decode to 3744 | the reply bytes read as unsigned: lo + 256*hi, in [0, 65535] | high on platforms where char is signed, none where it is unsigned; not executed | Maestro.DecodeReplySignedChar, Maestro.SignedCharMisreadsPosition4000 | Maestro.DecodeReply |
