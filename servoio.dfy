/**
 * Model of servolib/servoio.c: the frames servolib writes to a Pololu Maestro
 * servo controller in its compact serial protocol (section 5.e, "Serial Servo
 * Commands", of the Pololu Maestro Servo Controller User's Guide), the
 * decoding of the controller's two-byte replies, and the public wrappers that
 * open the device file, write one or more frames and return a status.
 *
 * The operating system is a set of parameters: the descriptor (or negative
 * error) that opening /dev/ttyACM<id> produced, and for every write() and
 * read() its return value and the errno it left. The controller is an object
 * that records every frame handed to write().
 */
module Maestro {

  newtype byte = x: int | 0 <= x < 256

  datatype Option<T> = None | Some(value: T)

  /** Linux's EINVAL. */
  const EINVAL: int := 22

  const SetTargetCmd: byte := 0x84
  const GetPositionCmd: byte := 0x90
  const GetErrorsCmd: byte := 0xa1
  const GoHomeCmd: byte := 0xa2

  /** The commands of the compact protocol that servolib can produce. */
  datatype Command =
    | SetTarget(channel: byte, target: int)
    | GetPosition(channel: byte)
    | GetErrors
    | GoHome

  type Frame = seq<byte>

  /** `(char)v` as it leaves on the wire: the low 8 bits of v. */
  function ToByte(v: int): byte
  {
    (v % 256) as byte
  }

  /** `v & 0x7f` on a two's-complement int: the low 7 bits, for negative v too. */
  function Low7(v: int): byte
  {
    (v % 128) as byte
  }

  /** `(v >> 7) & 0x7f`, with `>>` an arithmetic (flooring) shift. */
  function High7(v: int): byte
  {
    ((v / 128) % 128) as byte
  }

  /** The two 7-bit halves of a value recombine to its low 14 bits. */
  lemma SevenBitHalves(v: int)
    ensures Low7(v) as int + 128 * High7(v) as int == v % 16384
  {
    var q, r := v / 128, v % 128;
    var h, l := q / 128, q % 128;
    assert v == 16384 * h + (128 * l + r);
    assert 0 <= 128 * l + r < 16384;
  }

  /** Set Target: the pulse width split into two 7-bit data bytes. */
  function SetTargetFrame(channel: int, pulse: int): (f: Frame)
    ensures |f| == 4 && f[0] == SetTargetCmd && f[1] == ToByte(channel)
    ensures f[2] < 128 && f[3] < 128
    ensures f[2] as int + 128 * f[3] as int == pulse % 16384
    ensures ToByte(channel) < 128 && 0 <= pulse < 16384 ==>
              Parse(f) == Some([SetTarget(ToByte(channel), pulse)])
    ensures ToByte(channel) >= 128 ==> Parse(f) == None
  {
    SevenBitHalves(pulse);
    var f := [SetTargetCmd, ToByte(channel), Low7(pulse), High7(pulse)];
    assert f[4..] == [] && Parse(f[4..]) == Some([]);
    assert ToByte(channel) < 128 && 0 <= pulse < 16384 ==>
      Parse(f) == Prepend(SetTarget(ToByte(channel), pulse), Parse(f[4..])) &&
      [SetTarget(ToByte(channel), pulse)] + [] == [SetTarget(ToByte(channel), pulse)];
    f
  }

  /**
   * The frame written for a speed limit. Its comment documents command byte
   * 0x87, but the code writes 0x84, so the frame is a Set Target frame.
   */
  function SpeedFrame(channel: int, speedLimit: int): (f: Frame)
    ensures f == SetTargetFrame(channel, speedLimit)
    ensures ToByte(channel) < 128 && 0 <= speedLimit < 16384 ==>
              Parse(f) == Some([SetTarget(ToByte(channel), speedLimit)])
  {
    [0x84, ToByte(channel), Low7(speedLimit), High7(speedLimit)]
  }

  /**
   * The frame written for an acceleration limit. Its comment documents
   * command byte 0x89, but the code writes 0x84: again a Set Target frame.
   */
  function AccelFrame(channel: int, accelLimit: int): (f: Frame)
    ensures f == SetTargetFrame(channel, accelLimit)
    ensures ToByte(channel) < 128 && 0 <= accelLimit < 16384 ==>
              Parse(f) == Some([SetTarget(ToByte(channel), accelLimit)])
  {
    [0x84, ToByte(channel), Low7(accelLimit), High7(accelLimit)]
  }

  /** Get Position: command byte and channel. */
  function GetPositionFrame(channel: int): (f: Frame)
    ensures |f| == 2 && f[0] == GetPositionCmd && f[1] == ToByte(channel)
    ensures ToByte(channel) < 128 ==> Parse(f) == Some([GetPosition(ToByte(channel))])
    ensures ToByte(channel) >= 128 ==> Parse(f) == None
  {
    var f := [GetPositionCmd, ToByte(channel)];
    assert f[2..] == [] && Parse(f[2..]) == Some([]);
    assert ToByte(channel) < 128 ==>
      Parse(f) == Prepend(GetPosition(ToByte(channel)), Parse(f[2..])) &&
      [GetPosition(ToByte(channel))] + [] == [GetPosition(ToByte(channel))];
    f
  }

  /** Get Errors: a lone command byte, no channel. */
  function GetErrorsFrame(): (f: Frame)
    ensures |f| == 1
    ensures Parse(f) == Some([GetErrors])
  {
    var f := [GetErrorsCmd];
    assert f[1..] == [] && Parse(f[1..]) == Some([]);
    assert Parse(f) == Prepend(GetErrors, Parse(f[1..])) && [GetErrors] + [] == [GetErrors];
    f
  }

  /** Go Home: a lone command byte, no channel. */
  function GoHomeFrame(): (f: Frame)
    ensures |f| == 1
    ensures Parse(f) == Some([GoHome])
  {
    var f := [GoHomeCmd];
    assert f[1..] == [] && Parse(f[1..]) == Some([]);
    assert Parse(f) == Prepend(GoHome, Parse(f[1..])) && [GoHome] + [] == [GoHome];
    f
  }

  /** The frame servolib writes for a command. */
  function Encode(c: Command): Frame
  {
    match c
    case SetTarget(channel, target) => SetTargetFrame(channel as int, target)
    case GetPosition(channel) => GetPositionFrame(channel as int)
    case GetErrors => GetErrorsFrame()
    case GoHome => GoHomeFrame()
  }

  /** The byte stream for a sequence of commands. */
  function Wire(cs: seq<Command>): seq<byte>
  {
    if cs == [] then [] else Encode(cs[0]) + Wire(cs[1..])
  }

  /** The byte stream for a sequence of frames written one after another. */
  function Flatten(frames: seq<Frame>): seq<byte>
  {
    if frames == [] then [] else frames[0] + Flatten(frames[1..])
  }

  function Prepend(c: Command, rest: Option<seq<Command>>): Option<seq<Command>>
  {
    match rest
    case None => None
    case Some(cs) => Some([c] + cs)
  }

  /**
   * How the controller reads a byte stream: a command byte (high bit set)
   * followed by the data bytes that command takes (high bit clear). A byte
   * with its high bit set where a data byte (channel included) is due
   * makes the stream unreadable.
   */
  function Parse(bytes: seq<byte>): Option<seq<Command>>
    decreases |bytes|
  {
    if bytes == [] then Some([])
    else if bytes[0] == SetTargetCmd && |bytes| >= 4 && bytes[1] < 128 && bytes[2] < 128 && bytes[3] < 128 then
      Prepend(SetTarget(bytes[1], bytes[2] as int + 128 * bytes[3] as int), Parse(bytes[4..]))
    else if bytes[0] == GetPositionCmd && |bytes| >= 2 && bytes[1] < 128 then
      Prepend(GetPosition(bytes[1]), Parse(bytes[2..]))
    else if bytes[0] == GetErrorsCmd then
      Prepend(GetErrors, Parse(bytes[1..]))
    else if bytes[0] == GoHomeCmd then
      Prepend(GoHome, Parse(bytes[1..]))
    else None
  }

  /** A channel fits a data byte and a target the 14 bits of a Set Target frame. */
  predicate EncodableCommand(c: Command)
  {
    match c
    case SetTarget(channel, target) => channel < 128 && 0 <= target < 16384
    case GetPosition(channel) => channel < 128
    case _ => true
  }

  predicate Encodable(cs: seq<Command>)
  {
    forall i :: 0 <= i < |cs| ==> EncodableCommand(cs[i])
  }

  /** One frame followed by more bytes is read as that frame's command first. */
  lemma ParseFrameThenRest(c: Command, rest: seq<byte>)
    requires EncodableCommand(c)
    ensures Parse(Encode(c) + rest) == Prepend(c, Parse(rest))
  {
    var f := Encode(c);
    match c
    case SetTarget(channel, target) =>
      assert ToByte(channel as int) == channel;
      assert (f + rest)[4..] == rest;
    case GetPosition(channel) =>
      assert ToByte(channel as int) == channel;
      assert (f + rest)[2..] == rest;
    case GetErrors =>
      assert (f + rest)[1..] == rest;
    case GoHome =>
      assert (f + rest)[1..] == rest;
  }

  /** The controller reads back exactly the commands servolib wrote. */
  lemma {:induction false} ParseWire(cs: seq<Command>)
    requires Encodable(cs)
    ensures Parse(Wire(cs)) == Some(cs)
  {
    if cs != [] {
      assert Encodable(cs[1..]) by {
        forall i | 0 <= i < |cs[1..]| ensures EncodableCommand(cs[1..][i]) {
          assert cs[1..][i] == cs[i + 1];
        }
      }
      ParseWire(cs[1..]);
      assert EncodableCommand(cs[0]);
      ParseFrameThenRest(cs[0], Wire(cs[1..]));
      assert [cs[0]] + cs[1..] == cs;
    }
  }

  /**
   * What servoio_configure sends, as the controller reads it: four Set Target
   * commands, so the speed and acceleration values arrive as pulse targets.
   */
  lemma ConfigureAsSeenByController(channel: int, pulse: int, speed: int, accel: int)
    requires ToByte(channel) < 128
    requires 0 <= pulse < 16384 && 0 <= speed < 16384 && 0 <= accel < 16384
    ensures Parse(Flatten([SetTargetFrame(channel, 0), SpeedFrame(channel, speed),
                           AccelFrame(channel, accel), SetTargetFrame(channel, pulse)]))
         == Some([SetTarget(ToByte(channel), 0), SetTarget(ToByte(channel), speed),
                  SetTarget(ToByte(channel), accel), SetTarget(ToByte(channel), pulse)])
  {
    var ch := ToByte(channel);
    var cs := [SetTarget(ch, 0), SetTarget(ch, speed), SetTarget(ch, accel), SetTarget(ch, pulse)];
    var frames := [SetTargetFrame(channel, 0), SpeedFrame(channel, speed),
                   AccelFrame(channel, accel), SetTargetFrame(channel, pulse)];
    assert ToByte(ch as int) == ch;
    assert Wire(cs[3..]) == frames[3] + Wire([]);
    assert Wire(cs[2..]) == frames[2] + Wire(cs[3..]);
    assert Wire(cs[1..]) == frames[1] + Wire(cs[2..]);
    assert Wire(cs) == frames[0] + Wire(cs[1..]);
    assert Flatten(frames[3..]) == frames[3] + Flatten([]);
    assert Flatten(frames[2..]) == frames[2] + Flatten(frames[3..]);
    assert Flatten(frames[1..]) == frames[1] + Flatten(frames[2..]);
    assert Flatten(frames) == frames[0] + Flatten(frames[1..]);
    ParseWire(cs);
  }

  /** Frames written one after another make one byte stream. */
  lemma {:induction false} FlattenAppend(a: seq<Frame>, b: seq<Frame>)
    ensures Flatten(a + b) == Flatten(a) + Flatten(b)
  {
    if a == [] {
      assert a + b == b;
    } else {
      assert (a + b)[1..] == a[1..] + b;
      FlattenAppend(a[1..], b);
    }
  }

  /** Two readable streams sent one after the other read as both command lists. */
  lemma {:induction false} ParseAppend(a: seq<byte>, b: seq<byte>)
    requires Parse(a).Some? && Parse(b).Some?
    ensures Parse(a + b) == Some(Parse(a).value + Parse(b).value)
    decreases |a|
  {
    if a == [] {
      assert a + b == b && Parse(a).value == [];
      assert [] + Parse(b).value == Parse(b).value;
    } else {
      var ab := a + b;
      assert ab[0] == a[0];
      var k: nat, c: Command;
      if a[0] == SetTargetCmd {
        assert |a| >= 4 && a[1] < 128 && a[2] < 128 && a[3] < 128;
        assert ab[1] == a[1] && ab[2] == a[2] && ab[3] == a[3];
        k, c := 4, SetTarget(a[1], a[2] as int + 128 * a[3] as int);
      } else if a[0] == GetPositionCmd {
        assert |a| >= 2 && a[1] < 128;
        assert ab[1] == a[1];
        k, c := 2, GetPosition(a[1]);
      } else if a[0] == GetErrorsCmd {
        k, c := 1, GetErrors;
      } else {
        k, c := 1, GoHome;
      }
      assert Parse(a) == Prepend(c, Parse(a[k..]));
      assert Parse(ab) == Prepend(c, Parse(ab[k..]));
      assert k <= |a| && ab[k..] == a[k..] + b;
      ParseAppend(a[k..], b);
      ConsAppend(c, Parse(a[k..]).value, Parse(b).value);
    }
  }

  lemma ConsAppend(c: Command, xs: seq<Command>, ys: seq<Command>)
    ensures [c] + (xs + ys) == ([c] + xs) + ys
  {
  }

  // ---------------------------------------------------------------- replies

  /** The two bytes a read() of the reply left in `buf`. */
  datatype Reply = Reply(lo: byte, hi: byte)

  /**
   * `buf[0] + (buf[1] << 8)` with the bytes read as unsigned: position bits
   * 0-7 then bits 8-15.
   */
  function DecodeReply(r: Reply): (v: int)
    ensures 0 <= v < 65536
    ensures v % 256 == r.lo as int && v / 256 == r.hi as int
  {
    r.lo as int + (r.hi as int) * 256
  }

  /** `(char)b` where plain char is a signed type. */
  function SignedChar(b: byte): int
  {
    if b < 128 then b as int else b as int - 256
  }

  /**
   * `buf[0] + (buf[1] << 8)` where plain char is signed, as on x86: each byte
   * with its high bit set is sign-extended before the sum.
   */
  function DecodeReplySignedChar(r: Reply): (v: int)
    ensures v == DecodeReply(r) - (if r.lo >= 128 then 256 else 0) - (if r.hi >= 128 then 65536 else 0)
  {
    SignedChar(r.lo) + SignedChar(r.hi) * 256
  }

  /**
   * The reply the controller sends for a pulse of 4000 quarter-microseconds
   * (1000 us, inside the 942-2000 us servo range) is misread as 3744.
   */
  lemma SignedCharMisreadsPosition4000()
    ensures DecodeReply(Reply(0xa0, 0x0f)) == 4000
    ensures DecodeReplySignedChar(Reply(0xa0, 0x0f)) == 3744
  {
  }

  // ---------------------------------------------------------------- system calls

  /** One write() or read(): its return value and the errno it left. */
  datatype Io = Io(ret: int, errno: int)

  /** `ret ? -errno : -EINVAL` after a write() or read() that returned `ret <= 0`. */
  function FailureCode(io: Io): (code: int)
    requires io.ret <= 0
    ensures io.ret == 0 ==> code == -EINVAL
    ensures io.ret < 0 ==> code == -io.errno
    ensures io.errno > 0 ==> code < 0
  {
    if io.ret != 0 then -io.errno else -EINVAL
  }

  /** What a frame-writing helper returns: 0 once write() accepted bytes. */
  function WriteStatus(w: Io): (status: int)
    ensures w.ret > 0 ==> status == 0
    ensures w.ret <= 0 ==> status == FailureCode(w)
    ensures w.ret <= 0 && w.errno > 0 ==> status < 0
  {
    if w.ret <= 0 then FailureCode(w) else 0
  }

  /** What a query helper returns: a failure code, or the decoded reply. */
  function QueryStatus(w: Io, r: Io, reply: Reply): (status: int)
    ensures w.ret > 0 && r.ret > 0 ==> status == DecodeReply(reply)
    ensures w.ret <= 0 ==> status == FailureCode(w)
    ensures w.ret > 0 && r.ret <= 0 ==> status == FailureCode(r)
    ensures w.errno > 0 && r.errno > 0 ==> (status < 0 <==> w.ret <= 0 || r.ret <= 0)
  {
    if w.ret <= 0 then FailureCode(w)
    else if r.ret <= 0 then FailureCode(r)
    else DecodeReply(reply)
  }

  /** What a write() of one frame delivers: the frame once write() accepted bytes, else nothing. */
  function Accepted(f: Frame, w: Io): seq<Frame>
  {
    if w.ret > 0 then [f] else []
  }

  /**
   * The Maestro behind /dev/ttyACM<id>, known by the frames written to it.
   * Each public method takes `fd`, the result of opening the device file.
   */
  class Controller {
    /** The number in /dev/ttyACM<id>, which every servoio call takes to open the device. */
    const id: int
    /** Every frame handed to write() on the device file, oldest first. */
    var frames: seq<Frame>
    /** The frames whose write() accepted bytes: what reached the controller. */
    var delivered: seq<Frame>

    constructor (id: int)
      ensures this.id == id && frames == [] && delivered == []
    {
      this.id := id;
      frames := [];
      delivered := [];
    }

    /** The bytes the controller has received so far. */
    function Sent(): seq<byte>
      reads this
    {
      Flatten(delivered)
    }

    /** __servoio_read_pos */
    method ReadPos(channel: int, w: Io, r: Io, reply: Reply) returns (ret: int)
      modifies this
      ensures frames == old(frames) + [GetPositionFrame(channel)]
      ensures delivered == old(delivered) + Accepted(GetPositionFrame(channel), w)
      ensures ret == QueryStatus(w, r, reply)
    {
      frames := frames + [GetPositionFrame(channel)];
      delivered := delivered + Accepted(GetPositionFrame(channel), w);
      if w.ret <= 0 {
        return FailureCode(w);
      }
      if r.ret <= 0 {
        return FailureCode(r);
      }
      ret := DecodeReply(reply);
    }

    /** __servoio_write_pulse */
    method WritePulse(channel: int, pulse: int, w: Io) returns (ret: int)
      modifies this
      ensures frames == old(frames) + [SetTargetFrame(channel, pulse)]
      ensures delivered == old(delivered) + Accepted(SetTargetFrame(channel, pulse), w)
      ensures ret == WriteStatus(w)
    {
      frames := frames + [SetTargetFrame(channel, pulse)];
      delivered := delivered + Accepted(SetTargetFrame(channel, pulse), w);
      if w.ret <= 0 {
        return FailureCode(w);
      }
      ret := 0;
    }

    /** __servoio_write_speed */
    method WriteSpeed(channel: int, speedLimit: int, w: Io) returns (ret: int)
      modifies this
      ensures frames == old(frames) + [SpeedFrame(channel, speedLimit)]
      ensures delivered == old(delivered) + Accepted(SpeedFrame(channel, speedLimit), w)
      ensures ret == WriteStatus(w)
    {
      frames := frames + [SpeedFrame(channel, speedLimit)];
      delivered := delivered + Accepted(SpeedFrame(channel, speedLimit), w);
      if w.ret <= 0 {
        return FailureCode(w);
      }
      ret := 0;
    }

    /** __servoio_write_accel */
    method WriteAccel(channel: int, accelLimit: int, w: Io) returns (ret: int)
      modifies this
      ensures frames == old(frames) + [AccelFrame(channel, accelLimit)]
      ensures delivered == old(delivered) + Accepted(AccelFrame(channel, accelLimit), w)
      ensures ret == WriteStatus(w)
    {
      frames := frames + [AccelFrame(channel, accelLimit)];
      delivered := delivered + Accepted(AccelFrame(channel, accelLimit), w);
      if w.ret <= 0 {
        return FailureCode(w);
      }
      ret := 0;
    }

    /** __servoio_read_error */
    method ReadError(w: Io, r: Io, reply: Reply) returns (ret: int)
      modifies this
      ensures frames == old(frames) + [GetErrorsFrame()]
      ensures delivered == old(delivered) + Accepted(GetErrorsFrame(), w)
      ensures ret == QueryStatus(w, r, reply)
    {
      frames := frames + [GetErrorsFrame()];
      delivered := delivered + Accepted(GetErrorsFrame(), w);
      if w.ret <= 0 {
        return FailureCode(w);
      }
      if r.ret <= 0 {
        return FailureCode(r);
      }
      ret := DecodeReply(reply);
    }

    /** __servoio_reset_all */
    method ResetAll(w: Io) returns (ret: int)
      modifies this
      ensures frames == old(frames) + [GoHomeFrame()]
      ensures delivered == old(delivered) + Accepted(GoHomeFrame(), w)
      ensures ret == WriteStatus(w)
    {
      frames := frames + [GoHomeFrame()];
      delivered := delivered + Accepted(GoHomeFrame(), w);
      if w.ret <= 0 {
        return FailureCode(w);
      }
      ret := 0;
    }

    /** servoio_set_accel */
    method SetAccel(channel: int, value: int, fd: int, w: Io) returns (ret: int)
      modifies this
      ensures fd < 0 ==> ret == fd && frames == old(frames) && delivered == old(delivered)
      ensures fd >= 0 ==> ret == WriteStatus(w) && frames == old(frames) + [AccelFrame(channel, value)]
      ensures fd >= 0 ==> delivered == old(delivered) + Accepted(AccelFrame(channel, value), w)
    {
      if fd < 0 {
        return fd;
      }
      ret := WriteAccel(channel, value, w);
    }

    /** servoio_set_speed */
    method SetSpeed(channel: int, value: int, fd: int, w: Io) returns (ret: int)
      modifies this
      ensures fd < 0 ==> ret == fd && frames == old(frames) && delivered == old(delivered)
      ensures fd >= 0 ==> ret == WriteStatus(w) && frames == old(frames) + [SpeedFrame(channel, value)]
      ensures fd >= 0 ==> delivered == old(delivered) + Accepted(SpeedFrame(channel, value), w)
    {
      if fd < 0 {
        return fd;
      }
      ret := WriteSpeed(channel, value, w);
    }

    /** servoio_set_pulse */
    method SetPulse(channel: int, value: int, fd: int, w: Io) returns (ret: int)
      modifies this
      ensures fd < 0 ==> ret == fd && frames == old(frames) && delivered == old(delivered)
      ensures fd >= 0 ==> ret == WriteStatus(w) && frames == old(frames) + [SetTargetFrame(channel, value)]
      ensures fd >= 0 ==> delivered == old(delivered) + Accepted(SetTargetFrame(channel, value), w)
    {
      if fd < 0 {
        return fd;
      }
      ret := WritePulse(channel, value, w);
    }

    /**
     * servoio_configure: stop, speed limit, acceleration limit, then pulse, on
     * one channel. The first three failures are only logged; the result is
     * that of the final pulse write.
     */
    method Configure(channel: int, pulse: int, speed: int, accel: int, fd: int,
                     stopIo: Io, speedIo: Io, accelIo: Io, pulseIo: Io) returns (ret: int)
      modifies this
      ensures fd < 0 ==> ret == fd && frames == old(frames) && delivered == old(delivered)
      ensures fd >= 0 ==> ret == WriteStatus(pulseIo)
      ensures fd >= 0 ==> frames == old(frames) + [SetTargetFrame(channel, 0), SpeedFrame(channel, speed),
                                                   AccelFrame(channel, accel), SetTargetFrame(channel, pulse)]
      ensures fd >= 0 ==> delivered == old(delivered) + Accepted(SetTargetFrame(channel, 0), stopIo) +
                                       Accepted(SpeedFrame(channel, speed), speedIo) +
                                       Accepted(AccelFrame(channel, accel), accelIo) +
                                       Accepted(SetTargetFrame(channel, pulse), pulseIo)
      // when all four writes are accepted, a controller that could read what it
      // had received before now reads four more Set Targets
      ensures fd >= 0 && stopIo.ret > 0 && speedIo.ret > 0 && accelIo.ret > 0 && pulseIo.ret > 0 &&
              ToByte(channel) < 128 && 0 <= pulse < 16384 && 0 <= speed < 16384 &&
              0 <= accel < 16384 && old(Parse(Sent())).Some? ==>
                Parse(Sent()) == Some(old(Parse(Sent())).value +
                                      [SetTarget(ToByte(channel), 0), SetTarget(ToByte(channel), speed),
                                       SetTarget(ToByte(channel), accel), SetTarget(ToByte(channel), pulse)])
    {
      if fd < 0 {
        return fd;
      }
      ghost var before := frames;
      ghost var received := delivered;
      ret := WritePulse(channel, 0, stopIo);
      ret := WriteSpeed(channel, speed, speedIo);
      ret := WriteAccel(channel, accel, accelIo);
      ret := WritePulse(channel, pulse, pulseIo);
      ghost var four := [SetTargetFrame(channel, 0), SpeedFrame(channel, speed),
                         AccelFrame(channel, accel), SetTargetFrame(channel, pulse)];
      assert frames == before + four;
      if stopIo.ret > 0 && speedIo.ret > 0 && accelIo.ret > 0 && pulseIo.ret > 0 &&
         ToByte(channel) < 128 && 0 <= pulse < 16384 && 0 <= speed < 16384 &&
         0 <= accel < 16384 && Parse(Flatten(received)).Some? {
        assert delivered == received + four;
        FlattenAppend(received, four);
        ConfigureAsSeenByController(channel, pulse, speed, accel);
        ParseAppend(Flatten(received), Flatten(four));
      }
    }

    /** servoio_get_position */
    method GetPosition(channel: int, fd: int, w: Io, r: Io, reply: Reply) returns (ret: int)
      modifies this
      ensures fd < 0 ==> ret == fd && frames == old(frames) && delivered == old(delivered)
      ensures fd >= 0 ==> ret == QueryStatus(w, r, reply) && frames == old(frames) + [GetPositionFrame(channel)]
      ensures fd >= 0 ==> delivered == old(delivered) + Accepted(GetPositionFrame(channel), w)
    {
      if fd < 0 {
        return fd;
      }
      ret := ReadPos(channel, w, r, reply);
    }

    /** servoio_get_any_error */
    method GetAnyError(fd: int, w: Io, r: Io, reply: Reply) returns (ret: int)
      modifies this
      ensures fd < 0 ==> ret == fd && frames == old(frames) && delivered == old(delivered)
      ensures fd >= 0 ==> ret == QueryStatus(w, r, reply) && frames == old(frames) + [GetErrorsFrame()]
      ensures fd >= 0 ==> delivered == old(delivered) + Accepted(GetErrorsFrame(), w)
    {
      if fd < 0 {
        return fd;
      }
      ret := ReadError(w, r, reply);
    }

    /** servoio_all_go_home */
    method AllGoHome(fd: int, w: Io) returns (ret: int)
      modifies this
      ensures fd < 0 ==> ret == fd && frames == old(frames) && delivered == old(delivered)
      ensures fd >= 0 ==> ret == WriteStatus(w) && frames == old(frames) + [GoHomeFrame()]
      ensures fd >= 0 ==> delivered == old(delivered) + Accepted(GoHomeFrame(), w)
    {
      if fd < 0 {
        return fd;
      }
      ret := ResetAll(w);
    }
  }
}
