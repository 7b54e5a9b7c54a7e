/**
 * Model of facelockedloop/track.c: the tracking stage that drives a pan servo
 * and a tilt servo toward their targets and keeps error statistics.
 *
 * The servo library is an abstract device (ServoBus): each call it receives is
 * logged together with the value it returned, and that value is whatever the
 * device answers. The tracker's record is a class whose `params` field the
 * methods update in place, as track.c updates `t->params`.
 */
module Track {

  /** `struct servo_params`, with the `poserr` and `home_position` fields track.c uses. */
  datatype ServoParams = ServoParams(
    channel: int,
    position: int,
    accelLimit: int,
    speedLimit: int,
    poserr: int,
    homePosition: int)

  /** The per-axis statistics track.c keeps (`pan_stats`, `tilt_stats`). */
  datatype ServoStats = ServoStats(minPosition: int, minPoserr: int, maxPoserr: int)

  /** `struct tracker_params`, with the statistics track.c reads under `params`. */
  datatype TrackerParams = TrackerParams(
    dev: int,
    panTgt: int,
    tiltTgt: int,
    pan: ServoParams,
    tilt: ServoParams,
    panStats: ServoStats,
    tiltStats: ServoStats)

  /** The servo library calls the tracker makes. */
  datatype Command =
    | SetPulse(dev: int, channel: int, pulse: int)
    | GetPosition(dev: int, channel: int)
    | AllGoHome(dev: int)
    | Configure(dev: int, channel: int, pulse: int, speed: int, accel: int)

  /** One call and the value the device returned for it. */
  datatype Call = Call(cmd: Command, result: int)

  function Commands(calls: seq<Call>): (cmds: seq<Command>)
    ensures |cmds| == |calls|
    ensures forall i :: 0 <= i < |calls| ==> cmds[i] == calls[i].cmd
  {
    seq(|calls|, i requires 0 <= i < |calls| => calls[i].cmd)
  }

  function Min(a: int, b: int): int
  {
    if a < b then a else b
  }

  function Max(a: int, b: int): int
  {
    if a > b then a else b
  }

  /** The servo library as the tracker sees it: calls in, arbitrary answers out. */
  class ServoBus {
    /** Every call received, oldest first, with what it returned. */
    var calls: seq<Call>

    constructor ()
      ensures calls == []
    {
      calls := [];
    }

    method SetPulse(dev: int, channel: int, pulse: int) returns (ret: int)
      modifies this
      ensures calls == old(calls) + [Call(Command.SetPulse(dev, channel, pulse), ret)]
    {
      ret :| true;
      calls := calls + [Call(Command.SetPulse(dev, channel, pulse), ret)];
    }

    method GetPosition(dev: int, channel: int) returns (ret: int)
      modifies this
      ensures calls == old(calls) + [Call(Command.GetPosition(dev, channel), ret)]
    {
      ret :| true;
      calls := calls + [Call(Command.GetPosition(dev, channel), ret)];
    }

    method AllGoHome(dev: int) returns (ret: int)
      modifies this
      ensures calls == old(calls) + [Call(Command.AllGoHome(dev), ret)]
    {
      ret :| true;
      calls := calls + [Call(Command.AllGoHome(dev), ret)];
    }

    method Configure(dev: int, channel: int, pulse: int, speed: int, accel: int) returns (ret: int)
      modifies this
      ensures calls == old(calls) + [Call(Command.Configure(dev, channel, pulse, speed, accel), ret)]
    {
      ret :| true;
      calls := calls + [Call(Command.Configure(dev, channel, pulse, speed, accel), ret)];
    }
  }

  // ------------------------------------------------------------ track_run

  /** What the device answers during one track_run, per axis. */
  datatype Answers = Answers(panSet: int, panRead: int, tiltSet: int, tiltRead: int)

  datatype RunResult = RunResult(params: TrackerParams, ret: int, calls: seq<Call>)

  predicate PanPending(p: TrackerParams)
  {
    p.pan.position != p.panTgt
  }

  predicate TiltPending(p: TrackerParams)
  {
    p.tilt.position != p.tiltTgt
  }

  /** The pan half of track_run once a pulse was sent: adopt, record, read back. */
  function PanCorrection(p: TrackerParams, setResult: int, readback: int): TrackerParams
  {
    var position := if setResult < 0 then p.pan.position else p.panTgt;
    var e := p.panTgt - readback;
    p.(pan := p.pan.(position := position, poserr := e),
       panStats := ServoStats(Min(p.panStats.minPosition, position),
                              Min(p.panStats.minPoserr, e),
                              Max(p.panStats.maxPoserr, e)))
  }

  /** The tilt half: the same, but tilt keeps no position statistic. */
  function TiltCorrection(p: TrackerParams, setResult: int, readback: int): TrackerParams
  {
    var position := if setResult < 0 then p.tilt.position else p.tiltTgt;
    var e := p.tiltTgt - readback;
    p.(tilt := p.tilt.(position := position, poserr := e),
       tiltStats := p.tiltStats.(minPoserr := Min(p.tiltStats.minPoserr, e),
                                 maxPoserr := Max(p.tiltStats.maxPoserr, e)))
  }

  function PanCalls(p: TrackerParams, a: Answers): seq<Call>
  {
    [Call(SetPulse(p.dev, p.pan.channel, p.panTgt), a.panSet),
     Call(GetPosition(p.dev, p.pan.channel), a.panRead)]
  }

  function TiltCalls(p: TrackerParams, a: Answers): seq<Call>
  {
    [Call(SetPulse(p.dev, p.tilt.channel, p.tiltTgt), a.tiltSet),
     Call(GetPosition(p.dev, p.tilt.channel), a.tiltRead)]
  }

  /**
   * track_run as a function of the record and the device's answers: the new
   * record, the return value and the calls made.
   */
  function TrackRun(p: TrackerParams, a: Answers): (r: RunResult)
    // an axis already on target costs no device call; both on target: no call, result 0
    ensures !PanPending(p) && !TiltPending(p) <==> r.calls == []
    ensures !PanPending(p) && !TiltPending(p) ==> r.ret == 0 && r.params == p
    ensures r.calls == (if PanPending(p) then PanCalls(p, a) else []) +
                       (if TiltPending(p) then TiltCalls(p, a) else [])
    // a skipped axis keeps its fields and statistics
    ensures !PanPending(p) ==> r.params.pan == p.pan && r.params.panStats == p.panStats
    ensures !TiltPending(p) ==> r.params.tilt == p.tilt && r.params.tiltStats == p.tiltStats
    // the target is adopted exactly when the pulse was accepted
    ensures PanPending(p) ==> (r.params.pan.position == p.panTgt <==> a.panSet >= 0)
    ensures PanPending(p) && a.panSet < 0 ==> r.params.pan.position == p.pan.position
    ensures TiltPending(p) ==> (r.params.tilt.position == p.tiltTgt <==> a.tiltSet >= 0)
    ensures TiltPending(p) && a.tiltSet < 0 ==> r.params.tilt.position == p.tilt.position
    // the error is target minus read-back, folded into the extremes
    ensures PanPending(p) ==>
              && r.params.pan.poserr == p.panTgt - a.panRead
              && r.params.panStats.minPoserr == Min(p.panStats.minPoserr, r.params.pan.poserr)
              && r.params.panStats.maxPoserr == Max(p.panStats.maxPoserr, r.params.pan.poserr)
              && r.params.panStats.minPosition == Min(p.panStats.minPosition, r.params.pan.position)
    ensures TiltPending(p) ==>
              && r.params.tilt.poserr == p.tiltTgt - a.tiltRead
              && r.params.tiltStats.minPoserr == Min(p.tiltStats.minPoserr, r.params.tilt.poserr)
              && r.params.tiltStats.maxPoserr == Max(p.tiltStats.maxPoserr, r.params.tilt.poserr)
    ensures r.params.tiltStats.minPosition == p.tiltStats.minPosition
    // the result is that of the last pulse sent
    ensures r.ret == if TiltPending(p) then a.tiltSet else if PanPending(p) then a.panSet else 0
    // nothing but positions, errors and statistics changes
    ensures r.params.(pan := p.pan, tilt := p.tilt, panStats := p.panStats, tiltStats := p.tiltStats) == p
    ensures r.params.pan.(position := p.pan.position, poserr := p.pan.poserr) == p.pan
    ensures r.params.tilt.(position := p.tilt.position, poserr := p.tilt.poserr) == p.tilt
  {
    var afterPan := if PanPending(p) then PanCorrection(p, a.panSet, a.panRead) else p;
    var panRet := if PanPending(p) then a.panSet else 0;
    var panCalls := if PanPending(p) then PanCalls(p, a) else [];
    if TiltPending(afterPan) then
      RunResult(TiltCorrection(afterPan, a.tiltSet, a.tiltRead), a.tiltSet, panCalls + TiltCalls(afterPan, a))
    else
      assert panCalls + [] == panCalls;
      RunResult(afterPan, panRet, panCalls)
  }

  /** Each error statistic brackets the last error, and min_position the pan position. */
  predicate Bracketed(p: TrackerParams)
  {
    && p.panStats.minPoserr <= p.pan.poserr <= p.panStats.maxPoserr
    && p.tiltStats.minPoserr <= p.tilt.poserr <= p.tiltStats.maxPoserr
    && p.panStats.minPosition <= p.pan.position
  }

  /** track_run keeps the statistics bracketing the values they summarise. */
  lemma RunKeepsStatisticsBracketed(p: TrackerParams, a: Answers)
    requires Bracketed(p)
    ensures Bracketed(TrackRun(p, a).params)
  {
  }

  /** After both pulses were accepted, the next track_run has nothing to do. */
  lemma AcceptedRunSettles(p: TrackerParams, a: Answers, next: Answers)
    requires a.panSet >= 0 && a.tiltSet >= 0
    ensures TrackRun(TrackRun(p, a).params, next).calls == []
    ensures TrackRun(TrackRun(p, a).params, next).ret == 0
  {
  }

  /**
   * track_get_max_abse: the largest of the four recorded error extremes. No
   * absolute value is taken, so a large negative minimum does not show.
   */
  function MaxAbse(p: TrackerParams): (m: int)
    ensures m >= p.panStats.minPoserr && m >= p.panStats.maxPoserr
    ensures m >= p.tiltStats.minPoserr && m >= p.tiltStats.maxPoserr
    ensures m == p.panStats.minPoserr || m == p.panStats.maxPoserr ||
            m == p.tiltStats.minPoserr || m == p.tiltStats.maxPoserr
  {
    var panExtreme := Max(p.panStats.minPoserr, p.panStats.maxPoserr);
    var tiltExtreme := Max(p.tiltStats.minPoserr, p.tiltStats.maxPoserr);
    Max(panExtreme, tiltExtreme)
  }

  /** `struct tracker`, reduced to the record the tracking stage updates. */
  class Tracker {
    var params: TrackerParams

    constructor (params: TrackerParams)
      ensures this.params == params
    {
      this.params := params;
    }

    /**
     * track_initialize: send every servo home, then take both positions from
     * the device read-back, unchecked. The result is that of go-home.
     */
    method Initialize(bus: ServoBus) returns (ret: int)
      modifies this, bus
      ensures var p := old(params);
        bus.calls == old(bus.calls) + [Call(AllGoHome(p.dev), ret),
                                       Call(GetPosition(p.dev, p.pan.channel), params.pan.position),
                                       Call(GetPosition(p.dev, p.tilt.channel), params.tilt.position)]
      ensures params == old(params).(pan := old(params).pan.(position := params.pan.position),
                                     tilt := old(params).tilt.(position := params.tilt.position))
    {
      ret := bus.AllGoHome(params.dev);
      var panPosition := bus.GetPosition(params.dev, params.pan.channel);
      params := params.(pan := params.pan.(position := panPosition));
      var tiltPosition := bus.GetPosition(params.dev, params.tilt.channel);
      params := params.(tilt := params.tilt.(position := tiltPosition));
    }

    /**
     * track_teardown: initialize again, stop both servos with
     * configure(channel, 0, 0, 0), read both positions back, and make the
     * pan read-back the pan home. The tilt home is assigned to itself, so it
     * keeps its value. Always returns 0.
     */
    method Teardown(bus: ServoBus) returns (ret: int)
      modifies this, bus
      ensures ret == 0
      ensures var p, n := old(params), old(|bus.calls|);
        && |bus.calls| == n + 7
        && bus.calls[..n] == old(bus.calls)
        && Commands(bus.calls[n..]) == [AllGoHome(p.dev),
                                        GetPosition(p.dev, p.pan.channel),
                                        GetPosition(p.dev, p.tilt.channel),
                                        Configure(p.dev, p.pan.channel, 0, 0, 0),
                                        Configure(p.dev, p.tilt.channel, 0, 0, 0),
                                        GetPosition(p.dev, p.pan.channel),
                                        GetPosition(p.dev, p.tilt.channel)]
        && params.pan.position == bus.calls[n + 5].result
        && params.tilt.position == bus.calls[n + 6].result
      ensures params.pan.homePosition == params.pan.position
      ensures params == old(params).(pan := old(params).pan.(position := params.pan.position,
                                                             homePosition := params.pan.position),
                                     tilt := old(params).tilt.(position := params.tilt.position))
    {
      ghost var n := |bus.calls|;
      ghost var p := params;
      ret := Initialize(bus);
      ret := bus.Configure(params.dev, params.pan.channel, 0, 0, 0);
      ret := bus.Configure(params.dev, params.tilt.channel, 0, 0, 0);
      var panPosition := bus.GetPosition(params.dev, params.pan.channel);
      params := params.(pan := params.pan.(position := panPosition));
      var tiltPosition := bus.GetPosition(params.dev, params.tilt.channel);
      params := params.(tilt := params.tilt.(position := tiltPosition));
      params := params.(pan := params.pan.(homePosition := params.pan.position));
      params := params.(tilt := params.tilt.(homePosition := params.tilt.homePosition));
      assert bus.calls[n..] == bus.calls[n..n + 3] + bus.calls[n + 3..];
      ret := 0;
    }

    /**
     * track_run: for pan, then tilt, an axis off target gets a pulse, adopts
     * the target if the pulse was accepted, and folds the read-back error
     * into its statistics. `answers` records what the device returned.
     */
    method Run(bus: ServoBus) returns (ret: int, ghost answers: Answers)
      modifies this, bus
      ensures var r := TrackRun(old(params), answers);
        params == r.params && ret == r.ret && bus.calls == old(bus.calls) + r.calls
    {
      ret := 0;
      var panSet, panRead, tiltSet, tiltRead := 0, 0, 0, 0;
      if params.pan.position != params.panTgt {
        panSet, panRead := CorrectPan(bus);
        ret := panSet;
      }
      if params.tilt.position != params.tiltTgt {
        tiltSet, tiltRead := CorrectTilt(bus);
        ret := tiltSet;
      }
      answers := Answers(panSet, panRead, tiltSet, tiltRead);
    }

    /** The pan block of track_run, entered when pan is off target. */
    method CorrectPan(bus: ServoBus) returns (setResult: int, readback: int)
      requires PanPending(params)
      modifies this, bus
      ensures params == PanCorrection(old(params), setResult, readback)
      ensures bus.calls == old(bus.calls) + PanCalls(old(params), Answers(setResult, readback, 0, 0))
    {
      setResult := bus.SetPulse(params.dev, params.pan.channel, params.panTgt);
      if setResult >= 0 {
        params := params.(pan := params.pan.(position := params.panTgt));
      }
      if params.pan.position < params.panStats.minPosition {
        params := params.(panStats := params.panStats.(minPosition := params.pan.position));
      }
      readback := bus.GetPosition(params.dev, params.pan.channel);
      var e := params.panTgt - readback;
      if e < params.panStats.minPoserr {
        params := params.(panStats := params.panStats.(minPoserr := e));
      }
      if e > params.panStats.maxPoserr {
        params := params.(panStats := params.panStats.(maxPoserr := e));
      }
      params := params.(pan := params.pan.(poserr := e));
    }

    /** The tilt block of track_run, entered when tilt is off target. */
    method CorrectTilt(bus: ServoBus) returns (setResult: int, readback: int)
      requires TiltPending(params)
      modifies this, bus
      ensures params == TiltCorrection(old(params), setResult, readback)
      ensures bus.calls == old(bus.calls) + TiltCalls(old(params), Answers(0, 0, setResult, readback))
    {
      setResult := bus.SetPulse(params.dev, params.tilt.channel, params.tiltTgt);
      if setResult >= 0 {
        params := params.(tilt := params.tilt.(position := params.tiltTgt));
      }
      readback := bus.GetPosition(params.dev, params.tilt.channel);
      var e := params.tiltTgt - readback;
      if e < params.tiltStats.minPoserr {
        params := params.(tiltStats := params.tiltStats.(minPoserr := e));
      }
      if e > params.tiltStats.maxPoserr {
        params := params.(tiltStats := params.tiltStats.(maxPoserr := e));
      }
      params := params.(tilt := params.tilt.(poserr := e));
    }
  }
}
