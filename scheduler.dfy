/**
 * The main loop (lines 151-167). Each pass calls read_values; if that raises,
 * the exception is caught and the pass ends. Otherwise the time since the
 * last dispatch is computed, and only when it exceeds 145 seconds is the
 * reading uploaded, after update_time has been set to the current time.
 *
 * The endless loop is modelled by one step over the two globals, and by any
 * finite run of steps.
 */
module Scheduler {
  import opened Outcomes
  import opened Readings
  import opened Sensors
  import opened Upload

  /** A dispatch needs strictly more than this many seconds since the last one. */
  const DispatchInterval: real := 145.0

  /** The loop's globals update_time and time_since_update. */
  datatype LoopState = LoopState(updateTime: real, timeSinceUpdate: real)

  /**
   * What one pass sees: whether read_values returned a reading, and what
   * time.time() said at line 158 (readAt) and at line 161 (dispatchAt).
   * The times of a pass whose read_values raised are never looked at.
   */
  datatype Cycle = Cycle(collected: bool, readAt: real, dispatchAt: real)

  /** Line 159: a pass dispatches iff it got a reading and strictly more than 145 seconds have passed. */
  function Dispatches(s: LoopState, c: Cycle): (d: bool)
    ensures d ==> c.collected && c.readAt > s.updateTime + DispatchInterval
    ensures c.readAt == s.updateTime + DispatchInterval ==> !d
  {
    c.collected && c.readAt - s.updateTime > DispatchInterval
  }

  /**
   * One pass of the loop. A pass that dispatches moves update_time to the
   * dispatch time before the upload, so its outcome plays no part; a pass
   * that does not keeps update_time; a pass whose read_values raised
   * changes nothing at all.
   */
  function Step(s: LoopState, c: Cycle): (s': LoopState)
    ensures Dispatches(s, c) ==> s'.updateTime == c.dispatchAt
    ensures !Dispatches(s, c) ==> s'.updateTime == s.updateTime
    ensures c.collected ==> s'.timeSinceUpdate == c.readAt - s.updateTime
    ensures !c.collected ==> s' == s
  {
    if !c.collected then s
    else
      var timeSinceUpdate := c.readAt - s.updateTime;
      if timeSinceUpdate > DispatchInterval then LoopState(c.dispatchAt, timeSinceUpdate)
      else LoopState(s.updateTime, timeSinceUpdate)
  }

  /** The state after a finite run of passes. */
  function Run(s: LoopState, cs: seq<Cycle>): (r: LoopState)
    ensures (forall i :: 0 <= i < |cs| ==> !cs[i].collected) ==> r == s
    decreases |cs|
  {
    if cs == [] then s else Run(Step(s, cs[0]), cs[1..])
  }

  /** The dispatch times of the passes of a run that dispatched, in order. */
  function DispatchTimes(s: LoopState, cs: seq<Cycle>): seq<real>
    decreases |cs|
  {
    if cs == [] then []
    else (if Dispatches(s, cs[0]) then [cs[0].dispatchAt] else []) + DispatchTimes(Step(s, cs[0]), cs[1..])
  }

  /** The clock does not go backwards within a pass. */
  predicate ClockForward(cs: seq<Cycle>)
  {
    forall i :: 0 <= i < |cs| ==> cs[i].readAt <= cs[i].dispatchAt
  }

  /** After any run, update_time is the time of the last dispatch, or where it started if none. */
  lemma {:induction false} RunUpdateTime(s: LoopState, cs: seq<Cycle>)
    ensures var d := DispatchTimes(s, cs);
      Run(s, cs).updateTime == if d == [] then s.updateTime else d[|d| - 1]
    decreases |cs|
  {
    if cs != [] {
      RunUpdateTime(Step(s, cs[0]), cs[1..]);
    }
  }

  /**
   * Dispatches are more than 145 seconds apart, and the first comes more than
   * 145 seconds after the starting update_time, whether or not any upload
   * succeeded.
   */
  lemma {:induction false} DispatchesSpaced(s: LoopState, cs: seq<Cycle>)
    requires ClockForward(cs)
    ensures var d := DispatchTimes(s, cs);
      && (d != [] ==> d[0] - s.updateTime > DispatchInterval)
      && forall k :: 0 < k < |d| ==> d[k] - d[k - 1] > DispatchInterval
    decreases |cs|
  {
    if cs != [] {
      var s' := Step(s, cs[0]);
      assert ClockForward(cs[1..]) by {
        forall i | 0 <= i < |cs[1..]| ensures cs[1..][i].readAt <= cs[1..][i].dispatchAt {
          assert cs[1..][i] == cs[i + 1];
        }
      }
      DispatchesSpaced(s', cs[1..]);
      assert cs[0].readAt <= cs[0].dispatchAt;
    }
  }

  /** Passes whose read_values raised leave no trace: dropping them changes neither the state nor the dispatches. */
  lemma {:induction false} FaultsLeaveNoTrace(s: LoopState, cs: seq<Cycle>)
    ensures Run(s, cs) == Run(s, Collected(cs))
    ensures DispatchTimes(s, cs) == DispatchTimes(s, Collected(cs))
    decreases |cs|
  {
    if cs != [] {
      FaultsLeaveNoTrace(Step(s, cs[0]), cs[1..]);
      var rest := Collected(cs[1..]);
      if cs[0].collected {
        assert Collected(cs) == [cs[0]] + rest;
        assert Collected(cs)[1..] == rest;
      } else {
        assert Collected(cs) == rest;
      }
    }
  }

  /** The passes of a run in which read_values returned. */
  function Collected(cs: seq<Cycle>): seq<Cycle>
  {
    if cs == [] then [] else (if cs[0].collected then [cs[0]] else []) + Collected(cs[1..])
  }

  /** What one pass ends with, as the log would tell it. */
  datatype PassOutcome =
    | Raised(fault: Fault)     // caught at line 166
    | Discarded                // too soon since the last dispatch
    | Sent(ok: bool)           // dispatched; ok is send_to_luftdaten's result

  /** The running program: its devices, its network, its id and the loop's globals. */
  class Collector {
    const bme: Bme280
    const pms: Pms5003
    const net: Network
    const id: string
    var updateTime: real
    var timeSinceUpdate: real

    function State(): LoopState
      reads this
    {
      LoopState(updateTime, timeSinceUpdate)
    }

    /** Lines 151-152: startedAt is time.time() when the loop is entered. */
    constructor (bme: Bme280, pms: Pms5003, net: Network, id: string, startedAt: real)
      ensures this.bme == bme && this.pms == pms && this.net == net && this.id == id
      ensures State() == LoopState(startedAt, 0.0)
    {
      this.bme, this.pms, this.net, this.id := bme, pms, net, id;
      timeSinceUpdate := 0.0;
      updateTime := startedAt;
    }

    /**
     * One pass of the loop body (lines 156-167); readAt and dispatchAt are
     * what time.time() returns at lines 158 and 161. The new state is Step of
     * the old one, and the network sees the two requests of a dispatch or
     * nothing.
     */
    method Iterate(readAt: real, dispatchAt: real) returns (outcome: PassOutcome, ghost run: Collection)
      modifies this, bme, pms, net
      ensures run == Collect(bme.respond, old(bme.log), pms.respond, old(pms.log))
      ensures bme.log == old(bme.log) + run.climateCalls
      ensures pms.log == old(pms.log) + run.pmsCalls
      ensures State() == Step(old(State()), Cycle(run.result.Ok?, readAt, dispatchAt))
      ensures net.sent == old(net.sent) + PassRequests(old(State()), Cycle(run.result.Ok?, readAt, dispatchAt), run, id)
      ensures run.result.Err? ==> outcome == Raised(run.result.error)
      ensures run.result.Ok? && !Dispatches(old(State()), Cycle(true, readAt, dispatchAt)) ==> outcome == Discarded
      ensures run.result.Ok? && Dispatches(old(State()), Cycle(true, readAt, dispatchAt)) ==>
        var pm, climate := ParticulateRequest(run.result.value, id), ClimateRequest(run.result.value, id);
        outcome == Sent(UploadSucceeded(ResponseOf(net.respond(old(net.sent), pm)),
                                        ResponseOf(net.respond(old(net.sent) + [pm], climate))))
    {
      run := Collect(bme.respond, bme.log, pms.respond, pms.log);
      var values := ReadValues(bme, pms);
      if values.Err? {
        outcome := Raised(values.error);
        return;
      }
      timeSinceUpdate := readAt - updateTime;
      if timeSinceUpdate > DispatchInterval {
        updateTime := dispatchAt;
        var ok := SendToLuftdaten(values.value, id, net);
        outcome := Sent(ok);
        return;
      }
      outcome := Discarded;
    }

    /**
     * A finite stretch of the endless loop: one pass per pair of clock
     * readings. runs[i] is what read_values did in pass i, on the devices as
     * the earlier passes left them; pass i got a reading iff that call
     * returned one. The globals end as Run over the passes, the devices have
     * seen every pass's calls in order, and the network has seen the two
     * requests of each pass that dispatched, in order.
     */
    method RunPasses(clock: seq<(real, real)>) returns (ghost cycles: seq<Cycle>, ghost runs: seq<Collection>)
      modifies this, bme, pms, net
      ensures |cycles| == |runs| == |clock|
      ensures forall i :: 0 <= i < |clock| ==>
        cycles[i] == Cycle(runs[i].result.Ok?, clock[i].0, clock[i].1)
      ensures PassesFollow(bme.respond, old(bme.log), pms.respond, old(pms.log), runs)
      ensures bme.log == old(bme.log) + ClimateCallsOf(runs)
      ensures pms.log == old(pms.log) + PmsCallsOf(runs)
      ensures State() == Run(old(State()), cycles)
      ensures net.sent == old(net.sent) + SentOver(old(State()), cycles, runs, id)
    {
      cycles, runs := [], [];
      ghost var start, bh, ph, sent := State(), bme.log, pms.log, net.sent;
      var k := 0;
      while k < |clock|
        invariant 0 <= k <= |clock| && |cycles| == |runs| == k
        invariant forall i :: 0 <= i < k ==> cycles[i] == Cycle(runs[i].result.Ok?, clock[i].0, clock[i].1)
        invariant PassesFollow(bme.respond, bh, pms.respond, ph, runs)
        invariant bme.log == bh + ClimateCallsOf(runs)
        invariant pms.log == ph + PmsCallsOf(runs)
        invariant State() == Run(start, cycles)
        invariant net.sent == sent + SentOver(start, cycles, runs, id)
      {
        var _, c := Iterate(clock[k].0, clock[k].1);
        ghost var cycle := Cycle(c.result.Ok?, clock[k].0, clock[k].1);
        PassesFollowSnoc(bme.respond, bh, pms.respond, ph, runs, c);
        PassExtendsRun(bh, ph, sent, start, cycles, runs, cycle, c, id, bme.log, pms.log, net.sent);
        RunSnoc(start, cycles, cycle);
        cycles, runs := cycles + [cycle], runs + [c];
        k := k + 1;
      }
    }
  }

  /** Each pass's read_values ran on the devices as the earlier passes left them. */
  ghost predicate PassesFollow(bme: (seq<Quantity>, Quantity) -> Option<string>, bh: seq<Quantity>,
                               pms: seq<PmsCall> -> Result<PmsFrame, PmsError>, ph: seq<PmsCall>,
                               runs: seq<Collection>)
  {
    forall i :: 0 <= i < |runs| ==>
      runs[i] == Collect(bme, bh + ClimateCallsOf(runs[..i]), pms, ph + PmsCallsOf(runs[..i]))
  }

  /**
   * One more pass, run on the devices and network as the earlier passes left
   * them, extends the logs and the requests sent by exactly its own.
   */
  lemma PassExtendsRun(bh: seq<Quantity>, ph: seq<PmsCall>, sent: seq<Request>, start: LoopState, cycles: seq<Cycle>, runs: seq<Collection>,
                       cycle: Cycle, run: Collection, id: string,
                       blog: seq<Quantity>, plog: seq<PmsCall>, nsent: seq<Request>)
    requires |cycles| == |runs|
    requires blog == bh + ClimateCallsOf(runs) + run.climateCalls
    requires plog == ph + PmsCallsOf(runs) + run.pmsCalls
    requires nsent == sent + SentOver(start, cycles, runs, id) + PassRequests(Run(start, cycles), cycle, run, id)
    ensures blog == bh + ClimateCallsOf(runs + [run])
    ensures plog == ph + PmsCallsOf(runs + [run])
    ensures nsent == sent + SentOver(start, cycles + [cycle], runs + [run], id)
  {
    PassSnoc(start, cycles, runs, cycle, run, id);
    Regroup(bh, ClimateCallsOf(runs), run.climateCalls);
    Regroup(ph, PmsCallsOf(runs), run.pmsCalls);
    Regroup(sent, SentOver(start, cycles, runs, id), PassRequests(Run(start, cycles), cycle, run, id));
  }

  lemma Regroup<T>(a: seq<T>, b: seq<T>, c: seq<T>)
    ensures a + b + c == a + (b + c)
  {
  }

  /** A pass run on the devices as the earlier passes left them keeps PassesFollow. */
  lemma PassesFollowSnoc(bme: (seq<Quantity>, Quantity) -> Option<string>, bh: seq<Quantity>,
                         pms: seq<PmsCall> -> Result<PmsFrame, PmsError>, ph: seq<PmsCall>,
                         runs: seq<Collection>, run: Collection)
    requires PassesFollow(bme, bh, pms, ph, runs)
    requires run == Collect(bme, bh + ClimateCallsOf(runs), pms, ph + PmsCallsOf(runs))
    ensures PassesFollow(bme, bh, pms, ph, runs + [run])
  {
    var rs := runs + [run];
    forall i | 0 <= i < |rs|
      ensures rs[i] == Collect(bme, bh + ClimateCallsOf(rs[..i]), pms, ph + PmsCallsOf(rs[..i]))
    {
      if i < |runs| {
        assert rs[..i] == runs[..i];
      } else {
        assert rs[..i] == runs;
      }
    }
  }

  /** The BME280 queries of a sequence of passes, in order. */
  function ClimateCallsOf(runs: seq<Collection>): seq<Quantity>
  {
    if runs == [] then [] else ClimateCallsOf(runs[..|runs| - 1]) + runs[|runs| - 1].climateCalls
  }

  /** The PMS5003 calls of a sequence of passes, in order. */
  function PmsCallsOf(runs: seq<Collection>): seq<PmsCall>
  {
    if runs == [] then [] else PmsCallsOf(runs[..|runs| - 1]) + runs[|runs| - 1].pmsCalls
  }

  /** What one pass from state s posts: the two requests of its reading if it dispatches, nothing otherwise. */
  function PassRequests(s: LoopState, c: Cycle, run: Collection, id: string): seq<Request>
  {
    if Dispatches(s, c) && run.result.Ok? then
      [ParticulateRequest(run.result.value, id), ClimateRequest(run.result.value, id)]
    else []
  }

  /** The requests a run of passes from state s posts, in order. */
  function SentOver(s: LoopState, cs: seq<Cycle>, runs: seq<Collection>, id: string): seq<Request>
    requires |cs| == |runs|
  {
    if cs == [] then []
    else
      var n := |cs| - 1;
      SentOver(s, cs[..n], runs[..n], id) + PassRequests(Run(s, cs[..n]), cs[n], runs[n], id)
  }

  /** One more pass adds its calls after the earlier ones, and its requests after theirs. */
  lemma PassSnoc(s: LoopState, cs: seq<Cycle>, runs: seq<Collection>, c: Cycle, run: Collection, id: string)
    requires |cs| == |runs|
    ensures ClimateCallsOf(runs + [run]) == ClimateCallsOf(runs) + run.climateCalls
    ensures PmsCallsOf(runs + [run]) == PmsCallsOf(runs) + run.pmsCalls
    ensures SentOver(s, cs + [c], runs + [run], id) == SentOver(s, cs, runs, id) + PassRequests(Run(s, cs), c, run, id)
  {
    assert (runs + [run])[..|runs|] == runs;
    assert (cs + [c])[..|cs|] == cs;
  }

  /** Running one more pass is one more Step. */
  lemma {:induction false} RunSnoc(s: LoopState, cs: seq<Cycle>, c: Cycle)
    ensures Run(s, cs + [c]) == Step(Run(s, cs), c)
    decreases |cs|
  {
    if cs != [] {
      assert (cs + [c])[1..] == cs[1..] + [c];
      RunSnoc(Step(s, cs[0]), cs[1..], c);
    }
  }
}
