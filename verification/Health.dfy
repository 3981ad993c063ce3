/** Hysteresis over a stream of probe results. */
module Health {

  datatype State = Unknown | Up | Down

  /** What a tracker holds. */
  datatype Track = Track(downAfter: int, upAfter: int, state: State, fails: nat, oks: nat, latency: int)
  {
    function Observe(ok: bool, latency: int): Track {
      if ok then
        this.(fails := 0, oks := oks + 1, latency := latency,
              state := if state == Unknown || oks + 1 >= upAfter then Up else state)
      else
        this.(oks := 0, fails := fails + 1, state := if fails + 1 >= downAfter then Down else state)
    }

    function SetThresholds(down: int, up: int): Track { this.(downAfter := down, upAfter := up) }
  }

  function New(downAfter: int, upAfter: int): Track { Track(downAfter, upAfter, Unknown, 0, 0, 0) }

  class Tracker {
    var downAfter: int
    var upAfter: int
    var state: State
    var fails: nat
    var oks: nat
    var latency: int

    ghost function View(): Track
      reads this
    {
      Track(downAfter, upAfter, state, fails, oks, latency)
    }

    constructor (downAfter: int, upAfter: int)
      ensures View() == New(downAfter, upAfter)
    {
      this.downAfter, this.upAfter := downAfter, upAfter;
      state, fails, oks, latency := Unknown, 0, 0, 0;
    }

    /** Records one probe and reports whether the state changed. */
    method Observe(ok: bool, latency: int) returns (changed: bool)
      modifies this
      ensures View() == old(View()).Observe(ok, latency)
      ensures changed == (state != old(state))
    {
      var before := state;
      if ok {
        fails := 0;
        oks := oks + 1;
        this.latency := latency;
        if state == Unknown || oks >= upAfter {
          state := Up;
        }
      } else {
        oks := 0;
        fails := fails + 1;
        if fails >= downAfter {
          state := Down;
        }
      }
      changed := state != before;
    }

    method SetThresholds(downAfter: int, upAfter: int)
      modifies this
      ensures View() == old(View()).SetThresholds(downAfter, upAfter)
    {
      this.downAfter, this.upAfter := downAfter, upAfter;
    }
  }

  // ---------------------------------------------------------------- Traces

  datatype Probe = Probe(ok: bool, latency: int)

  /** A fresh tracker after a trace of probes. */
  function Run(downAfter: int, upAfter: int, trace: seq<Probe>): (t: Track)
    ensures t.downAfter == downAfter && t.upAfter == upAfter
    decreases |trace|
  {
    if trace == [] then New(downAfter, upAfter)
    else
      var last := trace[|trace| - 1];
      Run(downAfter, upAfter, trace[..|trace| - 1]).Observe(last.ok, last.latency)
  }

  /** The length of the run of equal results at the end of a trace. */
  function Trailing(trace: seq<Probe>, ok: bool): nat
    decreases |trace|
  {
    if trace == [] || trace[|trace| - 1].ok != ok then 0 else Trailing(trace[..|trace| - 1], ok) + 1
  }

  ghost predicate EndsWith(trace: seq<Probe>, n: nat, ok: bool) {
    n <= |trace| && forall i :: |trace| - n <= i < |trace| ==> trace[i].ok == ok
  }

  lemma {:induction false} TrailingRun(trace: seq<Probe>, ok: bool, n: nat)
    ensures EndsWith(trace, n, ok) <==> n <= Trailing(trace, ok)
    decreases |trace|
  {
    if trace != [] && n > 0 {
      var front := trace[..|trace| - 1];
      TrailingRun(front, ok, n - 1);
      if EndsWith(trace, n, ok) {
        assert EndsWith(front, n - 1, ok);
      }
      if trace[|trace| - 1].ok == ok && EndsWith(front, n - 1, ok) {
        forall i | |trace| - n <= i < |trace| ensures trace[i].ok == ok {
          assert i < |front| ==> trace[i] == front[i];
        }
      }
    }
  }

  /** The counters are the lengths of the trailing runs. */
  lemma {:induction false} CountersAreRuns(downAfter: int, upAfter: int, trace: seq<Probe>)
    ensures var t := Run(downAfter, upAfter, trace);
            t.fails == Trailing(trace, false) && t.oks == Trailing(trace, true)
    decreases |trace|
  {
    if trace != [] {
      CountersAreRuns(downAfter, upAfter, trace[..|trace| - 1]);
    }
  }

  function StateAfter(downAfter: int, upAfter: int, trace: seq<Probe>): State { Run(downAfter, upAfter, trace).state }

  /** Whether the last probe of the trace changed the state. */
  predicate ChangesAtEnd(downAfter: int, upAfter: int, trace: seq<Probe>) {
    trace != [] && StateAfter(downAfter, upAfter, trace) != StateAfter(downAfter, upAfter, trace[..|trace| - 1])
  }

  /** The state has been the same during the last n probes and before them. */
  ghost predicate Steady(downAfter: int, upAfter: int, trace: seq<Probe>, n: nat, s: State) {
    n <= |trace| && forall k :: |trace| - n <= k <= |trace| ==> StateAfter(downAfter, upAfter, trace[..k]) == s
  }

  /** In state Down, all trailing successes came after the change to Down. */
  lemma {:induction false} SuccessesSinceDown(downAfter: int, upAfter: int, trace: seq<Probe>)
    requires downAfter >= 1 && StateAfter(downAfter, upAfter, trace) == Down
    ensures Steady(downAfter, upAfter, trace, Trailing(trace, true), Down)
    decreases |trace|
  {
    var n := Trailing(trace, true);
    assert trace[..|trace|] == trace;
    if n > 0 {
      var front := trace[..|trace| - 1];
      SuccessesSinceDown(downAfter, upAfter, front);
      forall k | |trace| - n <= k <= |trace| ensures StateAfter(downAfter, upAfter, trace[..k]) == Down {
        if k < |trace| {
          assert front[..k] == trace[..k];
        }
      }
    }
  }

  /** Every change is earned. Leaving Up takes `downAfter` consecutive failures, which end the trace.
      Leaving Down takes `upAfter` consecutive successes, all of them observed in state Down, that is
      since the previous change. Unknown is left by one success or by `downAfter` failures. */
  lemma ChangesAreEarned(downAfter: int, upAfter: int, trace: seq<Probe>)
    requires downAfter >= 1 && upAfter >= 1 && ChangesAtEnd(downAfter, upAfter, trace)
    ensures var before, now := StateAfter(downAfter, upAfter, trace[..|trace| - 1]),
            StateAfter(downAfter, upAfter, trace);
            && now != Unknown
            && (now == Down ==> EndsWith(trace, downAfter, false))
            && (before == Down ==> now == Up && EndsWith(trace, upAfter, true)
                                   && Steady(downAfter, upAfter, trace[..|trace| - 1], upAfter - 1, Down))
            && (before == Unknown && now == Up ==> trace[|trace| - 1].ok)
  {
    var front := trace[..|trace| - 1];
    CountersAreRuns(downAfter, upAfter, trace);
    CountersAreRuns(downAfter, upAfter, front);
    if StateAfter(downAfter, upAfter, trace) == Down {
      TrailingRun(trace, false, downAfter);
    }
    if StateAfter(downAfter, upAfter, front) == Down {
      TrailingRun(trace, true, upAfter);
      SuccessesSinceDown(downAfter, upAfter, front);
    }
  }

  /** At some point there were `downAfter` failures in a row, and never since `upAfter` successes in a row. */
  ghost predicate DownSince(downAfter: int, upAfter: int, trace: seq<Probe>) {
    exists k :: 0 <= k <= |trace| && EndsWithRun(trace[..k], downAfter, false) &&
                forall j :: k < j <= |trace| ==> !EndsWithRun(trace[..j], upAfter, true)
  }

  ghost predicate EndsWithRun(trace: seq<Probe>, n: int, ok: bool) { n >= 0 && EndsWith(trace, n, ok) }

  lemma DownSinceNext(downAfter: int, upAfter: int, trace: seq<Probe>)
    requires trace != []
    ensures DownSince(downAfter, upAfter, trace) <==>
            || EndsWithRun(trace, downAfter, false)
            || (DownSince(downAfter, upAfter, trace[..|trace| - 1]) && !EndsWithRun(trace, upAfter, true))
  {
    hide EndsWithRun;
    var front := trace[..|trace| - 1];
    assert trace[..|trace|] == trace;
    assert forall k :: 0 <= k <= |front| ==> front[..k] == trace[..k];
    if DownSince(downAfter, upAfter, trace) && !EndsWithRun(trace, downAfter, false) {
      var k :| 0 <= k <= |trace| && EndsWithRun(trace[..k], downAfter, false) &&
               forall j :: k < j <= |trace| ==> !EndsWithRun(trace[..j], upAfter, true);
      assert EndsWithRun(front[..k], downAfter, false);
    }
    if DownSince(downAfter, upAfter, front) && !EndsWithRun(trace, upAfter, true) {
      var k :| 0 <= k <= |front| && EndsWithRun(front[..k], downAfter, false) &&
               forall j :: k < j <= |front| ==> !EndsWithRun(front[..j], upAfter, true);
      assert EndsWithRun(trace[..k], downAfter, false);
      forall j | k < j <= |trace| ensures !EndsWithRun(trace[..j], upAfter, true) {
        assert j <= |front| ==> trace[..j] == front[..j];
      }
    }
  }

  /** What the state is, told by the trace alone: down exactly from `downAfter` failures in a row until
      `upAfter` successes in a row, unknown exactly during the first failures if they are fewer than that,
      and up otherwise. */
  lemma {:induction false} StateIsEarned(downAfter: int, upAfter: int, trace: seq<Probe>)
    requires downAfter >= 1 && upAfter >= 1
    ensures StateAfter(downAfter, upAfter, trace) == Down <==> DownSince(downAfter, upAfter, trace)
    ensures StateAfter(downAfter, upAfter, trace) == Unknown <==>
            |trace| < downAfter && forall i :: 0 <= i < |trace| ==> !trace[i].ok
    decreases |trace|
  {
    if trace != [] {
      var front := trace[..|trace| - 1];
      StateIsEarned(downAfter, upAfter, front);
      DownSinceNext(downAfter, upAfter, trace);
      CountersAreRuns(downAfter, upAfter, front);
      CountersAreRuns(downAfter, upAfter, trace);
      TrailingRun(trace, false, downAfter);
      TrailingRun(trace, true, upAfter);
      assert forall i :: 0 <= i < |front| ==> front[i] == trace[i];
      hide DownSince;
      if forall i :: 0 <= i < |trace| ==> !trace[i].ok {
        TrailingRun(trace, false, |trace|);
      }
    }
  }

  /** The latency is that of the last success, or 0 before the first. */
  lemma {:induction false} LatencyIsLast(downAfter: int, upAfter: int, trace: seq<Probe>)
    ensures (forall i :: 0 <= i < |trace| ==> !trace[i].ok) ==> Run(downAfter, upAfter, trace).latency == 0
    ensures forall i :: 0 <= i < |trace| && trace[i].ok && (forall j :: i < j < |trace| ==> !trace[j].ok) ==>
              Run(downAfter, upAfter, trace).latency == trace[i].latency
    decreases |trace|
  {
    if trace != [] {
      var front := trace[..|trace| - 1];
      LatencyIsLast(downAfter, upAfter, front);
      assert forall i :: 0 <= i < |front| ==> front[i] == trace[i];
    }
  }

  /** The number of state changes along a trace. */
  function Changes(downAfter: int, upAfter: int, trace: seq<Probe>): nat
    decreases |trace|
  {
    if trace == [] then 0
    else Changes(downAfter, upAfter, trace[..|trace| - 1]) + if ChangesAtEnd(downAfter, upAfter, trace) then 1 else 0
  }

  /** How many probes c changes take at the least, when the first one is to Up (it takes a single
      success), or to Down. */
  function LeastProbes(downAfter: nat, upAfter: nat, c: nat, firstUp: bool): nat {
    if c == 0 then 0
    else if firstUp then (c / 2) * downAfter + ((c - 1) / 2) * upAfter + 1
    else ((c + 1) / 2) * downAfter + (c / 2) * upAfter
  }

  /** Up after an odd number of changes exactly when the first was to Up. */
  predicate FirstUp(s: State, c: nat) { (s == Up) == (c % 2 == 1) }

  lemma LeastNext(downAfter: nat, upAfter: nat, c: nat, firstUp: bool)
    requires c >= 1
    ensures LeastProbes(downAfter, upAfter, c + 1, firstUp) ==
            LeastProbes(downAfter, upAfter, c, firstUp) + if (c % 2 == 1) == firstUp then downAfter else upAfter
  {
    var a, b := c / 2, (c + 1) / 2;
    assert c % 2 == 0 ==> b == a && (c - 1) / 2 == a - 1 && (c + 2) / 2 == a + 1;
    assert c % 2 == 1 ==> b == a + 1 && (c - 1) / 2 == a && (c + 2) / 2 == a + 1;
    assert (a + 1) * downAfter == a * downAfter + downAfter && (a + 1) * upAfter == a * upAfter + upAfter;
    assert (a - 1) * upAfter == a * upAfter - upAfter;
  }

  /** Hysteresis bounds flapping: c changes take at least that many probes, plus those already counted
      towards the next change. */
  lemma {:induction false} FlappingIsBounded(downAfter: nat, upAfter: nat, trace: seq<Probe>)
    requires downAfter >= 1 && upAfter >= 1
    ensures var t, c := Run(downAfter, upAfter, trace), Changes(downAfter, upAfter, trace);
            && (t.state == Unknown <==> c == 0)
            && |trace| >= LeastProbes(downAfter, upAfter, c, FirstUp(t.state, c))
                          + match t.state case Up => t.fails case Down => t.oks case Unknown => t.fails
    decreases |trace|
  {
    if trace != [] {
      var front := trace[..|trace| - 1];
      FlappingIsBounded(downAfter, upAfter, front);
      var c := Changes(downAfter, upAfter, front);
      if c >= 1 {
        LeastNext(downAfter, upAfter, c, FirstUp(StateAfter(downAfter, upAfter, front), c));
      }
    }
  }
}
