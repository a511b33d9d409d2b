/** When the leases that a rate limiter lets through follow on without a gap. Calls and leases are on a nanosecond
    clock, the limiter compares microseconds. */
module LeaseCoverage {
  import opened RateLimit

  /** The times of the calls that pass, `last` being the microsecond of the last one that did. */
  function AdmitAt(calls: seq<nat>, last: nat, interval: nat): seq<nat> {
    if calls == [] then []
    else if Passes(last, interval, Micros(calls[0])) then [calls[0]] + AdmitAt(calls[1..], Micros(calls[0]), interval)
    else AdmitAt(calls[1..], last, interval)
  }

  function AllMicros(ts: seq<nat>): seq<nat> {
    if ts == [] then [] else [Micros(ts[0])] + AllMicros(ts[1..])
  }

  /** In microseconds these are the calls that the limiter admits. */
  lemma {:induction false} AdmitAtIsAdmit(calls: seq<nat>, last: nat, interval: nat)
    ensures AllMicros(AdmitAt(calls, last, interval)) == Admit(AllMicros(calls), last, interval)
  {
    if calls != [] {
      assert AllMicros(calls)[1..] == AllMicros(calls[1..]);
      if Passes(last, interval, Micros(calls[0])) {
        AdmitAtIsAdmit(calls[1..], Micros(calls[0]), interval);
        assert AdmitAt(calls, last, interval)[1..] == AdmitAt(calls[1..], Micros(calls[0]), interval);
      } else {
        AdmitAtIsAdmit(calls[1..], last, interval);
      }
    }
  }

  /** Calls come at most `gap` apart. */
  predicate Steady(calls: seq<nat>, gap: nat) {
    forall i :: 0 < i < |calls| ==> calls[i - 1] <= calls[i] <= calls[i - 1] + gap
  }

  /** The clock has reached its first microsecond. */
  predicate Started(calls: seq<nat>) {
    forall c :: c in calls ==> c >= 1000
  }

  ghost predicate Covered(admitted: seq<nat>, d: nat, t: nat) {
    exists a :: a in admitted && a <= t < a + d
  }

  /** Leases of `d` microseconds, taken at the calls that pass, leave no instant out from the first call to the last. */
  ghost predicate AlwaysCovered(interval: nat, d: nat, gap: nat) {
    forall calls: seq<nat>, t ::
      calls != [] && Started(calls) && Steady(calls, gap) && calls[0] <= t <= calls[|calls| - 1] ==>
        Covered(AdmitAt(calls, 0, interval), d * 1000, t)
  }

  lemma {:induction false} SteadyAscends(calls: seq<nat>, gap: nat, i: nat, j: nat)
    requires Steady(calls, gap) && i <= j < |calls|
    ensures calls[i] <= calls[j]
  {
    if i < j { SteadyAscends(calls, gap, i, j - 1); }
  }

  /** Each call comes less than one interval after some admitted one, or is admitted itself; `p` is the call admitted
      last, at microsecond `last`, if there is one. */
  lemma {:induction false} NearAdmitted(calls: seq<nat>, p: nat, last: nat, interval: nat, i: nat) returns (a: nat)
    requires interval > 0 && i < |calls| && Ascending(calls) && Started(calls)
    requires last != 0 ==> last == Micros(p) && p <= calls[0]
    ensures a in AdmitAt(calls, last, interval) || (a == p && last != 0)
    ensures a <= calls[i] && Micros(calls[i]) < Micros(a) + interval
    decreases i
  {
    assert calls[0] in calls;
    var passes := Passes(last, interval, Micros(calls[0]));
    var next, at := if passes then calls[0] else p, if passes then Micros(calls[0]) else last;
    if i == 0 {
      a := next;
    } else {
      assert forall c :: c in calls[1..] ==> c in calls;
      a := NearAdmitted(calls[1..], next, at, interval, i - 1);
    }
  }

  lemma {:induction false} CallBefore(calls: seq<nat>, gap: nat, t: nat) returns (i: nat)
    requires calls != [] && Steady(calls, gap) && calls[0] <= t <= calls[|calls| - 1]
    ensures i < |calls| && calls[i] <= t && (t == calls[i] || t < calls[i] + gap)
    decreases |calls|
  {
    var n := |calls| - 1;
    if t == calls[n] {
      i := n;
    } else if calls[n - 1] <= t {
      i := n - 1;
    } else {
      i := CallBefore(calls[..n], gap, t);
    }
  }

  lemma SteadyIsCovered(calls: seq<nat>, interval: nat, d: nat, gap: nat, t: nat)
    requires interval > 0 && gap > 0 && gap + interval * 1000 <= d * 1000 + 1
    requires calls != [] && Started(calls) && Steady(calls, gap)
    requires calls[0] <= t <= calls[|calls| - 1]
    ensures Covered(AdmitAt(calls, 0, interval), d * 1000, t)
  {
    forall i, j | 0 <= i < j < |calls| ensures calls[i] <= calls[j] { SteadyAscends(calls, gap, i, j); }
    var i := CallBefore(calls, gap, t);
    var a := NearAdmitted(calls, 0, 0, interval, i);
    assert calls[i] < a + interval * 1000;
    assert a in AdmitAt(calls, 0, interval) && a <= t < a + d * 1000;
  }

  // ---------- A stream that leaves a hole ----------

  /** From `from` to `to` in steps of `gap`. */
  function Ramp(from: nat, to: nat, gap: nat): seq<nat>
    requires gap > 0
    decreases if from < to then to - from else 0
  {
    if from >= to then [to] else [from] + Ramp(from + gap, to, gap)
  }

  lemma {:induction false} RampSteady(from: nat, to: nat, gap: nat)
    requires gap > 0 && 0 < from && from <= to + gap
    ensures var r := Ramp(from, to, gap);
            && Steady(r, gap) && r[0] == (if from < to then from else to) && r[|r| - 1] == to
            && (forall c :: c in r ==> (if from < to then from else to) <= c <= to)
    decreases if from < to then to - from else 0
  {
    if from < to {
      RampSteady(from + gap, to, gap);
      var rest, r := Ramp(from + gap, to, gap), Ramp(from, to, gap);
      assert r == [from] + rest;
      StepFirst(from, rest, gap);
      hide Ramp, Steady;
      assert r[|r| - 1] == rest[|rest| - 1];
    }
  }

  lemma StepFirst(from: nat, rest: seq<nat>, gap: nat)
    requires rest != [] && Steady(rest, gap) && from <= rest[0] <= from + gap
    ensures Steady([from] + rest, gap)
  {
    var r := [from] + rest;
    assert forall i :: 0 < i < |r| ==> r[i] == rest[i - 1];
  }

  /** Calls within one interval of the last admitted one are all turned down. */
  lemma {:induction false} EarlyCallsRejected(early: seq<nat>, rest: seq<nat>, last: nat, interval: nat)
    requires last > 0 && interval > 0 && forall c :: c in early ==> last <= Micros(c) < last + interval
    ensures AdmitAt(early + rest, last, interval) == AdmitAt(rest, last, interval)
  {
    if early == [] {
      assert early + rest == rest;
    } else {
      assert (early + rest)[1..] == early[1..] + rest && early[0] in early;
      assert forall c :: c in early[1..] ==> c in early;
      EarlyCallsRejected(early[1..], rest, last, interval);
    }
  }

  /** A call at the start of its microsecond, which passes; then early ones up to the last nanosecond before one could
      pass; and one as late as allowed. */
  function LateCalls(interval: nat, gap: nat): seq<nat>
    requires gap > 0
  {
    Ramp(1000, 999 + interval * 1000, gap) + [999 + interval * 1000 + gap]
  }

  lemma LateCallsSteady(interval: nat, gap: nat)
    requires interval > 0 && gap > 0
    ensures var calls := LateCalls(interval, gap);
            && calls[0] == 1000 && |calls| > 1 && calls[|calls| - 1] == 999 + interval * 1000 + gap
            && Steady(calls, gap) && Started(calls)
  {
    RampSteady(1000, 999 + interval * 1000, gap);
  }

  lemma LateCallsAdmitted(interval: nat, gap: nat)
    requires interval > 0 && gap > 0
    ensures AdmitAt(LateCalls(interval, gap), 0, interval) == [1000, 999 + interval * 1000 + gap]
  {
    var early, late := Ramp(1000, 999 + interval * 1000, gap), 999 + interval * 1000 + gap;
    RampSteady(1000, 999 + interval * 1000, gap);
    forall c | c in early[1..] ensures 1 <= Micros(c) < 1 + interval { assert c in early; }
    assert (early + [late])[1..] == early[1..] + [late] && (early + [late])[0] == 1000;
    EarlyCallsRejected(early[1..], [late], 1, interval);
    AdmitLast(1, interval, late);
  }

  lemma AdmitLast(last: nat, interval: nat, t: nat)
    requires Passes(last, interval, Micros(t))
    ensures AdmitAt([t], last, interval) == [t]
  {
  }

  lemma LateCallLeavesHole(interval: nat, d: nat, gap: nat)
    requires interval > 0 && gap > 0 && gap + interval * 1000 > d * 1000 + 1
    ensures !AlwaysCovered(interval, d, gap)
  {
    var calls, t := LateCalls(interval, gap), 998 + interval * 1000 + gap;
    LateCallsSteady(interval, gap);
    LateCallsAdmitted(interval, gap);
    NotCovered(t + 1, d * 1000, t);
    hide AdmitAt, LateCalls, Covered;
    assert calls[0] <= t <= calls[|calls| - 1];
  }

  lemma NotCovered(late: nat, d: nat, t: nat)
    requires 1000 + d <= t < late
    ensures !Covered([1000, late], d, t)
  {
  }

  /** Leases of `d` microseconds behind a limiter of `interval` microseconds follow on without a gap, for every
      stream of calls at most `gap` nanoseconds apart, if and only if gap + 1000 * interval <= 1000 * d + 1. For the
      interaction boost (90000, 100000) this allows calls up to 10 ms and 1 ns apart. */
  lemma CoveredIff(interval: nat, d: nat, gap: nat)
    requires interval > 0 && gap > 0
    ensures AlwaysCovered(interval, d, gap) <==> gap + interval * 1000 <= d * 1000 + 1
  {
    if gap + interval * 1000 > d * 1000 + 1 {
      LateCallLeavesHole(interval, d, gap);
    } else {
      forall calls: seq<nat>, t |
        calls != [] && Started(calls) && Steady(calls, gap) && calls[0] <= t <= calls[|calls| - 1]
        ensures Covered(AdmitAt(calls, 0, interval), d * 1000, t)
      {
        SteadyIsCovered(calls, interval, d, gap, t);
      }
    }
  }
}
