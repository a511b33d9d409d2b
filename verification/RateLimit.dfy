/** The hint rate limiter of power/nvpowerhal.cpp (check_hint) for one hint: which of a series of calls
    pass, and how many leases that leaves open at a time. Check times are in microseconds, as
    check_hint computes them; pushes and leases are in nanoseconds. */
module RateLimit {

  /** The microsecond reading of a nanosecond clock, truncated as check_hint does. */
  function Micros(ns: nat): nat {
    ns / 1000
  }

  /** `last` is 0 when no call has passed yet. */
  predicate Passes(last: nat, interval: nat, t: nat) {
    !(last != 0 && interval != 0 && t - last < interval)
  }

  /** The calls that pass, given the last one that did. */
  function Admit(calls: seq<nat>, last: nat, interval: nat): seq<nat> {
    if calls == [] then []
    else if Passes(last, interval, calls[0]) then [calls[0]] + Admit(calls[1..], calls[0], interval)
    else Admit(calls[1..], last, interval)
  }

  predicate Ascending(ts: seq<nat>) {
    forall i, j :: 0 <= i < j < |ts| ==> ts[i] <= ts[j]
  }

  /** Neighbours are at least the interval apart. */
  predicate Spaced(ts: seq<nat>, interval: nat) {
    forall i, j :: 0 <= i < |ts| && 0 <= j < |ts| && j == i + 1 ==> ts[i] + interval <= ts[j]
  }

  predicate Subsequence(xs: seq<nat>, ys: seq<nat>) {
    if xs == [] then true
    else if ys == [] then false
    else (xs[0] == ys[0] && Subsequence(xs[1..], ys[1..])) || Subsequence(xs, ys[1..])
  }

  // ---------- Greedy is optimal ----------

  lemma {:induction false} AdmitIsSubsequence(calls: seq<nat>, last: nat, interval: nat)
    ensures Subsequence(Admit(calls, last, interval), calls)
  {
    if calls != [] {
      if Passes(last, interval, calls[0]) {
        AdmitIsSubsequence(calls[1..], calls[0], interval);
        assert Admit(calls, last, interval)[1..] == Admit(calls[1..], calls[0], interval);
      } else {
        AdmitIsSubsequence(calls[1..], last, interval);
      }
    }
  }

  lemma {:induction false} AdmitIsSpaced(calls: seq<nat>, last: nat, interval: nat)
    requires interval > 0 && forall t :: t in calls ==> t > 0
    ensures Spaced(Admit(calls, last, interval), interval)
    ensures last != 0 && Admit(calls, last, interval) != [] ==> last + interval <= Admit(calls, last, interval)[0]
  {
    if calls != [] {
      assert calls[0] in calls && forall t :: t in calls[1..] ==> t in calls;
      if Passes(last, interval, calls[0]) {
        AdmitIsSpaced(calls[1..], calls[0], interval);
        var rest := Admit(calls[1..], calls[0], interval);
        var all := [calls[0]] + rest;
        forall i, j | 0 <= i < j < |all| && j == i + 1 ensures all[i] + interval <= all[j] {
          if i > 0 { assert all[i] == rest[i - 1] && all[j] == rest[j - 1]; }
        }
      } else {
        AdmitIsSpaced(calls[1..], last, interval);
      }
    }
  }

  lemma {:induction false} SubsequenceMembers(xs: seq<nat>, ys: seq<nat>)
    requires Subsequence(xs, ys)
    ensures forall x :: x in xs ==> x in ys
  {
    if xs != [] {
      if xs[0] == ys[0] && Subsequence(xs[1..], ys[1..]) {
        SubsequenceMembers(xs[1..], ys[1..]);
        assert xs == [xs[0]] + xs[1..];
      } else {
        SubsequenceMembers(xs, ys[1..]);
      }
    }
  }

  /** Any other choice of calls with the same spacing, starting no earlier than the limiter may, is
      no longer than what the limiter admits. */
  lemma {:induction false} NoLongerThanAdmitted(xs: seq<nat>, calls: seq<nat>, last: nat, interval: nat)
    requires Ascending(calls) && forall t :: t in calls ==> t > 0
    requires Subsequence(xs, calls) && Spaced(xs, interval) && interval > 0
    requires last != 0 && xs != [] ==> last + interval <= xs[0]
    ensures |xs| <= |Admit(calls, last, interval)|
    decreases |calls|
  {
    if xs != [] {
      var t, rest := calls[0], calls[1..];
      SubsequenceMembers(xs, calls);
      assert t in calls && xs[0] in calls && t <= xs[0];
      assert forall s :: s in rest ==> s in calls;
      if Passes(last, interval, t) {
        SubsequenceTail(xs, calls);
        assert Spaced(xs[1..], interval);
        NoLongerThanAdmitted(xs[1..], rest, t, interval);
      } else {
        NoLongerThanAdmitted(xs, rest, last, interval);
      }
    }
  }

  lemma {:induction false} SubsequenceTail(xs: seq<nat>, ys: seq<nat>)
    requires xs != [] && Subsequence(xs, ys)
    ensures ys != [] && Subsequence(xs[1..], ys[1..])
  {
    if !(xs[0] == ys[0] && Subsequence(xs[1..], ys[1..])) {
      SubsequenceTail(xs, ys[1..]);
    }
  }

  /** The limiter admits a spaced selection of the calls, and no spaced selection is longer. */
  lemma LimiterIsOptimal(calls: seq<nat>, interval: nat)
    requires Ascending(calls) && interval > 0 && forall t :: t in calls ==> t > 0
    ensures var admitted := Admit(calls, 0, interval);
            && Subsequence(admitted, calls) && Spaced(admitted, interval)
            && forall xs :: Subsequence(xs, calls) && Spaced(xs, interval) ==> |xs| <= |admitted|
  {
    AdmitIsSubsequence(calls, 0, interval);
    AdmitIsSpaced(calls, 0, interval);
    forall xs | Subsequence(xs, calls) && Spaced(xs, interval) ensures |xs| <= |Admit(calls, 0, interval)| {
      NoLongerThanAdmitted(xs, calls, 0, interval);
    }
  }

  /** With interval 0 every call passes. */
  lemma {:induction false} NoIntervalAdmitsAll(calls: seq<nat>, last: nat)
    ensures Admit(calls, last, 0) == calls
  {
    if calls != [] { NoIntervalAdmitsAll(calls[1..], calls[0]); }
  }

  lemma {:induction false} AdmitOneMore(calls: seq<nat>, last: nat, interval: nat, t: nat)
    ensures var before := Admit(calls, last, interval);
            var last' := if before == [] then last else before[|before| - 1];
            Admit(calls + [t], last, interval) == before + (if Passes(last', interval, t) then [t] else [])
  {
    if calls == [] {
      assert calls + [t] == [t];
    } else {
      assert (calls + [t])[1..] == calls[1..] + [t];
      AdmitOneMore(calls[1..], if Passes(last, interval, calls[0]) then calls[0] else last, interval, t);
    }
  }
}
