/** How many of the leases that a rate limiter lets through run at one time: bounds, and that they are exact. Checks are
    in microseconds, pushes and leases in nanoseconds. */
module LeaseOverlap {
  import opened RateLimit

  // ---------- How many leases overlap ----------

  lemma {:induction false} SpacedGap(ts: seq<nat>, interval: nat, i: nat, j: nat)
    requires Spaced(ts, interval) && i <= j < |ts|
    ensures ts[i] + (j - i) * interval <= ts[j]
  {
    if i < j {
      SpacedGap(ts, interval, i, j - 1);
      assert (j - i) * interval == (j - 1 - i) * interval + interval;
    }
  }

  /** Each push happens after its own check and before the next one. */
  predicate PushedAfterChecks(checks: seq<nat>, pushes: seq<nat>) {
    && |pushes| <= |checks|
    && (forall i {:trigger pushes[i]} :: 0 <= i < |pushes| ==> checks[i] <= Micros(pushes[i]))
    && (forall i {:trigger pushes[i]} :: 0 <= i < |pushes| && i + 1 < |checks| ==> Micros(pushes[i]) <= checks[i + 1])
  }

  /** Each push happens in the microsecond of its check. */
  predicate PushedAtChecks(checks: seq<nat>, pushes: seq<nat>) {
    |pushes| <= |checks| && forall i :: 0 <= i < |pushes| ==> checks[i] == Micros(pushes[i])
  }

  lemma CountByGap(n: nat, interval: nat, span: nat)
    requires interval > 0 && n * interval <= span
    ensures n <= span / interval
  {
    var q := span / interval;
    assert span == q * interval + span % interval;
    ProductGrows(n, q, interval);
  }

  lemma {:induction false} ProductGrows(n: nat, q: nat, interval: nat)
    ensures n > q ==> n * interval >= q * interval + interval
  {
    if n > q + 1 { ProductGrows(n - 1, q, interval); }
    assert n > 0 ==> n * interval == (n - 1) * interval + interval;
  }

  lemma MicrosApart(a: nat, b: nat, d: nat)
    requires a <= b <= a + d * 1000
    ensures Micros(b) <= Micros(a) + d
  {
  }

  /** Pushes that are all at most `d` microseconds old number at most d/interval + 2. */
  lemma OverlapBound(checks: seq<nat>, pushes: seq<nat>, interval: nat, d: nat, now: nat, first: nat)
    requires interval > 0 && Spaced(checks, interval) && PushedAfterChecks(checks, pushes)
    requires first < |pushes| && Ascending(pushes) && pushes[|pushes| - 1] <= now <= pushes[first] + d * 1000
    ensures |pushes| - first <= d / interval + 2
  {
    var n := |pushes|;
    if first + 1 < n {
      MicrosApart(pushes[first], pushes[n - 1], d);
      BetweenChecks(checks, pushes, first);
      hide Spaced, PushedAfterChecks, Ascending, Micros;
      SpacedGap(checks, interval, first + 1, n - 1);
      CountByGap(n - 1 - (first + 1), interval, d);
    }
  }

  lemma BetweenChecks(checks: seq<nat>, pushes: seq<nat>, first: nat)
    requires PushedAfterChecks(checks, pushes) && first + 1 < |pushes|
    ensures Micros(pushes[first]) <= checks[first + 1] && checks[|pushes| - 1] <= Micros(pushes[|pushes| - 1])
  {
    hide Micros;
  }

  /** One fewer when each push is made in the microsecond of its check. */
  lemma TightOverlapBound(checks: seq<nat>, pushes: seq<nat>, interval: nat, d: nat, now: nat, first: nat)
    requires interval > 0 && Spaced(checks, interval) && PushedAtChecks(checks, pushes)
    requires first < |pushes| && Ascending(pushes) && pushes[|pushes| - 1] <= now <= pushes[first] + d * 1000
    ensures |pushes| - first <= d / interval + 1
  {
    var n := |pushes|;
    MicrosApart(pushes[first], pushes[n - 1], d);
    SpacedGap(checks, interval, first, n - 1);
    CountByGap(n - 1 - first, interval, d);
  }

  /** On a clock that ticks in whole microseconds, with leases still running strictly. */
  lemma AlignedOverlapBound(checks: seq<nat>, pushes: seq<nat>, interval: nat, d: nat, now: nat, first: nat)
    requires interval > 0 && d > 0 && Spaced(checks, interval) && PushedAtChecks(checks, pushes)
    requires first < |pushes| && Ascending(pushes) && pushes[|pushes| - 1] <= now < pushes[first] + d * 1000
    requires pushes[first] % 1000 == 0
    ensures |pushes| - first <= (d - 1) / interval + 1
  {
    var n := |pushes|;
    assert Micros(now) <= Micros(pushes[first]) + (d - 1);
    assert checks[n - 1] <= Micros(now);
    SpacedGap(checks, interval, first, n - 1);
    CountByGap(n - 1 - first, interval, d - 1);
  }

  // ---------- Streams of calls and pushes ----------

  /** When the pushes of the admitted calls come: at any time before the next check, in the microsecond of the check, or
      moreover on a clock of whole microseconds. */
  datatype Timing = AnyDelay | SameMicro | WholeMicro

  predicate PushedBy(timing: Timing, checks: seq<nat>, pushes: seq<nat>) {
    match timing
    case AnyDelay => PushedAfterChecks(checks, pushes)
    case SameMicro => PushedAtChecks(checks, pushes)
    case WholeMicro => PushedAtChecks(checks, pushes) && forall t :: t in pushes ==> t % 1000 == 0
  }

  predicate Positive(calls: seq<nat>) {
    forall t :: t in calls ==> t > 0
  }

  predicate Stream(timing: Timing, calls: seq<nat>, interval: nat, pushes: seq<nat>) {
    && Ascending(calls) && Positive(calls)
    && PushedBy(timing, Admit(calls, 0, interval), pushes) && Ascending(pushes)
  }

  /** At the last push, the lease of push `first` is still running, and so are all those in between. */
  predicate RunningAtLast(pushes: seq<nat>, d: nat, first: nat) {
    first < |pushes| && pushes[|pushes| - 1] < pushes[first] + d * 1000
  }

  /** No stream ever has more than `n` leases running at once. */
  ghost predicate Suffices(timing: Timing, interval: nat, d: nat, n: nat) {
    forall calls, pushes, first :: Stream(timing, calls, interval, pushes) && RunningAtLast(pushes, d, first) ==>
      |pushes| - first <= n
  }

  function MostLeases(timing: Timing, interval: nat, d: nat): nat
    requires interval > 0 && d > 0
  {
    match timing
    case AnyDelay => d / interval + 2
    case SameMicro => d / interval + 1
    case WholeMicro => (d - 1) / interval + 1
  }

  // ---------- The bounds are reached ----------

  /** Calls on the beat: one interval apart, from `start` on. */
  function Beat(start: nat, interval: nat, n: nat): seq<nat>
    decreases n
  {
    if n == 0 then [] else [start] + Beat(start + interval, interval, n - 1)
  }

  lemma {:induction false} BeatAt(start: nat, interval: nat, n: nat, i: nat)
    requires i < n
    ensures |Beat(start, interval, n)| == n && Beat(start, interval, n)[i] == start + i * interval
    decreases n
  {
    BeatLength(start, interval, n);
    if i > 0 {
      BeatAt(start + interval, interval, n - 1, i - 1);
      assert i * interval == (i - 1) * interval + interval;
    }
  }

  lemma {:induction false} BeatLength(start: nat, interval: nat, n: nat)
    ensures |Beat(start, interval, n)| == n
    decreases n
  {
    if n > 0 { BeatLength(start + interval, interval, n - 1); }
  }

  lemma {:induction false} BeatAdmitted(start: nat, interval: nat, n: nat, last: nat)
    requires start > 0 && (last == 0 || last + interval <= start)
    ensures Admit(Beat(start, interval, n), last, interval) == Beat(start, interval, n)
    decreases n
  {
    if n > 0 {
      var calls := Beat(start, interval, n);
      assert calls[1..] == Beat(start + interval, interval, n - 1);
      BeatAdmitted(start + interval, interval, n - 1, start);
    }
  }

  /** The first push comes at the end of its microsecond, the others at the beginning of theirs. */
  function LateFirst(calls: seq<nat>): seq<nat> {
    seq(|calls|, i requires 0 <= i < |calls| => calls[i] * 1000 + if i == 0 then 999 else 0)
  }

  /** For any interval and any duration some calls leave d/interval + 1 leases running at once, each pushed in
      the microsecond of its check: for AUDIO that is three. */
  lemma TightBoundReached(interval: nat, d: nat) returns (calls: seq<nat>, pushes: seq<nat>)
    requires interval > 0 && d > 0
    ensures Stream(SameMicro, calls, interval, pushes) && |pushes| == d / interval + 1
    ensures RunningAtLast(pushes, d, 0)
  {
    hide OnTheBeat, Stream, RunningAtLast, Beat, LateFirst;
    calls := Beat(1, interval, d / interval + 1);
    pushes := LateFirst(calls);
    WholeIntervals(interval, d);
    BeatSpan(interval, d, d / interval + 1);
    BeatStream(interval, d / interval + 1);
    LateFirstStream(calls, interval, d);
  }

  lemma LateFirstStream(calls: seq<nat>, interval: nat, d: nat)
    requires calls != [] && OnTheBeat(calls, interval) && d > 0 && calls[|calls| - 1] <= calls[0] + d
    ensures Stream(SameMicro, calls, interval, LateFirst(calls)) && RunningAtLast(LateFirst(calls), d, 0)
    ensures |LateFirst(calls)| == |calls|
  {
    hide Admit, Ascending, PushedAtChecks, Positive;
    assert forall i, j :: 0 <= i < j < |calls| ==> calls[i] < calls[j];
    LateFirstFits(calls);
  }

  lemma BeatSpan(interval: nat, d: nat, n: nat)
    requires n >= 1 && (n - 1) * interval <= d
    ensures var calls := Beat(1, interval, n);
            |calls| == n && calls[n - 1] <= calls[0] + d
  {
    BeatAt(1, interval, n, 0);
    BeatAt(1, interval, n, n - 1);
  }

  /** With pushes on whole microseconds, (d-1)/interval + 1. */
  lemma AlignedBoundReached(interval: nat, d: nat) returns (calls: seq<nat>, pushes: seq<nat>)
    requires interval > 0 && d > 0
    ensures Stream(WholeMicro, calls, interval, pushes) && |pushes| == (d - 1) / interval + 1
    ensures RunningAtLast(pushes, d, 0)
  {
    hide OnTheBeat, Stream, RunningAtLast, Beat, OnTheDot;
    calls := Beat(1, interval, (d - 1) / interval + 1);
    pushes := OnTheDot(calls);
    WholeIntervals(interval, d - 1);
    BeatSpan(interval, d - 1, (d - 1) / interval + 1);
    BeatStream(interval, (d - 1) / interval + 1);
    OnTheDotStream(calls, interval, d);
  }

  lemma OnTheDotStream(calls: seq<nat>, interval: nat, d: nat)
    requires calls != [] && OnTheBeat(calls, interval) && d > 0 && calls[|calls| - 1] <= calls[0] + (d - 1)
    ensures Stream(WholeMicro, calls, interval, OnTheDot(calls)) && RunningAtLast(OnTheDot(calls), d, 0)
    ensures |OnTheDot(calls)| == |calls|
  {
    hide Admit, PushedAtChecks, Positive;
    OnTheDotFits(calls);
  }

  /** Each push comes at the beginning of its microsecond. */
  function OnTheDot(calls: seq<nat>): seq<nat> {
    seq(|calls|, i requires 0 <= i < |calls| => calls[i] * 1000)
  }

  lemma OnTheDotFits(calls: seq<nat>)
    requires Ascending(calls)
    ensures PushedAtChecks(calls, OnTheDot(calls)) && Ascending(OnTheDot(calls))
    ensures forall t :: t in OnTheDot(calls) ==> t % 1000 == 0
  {
  }

  ghost predicate OnTheBeat(calls: seq<nat>, interval: nat) {
    && Ascending(calls) && Positive(calls) && Admit(calls, 0, interval) == calls
    && forall i, j :: 0 <= i < j < |calls| ==> calls[i] < calls[j]
  }

  lemma BeatStream(interval: nat, n: nat)
    requires interval > 0
    ensures OnTheBeat(Beat(1, interval, n), interval)
  {
    BeatAdmitted(1, interval, n, 0);
    BeatIncreases(1, interval, n);
    BeatLength(1, interval, n);
    var calls := Beat(1, interval, n);
    forall t | t in calls ensures t > 0 {
      var i :| 0 <= i < n && calls[i] == t;
      BeatAt(1, interval, n, i);
    }
  }

  lemma WholeIntervals(interval: nat, d: nat)
    requires interval > 0
    ensures d / interval * interval <= d
  {
  }

  lemma BeatIncreases(start: nat, interval: nat, n: nat)
    requires interval > 0
    ensures forall i, j :: 0 <= i < j < |Beat(start, interval, n)| ==>
              Beat(start, interval, n)[i] < Beat(start, interval, n)[j]
  {
    BeatLength(start, interval, n);
    forall i, j | 0 <= i < j < n ensures Beat(start, interval, n)[i] < Beat(start, interval, n)[j] {
      BeatAt(start, interval, n, i);
      BeatAt(start, interval, n, j);
      ProductGrows(j, i, interval);
    }
  }

  lemma LateFirstFits(calls: seq<nat>)
    requires forall i, j :: 0 <= i < j < |calls| ==> calls[i] < calls[j]
    ensures PushedAtChecks(calls, LateFirst(calls)) && Ascending(LateFirst(calls))
  {
  }

  /** With time passing between the check and the push of a call, d/interval + 2 leases can run at once. */
  lemma GeneralBoundReached(interval: nat, d: nat) returns (calls: seq<nat>, pushes: seq<nat>)
    requires interval > 0 && d > 0
    ensures Stream(AnyDelay, calls, interval, pushes) && |pushes| == d / interval + 2
    ensures RunningAtLast(pushes, d, 0)
  {
    hide OnTheBeat, Stream, RunningAtLast, Beat, Delayed;
    WholeIntervals(interval, d);
    BeatEnds(interval, d, d / interval + 2);
    BeatStream(interval, d / interval + 2);
    calls := Beat(1, interval, d / interval + 2);
    pushes := Delayed(calls);
    DelayedStream(calls, interval, d);
  }

  lemma DelayedStream(calls: seq<nat>, interval: nat, d: nat)
    requires |calls| >= 2 && OnTheBeat(calls, interval) && d > 0
    requires calls[|calls| - 1] <= calls[1] + d
    ensures Stream(AnyDelay, calls, interval, Delayed(calls)) && RunningAtLast(Delayed(calls), d, 0)
  {
    hide Admit, Ascending, PushedAfterChecks, Positive;
    assert forall i, j :: 0 <= i < j < |calls| ==> calls[i] < calls[j];
    DelayedFits(calls);
    StillRunning(calls, d);
  }

  lemma StillRunning(calls: seq<nat>, d: nat)
    requires |calls| >= 2 && calls[|calls| - 1] <= calls[1] + d && d > 0
    ensures Delayed(calls)[|calls| - 1] < Delayed(calls)[0] + d * 1000
  {
  }

  lemma BeatEnds(interval: nat, d: nat, n: nat)
    requires n >= 2 && (n - 2) * interval <= d
    ensures var calls := Beat(1, interval, n);
            |calls| == n && calls[n - 1] <= calls[1] + d
  {
    BeatAt(1, interval, n, 1);
    BeatAt(1, interval, n, n - 1);
    assert (n - 1) * interval == (n - 2) * interval + interval;
  }

  /** The first push comes as late as the second call allows. */
  function Delayed(calls: seq<nat>): (pushes: seq<nat>)
    requires |calls| >= 2
    ensures |pushes| == |calls| && pushes[0] == pushes[1] == calls[1] * 1000 + 999
    ensures forall i :: 2 <= i < |calls| ==> pushes[i] == calls[i] * 1000
  {
    [calls[1] * 1000 + 999] + LateFirst(calls[1..])
  }

  lemma DelayedFits(calls: seq<nat>)
    requires |calls| >= 2 && forall i, j :: 0 <= i < j < |calls| ==> calls[i] < calls[j]
    ensures PushedAfterChecks(calls, Delayed(calls)) && Ascending(Delayed(calls))
  {
    LateFirstFits(calls[1..]);
  }

  // ---------- The bounds are exact ----------

  lemma NoMoreThan(timing: Timing, calls: seq<nat>, interval: nat, pushes: seq<nat>, d: nat, first: nat)
    requires interval > 0 && d > 0 && Stream(timing, calls, interval, pushes) && RunningAtLast(pushes, d, first)
    ensures |pushes| - first <= MostLeases(timing, interval, d)
  {
    AdmitIsSpaced(calls, 0, interval);
    var checks, now := Admit(calls, 0, interval), pushes[|pushes| - 1];
    match timing
    case AnyDelay => OverlapBound(checks, pushes, interval, d, now, first);
    case SameMicro => TightOverlapBound(checks, pushes, interval, d, now, first);
    case WholeMicro =>
      assert pushes[first] in pushes;
      AlignedOverlapBound(checks, pushes, interval, d, now, first);
  }

  lemma ReachedBy(timing: Timing, interval: nat, d: nat) returns (calls: seq<nat>, pushes: seq<nat>)
    requires interval > 0 && d > 0
    ensures Stream(timing, calls, interval, pushes) && RunningAtLast(pushes, d, 0)
    ensures |pushes| == MostLeases(timing, interval, d)
  {
    match timing
    case AnyDelay => calls, pushes := GeneralBoundReached(interval, d);
    case SameMicro => calls, pushes := TightBoundReached(interval, d);
    case WholeMicro => calls, pushes := AlignedBoundReached(interval, d);
  }

  /** For each way of timing the pushes, `n` leases suffice for every stream of calls if and only if `n` is at least
      the bound. */
  lemma SufficesIff(timing: Timing, interval: nat, d: nat, n: nat)
    requires interval > 0 && d > 0
    ensures Suffices(timing, interval, d, n) <==> n >= MostLeases(timing, interval, d)
  {
    hide Stream, RunningAtLast, MostLeases;
    forall calls, pushes, first | Stream(timing, calls, interval, pushes) && RunningAtLast(pushes, d, first)
      ensures |pushes| - first <= MostLeases(timing, interval, d)
    {
      NoMoreThan(timing, calls, interval, pushes, d, first);
    }
    var calls, pushes := ReachedBy(timing, interval, d);
  }
}
