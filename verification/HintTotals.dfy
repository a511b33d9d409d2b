/** How many descriptors the rate-limited hints hold at a time, all constraints taken together. Calls come one at a
    time, so a call that takes long enough to give one constraint more than its share keeps the other hints out. */
module HintTotals {
  import opened Wrappers
  import opened PokerEngine
  import opened EngineInvariant
  import EngineProgress
  import opened RateLimit
  import opened LeaseOverlap
  import opened PowerHints
  import opened HintBounds

  // ---------- Calls come one at a time ----------

  /** None of the `others` falls between a check and the push it leads to. */
  ghost predicate Apart(checks: seq<nat>, times: seq<nat>, others: seq<nat>) {
    && |times| <= |checks|
    && forall k, m {:trigger times[k], others[m]} :: 0 <= k < |times| && 0 <= m < |others| ==>
         Micros(others[m]) <= checks[k] || times[k] <= others[m]
  }

  ghost predicate NoLaterThan(times: seq<nat>, t: nat) {
    forall i :: 0 <= i < |times| ==> Micros(times[i]) <= t
  }

  /** No hint pushes anything while a call of another one is being processed. */
  ghost predicate Serial(hal: Hal) {
    && (forall r, s :: IsSlot(r) && IsSlot(s) && r.hint != s.hint ==>
          Apart(Of(hal.checks, r.hint), Of(hal.times, r), Of(hal.times, s)))
    && (hal.call.Some? ==> forall s :: IsSlot(s) && s.hint != hal.call.value.hint ==>
          NoLaterThan(Of(hal.times, s), hal.call.value.t))
  }

  lemma ApartAfterCheck(checks: seq<nat>, times: seq<nat>, others: seq<nat>, t: nat)
    requires Apart(checks, times, others)
    ensures Apart(checks + [t], times, others)
  {
  }

  lemma ApartAfterPush(checks: seq<nat>, times: seq<nat>, others: seq<nat>, now: nat)
    requires Apart(checks, times, others) && |times| < |checks| && NoLaterThan(others, checks[|times|])
    ensures Apart(checks, times + [now], others)
  {
    hide Micros;
  }

  lemma ApartAfterOther(checks: seq<nat>, times: seq<nat>, others: seq<nat>, now: nat)
    requires Apart(checks, times, others) && forall t :: t in times ==> t <= now
    ensures Apart(checks, times, others + [now])
  {
    hide Micros;
    assert forall k :: 0 <= k < |times| ==> times[k] in times;
  }

  lemma BegunChecks(hal: Hal, h: Hint, data: bool, g: Hint)
    requires hal.call == None
    ensures var begun := DoBegin(hal, h, data);
            && begun.times == hal.times
            && (|| Of(begun.checks, g) == Of(hal.checks, g)
                || Of(begun.checks, g) == Of(hal.checks, g) + [Micros(Clock(hal))])
  {
    hide Micros, Clock, Noted, CheckHint, Of;
    NotedAddsNone(hal, h);
    match CheckHint(hal, h)
    case None =>
    case Some(t) =>
      CheckedNow(hal, h);
      OneMoreCheckOf(hal.checks, h, t, g);
  }

  lemma OneMoreCheckOf(checks: map<Hint, seq<nat>>, h: Hint, t: nat, g: Hint)
    ensures var more := Of(checks[h := Of(checks, h) + [t]], g);
            more == Of(checks, g) || more == Of(checks, g) + [t]
  {
  }

  lemma PushesPast(hal: Hal, s: Slot)
    requires SlotOk(hal, s)
    ensures NoLaterThan(Of(hal.times, s), Micros(Clock(hal)))
  {
    hide PushedAfterChecks, AllPushedAs, Ascending;
    var times := Of(hal.times, s);
    forall i | 0 <= i < |times| ensures Micros(times[i]) <= Micros(Clock(hal)) { assert times[i] in times; }
  }

  lemma BeginKeepsSerial(hal: Hal, h: Hint, data: bool)
    requires HalInv(hal) && Serial(hal) && hal.call == None
    ensures Serial(DoBegin(hal, h, data))
  {
    hide Apart, NoLaterThan, DoBegin, HintOk, SlotOk, IsSlot, Inv, Of, Micros;
    var begun := DoBegin(hal, h, data);
    BeginsNow(hal, h, data);
    forall r, s | IsSlot(r) && IsSlot(s) && r.hint != s.hint
      ensures Apart(Of(begun.checks, r.hint), Of(begun.times, r), Of(begun.times, s))
    {
      BegunChecks(hal, h, data, r.hint);
      ApartAfterCheck(Of(hal.checks, r.hint), Of(hal.times, r), Of(hal.times, s), Micros(Clock(hal)));
    }
    BegunChecks(hal, h, data, h);
    forall s | IsSlot(s) ensures NoLaterThan(Of(hal.times, s), Micros(Clock(hal))) { PushesPast(hal, s); }
  }

  lemma PushedTimes(hal: Hal, slot: Slot)
    requires HalEnabled(hal, PushNext)
    ensures var pushed := Slot(hal.call.value.hint, hal.call.value.next);
            Of(DoPushNext(hal).times, slot) == Of(hal.times, slot) + if slot == pushed then [Clock(hal)] else []
    ensures DoPushNext(hal).checks == hal.checks
  {
    hide Leases, Push, Clock;
    assert Of(hal.times, slot) + [] == Of(hal.times, slot);
  }

  /** The check of the call being processed, which has not come to slot `r` yet. */
  lemma PendingCheck(hal: Hal, r: Slot)
    requires SlotOk(hal, r) && HintOk(hal, r.hint) && !r.hint.Invalid?
    requires hal.call.Some? && r == Slot(hal.call.value.hint, hal.call.value.next)
    ensures var times := Of(hal.times, r);
            |times| < |Of(hal.checks, r.hint)| && Of(hal.checks, r.hint)[|times|] == hal.call.value.t
  {
    hide Admit, Spaced, PushedAfterChecks, AllPushedAs, Ascending, Micros, Duration;
  }

  lemma TimesPast(hal: Hal, r: Slot)
    requires SlotOk(hal, r)
    ensures forall t :: t in Of(hal.times, r) ==> t <= Clock(hal)
  {
    hide PushedAfterChecks, AllPushedAs, Ascending, Duration;
  }

  /** The record of the push that is being made, against one of another hint. */
  lemma PushKeepsApart(hal: Hal, r: Slot, s: Slot)
    requires Serial(hal) && HalEnabled(hal, PushNext) && IsSlot(r) && IsSlot(s) && r.hint != s.hint
    requires SlotOk(hal, r) && HintOk(hal, r.hint) && !hal.call.value.hint.Invalid?
    ensures var hal' := DoPushNext(hal);
            Apart(Of(hal'.checks, r.hint), Of(hal'.times, r), Of(hal'.times, s))
  {
    hide DoPushNext, Leases, Apart, NoLaterThan, SlotOk, HintOk, IsSlot, Clock, Of;
    PushedTimes(hal, r);
    PushedTimes(hal, s);
    assert Of(hal.times, r) + [] == Of(hal.times, r) && Of(hal.times, s) + [] == Of(hal.times, s);
    var c := hal.call.value;
    var checks, times, others := Of(hal.checks, r.hint), Of(hal.times, r), Of(hal.times, s);
    if r == Slot(c.hint, c.next) {
      PendingCheck(hal, r);
      ApartAfterPush(checks, times, others, Clock(hal));
    } else if s == Slot(c.hint, c.next) {
      TimesPast(hal, r);
      ApartAfterOther(checks, times, others, Clock(hal));
    }
  }

  lemma PushKeepsSerial(hal: Hal)
    requires HalInv(hal) && Serial(hal) && HalEnabled(hal, PushNext)
    ensures Serial(DoPushNext(hal))
  {
    hide Apart, NoLaterThan, HintOk, SlotOk, IsSlot, Inv, Leases, Push;
    var hal' := DoPushNext(hal);
    forall r, s | IsSlot(r) && IsSlot(s) && r.hint != s.hint
      ensures Apart(Of(hal'.checks, r.hint), Of(hal'.times, r), Of(hal'.times, s))
    {
      PushKeepsApart(hal, r, s);
    }
  }

  lemma HalStepKeepsSerial(hal: Hal, step: HalStep)
    requires HalInv(hal) && Serial(hal) && HalEnabled(hal, step)
    ensures Serial(HalApply(hal, step))
  {
    hide HalInv, Apart, NoLaterThan, IsSlot, DoBegin, DoPushNext, Leases, Apply, Enabled;
    match step
    case Begin(h, data) => BeginKeepsSerial(hal, h, data);
    case PushNext => PushKeepsSerial(hal);
    case _ =>
  }

  lemma {:induction false} SerialRunKeeps(hal: Hal, steps: seq<HalStep>)
    requires HalInv(hal) && Serial(hal) && HalFeasible(hal, steps)
    ensures Serial(HalExecute(hal, steps))
    decreases |steps|
  {
    hide HalInv, Serial, HalEnabled, HalApply;
    if steps != [] {
      HalStepKeeps(hal, steps[0]);
      HalStepKeepsSerial(hal, steps[0]);
      SerialRunKeeps(HalApply(hal, steps[0]), steps[1..]);
    }
  }

  lemma InitSerial(now: nat, b: Boosts)
    ensures Serial(HalInit(now, b))
  {
  }

  // ---------- A call that takes long keeps the others out ----------

  ghost function FreshCount(hal: Hal, slot: Slot): int {
    |Of(hal.times, slot)| - FirstFresh(Of(hal.times, slot), Duration(slot) * 1000, Clock(hal))
  }

  lemma {:induction false} SplitAt(times: seq<nat>, p: nat, from: nat) returns (m: nat)
    requires from <= |times|
    ensures from <= m <= |times|
    ensures (forall j :: from <= j < m ==> times[j] < p) && (m < |times| ==> p <= times[m])
    decreases |times| - from
  {
    if from == |times| || p <= times[from] {
      m := from;
    } else {
      m := SplitAt(times, p, from + 1);
    }
  }

  lemma PrefixPushed(checks: seq<nat>, times: seq<nat>, m: nat)
    requires PushedAfterChecks(checks, times) && Ascending(times) && m <= |times|
    ensures PushedAfterChecks(checks, times[..m]) && Ascending(times[..m])
  {
    hide Micros;
  }

  /** Microseconds of instants that lie within `d` of `now`. */
  lemma RecentMicros(t: nat, d: nat, now: nat)
    requires now <= t + d * 1000
    ensures Micros(now) <= Micros(t) + d
  {
  }

  lemma CloseMicros(a: nat, b: nat, e: nat)
    requires Micros(b) <= Micros(a) + e
    ensures b <= a + (e + 1) * 1000
  {
  }

  /** The INTERACTION pushes of the last two seconds, if none came while a call of another hint was being processed that
      was checked at microsecond `c` and made its push half a second later, at `p`. */
  lemma Squeezed(checks: seq<nat>, times: seq<nat>, c: nat, p: nat, now: nat, d: nat)
    requires Spaced(checks, 90000) && PushedAfterChecks(checks, times) && Ascending(times)
    requires times != [] ==> times[|times| - 1] <= now
    requires forall m :: 0 <= m < |times| ==> Micros(times[m]) <= c || p <= times[m]
    requires (d == 1000000 || d == 1500000) && c + 500000 + d <= Micros(now) && now <= p + d * 1000
    ensures |times| - FirstFresh(times, 2000000000, now) <= 20
  {
    var first := FirstFresh(times, 2000000000, now);
    FirstFreshSplits(times, 2000000000, now);
    hide FirstFresh, Spaced, PushedAfterChecks, Micros, Ascending;
    var m := SplitAt(times, p, first);
    if m < |times| { OverlapBound(checks, times, 90000, d, now, m); }
    if first < m {
      EarlyOnes(checks, times, c, now, d, first, m);
    }
  }

  lemma EarlyOnes(checks: seq<nat>, times: seq<nat>, c: nat, now: nat, d: nat, first: nat, m: nat)
    requires Spaced(checks, 90000) && PushedAfterChecks(checks, times) && Ascending(times) && first < m <= |times|
    requires Micros(times[m - 1]) <= c && c + 500000 + d <= Micros(now) && now <= times[first] + 2000000000
    requires d == 1000000 || d == 1500000
    ensures m - first <= (1500000 - d + 1) / 90000 + 2
  {
    hide Spaced, PushedAfterChecks, Micros, Ascending;
    PrefixPushed(checks, times, m);
    RecentMicros(times[first], 2000000, now);
    CloseMicros(times[first], times[m - 1], 1500000 - d);
    OverlapBound(checks, times[..m], 90000, 1500000 - d + 1, times[m - 1], first);
  }

  predicate Rare(h: Hint) {
    h.CpuBoost? || h.Audio?
  }

  /** If a slot holds one more than calls without delay allow, its oldest push came half a second after its check. */
  lemma LateOldest(checks: seq<nat>, times: seq<nat>, d: nat, now: nat, first: nat)
    requires Spaced(checks, 500000) && PushedAfterChecks(checks, times) && (d == 1000000 || d == 1500000)
    requires first < |times| && times[|times| - 1] <= now && |times| - first >= d / 500000 + 2
    ensures checks[first] + 500000 + d <= Micros(now)
  {
    hide Spaced, PushedAfterChecks, Micros;
    var n := |times|;
    LastChecked(checks, times, now);
    SpacedGap(checks, 500000, first, n - 1);
    assert (n - 1 - first) * 500000 >= (d / 500000 + 1) * 500000;
  }

  lemma LastChecked(checks: seq<nat>, times: seq<nat>, now: nat)
    requires PushedAfterChecks(checks, times) && times != [] && times[|times| - 1] <= now
    ensures |times| <= |checks| && checks[|times| - 1] <= Micros(now)
  {
    var n := |times|;
    assert checks[n - 1] <= Micros(times[n - 1]);
  }

  lemma OthersSqueezed(hal: Hal, r: Slot, s: Slot)
    requires PromptInv(hal) && Serial(hal) && IsSlot(r) && IsSlot(s)
    requires Rare(r.hint) && s.hint.Interaction? && s.index > 0
    requires FreshCount(hal, r) >= Duration(r) / 500000 + 2
    ensures FreshCount(hal, s) <= 20
  {
    hide PromptInv, Apart, Spaced, PushedAfterChecks, Ascending, FirstFresh, Micros, IsSlot;
    SlotTimes(hal, r);
    SlotTimes(hal, s);
    var checks, times, others, now := Of(hal.checks, r.hint), Of(hal.times, r), Of(hal.times, s), hal.engine.now;
    var first := FirstFresh(times, Duration(r) * 1000, now);
    FirstFreshSplits(times, Duration(r) * 1000, now);
    LateOldest(checks, times, Duration(r), now, first);
    ApartAt(checks, times, others, first);
    Squeezed(Of(hal.checks, s.hint), others, checks[first], times[first], now, Duration(r));
  }

  lemma ApartAt(checks: seq<nat>, times: seq<nat>, others: seq<nat>, k: nat)
    requires Apart(checks, times, others) && k < |times|
    ensures |times| <= |checks|
    ensures forall m :: 0 <= m < |others| ==> Micros(others[m]) <= checks[k] || times[k] <= others[m]
  {
    hide Micros;
  }

  // ---------- All constraints together ----------

  /** The constraints of the rate-limited hints. */
  function LimitedSlots(): seq<Slot> {
    [Slot(Interaction, 0), Slot(Interaction, 1), Slot(Interaction, 2), Slot(Interaction, 3), Slot(Interaction, 4),
     Slot(CpuBoost, 0), Slot(CpuBoost, 1), Slot(CpuBoost, 2), Slot(CpuBoost, 3), Slot(Audio, 0)]
  }

  ghost function FdsOf(hal: Hal, slots: seq<Slot>): set<nat> {
    if slots == [] then {} else SlotFds(hal, slots[0]) + FdsOf(hal, slots[1..])
  }

  function Sum(ns: seq<nat>): nat {
    if ns == [] then 0 else ns[0] + Sum(ns[1..])
  }

  lemma UnionSize(a: set<nat>, b: set<nat>)
    ensures |a + b| <= |a| + |b|
  {
    assert a + b == a + (b - a);
    EngineProgress.SubsetSize(b - a, b);
  }

  lemma {:induction false} UnionBound(hal: Hal, slots: seq<Slot>, bounds: seq<nat>)
    requires |slots| == |bounds| && forall i :: 0 <= i < |slots| ==> |SlotFds(hal, slots[i])| <= bounds[i]
    ensures |FdsOf(hal, slots)| <= Sum(bounds)
  {
    if slots != [] {
      UnionBound(hal, slots[1..], bounds[1..]);
      UnionSize(SlotFds(hal, slots[0]), FdsOf(hal, slots[1..]));
    }
  }

  /** The most that each of them holds, for each timing; for AnyDelay, the most it holds when all are at their most. */
  function Bounds(timing: Timing): seq<nat> {
    match timing
    case AnyDelay => [3, 24, 24, 24, 24, 4, 4, 4, 4, 3]
    case SameMicro => [2, 23, 23, 23, 23, 4, 4, 4, 4, 3]
    case WholeMicro => [2, 23, 23, 23, 23, 3, 3, 3, 3, 2]
  }

  function Total(timing: Timing): nat {
    match timing
    case AnyDelay => 118
    case SameMicro => 113
    case WholeMicro => 108
  }

  /** The most that each of them holds when a slot of CPU_BOOST or AUDIO holds one more than its bound above. */
  function SqueezedBounds(): seq<nat> { [3, 20, 20, 20, 20, 5, 5, 5, 5, 4] }

  lemma {:induction false} SumOfTen(ns: seq<nat>)
    requires |ns| == 10
    ensures Sum(ns) == ns[0] + ns[1] + ns[2] + ns[3] + ns[4] + ns[5] + ns[6] + ns[7] + ns[8] + ns[9]
  {
    SumOfFive(ns[5..], 0);
    SumOfFive(ns, Sum(ns[5..]));
  }

  lemma SumOfFive(ns: seq<nat>, rest: nat)
    requires |ns| >= 5 && rest == Sum(ns[5..])
    ensures Sum(ns) == ns[0] + ns[1] + ns[2] + ns[3] + ns[4] + rest
  {
    assert ns[1..][1..] == ns[2..] && ns[2..][1..] == ns[3..] && ns[3..][1..] == ns[4..] && ns[4..][1..] == ns[5..];
    assert Sum(ns) == ns[0] + Sum(ns[1..]);
    assert Sum(ns[1..]) == ns[1] + Sum(ns[2..]);
    assert Sum(ns[2..]) == ns[2] + Sum(ns[3..]);
    assert Sum(ns[3..]) == ns[3] + Sum(ns[4..]);
    assert Sum(ns[4..]) == ns[4] + Sum(ns[5..]);
  }

  lemma SlotsAreLimited(i: nat)
    requires i < 10
    ensures IsSlot(LimitedSlots()[i]) && Interval(LimitedSlots()[i].hint) > 0
    ensures var slot := LimitedSlots()[i];
            && (i < 5 ==> Duration(slot) / Interval(slot.hint) + 2 == Bounds(AnyDelay)[i])
            && (i >= 5 ==> Duration(slot) / Interval(slot.hint) + 2 == SqueezedBounds()[i])
            && (i >= 5 ==> Duration(slot) / Interval(slot.hint) + 1 == Bounds(AnyDelay)[i])
            && Duration(slot) / Interval(slot.hint) + 1 == Bounds(SameMicro)[i]
            && (Duration(slot) - 1) / Interval(slot.hint) + 1 == Bounds(WholeMicro)[i]
    ensures var slot := LimitedSlots()[i];
            if i < 5 then slot == Slot(Interaction, i) else Rare(slot.hint) && Interval(slot.hint) == 500000
  {
  }

  ghost predicate WholeMicros(hal: Hal) {
    forall slot, t :: slot in LimitedSlots() && t in Of(hal.times, slot) ==> t % 1000 == 0
  }

  /** The state of a run of that timing; for WholeMicro, at a settled instant. */
  ghost predicate Timed(hal: Hal, timing: Timing) {
    match timing
    case AnyDelay => true
    case SameMicro => AtChecks(hal)
    case WholeMicro => AtChecks(hal) && WholeMicros(hal) && Settled(hal.engine)
  }

  ghost predicate Within(hal: Hal, bounds: seq<nat>)
    requires |bounds| == 10
  {
    forall i {:trigger bounds[i]} :: 0 <= i < 10 ==> |SlotFds(hal, LimitedSlots()[i])| <= bounds[i]
  }

  lemma WithinTotal(hal: Hal, bounds: seq<nat>)
    requires |bounds| == 10 && Within(hal, bounds)
    ensures |FdsOf(hal, LimitedSlots())| <= bounds[0] + bounds[1] + bounds[2] + bounds[3] + bounds[4] + bounds[5]
                                            + bounds[6] + bounds[7] + bounds[8] + bounds[9]
  {
    hide SlotFds, FdsOf, Sum;
    SumOfTen(bounds);
    assert forall i :: 0 <= i < |LimitedSlots()| ==> |SlotFds(hal, LimitedSlots()[i])| <= bounds[i];
    UnionBound(hal, LimitedSlots(), bounds);
  }

  lemma SlotWithin(hal: Hal, timing: Timing, i: nat)
    requires PromptInv(hal) && Timed(hal, timing) && i < 10 && (timing.AnyDelay? ==> i < 5)
    ensures |SlotFds(hal, LimitedSlots()[i])| <= Bounds(timing)[i]
  {
    hide PromptInv, AtChecks, SlotFds, IsSlot, Interval, Duration, Settled;
    SlotsAreLimited(i);
    assert LimitedSlots()[i] in LimitedSlots();
    if timing.WholeMicro? { AlignedLeaseBound(hal, LimitedSlots()[i]); } else { LeaseBound(hal, LimitedSlots()[i]); }
  }

  /** A slot of CPU_BOOST or AUDIO that holds one more than without delay. */
  ghost predicate Overfull(hal: Hal, i: nat)
    requires i < 10
  {
    i >= 5 && FreshCount(hal, LimitedSlots()[i]) >= Duration(LimitedSlots()[i]) / 500000 + 2
  }

  lemma FdsWithinFresh(hal: Hal, slot: Slot)
    requires PromptInv(hal) && IsSlot(slot)
    ensures |SlotFds(hal, slot)| <= FreshCount(hal, slot)
  {
    assert hal.engine.now >= 0;
    hide PromptInv, IsSlot, SlotFds, FirstFresh;
    SlotFdsCount(hal, slot);
  }

  lemma NotOverfull(hal: Hal, i: nat)
    requires PromptInv(hal) && 5 <= i < 10 && !Overfull(hal, i)
    ensures |SlotFds(hal, LimitedSlots()[i])| <= Bounds(AnyDelay)[i]
  {
    hide PromptInv, IsSlot, SlotFds, FreshCount;
    SlotsAreLimited(i);
    FdsWithinFresh(hal, LimitedSlots()[i]);
  }

  lemma SqueezedSlot(hal: Hal, k: nat, i: nat)
    requires PromptInv(hal) && Serial(hal) && k < 10 && Overfull(hal, k) && i < 10
    ensures |SlotFds(hal, LimitedSlots()[i])| <= SqueezedBounds()[i]
  {
    hide PromptInv, Serial, IsSlot, SlotFds, FreshCount, Interval, Duration, AtChecks;
    SlotsAreLimited(i);
    SlotsAreLimited(k);
    if 1 <= i < 5 {
      OthersSqueezed(hal, LimitedSlots()[k], LimitedSlots()[i]);
      FdsWithinFresh(hal, LimitedSlots()[i]);
    } else {
      LeaseBound(hal, LimitedSlots()[i]);
    }
  }

  /** Each slot keeps to its bound, or together they hold far less than the bounds allow. */
  lemma WithinOrLess(hal: Hal, timing: Timing)
    requires PromptInv(hal) && Serial(hal) && Timed(hal, timing)
    ensures Within(hal, Bounds(timing)) || |FdsOf(hal, LimitedSlots())| <= 107
  {
    hide PromptInv, Serial, Timed, SlotFds, FdsOf, Overfull;
    if k :| 0 <= k < 10 && Overfull(hal, k) {
      forall i | 0 <= i < 10 ensures |SlotFds(hal, LimitedSlots()[i])| <= SqueezedBounds()[i] {
        SqueezedSlot(hal, k, i);
      }
      WithinTotal(hal, SqueezedBounds());
    } else {
      forall i | 0 <= i < 10 ensures |SlotFds(hal, LimitedSlots()[i])| <= Bounds(timing)[i] {
        if timing.AnyDelay? && i >= 5 { NotOverfull(hal, i); } else { SlotWithin(hal, timing, i); }
      }
    }
  }

  lemma StateBound(hal: Hal, timing: Timing)
    requires PromptInv(hal) && Serial(hal) && Timed(hal, timing)
    ensures |FdsOf(hal, LimitedSlots())| <= Total(timing)
  {
    hide PromptInv, Serial, Timed, FdsOf, LimitedSlots, Within;
    WithinOrLess(hal, timing);
    if Within(hal, Bounds(timing)) { WithinTotal(hal, Bounds(timing)); }
  }

  /** What every prompt run keeps, and what it keeps if it is instantaneous. */
  lemma RunKeepsAll(now: nat, b: Boosts, steps: seq<HalStep>)
    requires now >= 1000 && HalFeasible(HalInit(now, b), steps) && HalPrompt(HalInit(now, b), steps)
    ensures var hal := HalExecute(HalInit(now, b), steps);
            PromptInv(hal) && Serial(hal) && (HalInstant(HalInit(now, b), steps) ==> AtChecks(hal))
  {
    hide HalInv, PromptInv, AtChecks, Serial, HalFeasible, HalPrompt, HalInstant, HalExecute;
    HalInitInv(now, b);
    InitPrompt(now, b);
    InitSerial(now, b);
    PromptRunKeeps(HalInit(now, b), steps);
    SerialRunKeeps(HalInit(now, b), steps);
    if HalInstant(HalInit(now, b), steps) { InstantRunKeeps(HalInit(now, b), steps); }
  }

  /** Whatever hints arrive, the rate-limited ones never hold more than 118 descriptors under prompt dispatch; 113 if
      the clock stands still while a hint is processed. */
  lemma HintsHoldAtMost(now: nat, b: Boosts, steps: seq<HalStep>)
    requires now >= 1000 && HalFeasible(HalInit(now, b), steps) && HalPrompt(HalInit(now, b), steps)
    ensures |FdsOf(HalExecute(HalInit(now, b), steps), LimitedSlots())| <= 118
    ensures HalInstant(HalInit(now, b), steps) ==>
              |FdsOf(HalExecute(HalInit(now, b), steps), LimitedSlots())| <= 113
  {
    hide PromptInv, AtChecks, Serial, FdsOf;
    RunKeepsAll(now, b, steps);
    StateBound(HalExecute(HalInit(now, b), steps), AnyDelay);
    if HalInstant(HalInit(now, b), steps) { StateBound(HalExecute(HalInit(now, b), steps), SameMicro); }
  }

  /** 108 if moreover the clock ticks in whole microseconds, at every settled instant. */
  lemma HintsHoldAtMostOnMicrosecondClock(now: nat, b: Boosts, steps: seq<HalStep>)
    requires now >= 1000 && HalFeasible(HalInit(now, b), steps) && HalPrompt(HalInit(now, b), steps)
    requires HalInstant(HalInit(now, b), steps) && WholeMicros(HalExecute(HalInit(now, b), steps))
    ensures Settled(HalExecute(HalInit(now, b), steps).engine) ==>
              |FdsOf(HalExecute(HalInit(now, b), steps), LimitedSlots())| <= 108
  {
    hide PromptInv, AtChecks, Serial, FdsOf, WholeMicros, Settled;
    RunKeepsAll(now, b, steps);
    if Settled(HalExecute(HalInit(now, b), steps).engine) {
      StateBound(HalExecute(HalInit(now, b), steps), WholeMicro);
    }
  }
}
