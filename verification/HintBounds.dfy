/** What the rate limiter, the lease durations and prompt dispatch guarantee together: how many descriptors one
    constraint of a hint holds at a time, and that the interaction boost does not lapse. */
module HintBounds {
  import opened Wrappers
  import opened PokerEngine
  import opened EngineInvariant
  import opened EngineTheorems
  import EngineProgress
  import opened RateLimit
  import opened LeaseOverlap
  import opened PowerHints

  // ---------- Prompt runs ----------

  /** No constraint outlives its expiry, since the clock does not pass a pending closing event. */
  ghost predicate NotOverdue(s: State) {
    forall k :: k in s.log.granted && k !in s.log.closedAt && s.log.granted[k].at <= s.log.granted[k].expires ==>
      s.now <= s.log.granted[k].expires
  }

  lemma TickKeepsNotOverdue(s: State, d: nat)
    requires Inv(s) && NotOverdue(s) && Prompt(s, DoTick(d))
    ensures NotOverdue(Apply(s, DoTick(d)))
  {
    forall k | k in s.log.granted && k !in s.log.closedAt && s.log.granted[k].at <= s.log.granted[k].expires
      ensures s.now + d <= s.log.granted[k].expires
    {
      CloserIsQueued(s, k);
    }
  }

  lemma CloserIsQueued(s: State, k: nat)
    requires Agrees(s) && TimedOwned(s) && TimedDue(s) && k in s.log.granted && k !in s.log.closedAt
    ensures s.queue != [] && s.queue[0].due <= s.log.granted[k].expires
  {
    assert HeldBy(s, k);
    var c := s.log.granted[k].closer;
    assert c in Keys(s.queue);
    var m :| m in s.queue && m.key == c;
    var i :| 0 <= i < |s.queue| && s.queue[i] == m;
    if i > 0 { assert Before(s.queue[0], s.queue[i]); }
    assert ArmedFor(s.log, c, s.log.granted[k].fd);
    assert HeldBy(s, s.log.closers[c]);
  }

  lemma DispatchKeepsNotOverdue(s: State, r: Response)
    requires Inv(s) && NotOverdue(s) && Enabled(s, DoDispatch(r))
    ensures NotOverdue(Dispatch(s, r))
  {
    DispatchEffect(s, r);
  }

  lemma StepKeepsNotOverdue(s: State, step: Step)
    requires Inv(s) && NotOverdue(s) && Enabled(s, step) && Prompt(s, step)
    ensures NotOverdue(Apply(s, step))
  {
    if step.DoTick? { TickKeepsNotOverdue(s, step.d); }
    else if step.DoDispatch? { DispatchKeepsNotOverdue(s, step.r); }
    else if step.DoPush? { PushEffect(s, step.ev); }
    else { QuietEffect(s, step); }
  }

  ghost predicate PromptInv(hal: Hal) {
    HalInv(hal) && OpensAtOnce(hal.engine) && NotOverdue(hal.engine)
  }

  lemma EngineStepKeepsPrompt(s: State, step: Step)
    requires Inv(s) && OpensAtOnce(s) && NotOverdue(s) && Enabled(s, step) && Prompt(s, step)
    ensures OpensAtOnce(Apply(s, step)) && NotOverdue(Apply(s, step))
  {
    hide Inv, Enabled, Apply, NotOverdue, OpensAtOnce;
    StepKeepsOpensAtOnce(s, step);
    StepKeepsNotOverdue(s, step);
  }

  lemma HalStepKeepsPrompt(hal: Hal, step: HalStep)
    requires PromptInv(hal) && HalEnabled(hal, step) && (step.EngineStep? ==> Prompt(hal.engine, step.step))
    ensures PromptInv(HalApply(hal, step))
  {
    hide HalInv, NotOverdue, OpensAtOnce, Inv, Enabled, Apply, Push;
    HalStepKeeps(hal, step);
    HalInvGivesInv(hal);
    match step
    case EngineStep(s) => EngineStepKeepsPrompt(hal.engine, s);
    case PushNext => PushKeepsPrompt(hal);
    case _ =>
  }

  lemma HalInvGivesInv(hal: Hal)
    requires HalInv(hal)
    ensures Inv(hal.engine)
  {
  }

  lemma PushKeepsPrompt(hal: Hal)
    requires Inv(hal.engine) && OpensAtOnce(hal.engine) && NotOverdue(hal.engine) && HalEnabled(hal, PushNext)
    ensures OpensAtOnce(DoPushNext(hal).engine) && NotOverdue(DoPushNext(hal).engine)
  {
    hide Inv, NotOverdue, OpensAtOnce, Push, Leases;
    var c := hal.call.value;
    LeaseShape(c.hint, hal.boosts, c.data, c.next);
    EngineStepKeepsPrompt(hal.engine, DoPush(Leases(c.hint, hal.boosts, c.data)[c.next]));
  }

  lemma {:induction false} PromptRunKeeps(hal: Hal, steps: seq<HalStep>)
    requires PromptInv(hal) && HalFeasible(hal, steps) && HalPrompt(hal, steps)
    ensures PromptInv(HalExecute(hal, steps))
    decreases |steps|
  {
    hide PromptInv, HalEnabled, HalApply;
    if steps != [] {
      HalStepKeepsPrompt(hal, steps[0]);
      PromptRunKeeps(HalApply(hal, steps[0]), steps[1..]);
    }
  }

  /** In runs where the clock stands still inside calls, pushes carry the time of their check. */
  ghost predicate AtChecks(hal: Hal) {
    && (hal.call.Some? ==> Micros(Clock(hal)) == hal.call.value.t)
    && (forall slot :: IsSlot(slot) ==> PushedAtChecks(Of(hal.checks, slot.hint), Of(hal.times, slot)))
  }

  lemma BeginKeepsAtChecks(hal: Hal, h: Hint, data: bool)
    requires AtChecks(hal) && hal.call == None
    ensures AtChecks(DoBegin(hal, h, data))
  {
    hide PushedAtChecks, Of, IsSlot, Micros, DoBegin;
    BeginsNow(hal, h, data);
    forall slot | IsSlot(slot)
      ensures PushedAtChecks(Of(DoBegin(hal, h, data).checks, slot.hint), Of(DoBegin(hal, h, data).times, slot))
    {
      BeginKeepsSlotAtChecks(hal, h, data, slot);
    }
  }

  lemma BeginsNow(hal: Hal, h: Hint, data: bool)
    requires hal.call == None
    ensures var begun := DoBegin(hal, h, data);
            begun.engine == hal.engine && (begun.call.Some? ==> begun.call.value.t == Micros(Clock(hal)))
  {
    hide Micros, Passes, Clock, Noted;
    NotedAddsNone(hal, h);
    match CheckHint(hal, h)
    case None =>
    case Some(t) => assert t == Micros(Clock(hal));
  }

  lemma BeginKeepsSlotAtChecks(hal: Hal, h: Hint, data: bool, slot: Slot)
    requires PushedAtChecks(Of(hal.checks, slot.hint), Of(hal.times, slot)) && hal.call == None
    ensures PushedAtChecks(Of(DoBegin(hal, h, data).checks, slot.hint), Of(DoBegin(hal, h, data).times, slot))
  {
    hide PushedAtChecks, CheckHint, Micros;
    var checks, times := Of(hal.checks, slot.hint), Of(hal.times, slot);
    if CheckHint(hal, h).Some? { OneMoreCheck(checks, times, CheckHint(hal, h).value); }
    if h != slot.hint && CheckHint(hal, h).Some? {
      BeginLeaves(hal, h, data, slot.hint);
    }
  }

  lemma OneMoreCheck(checks: seq<nat>, times: seq<nat>, t: nat)
    requires PushedAtChecks(checks, times)
    ensures PushedAtChecks(checks + [t], times)
  {
  }

  lemma PushKeepsAtChecks(hal: Hal)
    requires AtChecks(hal) && HalEnabled(hal, PushNext)
    requires !hal.call.value.hint.Invalid? && HintOk(hal, hal.call.value.hint)
    requires SlotOk(hal, Slot(hal.call.value.hint, hal.call.value.next))
    ensures AtChecks(DoPushNext(hal))
  {
    var c := hal.call.value;
    LeaseShape(c.hint, hal.boosts, c.data, c.next);
    PushKeepsClock(hal.engine, Leases(c.hint, hal.boosts, c.data)[c.next]);
    PushIsAtCheck(hal);
    hide Push, Leases, PushedAtChecks, SlotOk, HintOk, Micros;
    forall slot | IsSlot(slot)
      ensures PushedAtChecks(Of(DoPushNext(hal).checks, slot.hint), Of(DoPushNext(hal).times, slot))
    {
      assert PushedAtChecks(Of(hal.checks, slot.hint), Of(hal.times, slot));
    }
  }

  /** The push being made falls into the microsecond of its check. */
  lemma PushIsAtCheck(hal: Hal)
    requires AtChecks(hal) && HalEnabled(hal, PushNext)
    requires !hal.call.value.hint.Invalid? && HintOk(hal, hal.call.value.hint)
    requires SlotOk(hal, Slot(hal.call.value.hint, hal.call.value.next))
    requires IsSlot(Slot(hal.call.value.hint, hal.call.value.next))
    ensures var slot := Slot(hal.call.value.hint, hal.call.value.next);
            PushedAtChecks(Of(hal.checks, slot.hint), Of(hal.times, slot) + [Clock(hal)])
  {
    hide Admit, Spaced, PushedAfterChecks, AllPushedAs, Leases, Micros;
    var slot := Slot(hal.call.value.hint, hal.call.value.next);
    assert PushedAtChecks(Of(hal.checks, slot.hint), Of(hal.times, slot));
  }

  lemma HalStepKeepsAtChecks(hal: Hal, step: HalStep)
    requires HalInv(hal) && AtChecks(hal) && HalEnabled(hal, step) && StandsStill(hal, step)
    ensures AtChecks(HalApply(hal, step))
  {
    match step
    case Begin(h, data) => BeginKeepsAtChecks(hal, h, data);
    case PushNext => PushNextKeepsAtChecks(hal);
    case End =>
    case EngineStep(s) => ClockGrows(hal.engine, s);
  }

  lemma PushNextKeepsAtChecks(hal: Hal)
    requires HalInv(hal) && AtChecks(hal) && HalEnabled(hal, PushNext)
    ensures AtChecks(DoPushNext(hal))
  {
    hide AtChecks, HintOk, SlotOk, Inv;
    var c := hal.call.value;
    LeaseShape(c.hint, hal.boosts, c.data, c.next);
    PushKeepsAtChecks(hal);
  }

  lemma {:induction false} InstantRunKeeps(hal: Hal, steps: seq<HalStep>)
    requires HalInv(hal) && AtChecks(hal) && HalFeasible(hal, steps) && HalInstant(hal, steps)
    ensures AtChecks(HalExecute(hal, steps))
    decreases |steps|
  {
    hide HalInv, AtChecks, HalEnabled, HalApply, StandsStill;
    if steps != [] {
      HalStepKeeps(hal, steps[0]);
      HalStepKeepsAtChecks(hal, steps[0]);
      InstantRunKeeps(HalApply(hal, steps[0]), steps[1..]);
    }
  }

  // ---------- How many constraints the hints hold ----------

  /** The descriptors open for one slot. */
  ghost function SlotFds(hal: Hal, slot: Slot): set<nat> {
    set f | f in hal.engine.fds && hal.engine.fds[f].TimedConstraint? && hal.engine.fds[f].request in Of(hal.keys, slot)
  }

  /** The first push that is at most `d` nanoseconds old. */
  function FirstFresh(times: seq<nat>, d: nat, now: nat): nat {
    if times == [] || now <= times[0] + d then 0 else 1 + FirstFresh(times[1..], d, now)
  }

  lemma {:induction false} FirstFreshSplits(times: seq<nat>, d: nat, now: nat)
    ensures FirstFresh(times, d, now) <= |times|
    ensures forall j :: 0 <= j < FirstFresh(times, d, now) ==> times[j] + d < now
    ensures FirstFresh(times, d, now) < |times| ==> now <= times[FirstFresh(times, d, now)] + d
  {
    if times != [] && times[0] + d < now {
      FirstFreshSplits(times[1..], d, now);
      forall j | 0 <= j < FirstFresh(times, d, now) ensures times[j] + d < now {
        if j > 0 { assert times[j] == times[1..][j - 1]; }
      }
    }
  }

  ghost function FdsFrom(granted: map<nat, Opening>, keys: seq<nat>): set<nat> {
    if keys == [] then {}
    else (if keys[0] in granted then {granted[keys[0]].fd} else {}) + FdsFrom(granted, keys[1..])
  }

  lemma {:induction false} FdsFromSize(granted: map<nat, Opening>, keys: seq<nat>)
    ensures |FdsFrom(granted, keys)| <= |keys|
    ensures forall k :: k in keys && k in granted ==> granted[k].fd in FdsFrom(granted, keys)
  {
    if keys != [] {
      FdsFromSize(granted, keys[1..]);
      assert keys == [keys[0]] + keys[1..];
    }
  }

  /** Whoever holds a descriptor of the slot was pushed recently. */
  lemma SlotFdsAreFresh(hal: Hal, slot: Slot)
    requires TimedOwned(hal.engine) && OutcomesTracked(hal.engine) && OpensAtOnce(hal.engine) && NotOverdue(hal.engine)
    requires hal.engine.now >= 0 && SlotOk(hal, slot)
    ensures var first := FirstFresh(Of(hal.times, slot), Duration(slot) * 1000, hal.engine.now);
            && first <= |Of(hal.keys, slot)|
            && SlotFds(hal, slot) <= FdsFrom(hal.engine.log.granted, Of(hal.keys, slot)[first..])
  {
    var s, keys, times := hal.engine, Of(hal.keys, slot), Of(hal.times, slot);
    var first := FirstFresh(times, Duration(slot) * 1000, s.now);
    FirstFreshSplits(times, Duration(slot) * 1000, s.now);
    FdsFromSize(s.log.granted, keys[first..]);
    forall f | f in SlotFds(hal, slot) ensures f in FdsFrom(s.log.granted, keys[first..]) {
      var r := s.fds[f].request;
      var j :| 0 <= j < |keys| && keys[j] == r;
      assert PushedAs(s, keys[j], times[j], Duration(slot) * 1000);
      assert j >= first && keys[first..][j - first] == r;
    }
  }

  lemma SlotFdsCount(hal: Hal, slot: Slot)
    requires PromptInv(hal) && IsSlot(slot)
    ensures var first := FirstFresh(Of(hal.times, slot), Duration(slot) * 1000, hal.engine.now);
            first <= |Of(hal.times, slot)| && |SlotFds(hal, slot)| <= |Of(hal.times, slot)| - first
  {
    hide OpensAtOnce, NotOverdue, TimedOwned, OutcomesTracked, Agrees, RequestsTracked, TimedDue, HandlesOwned, HintOk;
    assert SlotOk(hal, slot);
    SlotFdsAreFresh(hal, slot);
    var first := FirstFresh(Of(hal.times, slot), Duration(slot) * 1000, hal.engine.now);
    FdsFromSize(hal.engine.log.granted, Of(hal.keys, slot)[first..]);
    EngineProgress.SubsetSize(SlotFds(hal, slot), FdsFrom(hal.engine.log.granted, Of(hal.keys, slot)[first..]));
  }

  /** The bound for one constraint of one hint: duration / interval + 2 in general, one fewer when the
      clock stands still inside calls. */
  lemma LeaseBound(hal: Hal, slot: Slot)
    requires PromptInv(hal) && IsSlot(slot) && Interval(slot.hint) > 0
    ensures |SlotFds(hal, slot)| <= Duration(slot) / Interval(slot.hint) + 2
    ensures AtChecks(hal) ==> |SlotFds(hal, slot)| <= Duration(slot) / Interval(slot.hint) + 1
  {
    hide PromptInv, AtChecks, SlotFds, Spaced, PushedAfterChecks, PushedAtChecks, Ascending, FirstFresh, IsSlot;
    SlotFdsCount(hal, slot);
    SlotTimes(hal, slot);
    var checks, times, now := Of(hal.checks, slot.hint), Of(hal.times, slot), hal.engine.now;
    var first := FirstFresh(times, Duration(slot) * 1000, now);
    FirstFreshSplits(times, Duration(slot) * 1000, now);
    if first < |times| {
      OverlapBound(checks, times, Interval(slot.hint), Duration(slot), now, first);
      if AtChecks(hal) {
        SlotAtChecks(hal, slot);
        TightOverlapBound(checks, times, Interval(slot.hint), Duration(slot), now, first);
      }
    }
  }

  lemma SlotAtChecks(hal: Hal, slot: Slot)
    requires AtChecks(hal) && IsSlot(slot)
    ensures PushedAtChecks(Of(hal.checks, slot.hint), Of(hal.times, slot))
  {
  }

  lemma SlotTimes(hal: Hal, slot: Slot)
    requires PromptInv(hal) && IsSlot(slot) && !slot.hint.Invalid?
    ensures var (checks, times) := (Of(hal.checks, slot.hint), Of(hal.times, slot));
            && Spaced(checks, Interval(slot.hint)) && PushedAfterChecks(checks, times) && Ascending(times)
            && hal.engine.now >= 1000 && (times != [] ==> times[|times| - 1] <= hal.engine.now)
  {
    assert HintOk(hal, slot.hint) && SlotOk(hal, slot);
    var times := Of(hal.times, slot);
    assert times != [] ==> times[|times| - 1] in times;
  }

  lemma AlignedFresh(checks: seq<nat>, times: seq<nat>, interval: nat, d: nat, now: nat)
    requires interval > 0 && d > 0 && Spaced(checks, interval) && PushedAtChecks(checks, times) && Ascending(times)
    requires (times != [] ==> times[|times| - 1] <= now) && forall t :: t in times ==> t % 1000 == 0
    ensures |times| - FirstFresh(times, d * 1000 - 1, now) <= (d - 1) / interval + 1
  {
    var first := FirstFresh(times, d * 1000 - 1, now);
    FirstFreshSplits(times, d * 1000 - 1, now);
    hide FirstFresh, Spaced, PushedAtChecks, Ascending;
    if first < |times| {
      assert times[first] in times;
      AlignedOverlapBound(checks, times, interval, d, now, first);
    } else {
      AtLeastOne(d - 1, interval);
    }
  }

  lemma AtLeastOne(d: nat, interval: nat)
    requires interval > 0
    ensures d / interval + 1 >= 0
  {
  }

  /** On a settled instant of a clock that ticks in whole microseconds, one fewer still when the
      interval divides the duration. */
  lemma AlignedLeaseBound(hal: Hal, slot: Slot)
    requires PromptInv(hal) && AtChecks(hal) && Settled(hal.engine) && IsSlot(slot) && Interval(slot.hint) > 0
    requires forall t :: t in Of(hal.times, slot) ==> t % 1000 == 0
    ensures |SlotFds(hal, slot)| <= (Duration(slot) - 1) / Interval(slot.hint) + 1
  {
    hide PromptInv, AtChecks, SlotFds, Spaced, PushedAfterChecks, PushedAtChecks, Ascending, FirstFresh, IsSlot,
         Settled;
    SettledSlotFdsCount(hal, slot);
    SlotTimes(hal, slot);
    SlotAtChecks(hal, slot);
    AlignedFresh(Of(hal.checks, slot.hint), Of(hal.times, slot), Interval(slot.hint), Duration(slot), hal.engine.now);
  }

  lemma SettledSlotFdsCount(hal: Hal, slot: Slot)
    requires PromptInv(hal) && Settled(hal.engine) && IsSlot(slot)
    ensures var first := FirstFresh(Of(hal.times, slot), Duration(slot) * 1000 - 1, hal.engine.now);
            first <= |Of(hal.times, slot)| && |SlotFds(hal, slot)| <= |Of(hal.times, slot)| - first
  {
    hide OpensAtOnce, NotOverdue, TimedOwned, OutcomesTracked, Agrees, RequestsTracked, TimedDue, HandlesOwned, HintOk;
    assert SlotOk(hal, slot);
    SettledOpenIsFilter(hal.engine);
    SettledSlotFdsAreFresh(hal, slot);
    var first := FirstFresh(Of(hal.times, slot), Duration(slot) * 1000 - 1, hal.engine.now);
    FdsFromSize(hal.engine.log.granted, Of(hal.keys, slot)[first..]);
    EngineProgress.SubsetSize(SlotFds(hal, slot), FdsFrom(hal.engine.log.granted, Of(hal.keys, slot)[first..]));
  }

  lemma SettledSlotFdsAreFresh(hal: Hal, slot: Slot)
    requires OpenRequests(hal.engine) == ActiveRequests(hal.engine) && TimedOwned(hal.engine)
    requires hal.engine.now >= 0 && SlotOk(hal, slot)
    ensures var first := FirstFresh(Of(hal.times, slot), Duration(slot) * 1000 - 1, hal.engine.now);
            && first <= |Of(hal.keys, slot)|
            && SlotFds(hal, slot) <= FdsFrom(hal.engine.log.granted, Of(hal.keys, slot)[first..])
  {
    var s, keys, times := hal.engine, Of(hal.keys, slot), Of(hal.times, slot);
    var first := FirstFresh(times, Duration(slot) * 1000 - 1, s.now);
    FirstFreshSplits(times, Duration(slot) * 1000 - 1, s.now);
    FdsFromSize(s.log.granted, keys[first..]);
    forall f | f in SlotFds(hal, slot) ensures f in FdsFrom(s.log.granted, keys[first..]) {
      var r := s.fds[f].request;
      assert r in OpenRequests(s);
      var j :| 0 <= j < |keys| && keys[j] == r;
      assert PushedAs(s, keys[j], times[j], Duration(slot) * 1000);
      assert j >= first && keys[first..][j - first] == r;
    }
  }

  lemma InitPrompt(now: nat, b: Boosts)
    requires HalInv(HalInit(now, b))
    ensures PromptInv(HalInit(now, b)) && AtChecks(HalInit(now, b))
  {
  }

  // ---------- What the pushes of a slot ask for ----------

  /** The event on record under `key` is the slot's own request. */
  ghost predicate AsksFor(hal: Hal, key: nat, slot: Slot) {
    && key in hal.engine.log.history && key < hal.engine.nextKey
    && exists data :: slot.index < |Leases(slot.hint, hal.boosts, data)|
                      && hal.engine.log.history[key].event == Leases(slot.hint, hal.boosts, data)[slot.index]
  }

  ghost predicate AllAsk(hal: Hal) {
    forall slot, key :: key in Of(hal.keys, slot) ==> AsksFor(hal, key, slot)
  }

  lemma EngineKeepsAsks(hal: Hal, step: Step)
    requires Inv(hal.engine) && Enabled(hal.engine, step) && AllAsk(hal)
    ensures AllAsk(hal.(engine := Apply(hal.engine, step)))
  {
    hide Inv, Apply, Leases;
    var hal' := hal.(engine := Apply(hal.engine, step));
    RecordsStay(hal.engine, step);
    forall slot, key | key in Of(hal'.keys, slot) ensures AsksFor(hal', key, slot) { assert AsksFor(hal, key, slot); }
  }

  lemma RecordsStay(s: State, step: Step)
    requires Inv(s) && Enabled(s, step)
    ensures forall k :: k in s.log.history && k < s.nextKey ==>
              && k in Apply(s, step).log.history && Apply(s, step).log.history[k] == s.log.history[k]
              && k < Apply(s, step).nextKey
  {
    if step.DoPush? { PushEffect(s, step.ev); }
    else if step.DoDispatch? { DispatchEffect(s, step.r); }
    else { QuietEffect(s, step); }
  }

  lemma PushAsks(hal: Hal, slot: Slot, key: nat)
    requires AllAsk(hal) && HalEnabled(hal, PushNext) && key in Of(DoPushNext(hal).keys, slot)
    ensures AsksFor(DoPushNext(hal), key, slot)
  {
    hide Leases;
    var c := hal.call.value;
    var pushed, ev := Slot(c.hint, c.next), Leases(c.hint, hal.boosts, c.data)[c.next];
    if key in Of(hal.keys, slot) {
      assert AsksFor(hal, key, slot);
    } else {
      assert slot == pushed && key == hal.engine.nextKey;
      assert Push(hal.engine, ev).log.history[key].event == ev;
    }
  }

  lemma HalStepKeepsAsks(hal: Hal, step: HalStep)
    requires HalInv(hal) && HalEnabled(hal, step) && AllAsk(hal)
    ensures AllAsk(HalApply(hal, step)) && HalApply(hal, step).boosts == hal.boosts
  {
    hide Inv, HintOk, SlotOk, Apply, Leases;
    match step
    case Begin(h, data) => BeginKeepsAsks(hal, h, data);
    case PushNext => forall slot, key | key in Of(DoPushNext(hal).keys, slot) { PushAsks(hal, slot, key); }
    case End => SameKeysAsk(hal, DoEnd(hal));
    case EngineStep(s) => EngineKeepsAsks(hal, s);
  }

  lemma SameKeysAsk(hal: Hal, hal': Hal)
    requires AllAsk(hal) && hal'.engine == hal.engine && hal'.keys == hal.keys && hal'.boosts == hal.boosts
    ensures AllAsk(hal')
  {
    hide Leases, Of;
    forall slot, key | key in Of(hal'.keys, slot) ensures AsksFor(hal', key, slot) { assert AsksFor(hal, key, slot); }
  }

  lemma BeginKeepsAsks(hal: Hal, h: Hint, data: bool)
    requires AllAsk(hal) && hal.call == None
    ensures AllAsk(DoBegin(hal, h, data)) && DoBegin(hal, h, data).boosts == hal.boosts
  {
    hide AllAsk, DoBegin;
    BeginKeepsKeys(hal, h, data);
    SameKeysAsk(hal, DoBegin(hal, h, data));
  }

  lemma BeginKeepsKeys(hal: Hal, h: Hint, data: bool)
    requires hal.call == None
    ensures var begun := DoBegin(hal, h, data);
            begun.engine == hal.engine && begun.keys == hal.keys && begun.boosts == hal.boosts
  {
    hide Noted, CheckHint, Of;
    NotedAddsNone(hal, h);
    match CheckHint(hal, h)
    case None => assert DoBegin(hal, h, data) == Noted(hal, h);
    case Some(t) => StartedKeepsKeys(hal, h, data, t);
  }

  lemma StartedKeepsKeys(hal: Hal, h: Hint, data: bool, t: nat)
    ensures var (noted, started) := (Noted(hal, h), Started(hal, h, data, t));
            started.engine == noted.engine && started.keys == noted.keys && started.boosts == noted.boosts
  {
    hide Noted, Of;
  }

  lemma {:induction false} RunKeepsAsks(hal: Hal, steps: seq<HalStep>)
    requires HalInv(hal) && HalFeasible(hal, steps) && AllAsk(hal)
    ensures AllAsk(HalExecute(hal, steps)) && HalExecute(hal, steps).boosts == hal.boosts
    decreases |steps|
  {
    hide HalInv, HalEnabled, HalApply, AllAsk;
    if steps != [] {
      HalStepKeeps(hal, steps[0]);
      HalStepKeepsAsks(hal, steps[0]);
      RunKeepsAsks(HalApply(hal, steps[0]), steps[1..]);
    }
  }

  /** The event that was pushed under `key`. */
  function AskedUnder(hal: Hal, key: nat): Option<Event> {
    if key in hal.engine.log.history then Some(hal.engine.log.history[key].event) else None
  }

  /** What the pushes of each slot have asked for, in every run. */
  lemma PushesAreTheRequests(now: nat, b: Boosts, steps: seq<HalStep>)
    requires now >= 1000 && HalFeasible(HalInit(now, b), steps)
    ensures var hal := HalExecute(HalInit(now, b), steps);
            forall i: nat, key :: i < 5 && key in Of(hal.keys, Slot(Interaction, i)) ==>
              AskedUnder(hal, key) == Some([
                OpenTimed("/dev/constraint_cpu_freq", Prioritized(35, -1, b.interaction), 100000000),
                OpenTimed("/dev/constraint_online_cpus", Prioritized(35, -1, 2), 2000000000),
                OpenTimed("/dev/constraint_cpu_freq", Prioritized(35, -1, b.animation), 2000000000),
                OpenTimed("/dev/constraint_gpu_freq", Prioritized(35, -1, 180000), 2000000000),
                OpenTimed("/dev/emc_freq_min", Plain(396000), 2000000000)][i])
    ensures var hal := HalExecute(HalInit(now, b), steps);
            forall i: nat, key :: i < 4 && key in Of(hal.keys, Slot(CpuBoost, i)) ==>
              AskedUnder(hal, key) == Some([
                OpenTimed("/dev/constraint_cpu_freq", Prioritized(35, -1, 2147483647), 1500000000),
                OpenTimed("/dev/constraint_online_cpus", Prioritized(35, -1, 2), 1500000000),
                OpenTimed("/dev/constraint_gpu_freq", Prioritized(35, -1, 180000), 1500000000),
                OpenTimed("/dev/emc_freq_min", Plain(792000), 1500000000)][i])
    ensures var hal := HalExecute(HalInit(now, b), steps);
            forall key :: key in Of(hal.keys, Slot(Audio, 0)) ==>
              AskedUnder(hal, key)
              == Some(OpenTimed("/dev/constraint_cpu_freq", Prioritized(35, -1, 512000), 1000000000))
    ensures var hal := HalExecute(HalInit(now, b), steps);
            forall i: nat, key :: i < 2 && key in Of(hal.keys, Slot(LowPower, i)) ==>
              || AskedUnder(hal, key) == Some([
                   OpenTimed("/dev/cpu_freq_max", Prioritized(35, -1, 1020000), 1000000000),
                   OpenTimed("/dev/max_online_cpus", Prioritized(35, -1, 1), 1000000000)][i])
              || AskedUnder(hal, key) == Some([
                   OpenTimed("/dev/cpu_freq_max", Prioritized(35, -1, 2147483647), 1000000000),
                   OpenTimed("/dev/max_online_cpus", Prioritized(35, -1, 2147483647), 1000000000)][i])
    ensures var hal := HalExecute(HalInit(now, b), steps);
            forall slot, key :: key in Of(hal.keys, slot) ==>
              slot.index < match slot.hint
                           case Interaction => 5 case CpuBoost => 4 case Audio => 1 case LowPower => 2 case _ => 0
  {
    hide HalInv, HalFeasible, HalExecute;
    HalInitInv(now, b);
    RunKeepsAsks(HalInit(now, b), steps);
    var hal := HalExecute(HalInit(now, b), steps);
    assert AllAsk(hal) && hal.boosts == b;
    hide AllAsk, AskedUnder, Of;
    forall slot, key | key in Of(hal.keys, slot)
      ensures exists data ::
                && slot.index < |Leases(slot.hint, b, data)|
                && AskedUnder(hal, key) == Some(Leases(slot.hint, b, data)[slot.index])
    {
      AskedIsLease(hal, slot, key);
    }
  }

  lemma AskedIsLease(hal: Hal, slot: Slot, key: nat)
    requires AllAsk(hal) && key in Of(hal.keys, slot)
    ensures exists data ::
              && slot.index < |Leases(slot.hint, hal.boosts, data)|
              && AskedUnder(hal, key) == Some(Leases(slot.hint, hal.boosts, data)[slot.index])
  {
    hide Leases, Of;
    assert AsksFor(hal, key, slot);
  }

  lemma NewestBoost(now: nat, b: Boosts, steps: seq<HalStep>)
    requires now >= 1000 && HalFeasible(HalInit(now, b), steps)
    requires Newest(HalExecute(HalInit(now, b), steps), Slot(Interaction, 0)).Some?
    ensures var hal := HalExecute(HalInit(now, b), steps);
            AskedUnder(hal, Newest(hal, Slot(Interaction, 0)).value)
            == Some(OpenTimed("/dev/constraint_cpu_freq", Prioritized(35, -1, b.interaction), 100000000))
  {
    hide HalFeasible, HalExecute, AskedUnder;
    PushesAreTheRequests(now, b, steps);
    var hal := HalExecute(HalInit(now, b), steps);
    assert Newest(hal, Slot(Interaction, 0)).value in Of(hal.keys, Slot(Interaction, 0));
  }

  // ---------- The boost does not lapse ----------

  /** Call `t` came less than one interval after the check `c`. */
  predicate Near(t: nat, c: nat, interval: nat) {
    Micros(t) < c + interval
  }

  /** The last call was admitted or came near the last admitted one; and while an admitted call is being processed,
      so did the call before it. */
  ghost predicate CallsCovered(hal: Hal, h: Hint) {
    var checks := Of(hal.checks, h);
    && (h in hal.lastCall ==>
          checks != [] && hal.lastCall[h] <= Clock(hal) && Near(hal.lastCall[h], LastOr0(checks), Interval(h)))
    && (InCall(hal, h) && h in hal.prevCall ==>
          |checks| >= 2 && Near(hal.prevCall[h], LastOr0(checks[..|checks| - 1]), Interval(h)))
    && (h in hal.prevCall ==> h in hal.lastCall)
  }

  lemma LastTimeIsLastCheck(hal: Hal, h: Hint)
    requires HintOk(hal, h) && hal.call == None && !h.Invalid?
    ensures LastTime(hal, h) == LastOr0(Of(hal.checks, h))
  {
    hide Admit, Spaced;
  }

  /** What CallsCovered speaks of is as before; the clock may have moved on. */
  ghost predicate SameCalls(hal: Hal, hal': Hal, g: Hint) {
    && Of(hal'.checks, g) == Of(hal.checks, g) && Clock(hal) <= Clock(hal')
    && (g in hal'.lastCall <==> g in hal.lastCall) && (g in hal.lastCall ==> hal'.lastCall[g] == hal.lastCall[g])
    && (g in hal'.prevCall <==> g in hal.prevCall) && (g in hal.prevCall ==> hal'.prevCall[g] == hal.prevCall[g])
    && (InCall(hal', g) ==> InCall(hal, g))
  }

  lemma SameCallsCovered(hal: Hal, hal': Hal, g: Hint)
    requires CallsCovered(hal, g) && SameCalls(hal, hal', g)
    ensures CallsCovered(hal', g)
  {
    hide Near, LastOr0, InCall, Of, Clock;
  }

  lemma NotingLeavesOthers(hal: Hal, h: Hint, g: Hint)
    requires g != h
    ensures SameCalls(hal, Noted(hal, h), g)
  {
    hide Micros;
  }

  lemma BeginLeavesOthers(hal: Hal, h: Hint, data: bool, g: Hint)
    requires hal.call == None && g != h
    ensures SameCalls(hal, DoBegin(hal, h, data), g)
  {
    NotingLeavesOthers(hal, h, g);
    BeginBeyondNoting(hal, h, data, g);
  }

  lemma BeginBeyondNoting(hal: Hal, h: Hint, data: bool, g: Hint)
    requires hal.call == None && g != h
    ensures var (noted, begun) := (Noted(hal, h), DoBegin(hal, h, data));
            && begun.engine == noted.engine && begun.lastCall == noted.lastCall && begun.prevCall == noted.prevCall
            && Of(begun.checks, g) == Of(noted.checks, g) && !InCall(begun, g)
  {
    hide Passes, Micros, Interval;
  }

  lemma BeginKeepsOtherCovered(hal: Hal, h: Hint, data: bool, g: Hint)
    requires hal.call == None && CallsCovered(hal, g) && g != h
    ensures CallsCovered(DoBegin(hal, h, data), g)
  {
    BeginLeavesOthers(hal, h, data, g);
    SameCallsCovered(hal, DoBegin(hal, h, data), g);
  }

  lemma AdmittedCallCovered(hal: Hal, h: Hint, data: bool)
    requires hal.call == None && CallsCovered(hal, h) && CheckHint(hal, h).Some? && Interval(h) > 0
    ensures CallsCovered(DoBegin(hal, h, data), h)
  {
    hide Passes;
    var checks, t := Of(hal.checks, h), Micros(Clock(hal));
    assert LastOr0(checks + [t]) == t && (checks + [t])[..|checks|] == checks;
  }

  lemma RejectedCallCovered(hal: Hal, h: Hint, data: bool)
    requires hal.call == None && CallsCovered(hal, h) && CheckHint(hal, h).None? && !h.Invalid?
    requires LastTime(hal, h) == LastOr0(Of(hal.checks, h))
    ensures CallsCovered(DoBegin(hal, h, data), h)
  {
    hide Micros, LastTime;
  }

  lemma BeginKeepsCovered(hal: Hal, h: Hint, data: bool, g: Hint)
    requires HintOk(hal, g) && hal.call == None && CallsCovered(hal, g) && Interval(g) > 0
    ensures CallsCovered(DoBegin(hal, h, data), g)
  {
    hide HintOk, CallsCovered, DoBegin, CheckHint;
    if g != h {
      BeginKeepsOtherCovered(hal, h, data, g);
    } else if CheckHint(hal, h).Some? {
      AdmittedCallCovered(hal, h, data);
    } else {
      LastTimeIsLastCheck(hal, h);
      RejectedCallCovered(hal, h, data);
    }
  }

  lemma PushLeavesCalls(hal: Hal, g: Hint)
    requires HalEnabled(hal, PushNext)
    ensures SameCalls(hal, DoPushNext(hal), g)
  {
    hide Leases, Push;
    PushKeepsClock(hal.engine, Leases(hal.call.value.hint, hal.boosts, hal.call.value.data)[hal.call.value.next]);
  }

  lemma EngineLeavesCalls(hal: Hal, step: Step, g: Hint)
    requires Inv(hal.engine) && Enabled(hal.engine, step)
    ensures SameCalls(hal, hal.(engine := Apply(hal.engine, step)), g)
  {
    hide Inv, Apply;
    ClockGrows(hal.engine, step);
  }

  lemma HalStepKeepsCovered(hal: Hal, step: HalStep, g: Hint)
    requires HalInv(hal) && HalEnabled(hal, step) && CallsCovered(hal, g) && Interval(g) > 0
    ensures CallsCovered(HalApply(hal, step), g)
  {
    assert HintOk(hal, g);
    hide Inv, HintOk, SlotOk, CallsCovered, SameCalls, DoBegin, DoPushNext, Apply, Leases, Interval;
    match step
    case Begin(h, data) => BeginKeepsCovered(hal, h, data, g);
    case EngineStep(s) =>
      EngineLeavesCalls(hal, s, g);
      SameCallsCovered(hal, HalApply(hal, step), g);
    case PushNext =>
      PushLeavesCalls(hal, g);
      SameCallsCovered(hal, DoPushNext(hal), g);
    case End =>
      EndLeavesCalls(hal, g);
      SameCallsCovered(hal, DoEnd(hal), g);
  }

  lemma EndLeavesCalls(hal: Hal, g: Hint)
    requires HalEnabled(hal, End)
    ensures SameCalls(hal, DoEnd(hal), g)
  {
  }

  lemma {:induction false} RunKeepsCovered(hal: Hal, steps: seq<HalStep>, g: Hint)
    requires HalInv(hal) && HalFeasible(hal, steps) && CallsCovered(hal, g) && Interval(g) > 0
    ensures CallsCovered(HalExecute(hal, steps), g)
    decreases |steps|
  {
    hide HalInv, HalEnabled, HalApply, CallsCovered;
    if steps != [] {
      HalStepKeeps(hal, steps[0]);
      HalStepKeepsCovered(hal, steps[0], g);
      RunKeepsCovered(HalApply(hal, steps[0]), steps[1..], g);
    }
  }

  /** The last call whose push for this slot, if it was admitted, is behind us: the last call, or the one before it
      while the last one is admitted and has not come to the slot yet. */
  ghost function LastServed(hal: Hal, slot: Slot): Option<nat> {
    var served := if InCall(hal, slot.hint) && hal.call.value.next <= slot.index then hal.prevCall else hal.lastCall;
    if slot.hint in served then Some(served[slot.hint]) else None
  }

  function Newest(hal: Hal, slot: Slot): Option<nat> {
    var keys := Of(hal.keys, slot);
    if keys == [] then None else Some(keys[|keys| - 1])
  }

  lemma ServedIsNear(hal: Hal, slot: Slot)
    requires SlotOk(hal, slot) && CallsCovered(hal, slot.hint) && LastServed(hal, slot).Some?
    ensures var n := |Of(hal.keys, slot)|;
            && 0 < n == |Of(hal.times, slot)| <= |Of(hal.checks, slot.hint)|
            && Near(LastServed(hal, slot).value, Of(hal.checks, slot.hint)[n - 1], Interval(slot.hint))
            && Of(hal.checks, slot.hint)[n - 1] <= Micros(Of(hal.times, slot)[n - 1])
  {
    hide Near, AllPushedAs, Ascending, Micros;
    assert PushedAfterChecks(Of(hal.checks, slot.hint), Of(hal.times, slot));
  }

  /** If that call was at most `gap` ago, and gap plus interval do not exceed the duration, then the newest constraint
      of the slot has not expired. */
  lemma NewestIsActive(hal: Hal, slot: Slot, gap: nat)
    requires HalInv(hal) && IsSlot(slot) && !slot.hint.Invalid?
    requires CallsCovered(hal, slot.hint) && LastServed(hal, slot).Some?
    requires hal.engine.now <= LastServed(hal, slot).value + gap
    requires gap + Interval(slot.hint) * 1000 <= Duration(slot) * 1000
    ensures Newest(hal, slot).Some?
    ensures Newest(hal, slot).value !in hal.engine.log.failed ==> Newest(hal, slot).value in ActiveRequests(hal.engine)
  {
    hide Inv, Admit, CallsCovered, LastServed, PushedAfterChecks, Ascending;
    assert SlotOk(hal, slot);
    ServedIsNear(hal, slot);
    var keys, times := Of(hal.keys, slot), Of(hal.times, slot);
    var n := |keys|;
    assert PushedAs(hal.engine, keys[n - 1], times[n - 1], Duration(slot) * 1000);
    assert times[n - 1] in times;
  }

  /** Under prompt dispatch, whenever INTERACTION hints have come at most 10 ms apart: from the first admitted hint
      until 10 ms after the last one some interaction boost is in force at every settled instant, unless the newest
      request for it found its node shut. While an admitted call is on its way to its first push, the call before it
      counts. */
  lemma InteractionBoostHolds(now: nat, b: Boosts, steps: seq<HalStep>)
    requires now >= 1000 && HalFeasible(HalInit(now, b), steps) && HalPrompt(HalInit(now, b), steps)
    ensures var hal, slot := HalExecute(HalInit(now, b), steps), Slot(Interaction, 0);
            Settled(hal.engine) && LastServed(hal, slot).Some?
            && hal.engine.now <= LastServed(hal, slot).value + 10000000
            ==> && Newest(hal, slot).Some?
                && AskedUnder(hal, Newest(hal, slot).value)
                   == Some(OpenTimed("/dev/constraint_cpu_freq", Prioritized(35, -1, b.interaction), 100000000))
                && (Newest(hal, slot).value !in hal.engine.log.failed ==>
                      exists f :: f in hal.engine.fds && hal.engine.fds[f] == TimedConstraint(Newest(hal, slot).value))
  {
    hide HalInv, PromptInv, CallsCovered, Settled, LastServed, AskedUnder;
    HalInitInv(now, b);
    InitPrompt(now, b);
    PromptRunKeeps(HalInit(now, b), steps);
    InitCovered(now, b);
    HalRunKeeps(HalInit(now, b), steps);
    RunKeepsCovered(HalInit(now, b), steps, Interaction);
    var hal, slot := HalExecute(HalInit(now, b), steps), Slot(Interaction, 0);
    if Settled(hal.engine) && LastServed(hal, slot).Some?
       && hal.engine.now <= LastServed(hal, slot).value + MillisToNanos(10)
    {
      NewestIsActive(hal, slot, MillisToNanos(10));
      ActiveIsOpen(hal, Newest(hal, slot).value);
      NewestBoost(now, b, steps);
    }
  }

  lemma InitCovered(now: nat, b: Boosts)
    ensures CallsCovered(HalInit(now, b), Interaction)
  {
  }

  lemma ActiveIsOpen(hal: Hal, k: nat)
    requires PromptInv(hal) && Settled(hal.engine)
    ensures k in ActiveRequests(hal.engine) ==>
              exists f :: f in hal.engine.fds && hal.engine.fds[f] == TimedConstraint(k)
  {
    hide HintOk, SlotOk, NotOverdue;
    SettledOpenIsFilter(hal.engine);
    if k in ActiveRequests(hal.engine) {
      assert k in OpenRequests(hal.engine);
    }
  }
}
