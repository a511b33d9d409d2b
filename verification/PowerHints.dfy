/** common_power_hint of power/nvpowerhal.cpp on top of the engine: hints are rate limited, and each one
    that passes pushes a fixed list of timed constraints. Calls are serialised; other clients and the
    looper go on meanwhile, and the clock may move inside a call. */
module PowerHints {
  import opened Wrappers
  import opened PokerEngine
  import opened EngineInvariant
  import opened RateLimit
  import opened LeaseOverlap
  import opened CText

  /** `Other` are the hints in range that have no action; `Invalid` are the codes out of range. */
  datatype Hint = Vsync | Interaction | CpuBoost | Audio | LowPower | Other(code: nat) | Invalid(code: nat)

  const BOOST_PRIORITY := 35
  const DEFAULT_VALUE := -1
  const CPU_FREQ := "/dev/constraint_cpu_freq"
  const GPU_FREQ := "/dev/constraint_gpu_freq"
  const ONLINE_CPUS := "/dev/constraint_online_cpus"
  const EMC_FREQ_MIN := "/dev/emc_freq_min"
  const MAX_CPU_FREQ := "/dev/cpu_freq_max"
  const MAX_ONLINE_CPUS := "/dev/max_online_cpus"

  /** The two frequencies chosen when the HAL is opened. */
  datatype Boosts = Boosts(interaction: int, animation: int)

  /** Minimum time between two admitted hints, in microseconds; 0 for none. */
  function Interval(h: Hint): nat {
    match h
    case Interaction => 90000
    case CpuBoost => 500000
    case Audio => 500000
    case _ => 0
  }

  function MillisToNanos(ms: nat): nat {
    ms * 1000000
  }

  function AtLeast(node: string, value: int, ms: nat): Event {
    OpenTimed(node, Prioritized(BOOST_PRIORITY, DEFAULT_VALUE, value), MillisToNanos(ms))
  }

  /** The constraints that one admitted hint asks for, in order. */
  function Leases(h: Hint, b: Boosts, data: bool): seq<Event> {
    match h
    case Interaction =>
      [AtLeast(CPU_FREQ, b.interaction, 100), AtLeast(ONLINE_CPUS, 2, 2000), AtLeast(CPU_FREQ, b.animation, 2000),
       AtLeast(GPU_FREQ, 180000, 2000), OpenTimed(EMC_FREQ_MIN, Plain(396000), MillisToNanos(2000))]
    case CpuBoost =>
      [AtLeast(CPU_FREQ, INT_MAX, 1500), AtLeast(ONLINE_CPUS, 2, 1500), AtLeast(GPU_FREQ, 180000, 1500),
       OpenTimed(EMC_FREQ_MIN, Plain(792000), MillisToNanos(1500))]
    case Audio => [AtLeast(CPU_FREQ, 512000, 1000)]
    case LowPower =>
      [AtLeast(MAX_CPU_FREQ, if data then 1020000 else INT_MAX, 1000),
       AtLeast(MAX_ONLINE_CPUS, if data then 1 else INT_MAX, 1000)]
    case _ => []
  }

  /** One constraint of one hint. */
  datatype Slot = Slot(hint: Hint, index: nat)

  datatype Call = Call(hint: Hint, data: bool, t: nat, next: nat)

  /** From `calls` on, a record: when each hint was called and admitted (microseconds), when it was last
      called and when before that (nanoseconds), and for each slot the keys and times of its pushes. */
  datatype Hal = Hal(
    engine: State,
    boosts: Boosts,
    hintTime: map<Hint, nat>,
    call: Option<Call>,
    calls: map<Hint, seq<nat>>,
    checks: map<Hint, seq<nat>>,
    lastCall: map<Hint, nat>,
    prevCall: map<Hint, nat>,
    keys: map<Slot, seq<nat>>,
    times: map<Slot, seq<nat>>)

  function HalInit(now: nat, b: Boosts): Hal {
    Hal(Init(now), b, map[], None, map[], map[], map[], map[], map[], map[])
  }

  function Of<K>(m: map<K, seq<nat>>, k: K): seq<nat> {
    if k in m then m[k] else []
  }

  function LastTime(hal: Hal, h: Hint): nat {
    if h in hal.hintTime then hal.hintTime[h] else 0
  }

  function Clock(hal: Hal): nat {
    if hal.engine.now < 0 then 0 else hal.engine.now
  }

  /** check_hint: the time to record if the hint may pass. */
  function CheckHint(hal: Hal, h: Hint): Option<nat> {
    if h.Invalid? || !Passes(LastTime(hal, h), Interval(h), Micros(Clock(hal))) then None
    else Some(Micros(Clock(hal)))
  }

  datatype HalStep = Begin(h: Hint, data: bool) | PushNext | End | EngineStep(step: Step)

  ghost predicate HalEnabled(hal: Hal, step: HalStep) {
    match step
    case Begin(_, _) => hal.call == None
    case PushNext => hal.call.Some?
        && hal.call.value.next < |Leases(hal.call.value.hint, hal.boosts, hal.call.value.data)|
    case End => hal.call.Some? && hal.call.value.next == |Leases(hal.call.value.hint, hal.boosts, hal.call.value.data)|
    case EngineStep(s) => Enabled(hal.engine, s)
  }

  /** The record of a call. */
  function Noted(hal: Hal, h: Hint): Hal {
    hal.(calls := hal.calls[h := Of(hal.calls, h) + [Micros(Clock(hal))]],
         lastCall := hal.lastCall[h := Clock(hal)],
         prevCall := if h in hal.lastCall then hal.prevCall[h := hal.lastCall[h]] else hal.prevCall)
  }

  function DoBegin(hal: Hal, h: Hint, data: bool): Hal {
    match CheckHint(hal, h)
    case None => Noted(hal, h)
    case Some(t) => Started(hal, h, data, t)
  }

  function Started(hal: Hal, h: Hint, data: bool, t: nat): Hal {
    Noted(hal, h).(call := Some(Call(h, data, t, 0)), checks := hal.checks[h := Of(hal.checks, h) + [t]])
  }

  function DoPushNext(hal: Hal): Hal
    requires hal.call.Some? && hal.call.value.next < |Leases(hal.call.value.hint, hal.boosts, hal.call.value.data)|
  {
    var c := hal.call.value;
    var slot := Slot(c.hint, c.next);
    hal.(engine := Push(hal.engine, Leases(c.hint, hal.boosts, c.data)[c.next]),
         call := Some(c.(next := c.next + 1)),
         keys := hal.keys[slot := Of(hal.keys, slot) + [hal.engine.nextKey]],
         times := hal.times[slot := Of(hal.times, slot) + [Clock(hal)]])
  }

  function DoEnd(hal: Hal): Hal
    requires hal.call.Some?
  {
    hal.(hintTime := hal.hintTime[hal.call.value.hint := hal.call.value.t], call := None)
  }

  ghost function HalApply(hal: Hal, step: HalStep): Hal
    requires HalEnabled(hal, step)
  {
    match step
    case Begin(h, data) => DoBegin(hal, h, data)
    case PushNext => DoPushNext(hal)
    case End => DoEnd(hal)
    case EngineStep(s) => hal.(engine := Apply(hal.engine, s))
  }

  ghost predicate HalFeasible(hal: Hal, steps: seq<HalStep>)
    decreases |steps|
  {
    steps != [] ==> HalEnabled(hal, steps[0]) && HalFeasible(HalApply(hal, steps[0]), steps[1..])
  }

  ghost function HalExecute(hal: Hal, steps: seq<HalStep>): Hal
    requires HalFeasible(hal, steps)
    decreases |steps|
  {
    if steps == [] then hal else HalExecute(HalApply(hal, steps[0]), steps[1..])
  }

  /** Prompt dispatch, as for the engine. */
  ghost predicate HalPrompt(hal: Hal, steps: seq<HalStep>)
    requires HalFeasible(hal, steps)
    decreases |steps|
  {
    steps != [] ==>
      && (steps[0].EngineStep? ==> Prompt(hal.engine, steps[0].step))
      && HalPrompt(HalApply(hal, steps[0]), steps[1..])
  }

  /** The clock stands still while a hint is being processed. */
  predicate StandsStill(hal: Hal, step: HalStep) {
    step.EngineStep? && step.step.DoTick? && step.step.d > 0 ==> hal.call == None
  }

  ghost predicate HalInstant(hal: Hal, steps: seq<HalStep>)
    requires HalFeasible(hal, steps)
    decreases |steps|
  {
    steps != [] ==> StandsStill(hal, steps[0]) && HalInstant(HalApply(hal, steps[0]), steps[1..])
  }

  // ---------- Invariants ----------

  ghost predicate InCall(hal: Hal, h: Hint) {
    hal.call.Some? && hal.call.value.hint == h
  }

  function LastOr0(ts: seq<nat>): nat {
    if ts == [] then 0 else ts[|ts| - 1]
  }

  /** The admitted calls are those the limiter admits; `last` is hint_time, the last admitted call whose
      processing is over, and `pending` the admitted call being processed. */
  ghost predicate ChecksOk(calls: seq<nat>, checks: seq<nat>, interval: nat, now: nat, last: nat,
      pending: Option<nat>) {
    && checks == Admit(calls, 0, interval)
    && (forall t :: t in checks ==> 0 < t <= now)
    && Spaced(checks, interval)
    && (pending.Some? ==> checks != [] && LastOr0(checks) == pending.value && last == LastOr0(checks[..|checks| - 1]))
    && (pending.None? ==> last == LastOr0(checks))
  }

  ghost predicate HintOk(hal: Hal, h: Hint) {
    !h.Invalid? ==>
      ChecksOk(Of(hal.calls, h), Of(hal.checks, h), Interval(h), Micros(Clock(hal)), LastTime(hal, h),
               if InCall(hal, h) then Some(hal.call.value.t) else None)
  }

  ghost predicate PushedAs(s: State, key: nat, at: nat, timeout: int) {
    && key in s.log.history && s.log.history[key].event.OpenTimed? && s.log.history[key].event.timeout == timeout
    && s.log.history[key].at == at && key < s.nextKey
  }

  ghost predicate AllPushedAs(s: State, keys: seq<nat>, times: seq<nat>, timeout: int)
    requires |keys| == |times|
  {
    forall j :: 0 <= j < |keys| ==> PushedAs(s, keys[j], times[j], timeout)
  }

  /** How long the constraint of a slot lasts, in microseconds. */
  function Duration(slot: Slot): nat {
    match slot.hint
    case Interaction => if slot.index == 0 then 100000 else 2000000
    case CpuBoost => 1500000
    case _ => 1000000
  }

  predicate IsSlot(slot: Slot) {
    slot.index < |Leases(slot.hint, Boosts(0, 0), false)|
  }

  /** The pushes of a slot keep step with the admitted calls of its hint. */
  ghost predicate SlotOk(hal: Hal, slot: Slot) {
    var (keys, times, checks) := (Of(hal.keys, slot), Of(hal.times, slot), Of(hal.checks, slot.hint));
    && |keys| == |times|
    && |times| == |checks| - (if InCall(hal, slot.hint) && hal.call.value.next <= slot.index then 1 else 0)
    && PushedAfterChecks(checks, times)
    && Ascending(times) && (forall t :: t in times ==> t <= Clock(hal))
    && AllPushedAs(hal.engine, keys, times, Duration(slot) * 1000)
  }

  ghost predicate HalInv(hal: Hal) {
    && hal.engine.now >= 1000
    && Inv(hal.engine)
    && (hal.call.Some? ==> !hal.call.value.hint.Invalid?)
    && (forall h :: HintOk(hal, h))
    && (forall slot :: IsSlot(slot) ==> SlotOk(hal, slot))
  }

  lemma LeaseShape(h: Hint, b: Boosts, data: bool, i: nat)
    requires i < |Leases(h, b, data)|
    ensures IsSlot(Slot(h, i))
    ensures Leases(h, b, data)[i].OpenTimed? && Leases(h, b, data)[i].timeout == Duration(Slot(h, i)) * 1000
  {
  }

  // ---------- Preservation ----------

  lemma OtherKey<K(!new)>(m: map<K, seq<nat>>, h: K, ts: seq<nat>, g: K)
    requires g != h
    ensures Of(m[h := ts], g) == Of(m, g)
  {
  }

  /** What beginning a call of one hint leaves as it was for another, `g`. */
  ghost predicate Leaves(hal: Hal, begun: Hal, g: Hint) {
    && begun.engine == hal.engine && begun.hintTime == hal.hintTime
    && begun.keys == hal.keys && begun.times == hal.times
    && Of(begun.calls, g) == Of(hal.calls, g) && Of(begun.checks, g) == Of(hal.checks, g) && !InCall(begun, g)
  }

  lemma NotedLeaves(hal: Hal, h: Hint, g: Hint)
    requires hal.call == None && g != h
    ensures Leaves(hal, Noted(hal, h), g)
  {
    hide Of, Micros;
    OtherKey(hal.calls, h, Of(hal.calls, h) + [Micros(Clock(hal))], g);
  }

  lemma StartedLeaves(hal: Hal, h: Hint, data: bool, t: nat, g: Hint)
    requires hal.call == None && g != h
    ensures Leaves(hal, Started(hal, h, data, t), g)
  {
    NotedLeaves(hal, h, g);
    hide Of, Noted;
    OtherKey(hal.checks, h, Of(hal.checks, h) + [t], g);
  }

  lemma BeginLeaves(hal: Hal, h: Hint, data: bool, g: Hint)
    requires hal.call == None && g != h
    ensures Leaves(hal, DoBegin(hal, h, data), g)
  {
    hide Leaves, Noted, Started, CheckHint;
    match CheckHint(hal, h)
    case None => NotedLeaves(hal, h, g);
    case Some(t) => StartedLeaves(hal, h, data, t, g);
  }

  lemma BeginKeepsOtherHint(hal: Hal, h: Hint, data: bool, g: Hint)
    requires HintOk(hal, g) && hal.call == None && g != h
    ensures HintOk(DoBegin(hal, h, data), g)
  {
    BeginLeaves(hal, h, data, g);
    hide DoBegin, ChecksOk, Passes, Micros, Of;
  }

  lemma SpacedOneMore(checks: seq<nat>, interval: nat, now: nat)
    requires Spaced(checks, interval) && (checks != [] ==> checks[|checks| - 1] + interval <= now)
    ensures Spaced(checks + [now], interval)
  {
  }

  lemma AdmittedOneMore(calls: seq<nat>, checks: seq<nat>, interval: nat, now: nat)
    requires checks == Admit(calls, 0, interval) && Passes(LastOr0(checks), interval, now)
    ensures Admit(calls + [now], 0, interval) == checks + [now]
  {
    AdmitOneMore(calls, 0, interval, now);
    hide Admit;
  }

  lemma CheckedOneMore(checks: seq<nat>, interval: nat, now: nat)
    requires Spaced(checks, interval) && (forall t :: t in checks ==> 0 < t <= now) && now > 0
    requires Passes(LastOr0(checks), interval, now)
    ensures Spaced(checks + [now], interval) && forall t :: t in checks + [now] ==> 0 < t <= now
    ensures LastOr0(checks + [now]) == now && (checks + [now])[..|checks + [now]| - 1] == checks
  {
    assert checks != [] ==> checks[|checks| - 1] in checks;
    SpacedOneMore(checks, interval, now);
    hide Spaced;
  }

  lemma OneMoreAdmitted(calls: seq<nat>, checks: seq<nat>, interval: nat, now: nat, last: nat)
    requires ChecksOk(calls, checks, interval, now, last, None) && now > 0 && Passes(last, interval, now)
    ensures ChecksOk(calls + [now], checks + [now], interval, now, last, Some(now))
  {
    AdmittedOneMore(calls, checks, interval, now);
    CheckedOneMore(checks, interval, now);
    hide Admit, Spaced, Passes, LastOr0;
  }

  lemma OneMoreRejected(calls: seq<nat>, checks: seq<nat>, interval: nat, now: nat, last: nat)
    requires ChecksOk(calls, checks, interval, now, last, None) && !Passes(last, interval, now)
    ensures ChecksOk(calls + [now], checks, interval, now, last, None)
  {
    AdmitOneMore(calls, 0, interval, now);
    hide Admit;
    assert checks + [] == checks;
  }

  lemma BeginKeepsThisHint(hal: Hal, h: Hint, data: bool)
    requires HintOk(hal, h) && hal.call == None && hal.engine.now >= 1000
    ensures HintOk(DoBegin(hal, h, data), h)
  {
    hide ChecksOk;
    if !h.Invalid? {
      if Passes(LastTime(hal, h), Interval(h), Micros(Clock(hal))) {
        OneMoreAdmitted(Of(hal.calls, h), Of(hal.checks, h), Interval(h), Micros(Clock(hal)), LastTime(hal, h));
      } else {
        OneMoreRejected(Of(hal.calls, h), Of(hal.checks, h), Interval(h), Micros(Clock(hal)), LastTime(hal, h));
      }
    }
  }

  lemma ChecksGrow(checks: seq<nat>, times: seq<nat>, now: nat)
    requires PushedAfterChecks(checks, times) && Ascending(times) && forall t :: t in times ==> t <= now
    ensures PushedAfterChecks(checks + [Micros(now)], times)
  {
    assert times != [] ==> times[|times| - 1] in times;
  }

  lemma BeginKeepsOtherSlot(hal: Hal, h: Hint, data: bool, slot: Slot)
    requires SlotOk(hal, slot) && hal.call == None && slot.hint != h
    ensures SlotOk(DoBegin(hal, h, data), slot)
  {
    BeginLeaves(hal, h, data, slot.hint);
    hide DoBegin, Of, PushedAfterChecks, AllPushedAs, Ascending, Duration;
  }

  lemma NotedAddsNone(hal: Hal, h: Hint)
    ensures var noted := Noted(hal, h);
            && noted.times == hal.times && noted.checks == hal.checks && noted.keys == hal.keys
            && noted.engine == hal.engine && noted.call == hal.call && noted.boosts == hal.boosts
  {
    hide Micros, Clock, Of;
  }

  lemma CheckedNow(hal: Hal, h: Hint)
    requires CheckHint(hal, h).Some?
    ensures CheckHint(hal, h) == Some(Micros(Clock(hal)))
  {
    hide Micros, Clock, Passes;
  }

  lemma BeginKeepsThisSlot(hal: Hal, h: Hint, data: bool, slot: Slot)
    requires SlotOk(hal, slot) && hal.call == None && slot.hint == h
    ensures SlotOk(DoBegin(hal, h, data), slot)
  {
    hide PushedAfterChecks, AllPushedAs, Ascending, Micros, Duration, Noted, CheckHint;
    ChecksGrow(Of(hal.checks, h), Of(hal.times, slot), Clock(hal));
    NotedAddsNone(hal, h);
    match CheckHint(hal, h)
    case None => assert DoBegin(hal, h, data) == Noted(hal, h);
    case Some(t) => CheckedNow(hal, h);
  }

  lemma BeginKeeps(hal: Hal, h: Hint, data: bool)
    requires HalInv(hal) && hal.call == None
    ensures HalInv(DoBegin(hal, h, data))
  {
    hide HintOk, SlotOk, Inv;
    forall g ensures HintOk(DoBegin(hal, h, data), g) {
      if g == h { BeginKeepsThisHint(hal, h, data); } else { BeginKeepsOtherHint(hal, h, data, g); }
    }
    forall slot | IsSlot(slot) ensures SlotOk(DoBegin(hal, h, data), slot) {
      if slot.hint == h { BeginKeepsThisSlot(hal, h, data, slot); } else { BeginKeepsOtherSlot(hal, h, data, slot); }
    }
  }

  lemma HistoryKept(s: State, step: Step, key: nat, at: nat, timeout: int)
    requires Inv(s) && Enabled(s, step) && PushedAs(s, key, at, timeout)
    ensures PushedAs(Apply(s, step), key, at, timeout)
  {
    if step.DoPush? { PushEffect(s, step.ev); }
    else if step.DoDispatch? { DispatchEffect(s, step.r); }
    else { QuietEffect(s, step); }
  }

  lemma ClockGrows(s: State, step: Step)
    requires Inv(s) && Enabled(s, step)
    ensures s.now <= Apply(s, step).now && (!step.DoTick? ==> s.now == Apply(s, step).now)
  {
    if step.DoDispatch? { DispatchEffect(s, step.r); }
  }

  lemma EngineKeepsSlot(hal: Hal, step: Step, slot: Slot)
    requires Inv(hal.engine) && Enabled(hal.engine, step) && SlotOk(hal, slot)
    ensures SlotOk(hal.(engine := Apply(hal.engine, step)), slot)
  {
    hide Inv, Apply, PushedAs, PushedAfterChecks, Ascending;
    ClockGrows(hal.engine, step);
    var keys, times := Of(hal.keys, slot), Of(hal.times, slot);
    forall j | 0 <= j < |keys| ensures PushedAs(Apply(hal.engine, step), keys[j], times[j], Duration(slot) * 1000) {
      HistoryKept(hal.engine, step, keys[j], times[j], Duration(slot) * 1000);
    }
  }

  lemma EngineKeepsHint(hal: Hal, step: Step, h: Hint)
    requires Inv(hal.engine) && Enabled(hal.engine, step) && HintOk(hal, h)
    ensures HintOk(hal.(engine := Apply(hal.engine, step)), h)
  {
    ClockGrows(hal.engine, step);
  }

  lemma EngineKeeps(hal: Hal, step: Step)
    requires HalInv(hal) && Enabled(hal.engine, step)
    ensures HalInv(hal.(engine := Apply(hal.engine, step)))
  {
    hide Inv, HintOk, SlotOk, Apply;
    var hal' := hal.(engine := Apply(hal.engine, step));
    StepKeeps(hal.engine, step);
    ClockGrows(hal.engine, step);
    forall h ensures HintOk(hal', h) { EngineKeepsHint(hal, step, h); }
    forall slot | IsSlot(slot) ensures SlotOk(hal', slot) { EngineKeepsSlot(hal, step, slot); }
  }

  lemma PushKeepsKeys(hal: Hal, ev: Event, slot: Slot)
    requires Inv(hal.engine) && SlotOk(hal, slot) && !ev.CloseTimed?
    ensures AllPushedAs(Push(hal.engine, ev), Of(hal.keys, slot), Of(hal.times, slot), Duration(slot) * 1000)
  {
    hide Inv, PushedAs;
    var keys, times := Of(hal.keys, slot), Of(hal.times, slot);
    forall j | 0 <= j < |keys| ensures PushedAs(Push(hal.engine, ev), keys[j], times[j], Duration(slot) * 1000) {
      HistoryKept(hal.engine, DoPush(ev), keys[j], times[j], Duration(slot) * 1000);
    }
  }

  lemma PushKeepsOtherSlot(hal: Hal, slot: Slot)
    requires Inv(hal.engine) && HalEnabled(hal, PushNext) && SlotOk(hal, slot)
    requires slot != Slot(hal.call.value.hint, hal.call.value.next)
    ensures SlotOk(DoPushNext(hal), slot)
  {
    hide Inv, AllPushedAs, PushedAfterChecks, Ascending, Push, Leases, Duration;
    var c := hal.call.value;
    var ev := Leases(c.hint, hal.boosts, c.data)[c.next];
    LeaseShape(c.hint, hal.boosts, c.data, c.next);
    PushKeepsKeys(hal, ev, slot);
    PushKeepsClock(hal.engine, ev);
  }

  lemma PushKeepsClock(s: State, ev: Event)
    ensures Push(s, ev).now == s.now
  {
  }

  lemma PushKeepsThisSlot(hal: Hal)
    requires Inv(hal.engine) && hal.engine.now >= 0 && HalEnabled(hal, PushNext)
    requires !hal.call.value.hint.Invalid? && HintOk(hal, hal.call.value.hint)
             && SlotOk(hal, Slot(hal.call.value.hint, hal.call.value.next))
    ensures SlotOk(DoPushNext(hal), Slot(hal.call.value.hint, hal.call.value.next))
  {
    hide Inv, AllPushedAs, Push, PushedAfterChecks, Ascending, Spaced, Leases;
    var c := hal.call.value;
    var slot, ev := Slot(c.hint, c.next), Leases(c.hint, hal.boosts, c.data)[c.next];
    LeaseShape(c.hint, hal.boosts, c.data, c.next);
    PushKeepsKeys(hal, ev, slot);
    PushedIsRecorded(hal.engine, ev);
    var checks, keys, times := Of(hal.checks, c.hint), Of(hal.keys, slot), Of(hal.times, slot);
    OneMoreKey(Push(hal.engine, ev), keys, times, hal.engine.nextKey, Clock(hal), Duration(slot) * 1000);
    assert checks[|checks| - 1] in checks;
    OneMorePush(checks, times, Clock(hal));
  }

  lemma OneMoreKey(s: State, keys: seq<nat>, times: seq<nat>, key: nat, at: nat, timeout: int)
    requires |keys| == |times| && AllPushedAs(s, keys, times, timeout) && PushedAs(s, key, at, timeout)
    ensures AllPushedAs(s, keys + [key], times + [at], timeout)
  {
  }

  lemma OneMorePush(checks: seq<nat>, times: seq<nat>, now: nat)
    requires PushedAfterChecks(checks, times) && Ascending(times) && |times| + 1 == |checks|
    requires checks[|checks| - 1] <= Micros(now) && forall t :: t in times ==> t <= now
    ensures PushedAfterChecks(checks, times + [now]) && Ascending(times + [now])
  {
    assert forall i :: 0 <= i < |times| ==> times[i] in times;
  }

  lemma PushedIsRecorded(s: State, ev: Event)
    requires ev.OpenTimed? && s.now >= 0
    ensures PushedAs(Push(s, ev), s.nextKey, s.now, ev.timeout) && Push(s, ev).now == s.now
  {
  }

  lemma PushKeepsHint(hal: Hal, h: Hint)
    requires HalEnabled(hal, PushNext) && HintOk(hal, h)
    ensures HintOk(DoPushNext(hal), h)
  {
  }

  lemma PushNextKeeps(hal: Hal)
    requires HalInv(hal) && HalEnabled(hal, PushNext)
    ensures HalInv(DoPushNext(hal))
  {
    hide Inv, HintOk, SlotOk;
    var c := hal.call.value;
    LeaseShape(c.hint, hal.boosts, c.data, c.next);
    PushKeeps(hal.engine, Leases(c.hint, hal.boosts, c.data)[c.next]);
    forall h ensures HintOk(DoPushNext(hal), h) { PushKeepsHint(hal, h); }
    forall slot | IsSlot(slot) ensures SlotOk(DoPushNext(hal), slot) {
      if slot == Slot(c.hint, c.next) { PushKeepsThisSlot(hal); } else { PushKeepsOtherSlot(hal, slot); }
    }
  }

  lemma EndKeeps(hal: Hal)
    requires HalInv(hal) && HalEnabled(hal, End)
    ensures HalInv(DoEnd(hal))
  {
    hide Inv, HintOk, SlotOk;
    forall h ensures HintOk(DoEnd(hal), h) { EndKeepsHint(hal, h); }
    forall slot | IsSlot(slot) ensures SlotOk(DoEnd(hal), slot) { EndKeepsSlot(hal, slot); }
  }

  lemma EndKeepsHint(hal: Hal, h: Hint)
    requires HintOk(hal, h) && HalEnabled(hal, End)
    ensures HintOk(DoEnd(hal), h)
  {
  }

  lemma EndKeepsSlot(hal: Hal, slot: Slot)
    requires SlotOk(hal, slot) && HalEnabled(hal, End) && IsSlot(slot)
    ensures SlotOk(DoEnd(hal), slot)
  {
    hide PushedAfterChecks, Ascending, AllPushedAs;
  }

  lemma HalStepKeeps(hal: Hal, step: HalStep)
    requires HalInv(hal) && HalEnabled(hal, step)
    ensures HalInv(HalApply(hal, step))
  {
    hide HalInv;
    match step
    case Begin(h, data) => BeginKeeps(hal, h, data);
    case PushNext => PushNextKeeps(hal);
    case End => EndKeeps(hal);
    case EngineStep(s) => EngineKeeps(hal, s);
  }

  lemma {:induction false} HalRunKeeps(hal: Hal, steps: seq<HalStep>)
    requires HalInv(hal) && HalFeasible(hal, steps)
    ensures HalInv(HalExecute(hal, steps))
    decreases |steps|
  {
    hide HalInv, HalEnabled, HalApply;
    if steps != [] {
      HalStepKeeps(hal, steps[0]);
      HalRunKeeps(HalApply(hal, steps[0]), steps[1..]);
    }
  }

  lemma HalInitInv(now: nat, b: Boosts)
    requires now >= 1000
    ensures HalInv(HalInit(now, b))
  {
    InitInv(now);
    hide Inv, HintOk, SlotOk;
    forall h ensures HintOk(HalInit(now, b), h) { NoCallsOk(now, b, h); }
    forall slot | IsSlot(slot) ensures SlotOk(HalInit(now, b), slot) { NoPushesOk(now, b, slot); }
  }

  lemma NoCallsOk(now: nat, b: Boosts, h: Hint)
    ensures HintOk(HalInit(now, b), h)
  {
  }

  lemma NoPushesOk(now: nat, b: Boosts, slot: Slot)
    ensures SlotOk(HalInit(now, b), slot)
  {
  }

  /** In every run LOW_POWER, VSYNC and the hints that have no action are never turned down. */
  lemma UnlimitedAreAdmitted(now: nat, b: Boosts, steps: seq<HalStep>, h: Hint)
    requires now >= 1000 && HalFeasible(HalInit(now, b), steps) && (h.LowPower? || h.Vsync? || h.Other?)
    ensures var hal := HalExecute(HalInit(now, b), steps);
            Of(hal.checks, h) == Of(hal.calls, h)
  {
    hide Admit;
    AdmittedInEveryRun(now, b, steps, h);
    NoIntervalAdmitsAll(Of(HalExecute(HalInit(now, b), steps).calls, h), 0);
  }

  /** In every run the admitted calls of a hint are exactly the limiter's selection among its calls. */
  lemma AdmittedInEveryRun(now: nat, b: Boosts, steps: seq<HalStep>, h: Hint)
    requires now >= 1000 && HalFeasible(HalInit(now, b), steps) && !h.Invalid?
    ensures var hal := HalExecute(HalInit(now, b), steps);
            Of(hal.checks, h) == Admit(Of(hal.calls, h), 0, Interval(h)) && Spaced(Of(hal.checks, h), Interval(h))
  {
    HalInitInv(now, b);
    HalRunKeeps(HalInit(now, b), steps);
    assert HintOk(HalExecute(HalInit(now, b), steps), h);
  }

  // ---------- The record of calls ----------

  /** When hint `h` was called in a run, in nanoseconds. */
  ghost function CallTimes(hal: Hal, steps: seq<HalStep>, h: Hint): seq<nat>
    requires HalFeasible(hal, steps)
    decreases |steps|
  {
    if steps == [] then []
    else (if steps[0].Begin? && steps[0].h == h then [Clock(hal)] else [])
         + CallTimes(HalApply(hal, steps[0]), steps[1..], h)
  }

  function AllMicros(ts: seq<nat>): seq<nat> {
    seq(|ts|, i requires 0 <= i < |ts| => Micros(ts[i]))
  }

  /** `calls` has all calls, `lastCall` the last one and `prevCall` the one before it. */
  ghost predicate OnRecord(hal: Hal, h: Hint, ts: seq<nat>) {
    && Of(hal.calls, h) == AllMicros(ts)
    && (h in hal.lastCall <==> |ts| >= 1) && (|ts| >= 1 ==> hal.lastCall[h] == ts[|ts| - 1])
    && (h in hal.prevCall <==> |ts| >= 2) && (|ts| >= 2 ==> hal.prevCall[h] == ts[|ts| - 2])
  }

  lemma NotedOnRecord(hal: Hal, g: Hint, h: Hint, ts: seq<nat>)
    requires OnRecord(hal, h, ts)
    ensures OnRecord(Noted(hal, g), h, ts + if g == h then [Clock(hal)] else [])
  {
    hide Micros, Clock;
    if g == h {
      assert AllMicros(ts + [Clock(hal)]) == AllMicros(ts) + [Micros(Clock(hal))];
    } else {
      assert ts + [] == ts;
    }
  }

  lemma SameRecords(hal: Hal, hal': Hal, h: Hint, ts: seq<nat>)
    requires OnRecord(hal, h, ts)
    requires hal'.calls == hal.calls && hal'.lastCall == hal.lastCall && hal'.prevCall == hal.prevCall
    ensures OnRecord(hal', h, ts)
  {
  }

  lemma BeginOnRecord(hal: Hal, g: Hint, data: bool, h: Hint, ts: seq<nat>)
    requires OnRecord(hal, h, ts)
    ensures OnRecord(DoBegin(hal, g, data), h, ts + if g == h then [Clock(hal)] else [])
  {
    hide OnRecord, Noted, CheckHint, Of, Clock;
    NotedOnRecord(hal, g, h, ts);
    match CheckHint(hal, g)
    case None => assert DoBegin(hal, g, data) == Noted(hal, g);
    case Some(t) => SameRecords(Noted(hal, g), Started(hal, g, data, t), h, ts + if g == h then [Clock(hal)] else []);
  }

  lemma StepOnRecord(hal: Hal, step: HalStep, h: Hint, ts: seq<nat>)
    requires HalEnabled(hal, step) && OnRecord(hal, h, ts)
    ensures OnRecord(HalApply(hal, step), h, ts + if step.Begin? && step.h == h then [Clock(hal)] else [])
  {
    hide OnRecord, DoBegin, Leases, Push, Apply, Enabled, Of, Clock;
    assert ts + [] == ts;
    match step
    case Begin(g, data) => BeginOnRecord(hal, g, data, h, ts);
    case _ => SameRecords(hal, HalApply(hal, step), h, ts);
  }

  lemma {:induction false} RunOnRecord(hal: Hal, steps: seq<HalStep>, h: Hint, ts: seq<nat>)
    requires HalFeasible(hal, steps) && OnRecord(hal, h, ts)
    ensures OnRecord(HalExecute(hal, steps), h, ts + CallTimes(hal, steps, h))
    decreases |steps|
  {
    hide OnRecord, HalEnabled, HalApply, Clock;
    if steps == [] {
      assert ts + [] == ts;
    } else {
      var first := if steps[0].Begin? && steps[0].h == h then [Clock(hal)] else [];
      StepOnRecord(hal, steps[0], h, ts);
      RunOnRecord(HalApply(hal, steps[0]), steps[1..], h, ts + first);
      assert ts + first + CallTimes(HalApply(hal, steps[0]), steps[1..], h) == ts + CallTimes(hal, steps, h);
    }
  }

  /** In every run the records of calls are the calls themselves. */
  lemma CallsAreOnRecord(now: nat, b: Boosts, steps: seq<HalStep>, h: Hint)
    requires HalFeasible(HalInit(now, b), steps)
    ensures OnRecord(HalExecute(HalInit(now, b), steps), h, CallTimes(HalInit(now, b), steps, h))
  {
    hide HalFeasible, HalExecute, CallTimes, HalInit, OnRecord;
    NothingOnRecord(now, b, h);
    RunOnRecord(HalInit(now, b), steps, h, []);
    assert [] + CallTimes(HalInit(now, b), steps, h) == CallTimes(HalInit(now, b), steps, h);
  }

  lemma NothingOnRecord(now: nat, b: Boosts, h: Hint)
    ensures OnRecord(HalInit(now, b), h, [])
  {
  }
}
