/** Runs of the hint machine that fill all constraints of the rate-limited hints at one instant, which makes the totals
    of HintTotals exact: 118 descriptors, 113 when no time passes inside a call, 108 when moreover pushes fall on whole
    microseconds. */
module HintWitness {
  import opened Wrappers
  import opened PokerEngine
  import EngineInvariant
  import EngineProgress
  import opened RateLimit
  import opened LeaseOverlap
  import opened PowerHints
  import opened HintBounds
  import opened HintTotals

  // ---------- Runs ----------

  /** A run that is feasible and prompt and, unless delays are allowed, spends no time inside a call. */
  ghost predicate Fine(timing: Timing, hal: Hal, steps: seq<HalStep>) {
    HalFeasible(hal, steps) && HalPrompt(hal, steps) && (!timing.AnyDelay? ==> HalInstant(hal, steps))
  }

  ghost predicate Good(timing: Timing, hal: Hal, step: HalStep) {
    && HalEnabled(hal, step) && (!timing.AnyDelay? ==> StandsStill(hal, step))
    && (step.EngineStep? ==> Prompt(hal.engine, step.step))
  }

  lemma OneFine(timing: Timing, hal: Hal, step: HalStep, rest: seq<HalStep>)
    requires Good(timing, hal, step) && Fine(timing, HalApply(hal, step), rest)
    ensures Fine(timing, hal, [step] + rest) && HalExecute(hal, [step] + rest) == HalExecute(HalApply(hal, step), rest)
  {
    assert ([step] + rest)[1..] == rest;
  }

  lemma {:induction false} FineThenFine(timing: Timing, hal: Hal, a: seq<HalStep>, c: seq<HalStep>)
    requires Fine(timing, hal, a) && Fine(timing, HalExecute(hal, a), c)
    ensures Fine(timing, hal, a + c) && HalExecute(hal, a + c) == HalExecute(HalExecute(hal, a), c)
    decreases |a|
  {
    hide HalEnabled, HalApply, Prompt, StandsStill;
    if a == [] {
      assert a + c == c;
    } else {
      FineThenFine(timing, HalApply(hal, a[0]), a[1..], c);
      OneFine(timing, hal, a[0], a[1..] + c);
      assert a + c == [a[0]] + (a[1..] + c);
    }
  }

  ghost predicate LeadsBy(timing: Timing, hal: Hal, steps: seq<HalStep>, hal': Hal) {
    Fine(timing, hal, steps) && HalExecute(hal, steps) == hal'
  }

  ghost predicate Leads(timing: Timing, hal: Hal, hal': Hal) {
    exists steps :: LeadsBy(timing, hal, steps, hal')
  }

  lemma NoSteps(timing: Timing, hal: Hal)
    ensures Leads(timing, hal, hal)
  {
    assert LeadsBy(timing, hal, [], hal);
  }

  lemma OneStep(timing: Timing, hal: Hal, step: HalStep)
    requires Good(timing, hal, step)
    ensures Leads(timing, hal, HalApply(hal, step))
  {
    assert Fine(timing, HalApply(hal, step), []);
    OneFine(timing, hal, step, []);
    assert LeadsBy(timing, hal, [step] + [], HalApply(hal, step));
  }

  lemma LeadsOn(timing: Timing, a: Hal, b: Hal, c: Hal)
    requires Leads(timing, a, b) && Leads(timing, b, c)
    ensures Leads(timing, a, c)
  {
    var p :| LeadsBy(timing, a, p, b);
    var q :| LeadsBy(timing, b, q, c);
    FineThenFine(timing, a, p, q);
    assert LeadsBy(timing, a, p + q, c);
  }

  // ---------- A state on the way ----------

  ghost predicate Listed(hal: Hal, key: nat) {
    exists slot :: slot in LimitedSlots() && key in Of(hal.keys, slot)
  }

  /** So far `count` constraints of the limited hints are open, each under the number of its request, and none expires
      before `end` or then. */
  ghost predicate Filled(hal: Hal, end: nat, timing: Timing, count: nat) {
    && 1000 <= hal.engine.now <= end
    && (forall m :: m in hal.engine.queue ==> m.due > end)
    && Numbered(hal)
    && |hal.engine.fds.Keys| == count
    && (timing.WholeMicro? ==> WholeMicros(hal))
  }

  predicate Limited(h: Hint) {
    h.Interaction? || h.CpuBoost? || h.Audio?
  }

  function Answer(opens: bool, fd: nat): HalStep {
    EngineStep(DoDispatch(Response(if opens then Some(fd) else None, None, true)))
  }

  /** Pushing a timed request and handling it at once. */
  lemma PushThenOpen(s: State, ev: Event, opens: bool, end: int)
    requires ev.OpenTimed? && s.now <= end && (forall m :: m in s.queue ==> m.due > end) && s.nextKey !in s.fds
    ensures var s1, r := Push(s, ev), Response(if opens then Some(s.nextKey) else None, None, true);
            && Enabled(s1, DoDispatch(r))
            && var s2 := Dispatch(s1, r);
               && s2.now == s.now
               && (if opens then
                     && s2.nextKey == s.nextKey + 2 && s2.fds == s.fds[s.nextKey := TimedConstraint(s.nextKey)]
                     && s2.queue == Insert(s.queue, Message(s.now + ev.timeout, s.nextKey + 1))
                   else s2.nextKey == s.nextKey + 1 && s2.fds == s.fds && s2.queue == s.queue)
  {
    var s1 := Push(s, ev);
    assert s.queue != [] ==> s.queue[0] in s.queue;
    assert s1.queue == [Message(s.now, s.nextKey)] + s.queue;
    assert s1.queue[1..] == s.queue;
  }

  /** The record of one push. */
  ghost predicate Recorded(hal: Hal, hal': Hal) {
    && hal.call.Some? && hal'.call == Some(hal.call.value.(next := hal.call.value.next + 1))
    && hal'.hintTime == hal.hintTime && hal'.boosts == hal.boosts
    && Appended(hal.keys, hal'.keys, Slot(hal.call.value.hint, hal.call.value.next), hal.engine.nextKey)
    && Appended(hal.times, hal'.times, Slot(hal.call.value.hint, hal.call.value.next), Clock(hal))
  }

  /** The engine after one more request was handled. */
  ghost predicate Handled(s: State, s': State, opens: bool, end: int) {
    && s'.now == s.now && s'.nextKey > s.nextKey && (forall m :: m in s'.queue ==> m.due > end)
    && s'.fds == if opens then s.fds[s.nextKey := TimedConstraint(s.nextKey)] else s.fds
  }

  ghost predicate InLease(hal: Hal) {
    && hal.call.Some? && Limited(hal.call.value.hint)
    && hal.call.value.next < |Leases(hal.call.value.hint, hal.boosts, hal.call.value.data)|
  }

  /** The constraint being asked for lasts beyond `end`. */
  ghost predicate LastsBeyond(hal: Hal, end: nat)
    requires InLease(hal)
  {
    hal.engine.now + Duration(Slot(hal.call.value.hint, hal.call.value.next)) * 1000 > end
  }

  ghost predicate Appended(before: map<Slot, seq<nat>>, after: map<Slot, seq<nat>>, at: Slot, t: nat) {
    forall slot :: Of(after, slot) == Of(before, slot) + if slot == at then [t] else []
  }

  lemma AppendedBy(m: map<Slot, seq<nat>>, at: Slot, t: nat)
    ensures Appended(m, m[at := Of(m, at) + [t]], at, t)
  {
    forall slot ensures Of(m[at := Of(m, at) + [t]], slot) == Of(m, slot) + if slot == at then [t] else [] {
      assert Of(m, slot) + [] == Of(m, slot);
    }
  }

  lemma PushRecords(hal: Hal)
    requires InLease(hal)
    ensures Recorded(hal, DoPushNext(hal))
    ensures var c := hal.call.value;
            DoPushNext(hal).engine == Push(hal.engine, Leases(c.hint, hal.boosts, c.data)[c.next])
  {
    hide Push, Leases, Appended, Of;
    var slot := Slot(hal.call.value.hint, hal.call.value.next);
    AppendedBy(hal.keys, slot, hal.engine.nextKey);
    AppendedBy(hal.times, slot, Clock(hal));
  }

  lemma RecordedStill(hal: Hal, h1: Hal, s: State)
    requires Recorded(hal, h1)
    ensures Recorded(hal, h1.(engine := s))
  {
    hide Appended;
  }

  lemma PushIsGood(timing: Timing, hal: Hal)
    requires InLease(hal)
    ensures Good(timing, hal, PushNext)
  {
  }

  lemma AnswerIsGood(timing: Timing, hal: Hal, opens: bool, fd: nat)
    requires Enabled(hal.engine, DoDispatch(Response(if opens then Some(fd) else None, None, true)))
    ensures Good(timing, hal, Answer(opens, fd))
    ensures HalApply(hal, Answer(opens, fd))
         == hal.(engine := Dispatch(hal.engine, Response(if opens then Some(fd) else None, None, true)))
  {
    hide Enabled, Dispatch;
  }

  lemma HandleOne(s: State, ev: Event, opens: bool, end: int)
    requires ev.OpenTimed? && s.now <= end && (forall m :: m in s.queue ==> m.due > end) && s.nextKey !in s.fds
    requires opens ==> s.now + ev.timeout > end
    ensures var s1, r := Push(s, ev), Response(if opens then Some(s.nextKey) else None, None, true);
            Enabled(s1, DoDispatch(r)) && Handled(s, Dispatch(s1, r), opens, end)
  {
    PushThenOpen(s, ev, opens, end);
    EngineInvariant.InsertMembers(s.queue, Message(s.now + ev.timeout, s.nextKey + 1));
    hide Push, Dispatch, Insert, Enabled;
  }

  lemma TakeLease(hal: Hal, end: nat, timing: Timing, count: nat, opens: bool)
    requires Filled(hal, end, timing, count) && InLease(hal) && (opens ==> LastsBeyond(hal, end))
    ensures Good(timing, hal, PushNext)
    ensures var h1, a := DoPushNext(hal), Answer(opens, hal.engine.nextKey);
            && Good(timing, h1, a) && Recorded(hal, HalApply(h1, a))
            && Handled(hal.engine, HalApply(h1, a).engine, opens, end)
  {
    var c := hal.call.value;
    LeaseShape(c.hint, hal.boosts, c.data, c.next);
    assert hal.engine.nextKey !in hal.engine.fds;
    HandleOne(hal.engine, Leases(c.hint, hal.boosts, c.data)[c.next], opens, end);
    PushRecords(hal);
    PushIsGood(timing, hal);
    var h1 := DoPushNext(hal);
    AnswerIsGood(timing, h1, opens, hal.engine.nextKey);
    RecordedStill(hal, h1, HalApply(h1, Answer(opens, hal.engine.nextKey)).engine);
    hide Leases, Push, Dispatch, Filled, DoPushNext, Handled, Enabled, Duration, Good, Recorded, HalApply;
  }

  lemma StaysListed(hal: Hal, hal': Hal, key: nat)
    requires Recorded(hal, hal') && Listed(hal, key)
    ensures Listed(hal', key)
  {
    var slot :| slot in LimitedSlots() && key in Of(hal.keys, slot);
    hide LimitedSlots, Of;
    assert key in Of(hal'.keys, slot);
  }

  lemma BecomesListed(hal: Hal, hal': Hal)
    requires Recorded(hal, hal') && Slot(hal.call.value.hint, hal.call.value.next) in LimitedSlots()
    ensures Listed(hal', hal.engine.nextKey)
  {
    hide LimitedSlots, Of;
    var slot := Slot(hal.call.value.hint, hal.call.value.next);
    assert hal.engine.nextKey in Of(hal'.keys, slot);
  }

  lemma StaysWhole(hal: Hal, hal': Hal)
    requires Recorded(hal, hal') && WholeMicros(hal) && Clock(hal) % 1000 == 0
    ensures WholeMicros(hal')
  {
    hide LimitedSlots, Of, Clock;
  }

  lemma OneMoreFd(fds: map<nat, Object>, f: nat, o: Object)
    requires f !in fds
    ensures |fds[f := o].Keys| == |fds.Keys| + 1
  {
    assert fds[f := o].Keys == fds.Keys + {f};
  }

  lemma SlotListed(h: Hint, i: nat)
    requires Limited(h) && i < (if h.Interaction? then 5 else if h.CpuBoost? then 4 else 1)
    ensures Slot(h, i) in LimitedSlots()
  {
    var j := i + if h.Interaction? then 0 else if h.CpuBoost? then 5 else 9;
    assert LimitedSlots()[j] == Slot(h, i);
  }

  lemma LeaseCount(h: Hint, b: Boosts, data: bool)
    requires Limited(h)
    ensures |Leases(h, b, data)| == if h.Interaction? then 5 else if h.CpuBoost? then 4 else 1
  {
  }

  lemma LeaseInSlots(hal: Hal)
    requires InLease(hal)
    ensures Slot(hal.call.value.hint, hal.call.value.next) in LimitedSlots()
  {
    LeaseCount(hal.call.value.hint, hal.boosts, hal.call.value.data);
    hide LimitedSlots, Leases;
    SlotListed(hal.call.value.hint, hal.call.value.next);
  }

  /** Every open descriptor has the number of its request, which is listed. */
  ghost predicate Numbered(hal: Hal) {
    forall f :: f in hal.engine.fds ==>
      f < hal.engine.nextKey && hal.engine.fds[f] == TimedConstraint(f) && Listed(hal, f)
  }

  lemma StaysNumbered(hal: Hal, hal': Hal, end: nat, opens: bool)
    requires Numbered(hal) && Recorded(hal, hal') && Handled(hal.engine, hal'.engine, opens, end)
    requires Listed(hal', hal.engine.nextKey)
    ensures Numbered(hal')
  {
    forall f | f in hal.engine.fds ensures Listed(hal', f) { StaysListed(hal, hal', f); }
    hide Listed, Recorded;
  }

  lemma FillsUp(hal: Hal, hal': Hal, end: nat, timing: Timing, count: nat, opens: bool)
    requires Filled(hal, end, timing, count) && InLease(hal)
    requires Recorded(hal, hal') && Handled(hal.engine, hal'.engine, opens, end)
    requires timing.WholeMicro? ==> Clock(hal) % 1000 == 0
    ensures Filled(hal', end, timing, count + if opens then 1 else 0)
  {
    LeaseInSlots(hal);
    if timing.WholeMicro? { StaysWhole(hal, hal'); }
    BecomesListed(hal, hal');
    StaysNumbered(hal, hal', end, opens);
    assert opens ==> hal.engine.nextKey !in hal.engine.fds;
    hide Listed, Recorded, LimitedSlots, WholeMicros, Leases, Numbered;
    if opens { OneMoreFd(hal.engine.fds, hal.engine.nextKey, TimedConstraint(hal.engine.nextKey)); }
  }

  /** One lease: the machine goes on to the next one of the same call. */
  ghost predicate NextLease(hal: Hal, hal': Hal) {
    && hal.call.Some? && hal'.call == Some(hal.call.value.(next := hal.call.value.next + 1))
    && hal'.hintTime == hal.hintTime && hal'.boosts == hal.boosts && hal'.engine.now == hal.engine.now
  }

  lemma LeaseLeads(hal: Hal, end: nat, timing: Timing, count: nat, opens: bool) returns (hal': Hal)
    requires Filled(hal, end, timing, count) && InLease(hal) && (opens ==> LastsBeyond(hal, end))
    requires timing.WholeMicro? ==> Clock(hal) % 1000 == 0
    ensures Leads(timing, hal, hal') && NextLease(hal, hal')
    ensures Filled(hal', end, timing, count + if opens then 1 else 0)
  {
    TakeLease(hal, end, timing, count, opens);
    var h1, a := DoPushNext(hal), Answer(opens, hal.engine.nextKey);
    hal' := HalApply(h1, a);
    FillsUp(hal, hal', end, timing, count, opens);
    assert NextLease(hal, hal');
    hide Filled, Good, Leads, LastsBeyond, InLease, Recorded, Handled, NextLease, DoPushNext, Answer;
    OneStep(timing, hal, PushNext);
    OneStep(timing, h1, a);
    LeadsOn(timing, hal, h1, hal');
  }

  /** The requests still to come in a call; with `shut` the first node of a call does not open. */
  function Opens(next: nat, shut: bool): bool {
    next > 0 || !shut
  }

  /** The constraints of hint `h` from the `next` one on, but not a shut one, last beyond `end`. */
  predicate AllLast(h: Hint, now: int, end: nat, shut: bool) {
    forall j {:trigger Slot(h, j)} ::
      0 <= j < |Leases(h, Boosts(0, 0), false)| && Opens(j, shut) ==> now + Duration(Slot(h, j)) * 1000 > end
  }

  /** A call has made the pushes before `next`. */
  ghost predicate AtLease(hal: Hal, hal': Hal, next: nat) {
    && hal.call.Some? && hal'.call == Some(hal.call.value.(next := next))
    && hal'.hintTime == hal.hintTime && hal'.boosts == hal.boosts && hal'.engine.now == hal.engine.now
  }

  lemma {:induction false} LeasesLead(hal: Hal, end: nat, timing: Timing, count: nat, shut: bool, n: nat)
      returns (hal': Hal)
    requires Filled(hal, end, timing, count) && hal.call.Some? && Limited(hal.call.value.hint)
    requires n == |Leases(hal.call.value.hint, hal.boosts, hal.call.value.data)| && hal.call.value.next <= n
    requires AllLast(hal.call.value.hint, hal.engine.now, end, shut) && (timing.WholeMicro? ==> Clock(hal) % 1000 == 0)
    ensures Leads(timing, hal, hal') && AtLease(hal, hal', n)
    ensures var next := hal.call.value.next;
            Filled(hal', end, timing, count + n - next - if shut && next == 0 && n > 0 then 1 else 0)
    decreases n - hal.call.value.next
  {
    hide Filled, Leads, Leases, Duration;
    var next := hal.call.value.next;
    if next == n {
      hal' := hal;
      NoSteps(timing, hal);
    } else {
      LeaseCount(hal.call.value.hint, hal.boosts, hal.call.value.data);
      LeaseCount(hal.call.value.hint, Boosts(0, 0), false);
      var one := LeaseLeads(hal, end, timing, count, Opens(next, shut));
      hal' := LeasesLead(one, end, timing, count + if Opens(next, shut) then 1 else 0, shut, n);
      LeadsOn(timing, hal, one, hal');
    }
  }

  // ---------- Calls ----------

  /** The microseconds of the last admitted calls, 0 for none. */
  datatype Lasts = Lasts(interaction: nat, cpu: nat, audio: nat)

  function LastOf(last: Lasts, h: Hint): nat {
    if h.Interaction? then last.interaction else if h.CpuBoost? then last.cpu else last.audio
  }

  function Noting(last: Lasts, h: Hint, t: nat): Lasts {
    if h.Interaction? then last.(interaction := t) else if h.CpuBoost? then last.(cpu := t) else last.(audio := t)
  }

  /** Between two calls. */
  ghost predicate At(hal: Hal, end: nat, timing: Timing, count: nat, last: Lasts) {
    && Filled(hal, end, timing, count) && hal.call == None
    && forall h :: Limited(h) ==> LastTime(hal, h) == LastOf(last, h)
  }

  lemma StaysFilled(hal: Hal, hal': Hal, end: nat, timing: Timing, count: nat)
    requires Filled(hal, end, timing, count)
    requires hal'.engine.queue == hal.engine.queue && hal'.engine.fds == hal.engine.fds
    requires hal'.engine.nextKey == hal.engine.nextKey && 1000 <= hal'.engine.now <= end
    requires hal'.keys == hal.keys && hal'.times == hal.times
    ensures Filled(hal', end, timing, count)
  {
    forall f | Listed(hal, f) ensures Listed(hal', f) {
      var slot :| slot in LimitedSlots() && f in Of(hal.keys, slot);
      hide LimitedSlots, Of;
      assert f in Of(hal'.keys, slot);
    }
    hide Listed;
  }

  lemma PauseIsGood(timing: Timing, hal: Hal, end: nat, d: nat)
    requires timing.AnyDelay? || hal.call == None || d == 0
    requires (forall m :: m in hal.engine.queue ==> m.due > end) && hal.engine.now + d <= end
    ensures Good(timing, hal, EngineStep(DoTick(d)))
  {
    assert hal.engine.queue != [] ==> hal.engine.queue[0] in hal.engine.queue;
  }

  /** Nothing happens until `at`. */
  lemma Pause(hal: Hal, end: nat, timing: Timing, count: nat, at: nat) returns (hal': Hal)
    requires Filled(hal, end, timing, count) && hal.engine.now <= at <= end
    requires timing.AnyDelay? || hal.call == None || hal.engine.now == at
    ensures Leads(timing, hal, hal') && Filled(hal', end, timing, count)
    ensures hal' == hal.(engine := hal.engine.(now := at))
  {
    var d := at - hal.engine.now;
    hal' := HalApply(hal, EngineStep(DoTick(d)));
    PauseIsGood(timing, hal, end, d);
    StaysFilled(hal, hal', end, timing, count);
    OneStep(timing, hal, EngineStep(DoTick(d)));
    hide Leads, Filled, Good;
  }

  lemma StartedHere(hal: Hal, h: Hint, t: nat)
    ensures var begun := Started(hal, h, false, t);
            && begun.call == Some(Call(h, false, t, 0)) && begun.hintTime == hal.hintTime && begun.boosts == hal.boosts
            && begun.engine == hal.engine && begun.keys == hal.keys && begun.times == hal.times
  {
    hide Micros, Clock, Of;
  }

  lemma BeginCall(hal: Hal, end: nat, timing: Timing, count: nat, last: Lasts, h: Hint) returns (hal': Hal)
    requires At(hal, end, timing, count, last) && Limited(h)
    requires Passes(LastOf(last, h), Interval(h), Micros(Clock(hal)))
    ensures Leads(timing, hal, hal') && Filled(hal', end, timing, count)
    ensures hal'.call == Some(Call(h, false, Micros(Clock(hal)), 0))
    ensures hal'.hintTime == hal.hintTime && hal'.boosts == hal.boosts && hal'.engine == hal.engine
  {
    hide Leads, Passes, Micros, Clock, Started, Interval;
    assert LastTime(hal, h) == LastOf(last, h);
    hal' := DoBegin(hal, h, false);
    assert hal' == Started(hal, h, false, Micros(Clock(hal)));
    StartedHere(hal, h, Micros(Clock(hal)));
    StaysFilled(hal, hal', end, timing, count);
    hide Filled;
    OneStep(timing, hal, Begin(h, false));
  }

  lemma EndCall(hal: Hal, end: nat, timing: Timing, count: nat) returns (hal': Hal)
    requires Filled(hal, end, timing, count) && HalEnabled(hal, End)
    ensures Leads(timing, hal, hal') && Filled(hal', end, timing, count) && hal'.call == None
    ensures hal'.hintTime == hal.hintTime[hal.call.value.hint := hal.call.value.t]
    ensures hal'.boosts == hal.boosts && hal'.engine == hal.engine
  {
    hal' := DoEnd(hal);
    StaysFilled(hal, hal', end, timing, count);
    hide Filled, Leads;
    OneStep(timing, hal, End);
  }

  function LeasesOf(h: Hint): nat {
    if h.Interaction? then 5 else if h.CpuBoost? then 4 else 1
  }

  /** One more call, checked at time `check` and with its pushes at time `at`; all its constraints are in force until
      after `end`, but for the first one if its node is shut. */
  lemma CallAt(hal: Hal, end: nat, timing: Timing, count: nat, last: Lasts, check: nat, at: nat, h: Hint, shut: bool)
      returns (hal': Hal)
    requires At(hal, end, timing, count, last) && hal.engine.now <= check <= at <= end && Limited(h)
    requires (timing.AnyDelay? || check == at) && (timing.WholeMicro? ==> at % 1000 == 0)
    requires Passes(LastOf(last, h), Interval(h), Micros(check)) && AllLast(h, at, end, shut)
    ensures Leads(timing, hal, hal') && hal'.engine.now == at
    ensures At(hal', end, timing, count + LeasesOf(h) - if shut then 1 else 0, Noting(last, h, Micros(check)))
  {
    hide Leads, Filled, Passes, AllLast, Leases, Micros;
    var there := Pause(hal, end, timing, count, check);
    assert Clock(there) == check;
    var begun := BeginCall(there, end, timing, count, last, h);
    hal' := RestOfCall(begun, end, timing, count, at, shut);
    LeadsOn(timing, hal, there, begun);
    LeadsOn(timing, hal, begun, hal');
  }

  /** All of a call but its check. */
  lemma RestOfCall(hal: Hal, end: nat, timing: Timing, count: nat, at: nat, shut: bool) returns (hal': Hal)
    requires Filled(hal, end, timing, count) && hal.call.Some? && Limited(hal.call.value.hint)
    requires hal.call.value.next == 0 && !hal.call.value.data && hal.engine.now <= at <= end
    requires timing.AnyDelay? || hal.engine.now == at
    requires (timing.WholeMicro? ==> at % 1000 == 0) && AllLast(hal.call.value.hint, at, end, shut)
    ensures Leads(timing, hal, hal') && hal'.engine.now == at && hal'.call == None
    ensures Filled(hal', end, timing, count + LeasesOf(hal.call.value.hint) - if shut then 1 else 0)
    ensures hal'.hintTime == hal.hintTime[hal.call.value.hint := hal.call.value.t]
  {
    hide Leads, Filled, AllLast, Leases;
    var h := hal.call.value.hint;
    var waited := Pause(hal, end, timing, count, at);
    assert Clock(waited) == at;
    LeaseCount(h, waited.boosts, false);
    var asked := LeasesLead(waited, end, timing, count, shut, LeasesOf(h));
    hal' := EndCall(asked, end, timing, count + LeasesOf(h) - if shut then 1 else 0);
    LeadsOn(timing, hal, waited, asked);
    LeadsOn(timing, hal, asked, hal');
  }

  // ---------- Filling all slots ----------

  /** The instant at which everything is open. */
  const END: nat := 3000000000

  /** So many milliseconds before it. */
  function MsBefore(ms: nat): nat
    requires ms <= 2900
  {
    END - MillisToNanos(ms)
  }

  ghost predicate Reaches(start: Hal, now: nat, timing: Timing, count: nat, last: Lasts) {
    exists hal :: Leads(timing, start, hal) && hal.engine.now == now && At(hal, END, timing, count, last)
  }

  lemma ThenCall(start: Hal, now: nat, timing: Timing, count: nat, last: Lasts, check: nat, at: nat, h: Hint,
                 shut: bool)
    requires Reaches(start, now, timing, count, last) && now <= check <= at <= END && Limited(h)
    requires (timing.AnyDelay? || check == at) && (timing.WholeMicro? ==> at % 1000 == 0)
    requires Passes(LastOf(last, h), Interval(h), Micros(check)) && AllLast(h, at, END, shut)
    ensures Reaches(start, at, timing, count + LeasesOf(h) - if shut then 1 else 0, Noting(last, h, Micros(check)))
  {
    hide Leads, At, Passes, AllLast, Interval, Micros;
    var hal :| Leads(timing, start, hal) && hal.engine.now == now && At(hal, END, timing, count, last);
    var hal' := CallAt(hal, END, timing, count, last, check, at, h, shut);
    LeadsOn(timing, start, hal, hal');
  }

  lemma LastingCall(h: Hint, at: nat, shut: bool)
    requires match h
             case Interaction => at + (if shut then 2000000000 else 100000000) > END
             case CpuBoost => at + 1500000000 > END
             case Audio => at + 1000000000 > END
             case _ => false
    ensures AllLast(h, at, END, shut)
  {
    LeaseCount(h, Boosts(0, 0), false);
    hide Leases;
  }

  /** An INTERACTION hint; with `shut` the node of its short boost does not open. */
  lemma ThenInteraction(start: Hal, now: nat, timing: Timing, count: nat, last: Lasts, check: nat, at: nat, shut: bool)
    requires Reaches(start, now, timing, count, last) && now <= check <= at <= END && at % 1000 == 0
    requires timing.AnyDelay? || check == at
    requires last.interaction == 0 || last.interaction + 90000 == Micros(check)
    requires at + (if shut then 2000000000 else 100000000) > END
    ensures Reaches(start, at, timing, count + if shut then 4 else 5, last.(interaction := Micros(check)))
  {
    hide Reaches, AllLast;
    LastingCall(Interaction, at, shut);
    ThenCall(start, now, timing, count, last, check, at, Interaction, shut);
  }

  lemma ThenCpu(start: Hal, now: nat, timing: Timing, count: nat, last: Lasts, at: nat)
    requires Reaches(start, now, timing, count, last) && now <= at <= END && (timing.WholeMicro? ==> at % 1000 == 0)
    requires (last.cpu == 0 || last.cpu + 500000 == Micros(at)) && at + 1500000000 > END
    ensures Reaches(start, at, timing, count + 4, last.(cpu := Micros(at)))
  {
    hide Reaches, AllLast;
    LastingCall(CpuBoost, at, false);
    ThenCall(start, now, timing, count, last, at, at, CpuBoost, false);
  }

  lemma ThenAudio(start: Hal, now: nat, timing: Timing, count: nat, last: Lasts, at: nat)
    requires Reaches(start, now, timing, count, last) && now <= at <= END && (timing.WholeMicro? ==> at % 1000 == 0)
    requires (last.audio == 0 || last.audio + 500000 == Micros(at)) && at + 1000000000 > END
    ensures Reaches(start, at, timing, count + 1, last.(audio := Micros(at)))
  {
    hide Reaches, AllLast;
    LastingCall(Audio, at, false);
    ThenCall(start, now, timing, count, last, at, at, Audio, false);
  }

  /** `n` INTERACTION hints 90 ms apart, the first one at `at`; none of them finds the node of its short boost open. */
  lemma {:induction false} ThenBeats(start: Hal, now: nat, timing: Timing, count: nat, last: Lasts, at: nat, n: nat)
    requires Reaches(start, now, timing, count, last) && now <= at && at % 1000 == 0 && n > 0
    requires at + (n - 1) * 90000000 <= END < at + 2000000000
    requires last.interaction == 0 || last.interaction + 90000 == Micros(at)
    ensures var end := at + (n - 1) * 90000000;
            Reaches(start, end, timing, count + 4 * n, last.(interaction := Micros(end)))
    decreases n
  {
    hide Reaches;
    ThenInteraction(start, now, timing, count, last, at, at, true);
    if n > 1 {
      var next := at + 90000000;
      assert next + (n - 2) * 90000000 == at + (n - 1) * 90000000;
      ThenBeats(start, at, timing, count + 4, last.(interaction := Micros(at)), next, n - 1);
    }
  }

  lemma Begins(b: Boosts, timing: Timing)
    ensures Reaches(HalInit(1000, b), 1000, timing, 0, Lasts(0, 0, 0))
  {
    hide Leads;
    NoSteps(timing, HalInit(1000, b));
    assert At(HalInit(1000, b), END, timing, 0, Lasts(0, 0, 0));
  }

  /** With delays allowed the first call is checked 90 ms before it makes its pushes. */
  lemma FirstCalls(b: Boosts, timing: Timing)
    ensures Reaches(HalInit(1000, b), MsBefore(1539), timing, if timing.AnyDelay? then 28 else 24, Lasts(1461000, 0, 0))
  {
    hide Reaches;
    var start, last := HalInit(1000, b), Lasts(0, 0, 0);
    Begins(b, timing);
    if timing.AnyDelay? {
      ThenInteraction(start, 1000, timing, 0, last, MsBefore(2079), MsBefore(1989), true);
      ThenBeats(start, MsBefore(1989), timing, 4, last.(interaction := 921000), MsBefore(1989), 6);
    } else {
      ThenBeats(start, 1000, timing, 0, last, MsBefore(1989), 6);
    }
  }

  function By1500(timing: Timing): nat {
    match timing case AnyDelay => 32 case SameMicro => 28 case WholeMicro => 24
  }

  lemma Until1500(b: Boosts, timing: Timing) returns (now: nat, last: Lasts)
    ensures Reaches(HalInit(1000, b), now, timing, By1500(timing), last) && now < MsBefore(1490)
    ensures last == Lasts(1461000, if timing.WholeMicro? then 0 else 1500000, 0)
  {
    hide Reaches;
    FirstCalls(b, timing);
    now, last := MsBefore(1539), Lasts(1461000, 0, 0);
    if !timing.WholeMicro? {
      ThenCpu(HalInit(1000, b), now, timing, By1500(timing) - 4, last, MsBefore(1500) + 999);
      now, last := MsBefore(1500) + 999, last.(cpu := 1500000);
    }
  }

  function By1000(timing: Timing): nat {
    match timing case AnyDelay => 57 case SameMicro => 53 case WholeMicro => 48
  }

  lemma Until1000(b: Boosts, timing: Timing) returns (now: nat, last: Lasts)
    ensures Reaches(HalInit(1000, b), now, timing, By1000(timing), last) && now < MsBefore(999)
    ensures last == Lasts(1911000, 2000000, if timing.WholeMicro? then 0 else 2000000)
  {
    hide Reaches;
    var start := HalInit(1000, b);
    now, last := Until1500(b, timing);
    ThenBeats(start, now, timing, By1500(timing), last, MsBefore(1449), 5);
    last := last.(interaction := 1911000);
    ThenCpu(start, MsBefore(1089), timing, By1500(timing) + 20, last, MsBefore(1000));
    now, last := MsBefore(1000), last.(cpu := 2000000);
    if !timing.WholeMicro? {
      ThenAudio(start, now, timing, By1500(timing) + 24, last, MsBefore(1000) + 999);
      now, last := MsBefore(1000) + 999, last.(audio := 2000000);
    }
  }

  lemma Until500(b: Boosts, timing: Timing)
    ensures Reaches(HalInit(1000, b), MsBefore(500), timing, By1000(timing) + 29, Lasts(2451000, 2500000, 2500000))
  {
    hide Reaches;
    var start, count := HalInit(1000, b), By1000(timing);
    var now, last := Until1000(b, timing);
    ThenBeats(start, now, timing, count, last, MsBefore(999), 6);
    last := last.(interaction := 2451000);
    ThenCpu(start, MsBefore(549), timing, count + 24, last, MsBefore(500));
    last := last.(cpu := 2500000);
    ThenAudio(start, MsBefore(500), timing, count + 28, last, MsBefore(500));
  }

  /** With delays allowed one more call takes 90 ms, until its short boost will last. */
  lemma Until99(b: Boosts, timing: Timing) returns (now: nat)
    ensures Reaches(HalInit(1000, b), now, timing, Total(timing) - 15, Lasts(2811000, 2500000, 2500000))
    ensures now <= MsBefore(99)
  {
    hide Reaches;
    var start, last, count := HalInit(1000, b), Lasts(2451000, 2500000, 2500000), By1000(timing) + 29;
    Until500(b, timing);
    ThenBeats(start, MsBefore(500), timing, count, last, MsBefore(459), 3);
    last := last.(interaction := 2721000);
    now := if timing.AnyDelay? then MsBefore(99) else MsBefore(189);
    ThenInteraction(start, MsBefore(279), timing, count + 12, last, MsBefore(189), now, !timing.AnyDelay?);
  }

  lemma UntilEnd(b: Boosts, timing: Timing)
    ensures Reaches(HalInit(1000, b), END, timing, Total(timing), Lasts(2991000, 3000000, 3000000))
  {
    hide Reaches;
    var start, last, count := HalInit(1000, b), Lasts(2811000, 2500000, 2500000), Total(timing);
    var now := Until99(b, timing);
    ThenInteraction(start, now, timing, count - 15, last, MsBefore(99), MsBefore(99), false);
    last := last.(interaction := 2901000);
    ThenInteraction(start, MsBefore(99), timing, count - 10, last, MsBefore(9), MsBefore(9), false);
    last := last.(interaction := 2991000);
    ThenCpu(start, MsBefore(9), timing, count - 5, last, END);
    last := last.(cpu := 3000000);
    ThenAudio(start, END, timing, count - 1, last, END);
  }

  lemma {:induction false} FdsOfMember(hal: Hal, slots: seq<Slot>, slot: Slot, f: nat)
    requires slot in slots && f in SlotFds(hal, slot)
    ensures f in FdsOf(hal, slots)
  {
    if slot != slots[0] { FdsOfMember(hal, slots[1..], slot, f); }
  }

  lemma AllCounted(hal: Hal, timing: Timing, count: nat, last: Lasts)
    requires At(hal, END, timing, count, last)
    ensures |FdsOf(hal, LimitedSlots())| >= count
  {
    forall f | f in hal.engine.fds.Keys ensures f in FdsOf(hal, LimitedSlots()) {
      assert Listed(hal, f);
      var slot :| slot in LimitedSlots() && f in Of(hal.keys, slot);
      hide LimitedSlots, FdsOf, Of, Listed;
      assert f in SlotFds(hal, slot);
      FdsOfMember(hal, LimitedSlots(), slot, f);
    }
    hide LimitedSlots, FdsOf, Listed, Numbered;
    EngineProgress.SubsetSize(hal.engine.fds.Keys, FdsOf(hal, LimitedSlots()));
  }

  // ---------- The totals are exact ----------

  /** Every run of that timing keeps the invariants that the bounds rest on. */
  lemma FineKeeps(timing: Timing, now: nat, b: Boosts, hal: Hal)
    requires now >= 1000 && Leads(timing, HalInit(now, b), hal) && (timing.WholeMicro? ==> OnWholeMicro(hal))
    ensures PromptInv(hal) && Serial(hal) && Timed(hal, timing)
  {
    var steps :| LeadsBy(timing, HalInit(now, b), steps, hal);
    hide PromptInv, AtChecks, Serial, HalFeasible, HalPrompt, HalInstant, HalExecute;
    RunKeepsAll(now, b, steps);
  }

  /** A settled instant on a clock that ticks in whole microseconds. */
  ghost predicate OnWholeMicro(hal: Hal) {
    WholeMicros(hal) && Settled(hal.engine)
  }

  /** Nothing can be missing in one slot, since the others cannot make up for it. */
  lemma SlotFull(hal: Hal, timing: Timing, i: nat)
    requires i < 10 && |FdsOf(hal, LimitedSlots())| >= Total(timing) && Within(hal, Bounds(timing))
    ensures |SlotFds(hal, LimitedSlots()[i])| == Bounds(timing)[i]
  {
    hide SlotFds, FdsOf;
    var counts := Bounds(timing)[i := |SlotFds(hal, LimitedSlots()[i])|];
    assert Bounds(timing)[i] >= counts[i];
    WithinTotal(hal, counts);
  }

  /** A run at the end of which every slot is full: 2 and four times 23 descriptors for INTERACTION, four times 4 for
      CPU_BOOST and 3 for AUDIO; 3 and four times 24 for INTERACTION if calls may take time; 3 and 2 for the last two on
      whole microseconds. */
  lemma AllSlotsFull(b: Boosts, timing: Timing) returns (hal: Hal)
    ensures Leads(timing, HalInit(1000, b), hal) && (timing.WholeMicro? ==> OnWholeMicro(hal))
    ensures forall i :: 0 <= i < 10 ==> |SlotFds(hal, LimitedSlots()[i])| == Bounds(timing)[i]
    ensures |FdsOf(hal, LimitedSlots())| == Total(timing)
  {
    hal := FullRun(b, timing);
    FineKeeps(timing, 1000, b, hal);
    hide PromptInv, Serial, Timed, Leads, SlotFds, FdsOf, OnWholeMicro, Within;
    StateBound(hal, timing);
    WithinOrLess(hal, timing);
    forall i | 0 <= i < 10 ensures |SlotFds(hal, LimitedSlots()[i])| == Bounds(timing)[i] { SlotFull(hal, timing, i); }
  }

  lemma FullRun(b: Boosts, timing: Timing) returns (hal: Hal)
    ensures Leads(timing, HalInit(1000, b), hal) && (timing.WholeMicro? ==> OnWholeMicro(hal))
    ensures |FdsOf(hal, LimitedSlots())| >= Total(timing)
  {
    UntilEnd(b, timing);
    var last := Lasts(2991000, 3000000, 3000000);
    hal :| Leads(timing, HalInit(1000, b), hal) && hal.engine.now == END && At(hal, END, timing, Total(timing), last);
    AllCounted(hal, timing, Total(timing), last);
    hide Leads, FdsOf, LimitedSlots, WholeMicros, Numbered;
    assert hal.engine.queue != [] ==> hal.engine.queue[0] in hal.engine.queue;
  }

  /** Whatever hints arrive, `n` descriptors are enough for the limited hints in every prompt run of that timing; for
      WholeMicro, at settled instants. */
  ghost predicate Enough(n: nat, timing: Timing) {
    forall now: nat, b, hal ::
      now >= 1000 && Leads(timing, HalInit(now, b), hal) && (timing.WholeMicro? ==> OnWholeMicro(hal)) ==>
        |FdsOf(hal, LimitedSlots())| <= n
  }

  /** The three totals are exact. */
  lemma EnoughIff(n: nat, timing: Timing)
    ensures Enough(n, timing) <==> n >= match timing case AnyDelay => 118 case SameMicro => 113 case WholeMicro => 108
  {
    hide Leads, FdsOf, LimitedSlots, OnWholeMicro, PromptInv, Serial, Timed;
    var full := FullRun(Boosts(0, 0), timing);
    if n >= Total(timing) {
      forall now: nat, b, hal |
        now >= 1000 && Leads(timing, HalInit(now, b), hal) && (timing.WholeMicro? ==> OnWholeMicro(hal))
        ensures |FdsOf(hal, LimitedSlots())| <= n
      {
        FineKeeps(timing, now, b, hal);
        StateBound(hal, timing);
      }
    }
  }
}
