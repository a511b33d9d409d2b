/** Hints at the grain of single lock, table, looper and kernel operations: a thread that delivers a hint pushes each
    of its requests through sendEventDelayed, interleaved with all other threads and the looper. Every such run is a
    run of the hint machine, so what holds there holds here. */
module FineHints {
  import opened Wrappers
  import opened PokerEngine
  import opened Interleaving
  import opened InterleavingRefines
  import opened FineTheorems
  import opened FineRuns
  import opened FineReturns
  import opened PowerHints
  import opened HintBounds
  import opened HintTotals

  // ---------- The machine ----------

  /** `hints` are the hint side's own fields; the engine is the one of the fine machine, and thread `me` delivers the
      current hint. */
  datatype FineHal = FineHal(fine: Fine, hints: Hal, me: nat)

  /** `Deliver` is check_hint, `Ask` the call of sendEventDelayed for the next request, `Finish` the end of
      common_power_hint. */
  datatype FineHalStep = Deliver(h: Hint, data: bool, i: nat) | Ask | Finish | Machine(step: FineStep)

  /** The hint machine's state behind it. */
  ghost function HalOf(x: FineHal): Hal {
    x.hints.(engine := Abs(x.fine))
  }

  function FineHalInit(now: nat, b: Boosts): FineHal {
    FineHal(FineInit(now), HalInit(now, b), 0)
  }

  function Requests(x: FineHal): seq<Event>
    requires x.hints.call.Some?
  {
    Leases(x.hints.call.value.hint, x.hints.boosts, x.hints.call.value.data)
  }

  /** The delivering thread is outside sendEventDelayed. */
  predicate Free(x: FineHal) {
    x.hints.call.Some? && x.me !in x.fine.clients
  }

  ghost predicate Allowed(x: FineHal, step: FineHalStep) {
    match step
    case Deliver(_, _, i) => x.hints.call == None && i !in x.fine.clients
    case Ask => Free(x) && x.hints.call.value.next < |Requests(x)|
    case Finish => Free(x) && x.hints.call.value.next == |Requests(x)|
    case Machine(s) => FineEnabled(x.fine, s) && (x.hints.call.Some? && s.Request? ==> s.i != x.me)
  }

  /** The next request of the hint takes its place in the queue. */
  predicate IsPush(x: FineHal, s: FineStep) {
    x.hints.call.Some? && x.hints.call.value.next < |Requests(x)| && s == Post(Client(x.me))
  }

  ghost function Next(x: FineHal, step: FineHalStep): FineHal
    requires Allowed(x, step)
  {
    match step
    case Deliver(h, data, i) => x.(hints := DoBegin(HalOf(x), h, data), me := i)
    case Ask => x.(fine := DoRequest(x.fine, x.me, Requests(x)[x.hints.call.value.next]))
    case Finish => x.(hints := DoEnd(HalOf(x)))
    case Machine(s) =>
      x.(fine := FineApply(x.fine, s), hints := if IsPush(x, s) then DoPushNext(HalOf(x)) else x.hints)
  }

  ghost predicate Runs(x: FineHal, steps: seq<FineHalStep>)
    decreases |steps|
  {
    steps != [] ==> Allowed(x, steps[0]) && Runs(Next(x, steps[0]), steps[1..])
  }

  ghost function After(x: FineHal, steps: seq<FineHalStep>): FineHal
    requires Runs(x, steps)
    decreases |steps|
  {
    if steps == [] then x else After(Next(x, steps[0]), steps[1..])
  }

  ghost predicate PromptStep(x: FineHal, step: FineHalStep) {
    step.Machine? ==> FinePrompt(x.fine, step.step)
  }

  ghost predicate RunsPromptly(x: FineHal, steps: seq<FineHalStep>)
    requires Runs(x, steps)
    decreases |steps|
  {
    steps != [] ==> PromptStep(x, steps[0]) && RunsPromptly(Next(x, steps[0]), steps[1..])
  }

  /** The clock stands still while a hint is being processed. */
  predicate InstantStep(x: FineHal, step: FineHalStep) {
    step.Machine? && step.step.Environment? && step.step.step.DoTick? && step.step.step.d > 0 ==> x.hints.call == None
  }

  ghost predicate RunsInstantly(x: FineHal, steps: seq<FineHalStep>)
    requires Runs(x, steps)
    decreases |steps|
  {
    steps != [] ==> InstantStep(x, steps[0]) && RunsInstantly(Next(x, steps[0]), steps[1..])
  }

  // ---------- What a step means for the request of a client ----------

  /** Nobody moves client `i` on in sendEventDelayed, or brings it in. */
  ghost predicate LeavesRequest(f: Fine, f': Fine, i: nat) {
    && (Client(i) in f'.sending <==> Client(i) in f.sending)
    && (Client(i) in f.sending ==> f'.sending[Client(i)] == f.sending[Client(i)])
    && (i in f'.clients ==> i in f.clients)
  }

  predicate SendsOn(step: FineStep) {
    step.Acquire? || step.NewKey? || step.AddEntry? || step.Post? || step.Release?
  }

  predicate Concerns(step: FineStep, i: nat) {
    (step.Request? && step.i == i) || (SendsOn(step) && step.t == Client(i))
  }

  lemma SendersLeave(f: Fine, step: FineStep, i: nat)
    requires FineEnabled(f, step) && SendsOn(step) && step.t != Client(i)
    ensures LeavesRequest(f, FineApply(f, step), i)
  {
    hide LeavesRequest, DoAcquire, DoNewKey, DoAddEntry, DoPost, DoRelease;
    SenderLeaves(f, step.t, i);
  }

  lemma SenderLeaves(f: Fine, t: Thread, i: nat)
    requires t in f.sending && t != Client(i)
    ensures LeavesRequest(f, DoAcquire(f, t), i) && LeavesRequest(f, DoNewKey(f, t), i)
    ensures f.sending[t].Keyed? ==> LeavesRequest(f, DoAddEntry(f, t), i)
    ensures f.sending[t].Added? ==> LeavesRequest(f, DoPost(f, t), i)
    ensures f.sending[t].Posted? ==> LeavesRequest(f, DoRelease(f, t), i)
  {
    hide PostLog, Insert;
  }

  lemma KeptIsLeft(f: Fine, f': Fine, i: nat)
    requires KeepsClients(f, f')
    ensures LeavesRequest(f, f', i)
  {
  }

  lemma WaitersLeave(f: Fine, step: FineStep, i: nat)
    requires FineEnabled(f, step) && IsWait(step)
    ensures LeavesRequest(f, FineApply(f, step), i)
  {
    hide LeavesRequest, DoLockBarrier, DoCheckBarrier, DoWakeUp;
    WaiterLeaves(f, step.i, i);
  }

  lemma WaiterLeaves(f: Fine, j: nat, i: nat)
    requires j in f.clients
    ensures f.clients[j].Waits? && j in f.frames ==> LeavesRequest(f, DoLockBarrier(f, j), i)
    ensures f.clients[j].Checks? && j in f.frames ==> LeavesRequest(f, DoCheckBarrier(f, j), i)
    ensures f.clients[j].Sleeps? ==> LeavesRequest(f, DoWakeUp(f, j), i)
  {
  }

  lemma EventsLeave(f: Fine, step: FineStep, i: nat)
    requires FineEnabled(f, step)
    requires step == OpenNode(None) || step == MakePipe(None) || step.CloseNode? || step.Watch?
    ensures LeavesRequest(f, FineApply(f, step), i)
  {
    hide FineEnabled, FineApply;
    EventKeepsCallers(f, step);
  }

  lemma OutsideLeaves(f: Fine, step: FineStep, i: nat)
    requires FineEnabled(f, step) && (step.Unhook? || step.Environment?)
    ensures LeavesRequest(f, FineApply(f, step), i)
  {
    hide LeavesRequest, DoUnhook, DoEnvironment;
    match step
    case Unhook(server) => UnhookLeaves(f, server, i);
    case Environment(s) => EnvironmentLeaves(f, s, i);
  }

  lemma UnhookLeaves(f: Fine, server: nat, i: nat)
    requires server in f.mem.contexts
    ensures LeavesRequest(f, DoUnhook(f, server), i)
  {
  }

  lemma EnvironmentLeaves(f: Fine, s: Step, i: nat)
    requires s.DoTick? || s.DoClientClose? || s.DoForeignOpen? || s.DoForeignClose?
    ensures LeavesRequest(f, DoEnvironment(f, s), i)
  {
    hide Apply;
  }

  lemma AnswersLeave(f: Fine, step: FineStep, i: nat)
    requires FineEnabled(f, step) && IsAnswer(step)
    ensures LeavesRequest(f, FineApply(f, step), i)
  {
    hide LeavesRequest, DoDropNode, DoWriteResult, DoLockToOpen, DoOpenBarrier, DoUnlockBarrier;
    AnswerLeaves(f, i);
  }

  lemma AnswerLeaves(f: Fine, i: nat)
    ensures f.looper.Dropping? ==> LeavesRequest(f, DoDropNode(f), i)
    ensures f.looper.Writing? ==> LeavesRequest(f, DoWriteResult(f), i)
    ensures f.looper.Written? ==> LeavesRequest(f, DoLockToOpen(f), i)
    ensures f.looper.Signals? ==> LeavesRequest(f, DoOpenBarrier(f), i)
    ensures f.looper.Signalled? ==> LeavesRequest(f, DoUnlockBarrier(f), i)
  {
  }

  lemma OtherStepsLeave(f: Fine, step: FineStep, i: nat)
    requires FineEnabled(f, step) && !Concerns(step, i)
    ensures LeavesRequest(f, FineApply(f, step), i)
  {
    hide FineApply, FineEnabled, LeavesRequest, KeepsClients;
    if step.Request? {
      OtherRequestLeaves(f, step, i);
    } else if SendsOn(step) {
      SendersLeave(f, step, i);
    } else if IsWait(step) {
      WaitersLeave(f, step, i);
    } else if IsAnswer(step) {
      AnswersLeave(f, step, i);
    } else if IsGain(step) {
      GainEffect(f, step);
      KeptIsLeft(f, FineApply(f, step), i);
    } else if IsFetch(step) {
      FetchEffect(f, step);
      KeptIsLeft(f, FineApply(f, step), i);
    } else if step.Unhook? || step.Environment? {
      OutsideLeaves(f, step, i);
    } else {
      EventsLeave(f, step, i);
    }
  }

  lemma OtherRequestLeaves(f: Fine, step: FineStep, i: nat)
    requires FineEnabled(f, step) && step.Request? && step.i != i
    ensures LeavesRequest(f, FineApply(f, step), i)
  {
    assert FineApply(f, step) == DoRequest(f, step.i, step.ev);
  }

  // ---------- The request of the hint in hand ----------

  /** While a hint is processed its thread is outside, or on its way with the next request, or with the last one already
      in the queue. */
  ghost predicate OnTheWay(f: Fine, i: nat, evs: seq<Event>, next: nat) {
    && next <= |evs| && (i in f.clients ==> f.clients[i].Sends?)
    && (Client(i) in f.sending ==>
          && f.sending[Client(i)].ev.OpenTimed?
          && (f.sending[Client(i)].Posted? || (next < |evs| && f.sending[Client(i)].ev == evs[next])))
  }

  ghost predicate FineHalInv(x: FineHal) {
    && FineInv(x.fine)
    && (x.hints.call.Some? ==> OnTheWay(x.fine, x.me, Requests(x), x.hints.call.value.next))
  }

  lemma LeftOnTheWay(f: Fine, f': Fine, i: nat, evs: seq<Event>, next: nat)
    requires OnTheWay(f, i, evs, next) && LeavesRequest(f, f', i) && Shape(f) && Shape(f')
    ensures OnTheWay(f', i, evs, next)
  {
    hide LockOk, HolderOk, LooperOk;
  }

  lemma OwnStepOnTheWay(f: Fine, step: FineStep, i: nat, evs: seq<Event>, next: nat)
    requires OnTheWay(f, i, evs, next) && FineEnabled(f, step) && Shape(f) && SendsOn(step) && step.t == Client(i)
    ensures step.Post? ==> next < |evs| && f.sending[Client(i)].ev == evs[next]
    ensures OnTheWay(FineApply(f, step), i, evs, if step.Post? then next + 1 else next)
  {
    assert Client(i) in f.sending;
    hide LockOk, HolderOk, LooperOk, DoAcquire, DoNewKey, DoAddEntry, DoPost, DoRelease, OnTheWay;
    SenderOnTheWay(f, i, evs, next);
  }

  lemma SenderOnTheWay(f: Fine, i: nat, evs: seq<Event>, next: nat)
    requires OnTheWay(f, i, evs, next) && SendsOk(f.sending, f.clients, f.looper) && Client(i) in f.sending
    ensures f.sending[Client(i)].Wanting? ==> OnTheWay(DoAcquire(f, Client(i)), i, evs, next)
    ensures f.sending[Client(i)].Locked? ==> OnTheWay(DoNewKey(f, Client(i)), i, evs, next)
    ensures f.sending[Client(i)].Keyed? ==> OnTheWay(DoAddEntry(f, Client(i)), i, evs, next)
    ensures f.sending[Client(i)].Added? ==>
              && next < |evs| && f.sending[Client(i)].ev == evs[next]
              && OnTheWay(DoPost(f, Client(i)), i, evs, next + 1)
    ensures f.sending[Client(i)].Posted? ==> OnTheWay(DoRelease(f, Client(i)), i, evs, next)
  {
    hide PostLog, Insert;
  }

  // ---------- Every step is a step of the hint machine, or none ----------

  ghost function CoarseHalStep(x: FineHal, step: FineHalStep): Option<HalStep>
    requires Allowed(x, step)
  {
    match step
    case Deliver(h, data, _) => Some(Begin(h, data))
    case Ask => None
    case Finish => Some(End)
    case Machine(s) =>
      if IsPush(x, s) then Some(PushNext)
      else match CoarseStep(x.fine, s)
        case None => None
        case Some(c) => Some(EngineStep(c))
  }

  ghost predicate HalMatches(hal: Hal, c: Option<HalStep>, hal': Hal) {
    match c
    case None => hal' == hal
    case Some(step) => HalEnabled(hal, step) && hal' == HalApply(hal, step)
  }

  lemma DeliverRefines(x: FineHal, h: Hint, data: bool, i: nat)
    requires FineHalInv(x) && Allowed(x, Deliver(h, data, i))
    ensures var x' := Next(x, Deliver(h, data, i));
            FineHalInv(x') && HalMatches(HalOf(x), Some(Begin(h, data)), HalOf(x'))
  {
    hide FineInv, Abs, Noted, Leases;
    var x' := Next(x, Deliver(h, data, i));
    NotedAddsNone(HalOf(x), h);
    assert Client(i) !in x.fine.sending by { FreeIsOutside(x.fine, i); }
  }

  lemma FreeIsOutside(f: Fine, i: nat)
    requires FineInv(f) && i !in f.clients
    ensures Client(i) !in f.sending
  {
  }

  lemma AskRefines(x: FineHal)
    requires FineHalInv(x) && Allowed(x, Ask)
    ensures FineHalInv(Next(x, Ask)) && HalMatches(HalOf(x), None, HalOf(Next(x, Ask)))
  {
    var c := x.hints.call.value;
    LeaseShape(c.hint, x.hints.boosts, c.data, c.next);
    hide FineInv, Abs, Leases;
    FineStepKeeps(x.fine, Request(x.me, Requests(x)[c.next]));
  }

  lemma FinishRefines(x: FineHal)
    requires FineHalInv(x) && Allowed(x, Finish)
    ensures FineHalInv(Next(x, Finish)) && HalMatches(HalOf(x), Some(End), HalOf(Next(x, Finish)))
  {
    hide FineInv, Abs, Leases;
  }

  lemma PushRefines(x: FineHal, s: FineStep)
    requires FineHalInv(x) && Allowed(x, Machine(s)) && IsPush(x, s)
    ensures FineHalInv(Next(x, Machine(s))) && HalMatches(HalOf(x), Some(PushNext), HalOf(Next(x, Machine(s))))
  {
    hide FineInv, Abs, Leases, FineApply, FineEnabled, OnTheWay, Push;
    InvGivesShape(x.fine);
    OwnStepOnTheWay(x.fine, s, x.me, Requests(x), x.hints.call.value.next);
    FineStepKeeps(x.fine, s);
  }

  lemma InvGivesShape(f: Fine)
    requires FineInv(f)
    ensures Shape(f)
  {
  }

  lemma MachineRefines(x: FineHal, s: FineStep)
    requires FineHalInv(x) && Allowed(x, Machine(s)) && !IsPush(x, s)
    ensures var x' := Next(x, Machine(s));
            FineHalInv(x') && HalMatches(HalOf(x), CoarseHalStep(x, Machine(s)), HalOf(x'))
  {
    hide FineInv, Abs, Leases, FineApply, FineEnabled, OnTheWay, Apply, Enabled, Shape, LeavesRequest, CoarseStep;
    FineStepKeeps(x.fine, s);
    if x.hints.call.Some? { MachineOnTheWay(x, s); }
  }

  lemma MachineOnTheWay(x: FineHal, s: FineStep)
    requires FineHalInv(x) && Allowed(x, Machine(s)) && !IsPush(x, s) && x.hints.call.Some?
    ensures OnTheWay(FineApply(x.fine, s), x.me, Requests(x), x.hints.call.value.next)
  {
    hide FineInv, Abs, Leases, FineApply, FineEnabled, OnTheWay, Shape, LeavesRequest;
    InvGivesShape(x.fine);
    FineStepKeeps(x.fine, s);
    InvGivesShape(FineApply(x.fine, s));
    if Concerns(s, x.me) {
      OwnStepOnTheWay(x.fine, s, x.me, Requests(x), x.hints.call.value.next);
    } else {
      OtherStepsLeave(x.fine, s, x.me);
      LeftOnTheWay(x.fine, FineApply(x.fine, s), x.me, Requests(x), x.hints.call.value.next);
    }
  }

  lemma FineHalStepKeeps(x: FineHal, step: FineHalStep)
    requires FineHalInv(x) && Allowed(x, step)
    ensures FineHalInv(Next(x, step)) && HalMatches(HalOf(x), CoarseHalStep(x, step), HalOf(Next(x, step)))
  {
    hide FineHalInv, HalMatches, Allowed, IsPush;
    match step
    case Deliver(h, data, i) => DeliverRefines(x, h, data, i);
    case Ask => AskRefines(x);
    case Finish => FinishRefines(x);
    case Machine(s) => if IsPush(x, s) { PushRefines(x, s); } else { MachineRefines(x, s); }
  }

  lemma PromptnessMatches(x: FineHal, step: FineHalStep, c: HalStep)
    requires Allowed(x, step) && CoarseHalStep(x, step) == Some(c)
    ensures PromptStep(x, step) && c.EngineStep? ==> Prompt(HalOf(x).engine, c.step)
    ensures InstantStep(x, step) ==> StandsStill(HalOf(x), c)
  {
  }

  /** Every run at the grain of single steps is a run of the hint machine; prompt and instantaneous runs remain so. */
  lemma {:induction false} FineHalRunRefines(x: FineHal, steps: seq<FineHalStep>) returns (coarse: seq<HalStep>)
    requires FineHalInv(x) && Runs(x, steps)
    ensures FineHalInv(After(x, steps))
    ensures HalFeasible(HalOf(x), coarse) && HalExecute(HalOf(x), coarse) == HalOf(After(x, steps))
    ensures RunsPromptly(x, steps) ==> HalPrompt(HalOf(x), coarse)
    ensures RunsInstantly(x, steps) ==> HalInstant(HalOf(x), coarse)
    decreases |steps|
  {
    hide FineHalInv, Allowed, Next, HalOf, HalEnabled, HalApply, Prompt, PromptStep, InstantStep, StandsStill,
         CoarseHalStep;
    if steps == [] {
      coarse := [];
    } else {
      FineHalStepKeeps(x, steps[0]);
      var rest := FineHalRunRefines(Next(x, steps[0]), steps[1..]);
      match CoarseHalStep(x, steps[0])
      case None => coarse := rest;
      case Some(c) =>
        coarse := [c] + rest;
        assert coarse[1..] == rest;
        PromptnessMatches(x, steps[0], c);
    }
  }

  // ---------- What carries over ----------

  lemma Starts(now: nat, b: Boosts)
    ensures FineHalInv(FineHalInit(now, b)) && HalOf(FineHalInit(now, b)) == HalInit(now, b)
  {
    FineInitInv(now);
    hide FineInv, Abs;
  }

  /** In every interleaving the rate-limited hints hold at most 118 descriptors under prompt dispatch, and 113 if no
      time passes while a hint is processed; a descriptor that the looper is still setting up is not counted yet. */
  lemma HintsHoldAtMostInEveryInterleaving(now: nat, b: Boosts, steps: seq<FineHalStep>)
    requires now >= 1000 && Runs(FineHalInit(now, b), steps) && RunsPromptly(FineHalInit(now, b), steps)
    ensures var x := After(FineHalInit(now, b), steps);
            && |FdsOf(HalOf(x), LimitedSlots())| <= 118
            && (RunsInstantly(FineHalInit(now, b), steps) ==> |FdsOf(HalOf(x), LimitedSlots())| <= 113)
  {
    hide FineHalInv, HalOf, HalFeasible, HalExecute, HalPrompt, HalInstant, Runs, RunsPromptly, After, RunsInstantly,
         FdsOf;
    Starts(now, b);
    var coarse := FineHalRunRefines(FineHalInit(now, b), steps);
    HintsHoldAtMost(now, b, coarse);
  }

  /** In every interleaving, with the looper idle and nothing due, the interaction boost is in force in the kernel's
      descriptor table until 10 ms after the last served call, unless the newest open failed. */
  lemma InteractionBoostHoldsInEveryInterleaving(now: nat, b: Boosts, steps: seq<FineHalStep>)
    requires now >= 1000 && Runs(FineHalInit(now, b), steps) && RunsPromptly(FineHalInit(now, b), steps)
    ensures var x, slot := After(FineHalInit(now, b), steps), Slot(Interaction, 0);
            var hal := HalOf(x);
            x.fine.looper.Polling? && Settled(x.fine.mem) && LastServed(hal, slot).Some?
            && x.fine.mem.now <= LastServed(hal, slot).value + 10000000
            ==> && Newest(hal, slot).Some? && Newest(hal, slot).value in x.fine.mem.log.history
                && x.fine.mem.log.history[Newest(hal, slot).value].event
                   == OpenTimed("/dev/constraint_cpu_freq", Prioritized(35, -1, b.interaction), 100000000)
                && (Newest(hal, slot).value !in x.fine.mem.log.failed ==>
                      exists f :: f in x.fine.mem.fds && x.fine.mem.fds[f] == TimedConstraint(Newest(hal, slot).value))
  {
    hide FineHalInv, HalFeasible, HalExecute, HalPrompt, Runs, RunsPromptly, After, SlotFds, LastServed, Newest;
    Starts(now, b);
    var coarse := FineHalRunRefines(FineHalInit(now, b), steps);
    InteractionBoostHolds(now, b, coarse);
    var x := After(FineHalInit(now, b), steps);
    if x.fine.looper.Polling? {
      PollingHidesNothing(x.fine);
      assert Settled(x.fine.mem) ==> Settled(HalOf(x).engine);
    }
  }
}
