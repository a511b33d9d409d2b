/** Every call of createPmQosHandle returns: the looper's and the lock holders' steps open its barrier, that wakes
    it, and its own steps take it out of Barrier::wait with its own result. No spurious wake-up is needed. */
module FineReturns {
  import opened Wrappers
  import opened PokerEngine
  import opened EngineInvariant
  import opened Interleaving
  import opened InterleavingRefines
  import opened Rendezvous
  import opened FineTheorems
  import opened FineRuns
  import opened FineProgress

  /** A step of a thread that is already on its way: no spurious wake-up, no new request, no hang-up, nothing from
      outside. */
  predicate Own(step: FineStep) {
    !step.WakeUp? && !step.Request? && !step.Unhook? && !step.Environment?
  }

  ghost predicate AllOwn(steps: seq<FineStep>) {
    forall step :: step in steps ==> Own(step)
  }

  ghost predicate AwaitsReply(f: Fine, i: nat, k: nat) {
    Awaits(StatusOf(f.clients, f.sending, i), k)
  }

  ghost predicate Returned(f: Fine, i: nat, k: nat) {
    i !in f.clients && k in f.returned && k in f.mem.log.results && f.returned[k] == f.mem.log.results[k]
  }

  /** Whoever awaits the reply to `k` still does, or has returned; nobody comes back and no return is forgotten. */
  ghost predicate Serves(f: Fine, f': Fine, i: nat, k: nat) {
    && (AwaitsReply(f, i, k) ==> AwaitsReply(f', i, k) || (i !in f'.clients && k in f'.returned))
    && (i !in f.clients ==> i !in f'.clients) && f.returned.Keys <= f'.returned.Keys
  }

  // ---------- No step loses a caller ----------

  lemma SendersServe(f: Fine, step: FineStep, i: nat, k: nat)
    requires FineEnabled(f, step) && (step.Acquire? || step.NewKey? || step.AddEntry? || step.Post?)
    ensures Serves(f, FineApply(f, step), i, k)
  {
  }

  lemma ReleaseServes(f: Fine, t: Thread, i: nat, k: nat)
    requires SendsOk(f.sending, f.clients, f.looper) && t in f.sending && f.sending[t].Posted?
    ensures Serves(f, DoRelease(f, t), i, k)
  {
  }

  lemma SameClientsServe(f: Fine, f': Fine, i: nat, k: nat)
    requires f'.clients == f.clients && f'.returned == f.returned
    requires Client(i) in f.sending <==> Client(i) in f'.sending
    requires Client(i) in f.sending ==> f'.sending[Client(i)] == f.sending[Client(i)]
    ensures Serves(f, f', i, k)
  {
  }

  lemma FetchServes(f: Fine, step: FineStep, i: nat, k: nat)
    requires FineEnabled(f, step) && IsFetch(step)
    ensures Serves(f, FineApply(f, step), i, k)
  {
    hide Serves, FineApply, FineEnabled, IsFetch, IsGain;
    if IsGain(step) { GainEffect(f, step); } else { FetchEffect(f, step); }
    SameClientsServe(f, FineApply(f, step), i, k);
  }

  ghost predicate KeepsCallers(f: Fine, f': Fine) {
    && f'.clients == f.clients && f'.returned == f.returned
    && (forall i :: Client(i) in f.sending <==> Client(i) in f'.sending)
    && (forall i :: Client(i) in f.sending ==> f'.sending[Client(i)] == f.sending[Client(i)])
  }

  lemma OpenFailsKeepsCallers(f: Fine)
    requires f.looper.Running? && !f.looper.ev.CloseTimed?
    ensures KeepsCallers(f, DoOpenNode(f, None))
  {
    hide Ran;
  }

  lemma PipeFailsKeepsCallers(f: Fine)
    requires f.looper.Node? && f.looper.ev.OpenHandle?
    ensures KeepsCallers(f, DoMakePipe(f, None))
  {
    hide Ran;
  }

  lemma CloseKeepsCallers(f: Fine)
    requires f.looper.Running? && f.looper.ev.CloseTimed?
    ensures KeepsCallers(f, DoCloseNode(f))
  {
    hide Ran, RunCloseTimed;
  }

  lemma WatchKeepsCallers(f: Fine, accepted: bool)
    requires f.looper.Piped? && f.looper.ev.OpenHandle?
    ensures KeepsCallers(f, DoWatch(f, accepted))
  {
    hide Ran;
  }

  lemma EventKeepsCallers(f: Fine, step: FineStep)
    requires FineEnabled(f, step)
    requires step == OpenNode(None) || step == MakePipe(None) || step.CloseNode? || step.Watch?
    ensures KeepsCallers(f, FineApply(f, step))
  {
    hide KeepsCallers, DoOpenNode, DoMakePipe, DoCloseNode, DoWatch;
    match step
    case OpenNode(_) => OpenFailsKeepsCallers(f);
    case MakePipe(_) => PipeFailsKeepsCallers(f);
    case CloseNode => CloseKeepsCallers(f);
    case Watch(accepted) => WatchKeepsCallers(f, accepted);
  }

  lemma EventServes(f: Fine, step: FineStep, i: nat, k: nat)
    requires FineEnabled(f, step)
    requires step == OpenNode(None) || step == MakePipe(None) || step.CloseNode? || step.Watch?
    ensures Serves(f, FineApply(f, step), i, k)
  {
    hide FineEnabled, FineApply, Serves;
    EventKeepsCallers(f, step);
    SameClientsServe(f, FineApply(f, step), i, k);
  }

  lemma LockServes(f: Fine, j: nat, i: nat, k: nat)
    requires j in f.clients && f.clients[j].Waits? && j in f.frames
    ensures Serves(f, DoLockBarrier(f, j), i, k)
  {
  }

  lemma CheckServes(f: Fine, j: nat, i: nat, k: nat)
    requires j in f.clients && f.clients[j].Checks? && j in f.frames
    ensures Serves(f, DoCheckBarrier(f, j), i, k)
  {
  }

  lemma OpenServes(f: Fine, i: nat, k: nat)
    requires f.looper.Signals?
    ensures Serves(f, DoOpenBarrier(f), i, k)
  {
  }

  lemma AnswerServes(f: Fine, step: FineStep, i: nat, k: nat)
    requires FineEnabled(f, step) && IsAnswer(step)
    ensures Serves(f, FineApply(f, step), i, k)
  {
    hide Serves, DoAcquire, DoNewKey, DoAddEntry, DoPost, DoRelease, DoLockBarrier, DoCheckBarrier, DoTake, DoLockTable,
         DoRemoveEntry, DoUnlockTable, DoOpenNode, DoMakePipe, DoCloseNode, DoWatch, DoOpenBarrier, DoCloseServer,
         DoCloseConstraint;
    match step
    case DropNode => SameClientsServe(f, DoDropNode(f), i, k);
    case WriteResult => SameClientsServe(f, DoWriteResult(f), i, k);
    case LockToOpen => SameClientsServe(f, DoLockToOpen(f), i, k);
    case OpenBarrier => OpenServes(f, i, k);
    case UnlockBarrier => SameClientsServe(f, DoUnlockBarrier(f), i, k);
  }

  lemma StepServes(f: Fine, step: FineStep, i: nat, k: nat)
    requires Shape(f) && FineEnabled(f, step) && Own(step)
    ensures Serves(f, FineApply(f, step), i, k)
  {
    hide Serves, DoAcquire, DoNewKey, DoAddEntry, DoPost, DoRelease, DoLockBarrier, DoCheckBarrier, DoTake, DoLockTable,
         DoRemoveEntry, DoUnlockTable, DoOpenNode, DoCloseNode, DoMakePipe, DoWatch, DoDropNode, DoWriteResult,
         DoLockToOpen, DoOpenBarrier, DoUnlockBarrier, DoCloseServer, DoCloseConstraint;
    if step.Release? {
      ReleaseServes(f, step.t, i, k);
    } else if step.LockBarrier? {
      LockServes(f, step.i, i, k);
    } else if step.CheckBarrier? {
      CheckServes(f, step.i, i, k);
    } else if IsAnswer(step) {
      AnswerServes(f, step, i, k);
    } else if IsFetch(step) {
      FetchServes(f, step, i, k);
    } else if step.Acquire? || step.NewKey? || step.AddEntry? || step.Post? {
      SendersServe(f, step, i, k);
    } else {
      EventServes(f, step, i, k);
    }
  }

  /** The caller awaits the reply to `k`, or has returned with it. */
  ghost predicate OnItsWay(f: Fine, i: nat, k: nat) {
    AwaitsReply(f, i, k) || Returned(f, i, k)
  }

  lemma StepKeepsOnItsWay(f: Fine, step: FineStep, i: nat, k: nat)
    requires FineInv(f) && FineEnabled(f, step) && Own(step) && OnItsWay(f, i, k)
    ensures FineInv(FineApply(f, step)) && OnItsWay(FineApply(f, step), i, k)
  {
    StepServes(f, step, i, k);
    FineStepKeeps(f, step);
    hide Inv, Shape, Awake, FineApply, FineEnabled, Simulates, AwaitsReply;
    ReturnsAreResults(FineApply(f, step));
  }

  lemma ReturnsAreResults(f: Fine)
    requires Met(f)
    ensures forall k :: k in f.returned ==> k in f.mem.log.results && f.returned[k] == f.mem.log.results[k]
  {
  }

  // ---------- From an answered event to the return ----------

  /** The next step on the caller's way out: the looper lets go of the barrier's lock, or the caller moves. */
  ghost function WayOut(f: Fine, i: nat): FineStep {
    if f.looper.Signalled? && f.looper.caller == i then UnlockBarrier
    else if i !in f.clients then UnlockBarrier
    else match f.clients[i]
      case Sends => Release(Client(i))
      case Waits(_) => LockBarrier(i)
      case Checks(_) => CheckBarrier(i)
      case Sleeps(_) => WakeUp(i)
  }

  function WayLeft(f: Fine, i: nat): nat {
    (if f.looper.Signalled? && f.looper.caller == i then 4 else 0)
    + (if i !in f.clients then 0
       else match f.clients[i] case Sends => 3 case Waits(_) => 2 case Checks(_) => 1 case Sleeps(_) => 3)
  }

  /** The frame of a caller whose event was answered is open, and the caller does not sleep on it. */
  lemma AnsweredFrame(f: Fine, i: nat, k: nat)
    requires FineInv(f) && AwaitsReply(f, i, k) && !InProgress(f, k)
    ensures i in f.frames && f.frames[i].open && i in f.clients && !f.clients[i].Sleeps? && k in f.mem.log.results
    ensures f.frames[i].ret == Some(f.mem.log.results[k])
    ensures !(f.looper.Signalled? && f.looper.caller == i) ==>
              f.frames[i].holder == if f.clients[i].Checks? then Some(Client(i)) else None
    ensures f.clients[i].Sends? ==> Client(i) in f.sending && f.sending[Client(i)].Posted?
    ensures !f.clients[i].Sends? ==> f.clients[i].key == k
  {
    FrameInOrder(f, i);
    LooperAnswersOne(f, i, k);
    hide Inv, Shape, Abs, ReferencesOk, AnswerOk, FramesOk, ReturnsOk;
  }

  /** If the looper is at the barrier of caller `i`, then for the event that `i` awaits. */
  lemma LooperAnswersOne(f: Fine, i: nat, k: nat)
    requires Met(f) && AwaitsReply(f, i, k)
    ensures Answering(f.looper) && f.looper.caller == i ==> f.looper.key == k
    ensures Answering(f.looper) && f.looper.key == k ==> f.looper.caller == i
  {
    AwaitedCaller(f, i, k);
    if Answering(f.looper) { AwaitedCaller(f, f.looper.caller, f.looper.key); }
    hide Abs, ReferencesOk, FramesOk, ReturnsOk;
  }

  lemma AwaitedCaller(f: Fine, i: nat, k: nat)
    requires Met(f) && AwaitsReply(f, i, k)
    ensures i in f.frames && k in f.mem.log.history && f.mem.log.history[k].event.OpenHandle?
    ensures f.mem.log.history[k].event.caller == i
  {
    assert i in f.frames;
    FrameInOrder(f, i);
    hide Abs, ReferencesOk, FramesOk, ReturnsOk;
  }

  lemma StepsOutEnabled(f: Fine, i: nat)
    ensures f.looper.Signalled? ==> FineEnabled(f, UnlockBarrier)
    ensures Client(i) in f.sending && f.sending[Client(i)].Posted? ==> FineEnabled(f, Release(Client(i)))
    ensures i in f.clients && f.clients[i].Waits? && i in f.frames && f.frames[i].holder == None ==>
              FineEnabled(f, LockBarrier(i))
    ensures i in f.clients && f.clients[i].Checks? && i in f.frames ==> FineEnabled(f, CheckBarrier(i))
  {
  }

  predicate IsWayOut(step: FineStep) {
    step.UnlockBarrier? || step.Release? || step.LockBarrier? || step.CheckBarrier?
  }

  lemma WayOutEnabled(f: Fine, i: nat, k: nat)
    requires FineInv(f) && AwaitsReply(f, i, k) && !InProgress(f, k)
    ensures FineEnabled(f, WayOut(f, i)) && Own(WayOut(f, i)) && IsWayOut(WayOut(f, i))
  {
    hide FineInv, AwaitsReply, InProgress, FineEnabled;
    AnsweredFrame(f, i, k);
    StepsOutEnabled(f, i);
  }

  lemma UnlockShortens(f: Fine, i: nat)
    requires f.looper.Signalled? && f.looper.caller == i
    ensures WayLeft(DoUnlockBarrier(f), i) < WayLeft(f, i)
  {
  }

  lemma ReleaseShortens(f: Fine, i: nat)
    requires i in f.clients && f.clients[i].Sends? && Client(i) in f.sending && f.sending[Client(i)].Posted?
    ensures WayLeft(DoRelease(f, Client(i)), i) < WayLeft(f, i)
  {
  }

  lemma LockShortens(f: Fine, i: nat)
    requires i in f.clients && f.clients[i].Waits? && i in f.frames
    ensures WayLeft(DoLockBarrier(f, i), i) < WayLeft(f, i)
  {
  }

  lemma CheckShortens(f: Fine, i: nat)
    requires i in f.clients && f.clients[i].Checks? && i in f.frames && f.frames[i].open
    ensures WayLeft(DoCheckBarrier(f, i), i) < WayLeft(f, i)
  {
  }

  lemma WayOutDoes(f: Fine, i: nat)
    requires FineEnabled(f, WayOut(f, i))
    ensures WayOut(f, i) == UnlockBarrier ==> FineApply(f, WayOut(f, i)) == DoUnlockBarrier(f)
    ensures WayOut(f, i) == Release(Client(i)) ==> FineApply(f, WayOut(f, i)) == DoRelease(f, Client(i))
    ensures WayOut(f, i) == LockBarrier(i) ==> FineApply(f, WayOut(f, i)) == DoLockBarrier(f, i)
    ensures WayOut(f, i) == CheckBarrier(i) ==> FineApply(f, WayOut(f, i)) == DoCheckBarrier(f, i)
  {
    hide WayOut, DoUnlockBarrier, DoRelease, DoLockBarrier, DoCheckBarrier;
  }

  lemma WayOutShortens(f: Fine, i: nat, k: nat)
    requires FineInv(f) && AwaitsReply(f, i, k) && !InProgress(f, k) && FineEnabled(f, WayOut(f, i))
    ensures WayLeft(FineApply(f, WayOut(f, i)), i) < WayLeft(f, i)
  {
    AnsweredFrame(f, i, k);
    WayOutDoes(f, i);
    hide FineInv, AwaitsReply, InProgress, FineEnabled, FineApply, WayLeft;
    if f.looper.Signalled? && f.looper.caller == i {
      UnlockShortens(f, i);
    } else {
      match f.clients[i]
      case Sends => ReleaseShortens(f, i);
      case Waits(_) => LockShortens(f, i);
      case Checks(_) => CheckShortens(f, i);
    }
  }

  lemma WayOutKeepsAnswer(f: Fine, i: nat, k: nat)
    requires FineInv(f) && !InProgress(f, k) && FineEnabled(f, WayOut(f, i)) && IsWayOut(WayOut(f, i))
    ensures !InProgress(FineApply(f, WayOut(f, i)), k)
  {
    var step := WayOut(f, i);
    WayOutLooper(f, step);
    hide FineInv, Abs, WayOut, FineApply, FineEnabled;
    StutterKeeps(f, step);
  }

  lemma WayOutLooper(f: Fine, step: FineStep)
    requires FineEnabled(f, step) && IsWayOut(step)
    ensures Stutters(step)
    ensures FineApply(f, step).looper == f.looper || FineApply(f, step).looper.Polling?
  {
  }

  /** Once its event was answered, a caller returns by at most WayLeft steps of its own and of the looper's. */
  lemma {:induction false} GoesOut(f: Fine, i: nat, k: nat) returns (steps: seq<FineStep>)
    requires FineInv(f) && OnItsWay(f, i, k) && !InProgress(f, k)
    ensures FineFeasible(f, steps) && AllOwn(steps) && |steps| <= WayLeft(f, i)
    ensures FineInv(FineExecute(f, steps)) && Returned(FineExecute(f, steps), i, k)
    decreases WayLeft(f, i)
  {
    hide FineInv, FineEnabled, FineApply, InProgress, AwaitsReply, Returned, WayOut, WayLeft;
    steps := [];
    if !Returned(f, i, k) {
      var step := WayOut(f, i);
      WayOutEnabled(f, i, k);
      WayOutShortens(f, i, k);
      WayOutKeepsAnswer(f, i, k);
      StepKeepsOnItsWay(f, step, i, k);
      steps := GoesOut(FineApply(f, step), i, k);
      assert ([step] + steps)[1..] == steps;
      steps := [step] + steps;
    }
  }

  // ---------- From the call to the return ----------

  lemma HelpIsOwn(f: Fine, e: Answers)
    ensures Own(NextHelp(f, e))
  {
  }

  lemma {:induction false} ServedFrom(f: Fine, env: Fine -> Answers, i: nat, k: nat) returns (steps: seq<FineStep>)
    requires FineInv(f) && OnItsWay(f, i, k) && forall g: Fine :: Possible(g, env(g))
    ensures FineFeasible(f, steps) && AllOwn(steps)
    ensures Returned(FineExecute(f, steps), i, k)
    decreases DispatchesLeft(f, k), LooperRank(f), HolderRank(f)
  {
    hide FineInv, FineEnabled, FineApply, InProgress, OnItsWay, Returned, DispatchesLeft, LooperRank, HolderRank,
         Possible, NextHelp, Own;
    if !InProgress(f, k) {
      steps := GoesOut(f, i, k);
    } else {
      assert Possible(f, env(f));
      var step := NextHelp(f, env(f));
      EveryHelpCounts(f, env(f), k);
      HelpIsOwn(f, env(f));
      StepKeepsOnItsWay(f, step, i, k);
      var f' := FineApply(f, step);
      if InProgress(f', k) { steps := ServedFrom(f', env, i, k); } else { steps := GoesOut(f', i, k); }
      assert ([step] + steps)[1..] == steps;
      steps := [step] + steps;
    }
  }

  /** Every caller returns: whatever the kernel answers, whatever timeouts were asked for and whatever the other threads
      are at, there is a run of threads already on their way, without a spurious wake-up, after which the call of thread
      `i` is over and has returned what its own event produced. */
  lemma WaiterIsReleased(f: Fine, env: Fine -> Answers, i: nat, k: nat) returns (steps: seq<FineStep>)
    requires FineReachable(f) && AwaitsReply(f, i, k) && forall g: Fine :: Possible(g, env(g))
    ensures FineFeasible(f, steps) && AllOwn(steps)
    ensures Returned(FineExecute(f, steps), i, k)
  {
    hide FineReachable, FineInv, AwaitsReply, Returned, FineFeasible, FineExecute, AllOwn;
    FineReachableInv(f);
    steps := ServedFrom(f, env, i, k);
  }

  /** As long as a caller has not returned, a step other than a spurious wake-up, a new request or an event from outside
      is possible. */
  lemma NeverStuck(f: Fine, e: Answers, i: nat, k: nat)
    requires FineReachable(f) && AwaitsReply(f, i, k) && Possible(f, e)
    ensures exists step :: Own(step) && FineEnabled(f, step)
  {
    hide FineReachable, FineInv, InProgress, AwaitsReply, FineEnabled, Possible, NextHelp, Own;
    FineReachableInv(f);
    if InProgress(f, k) {
      EveryHelpCounts(f, e, k);
      HelpIsOwn(f, e);
      assert Own(NextHelp(f, e));
    } else {
      WayOutEnabled(f, i, k);
      assert Own(WayOut(f, i));
    }
  }
}
