/** While a caller's barrier is closed, the thread in charge can always move, and every such move brings the opening
    nearer. */
module FineProgress {
  import opened Wrappers
  import opened PokerEngine
  import opened EngineInvariant
  import opened EngineProgress
  import opened Interleaving
  import opened InterleavingRefines
  import opened Rendezvous
  import opened FineTheorems
  import opened FineRuns

  /** Client `i` called createPmQosHandle, its event has been posted, and its barrier is closed. */
  ghost predicate Blocked(f: Fine, i: nat, k: nat) {
    Awaits(StatusOf(f.clients, f.sending, i), k) && i in f.frames && !f.frames[i].open
  }

  /** The environment's answers, should the looper ask. */
  datatype Answers = Answers(node: Option<nat>, pipe: Option<(nat, nat)>, accepted: bool)

  ghost predicate Possible(f: Fine, e: Answers) {
    && (e.node.Some? ==> e.node.value !in f.mem.fds)
    && (e.pipe.Some? ==>
          e.pipe.value.0 !in f.mem.fds && e.pipe.value.1 !in f.mem.fds && e.pipe.value.0 != e.pipe.value.1)
  }

  /** The next step of the thread in charge: the client holding mEvLock, a client holding the barrier
      lock the looper wants, or the looper. */
  ghost function NextHelp(f: Fine, e: Answers): FineStep {
    match f.lock
    case Some(Client(j)) => NextSend(f, Client(j))
    case _ =>
      match f.looper
      case Polling => Take
      case Took(_) => LockTable
      case Fetching(_) => RemoveEntry
      case Fetched(_, _) => UnlockTable
      case Missing => UnlockTable
      case Running(_, ev) => if ev.CloseTimed? then CloseNode else OpenNode(e.node)
      case Arming(_, _, _) => NextSend(f, Looper)
      case Armed => NextSend(f, Looper)
      case Node(_, _, _) => MakePipe(e.pipe)
      case Piped(_, _, _, _, _) => Watch(e.accepted)
      case Dropping(_, _, _) => DropNode
      case Writing(_, _, _) => WriteResult
      case Written(c, _) =>
        if c in f.frames && f.frames[c].holder == Some(Client(c)) then CheckBarrier(c) else LockToOpen
      case Signals(_, _) => OpenBarrier
      case Signalled(_, _) => UnlockBarrier
      case Unhooked(_, _) => CloseServer
      case HalfClosed(_) => CloseConstraint
  }

  ghost function NextSend(f: Fine, t: Thread): FineStep {
    if t !in f.sending then Acquire(t)
    else match f.sending[t]
      case Wanting(_, _) => Acquire(t)
      case Locked(_, _) => NewKey(t)
      case Keyed(_, _, _) => AddEntry(t)
      case Added(_, _, _) => Post(t)
      case Posted(_, _, _) => Release(t)
  }

  lemma SendEnabled(f: Fine)
    requires Shape(f)
    ensures f.lock.Some? && f.lock.value.Client? ==> FineEnabled(f, NextSend(f, f.lock.value))
    ensures !(f.lock.Some? && f.lock.value.Client?) && (f.looper.Arming? || f.looper.Armed?) ==>
              FineEnabled(f, NextSend(f, Looper))
  {
  }

  lemma AnswerEnabled(f: Fine, e: Answers)
    requires Met(f) && Shape(f) && Answering(f.looper) && !(f.lock.Some? && f.lock.value.Client?)
    ensures FineEnabled(f, NextHelp(f, e))
  {
    assert FrameOk(f.frames[f.looper.caller], f.looper.caller, StatusOf(f.clients, f.sending, f.looper.caller),
                   f.looper, Abs(f).table, f.mem.log);
  }

  lemma BlockedIsPending(f: Fine, i: nat, k: nat)
    requires Met(f) && Blocked(f, i, k) && !Answering(f.looper)
    ensures k in Abs(f).table && Abs(f).table[k].OpenHandle?
  {
    assert FrameOk(f.frames[i], i, StatusOf(f.clients, f.sending, i), f.looper, Abs(f).table, f.mem.log);
  }

  lemma TakeEnabled(f: Fine, k: nat)
    requires Inv(Abs(f)) && f.looper.Polling? && k in Abs(f).table && Abs(f).table[k].OpenHandle?
    ensures FineEnabled(f, Take)
  {
    PendingIsDue(Abs(f), k);
  }

  lemma LooperEnabled(f: Fine, e: Answers)
    requires Shape(f) && Possible(f, e) && !(f.lock.Some? && f.lock.value.Client?)
    requires !Answering(f.looper) && !f.looper.Polling? && !f.looper.Arming? && !f.looper.Armed?
    ensures FineEnabled(f, NextHelp(f, e))
  {
  }

  /** As long as a caller is blocked, some other step than a new request, a wake-up or an event of the
      environment can be taken: there is no deadlock, and the looper never waits for a barrier. */
  lemma NoDeadlock(f: Fine, e: Answers, i: nat, k: nat)
    requires FineReachable(f) && Blocked(f, i, k) && Possible(f, e)
    ensures FineEnabled(f, NextHelp(f, e))
  {
    hide Met, Shape, FineReachable, Blocked, Abs, Inv;
    FineReachableInv(f);
    SendEnabled(f);
    if !(f.lock.Some? && f.lock.value.Client?) {
      if Answering(f.looper) {
        AnswerEnabled(f, e);
      } else if f.looper.Polling? {
        BlockedIsPending(f, i, k);
        TakeEnabled(f, k);
      } else if !f.looper.Arming? && !f.looper.Armed? {
        LooperEnabled(f, e);
      }
    }
  }

  // ---------- Every helping step counts ----------

  /** At most so many dispatches are still to come before the event of `k` has taken effect. */
  ghost function DispatchesLeft(f: Fine, k: nat): nat {
    if Pending(Abs(f).table, k) then Ahead(Abs(f).queue, Abs(f).table, k) + 1 else 0
  }

  ghost function SendRank(s: Sending): nat {
    match s
    case Wanting(_, _) => 5
    case Locked(_, _) => 4
    case Keyed(_, _, _) => 3
    case Added(_, _, _) => 2
    case Posted(_, _, _) => 1
  }

  /** Looper steps until it takes its next message or an event takes effect. */
  ghost function LooperRank(f: Fine): nat {
    match f.looper
    case Dropping(_, _, _) => 26
    case Writing(_, _, _) => 25
    case Written(_, _) => 24
    case Signals(_, _) => 23
    case Signalled(_, _) => 22
    case Unhooked(_, _) => 22
    case HalfClosed(_) => 21
    case Armed => 21
    case Missing => 21
    case Polling => 20
    case Took(_) => 19
    case Fetching(_) => 18
    case Fetched(_, _) => 17
    case Running(_, _) => 16
    case Arming(_, _, _) => 10 + (if Looper in f.sending then SendRank(f.sending[Looper]) else 0)
    case Node(_, _, _) => 15
    case Piped(_, _, _, _, _) => 14
  }

  /** Steps of a client in the looper's way. */
  ghost function HolderRank(f: Fine): nat {
    (if f.lock.Some? && f.lock.value.Client? && f.lock.value in f.sending then SendRank(f.sending[f.lock.value]) else 0)
    + (if f.looper.Written? && f.looper.caller in f.frames && f.frames[f.looper.caller].holder.Some? then 1 else 0)
  }

  ghost predicate Nearer(f: Fine, f': Fine, k: nat) {
    || DispatchesLeft(f', k) < DispatchesLeft(f, k)
    || (DispatchesLeft(f', k) == DispatchesLeft(f, k)
        && (LooperRank(f') < LooperRank(f)
            || (LooperRank(f') == LooperRank(f) && HolderRank(f') < HolderRank(f))))
  }

  /** The event of `k` is pending, or being answered with its barrier still closed. */
  ghost predicate InProgress(f: Fine, k: nat) {
    Pending(Abs(f).table, k) || (Answering(f.looper) && f.looper.key == k && !f.looper.Signalled?)
  }

  ghost predicate RanksDrop(f: Fine, f': Fine) {
    LooperRank(f') < LooperRank(f) || (LooperRank(f') == LooperRank(f) && HolderRank(f') < HolderRank(f))
  }

  /** A client inside its critical section moves on. */
  lemma ClientRanksDrop(f: Fine, j: nat)
    requires f.lock == Some(Client(j)) && FineEnabled(f, NextSend(f, Client(j)))
    requires Client(j) in f.sending && !f.sending[Client(j)].Wanting?
    ensures var f' := FineApply(f, NextSend(f, Client(j)));
            RanksDrop(f, f') && f'.looper == f.looper && f'.frames == f.frames
  {
    hide DoRelease, DoPost, DoAddEntry, DoNewKey;
    match f.sending[Client(j)]
    case Locked(_, _) => NewKeyRanks(f, j);
    case Keyed(_, _, _) => AddEntryRanks(f, j);
    case Added(_, _, _) => PostRanks(f, j);
    case Posted(_, _, _) => ReleaseRanks(f, j);
  }

  lemma NewKeyRanks(f: Fine, j: nat)
    requires f.lock == Some(Client(j)) && Client(j) in f.sending && f.sending[Client(j)].Locked?
    ensures RanksDrop(f, DoNewKey(f, Client(j)))
    ensures DoNewKey(f, Client(j)).looper == f.looper && DoNewKey(f, Client(j)).frames == f.frames
  {
  }

  lemma AddEntryRanks(f: Fine, j: nat)
    requires f.lock == Some(Client(j)) && Client(j) in f.sending && f.sending[Client(j)].Keyed?
    ensures RanksDrop(f, DoAddEntry(f, Client(j)))
    ensures DoAddEntry(f, Client(j)).looper == f.looper && DoAddEntry(f, Client(j)).frames == f.frames
  {
  }

  lemma PostRanks(f: Fine, j: nat)
    requires f.lock == Some(Client(j)) && Client(j) in f.sending && f.sending[Client(j)].Added?
    ensures RanksDrop(f, DoPost(f, Client(j)))
    ensures DoPost(f, Client(j)).looper == f.looper && DoPost(f, Client(j)).frames == f.frames
  {
  }

  lemma ReleaseRanks(f: Fine, j: nat)
    requires f.lock == Some(Client(j)) && Client(j) in f.sending && f.sending[Client(j)].Posted?
    ensures RanksDrop(f, DoRelease(f, Client(j)))
    ensures DoRelease(f, Client(j)).looper == f.looper && DoRelease(f, Client(j)).frames == f.frames
  {
  }

  /** The looper, or the client whose barrier lock it wants, moves on. */
  lemma AnswerRanksDrop(f: Fine, e: Answers)
    requires Answering(f.looper) && f.looper.caller in f.frames
    requires !f.frames[f.looper.caller].open || f.looper.Signalled?
    requires !(f.lock.Some? && f.lock.value.Client?) && FineEnabled(f, NextHelp(f, e))
    ensures var f' := FineApply(f, NextHelp(f, e));
            RanksDrop(f, f') && (f.looper.Signalled? || (Answering(f'.looper) && f'.looper.key == f.looper.key))
  {
    hide NextSend, DoAcquire, DoNewKey, DoAddEntry, DoPost, DoRelease, DoLockBarrier, DoTake, DoLockTable,
         DoRemoveEntry, DoUnlockTable, DoOpenNode, DoCloseNode, DoMakePipe, DoWatch, DoCloseServer, DoCloseConstraint;
  }

  lemma FetchRanksDrop(f: Fine, e: Answers)
    requires !Answering(f.looper) && !(f.lock.Some? && f.lock.value.Client?) && FineEnabled(f, NextHelp(f, e))
    requires CoarseStep(f, NextHelp(f, e)).None? && !f.looper.Arming? && !f.looper.Armed? && !f.looper.Missing?
    requires f.looper.Fetching? ==> f.looper.m.key in f.mem.table
    ensures LooperRank(FineApply(f, NextHelp(f, e))) < LooperRank(f)
    ensures !Answering(FineApply(f, NextHelp(f, e)).looper)
  {
    hide DoOpenNode, DoMakePipe, LooperRank, DoTake, DoLockTable, DoRemoveEntry, DoUnlockTable, DoCloseServer,
         DoCloseConstraint;
    if f.looper.Running? { OpenRanksDrop(f, e.node.value); }
    else if f.looper.Node? { PipeRanksDrop(f, e.pipe.value); }
    else { TableRanksDrop(f); }
  }

  lemma TableRanksDrop(f: Fine)
    ensures f.looper.Polling? && f.mem.queue != [] ==>
              LooperRank(DoTake(f)) < LooperRank(f) && !Answering(DoTake(f).looper)
    ensures f.looper.Took? ==> LooperRank(DoLockTable(f)) < LooperRank(f) && !Answering(DoLockTable(f).looper)
    ensures f.looper.Fetching? && f.looper.m.key in f.mem.table ==>
              LooperRank(DoRemoveEntry(f)) < LooperRank(f) && !Answering(DoRemoveEntry(f).looper)
    ensures f.looper.Fetched? ==> LooperRank(DoUnlockTable(f)) < LooperRank(f) && !Answering(DoUnlockTable(f).looper)
    ensures f.looper.Unhooked? ==> LooperRank(DoCloseServer(f)) < LooperRank(f) && !Answering(DoCloseServer(f).looper)
    ensures f.looper.HalfClosed? ==>
              LooperRank(DoCloseConstraint(f)) < LooperRank(f) && !Answering(DoCloseConstraint(f).looper)
  {
    hide LooperRank;
    match f.looper
    case Polling => if f.mem.queue != [] { PlainRanksDrop(f, DoTake(f)); }
    case Took(_) => PlainRanksDrop(f, DoLockTable(f));
    case Fetching(m) => if m.key in f.mem.table { PlainRanksDrop(f, DoRemoveEntry(f)); }
    case Fetched(_, _) => PlainRanksDrop(f, DoUnlockTable(f));
    case Unhooked(_, _) => PlainRanksDrop(f, DoCloseServer(f));
    case HalfClosed(_) => PlainRanksDrop(f, DoCloseConstraint(f));
    case _ =>
  }

  lemma OpenRanksDrop(f: Fine, fd: nat)
    requires f.looper.Running? && !f.looper.ev.CloseTimed?
    ensures LooperRank(DoOpenNode(f, Some(fd))) < LooperRank(f) && !Answering(DoOpenNode(f, Some(fd)).looper)
  {
  }

  lemma PipeRanksDrop(f: Fine, pipe: (nat, nat))
    requires f.looper.Node? && f.looper.ev.OpenHandle?
    ensures LooperRank(DoMakePipe(f, Some(pipe))) < LooperRank(f) && !Answering(DoMakePipe(f, Some(pipe)).looper)
  {
  }

  lemma PlainRanksDrop(f: Fine, f': Fine)
    requires match f.looper
             case Polling => f'.looper.Took?
             case Took(_) => f'.looper.Fetching?
             case Fetching(_) => f'.looper.Fetched?
             case Fetched(_, _) => f'.looper.Running?
             case Unhooked(_, _) => f'.looper.HalfClosed?
             case HalfClosed(_) => f'.looper.Polling?
             case _ => false
    ensures LooperRank(f') < LooperRank(f)
  {
  }

  lemma ArmRanksDrop(f: Fine)
    requires (f.looper.Arming? || f.looper.Armed?) && FineEnabled(f, NextSend(f, Looper))
    requires Looper in f.sending && (f.looper.Armed? <==> f.sending[Looper].Posted?)
    requires CoarseStep(f, NextSend(f, Looper)).None?
    ensures LooperRank(FineApply(f, NextSend(f, Looper))) < LooperRank(f)
    ensures !Answering(FineApply(f, NextSend(f, Looper)).looper)
  {
  }

  // ---------- One helping step ----------

  lemma SameCoarseSameDistance(f: Fine, f': Fine, k: nat)
    requires Abs(f') == Abs(f)
    ensures DispatchesLeft(f', k) == DispatchesLeft(f, k)
  {
  }

  lemma PushKeepsDistance(s: State, ev: Event, k: nat)
    requires Inv(s) && !ev.CloseTimed? && k != s.nextKey
    ensures Pending(Push(s, ev).table, k) == Pending(s.table, k)
    ensures Pending(s.table, k) ==>
              Ahead(Push(s, ev).queue, Push(s, ev).table, k) == Ahead(s.queue, s.table, k)
  {
    hide Ahead, Inv;
    if Pending(s.table, k) { PushKeepsAhead(s, ev, k); }
  }

  lemma ClientPostKeepsDistance(f: Fine, j: nat, k: nat)
    requires FineInv(f) && FineEnabled(f, Post(Client(j))) && k != f.sending[Client(j)].key
    ensures DispatchesLeft(DoPost(f, Client(j)), k) == DispatchesLeft(f, k)
  {
    hide Met, Shape, Agrees, RequestsTracked, OutcomesTracked, TimedOwned, TimedDue, HandlesOwned, Abs, DoPost;
    PostOfClientSimulates(f, j);
    PostUsesNextKey(f, j);
    PushKeepsDistance(Abs(f), f.sending[Client(j)].ev, k);
  }

  lemma NewKeyNotInProgress(f: Fine, j: nat)
    requires FineInv(f) && FineEnabled(f, Post(Client(j)))
    ensures !InProgress(f, f.sending[Client(j)].key)
  {
    PostUsesNextKey(f, j);
    NextKeyUnused(Abs(f));
  }

  /** The next helping step is possible, and after it the answer is nearer or there. */
  ghost predicate Helped(f: Fine, e: Answers, k: nat) {
    && FineEnabled(f, NextHelp(f, e))
    && var f' := FineApply(f, NextHelp(f, e));
       !InProgress(f', k) || Nearer(f, f', k)
  }

  lemma ClientHelps(f: Fine, e: Answers, k: nat)
    requires FineInv(f) && InProgress(f, k) && f.lock.Some? && f.lock.value.Client?
    ensures Helped(f, e, k)
  {
    hide Met, Inv, Abs, FineEnabled, InProgress, DoPost, DoRelease, DoAddEntry, DoNewKey, DoAcquire;
    SendEnabled(f);
    var j := f.lock.value.id;
    ClientRanksDrop(f, j);
    var step := NextSend(f, Client(j));
    if step.Post? {
      NewKeyNotInProgress(f, j);
      ClientPostKeepsDistance(f, j, k);
    } else {
      SendStands(f, step);
      SameCoarseSameDistance(f, FineApply(f, step), k);
    }
  }

  lemma AnswerHelps(f: Fine, e: Answers, k: nat)
    requires FineInv(f) && InProgress(f, k)
    requires Answering(f.looper) && !(f.lock.Some? && f.lock.value.Client?)
    ensures Helped(f, e, k)
  {
    hide Met, Inv, Shape, Abs, FineApply, FineEnabled, InProgress;
    AnswerEnabled(f, e);
    AnswerFrame(f);
    AnswerRanksDrop(f, e);
    StutterKeeps(f, NextHelp(f, e));
    SameCoarseSameDistance(f, FineApply(f, NextHelp(f, e)), k);
  }

  lemma AnswerFrame(f: Fine)
    requires Met(f) && Answering(f.looper)
    ensures f.looper.caller in f.frames && (!f.frames[f.looper.caller].open || f.looper.Signalled?)
  {
    assert FrameOk(f.frames[f.looper.caller], f.looper.caller, StatusOf(f.clients, f.sending, f.looper.caller),
                   f.looper, Abs(f).table, f.mem.log);
  }

  lemma CommitHelps(f: Fine, e: Answers, k: nat)
    requires FineInv(f) && Pending(Abs(f).table, k)
    requires FineEnabled(f, NextHelp(f, e)) && CoarseStep(f, NextHelp(f, e)).Some?
             && CoarseStep(f, NextHelp(f, e)).value.DoDispatch?
    ensures Helped(f, e, k)
  {
    hide Met, Shape, FineApply, FineEnabled, Abs, InProgress, Dispatch, Enabled, Ahead,
         Agrees, RequestsTracked, OutcomesTracked, TimedOwned, TimedDue, HandlesOwned, ResultsTracked;
    var step := NextHelp(f, e);
    FineStepKeeps(f, step);
    CommitNears(Abs(f), Abs(FineApply(f, step)), CoarseStep(f, step).value.r, k);
  }

  lemma CommitNears(s: State, s': State, r: Response, k: nat)
    requires Inv(s) && Inv(s') && Pending(s.table, k)
    requires Enabled(s, DoDispatch(r)) && s' == Dispatch(s, r)
    ensures Pending(s'.table, k) ==> Ahead(s'.queue, s'.table, k) < Ahead(s.queue, s.table, k)
  {
    hide Ahead, Dispatch;
    DispatchLowersAhead(s, r, k);
  }

  lemma LooperSteps(f: Fine, e: Answers, k: nat)
    requires FineInv(f) && Possible(f, e) && Pending(Abs(f).table, k)
    requires !Answering(f.looper) && !(f.lock.Some? && f.lock.value.Client?)
    ensures FineEnabled(f, NextHelp(f, e)) && !f.looper.Missing?
    ensures f.looper.Fetching? ==> f.looper.m.key in f.mem.table
    ensures Looper in f.sending ==> (f.looper.Armed? <==> f.sending[Looper].Posted?)
    ensures f.looper.Arming? || f.looper.Armed? ==> Looper in f.sending && NextHelp(f, e) == NextSend(f, Looper)
  {
    hide Met, Inv, Abs, FineEnabled;
    SendEnabled(f);
    if f.looper.Polling? { TakeEnabled(f, k); } else if !f.looper.Arming? && !f.looper.Armed? { LooperEnabled(f, e); }
    if f.looper.Fetching? { FetchingFinds(f); }
  }

  lemma FetchingFinds(f: Fine)
    requires Core(f) && f.looper.Fetching?
    ensures f.looper.m.key in f.mem.table
  {
    EntryIsThere(f);
  }

  lemma LooperStepKind(f: Fine, e: Answers)
    requires FineEnabled(f, NextHelp(f, e)) && !Answering(f.looper) && !(f.lock.Some? && f.lock.value.Client?)
    requires Looper in f.sending ==> (f.looper.Armed? <==> f.sending[Looper].Posted?)
    ensures CoarseStep(f, NextHelp(f, e)).None? ==> Stutters(NextHelp(f, e))
    ensures CoarseStep(f, NextHelp(f, e)).Some? ==> CoarseStep(f, NextHelp(f, e)).value.DoDispatch?
  {
  }

  lemma StutterHelps(f: Fine, e: Answers, k: nat)
    requires FineInv(f) && Possible(f, e) && Pending(Abs(f).table, k)
    requires !Answering(f.looper) && !(f.lock.Some? && f.lock.value.Client?)
    requires FineEnabled(f, NextHelp(f, e)) && CoarseStep(f, NextHelp(f, e)).None? && Stutters(NextHelp(f, e))
    ensures Helped(f, e, k)
  {
    hide Met, Inv, Shape, Abs, FineApply, FineEnabled, InProgress, Stutters, CoarseStep;
    LooperSteps(f, e, k);
    if f.looper.Arming? || f.looper.Armed? { ArmRanksDrop(f); } else { FetchRanksDrop(f, e); }
    StutterKeeps(f, NextHelp(f, e));
    SameCoarseSameDistance(f, FineApply(f, NextHelp(f, e)), k);
  }

  lemma InProgressIsPending(f: Fine, k: nat)
    requires InProgress(f, k) && !Answering(f.looper)
    ensures Pending(Abs(f).table, k)
  {
  }

  /** While a handle request is in progress the next helping step is possible and brings the answer
      strictly nearer: no waiting on barriers, no circular waiting on locks. */
  lemma EveryHelpCounts(f: Fine, e: Answers, k: nat)
    requires FineInv(f) && Possible(f, e) && InProgress(f, k)
    ensures Helped(f, e, k) && FineInv(FineApply(f, NextHelp(f, e)))
  {
    hide FineInv, FineEnabled, FineApply, InProgress, Nearer, CoarseStep, Stutters, Abs, Pending;
    if f.lock.Some? && f.lock.value.Client? {
      ClientHelps(f, e, k);
    } else if Answering(f.looper) {
      AnswerHelps(f, e, k);
    } else {
      InProgressIsPending(f, k);
      LooperSteps(f, e, k);
      LooperStepKind(f, e);
      if CoarseStep(f, NextHelp(f, e)).None? { StutterHelps(f, e, k); } else { CommitHelps(f, e, k); }
    }
    FineStepKeeps(f, NextHelp(f, e));
  }
}
