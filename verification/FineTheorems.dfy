/** Every fine run refines a coarse run, and what follows for locks, barriers and results. */
module FineTheorems {
  import opened Wrappers
  import opened PokerEngine
  import opened EngineInvariant
  import opened Interleaving
  import opened InterleavingRefines
  import opened Rendezvous

  /** No client sleeps on a barrier that is open. */
  ghost predicate Awake(f: Fine) {
    forall i :: i in f.clients && f.clients[i].Sleeps? ==> i in f.frames && !f.frames[i].open
  }

  ghost predicate FineInv(f: Fine) {
    Core(f) && Met(f) && Awake(f)
  }

  // ---------- Steps that leave the coarse state alone ----------

  ghost predicate IsSend(step: FineStep) {
    step.Acquire? || step.NewKey? || step.AddEntry? || step.Release?
  }

  ghost predicate IsWait(step: FineStep) {
    step.LockBarrier? || step.CheckBarrier? || step.WakeUp?
  }

  lemma SenderStutters(f: Fine, step: FineStep)
    requires FineInv(f) && FineEnabled(f, step)
    requires IsSend(step)
    ensures Abs(FineApply(f, step)) == Abs(f) && Shape(FineApply(f, step))
  {
    match step
    case Acquire(t) => AcquireSimulates(f, t);
    case NewKey(t) => NewKeySimulates(f, t);
    case AddEntry(t) => AddEntrySimulates(f, t);
    case Release(t) => ReleaseSimulates(f, t);
  }

  lemma ReleaseUnrelated(f: Fine, t: Thread)
    requires Shape(f) && FineEnabled(f, Release(t)) && Abs(DoRelease(f, t)).table == Abs(f).table
    ensures Unrelated(f, DoRelease(f, t))
  {
  }

  lemma SenderUnrelated(f: Fine, step: FineStep)
    requires Shape(f) && FineEnabled(f, step)
    requires IsSend(step)
    requires Abs(FineApply(f, step)) == Abs(f)
    ensures Unrelated(f, FineApply(f, step))
  {
    if step.Release? {
      hide Shape, Unrelated, Abs, DoRelease;
      ReleaseUnrelated(f, step.t);
    }
  }

  lemma LockBarrierStutters(f: Fine, i: nat)
    requires Shape(f) && FineEnabled(f, LockBarrier(i))
    ensures Abs(DoLockBarrier(f, i)) == Abs(f) && Shape(DoLockBarrier(f, i))
  {
    hide Shape, Abs;
    WaitingSimulates(f, DoLockBarrier(f, i));
  }

  lemma CheckBarrierStutters(f: Fine, i: nat)
    requires Shape(f) && FineEnabled(f, CheckBarrier(i))
    ensures Abs(DoCheckBarrier(f, i)) == Abs(f) && Shape(DoCheckBarrier(f, i))
  {
    hide Shape, Abs;
    WaitingSimulates(f, DoCheckBarrier(f, i));
  }

  lemma WakeUpStutters(f: Fine, i: nat)
    requires Shape(f) && FineEnabled(f, WakeUp(i))
    ensures Abs(DoWakeUp(f, i)) == Abs(f) && Shape(DoWakeUp(f, i))
  {
    hide Shape, Abs;
    WaitingSimulates(f, DoWakeUp(f, i));
  }

  lemma WaiterStutters(f: Fine, step: FineStep)
    requires Shape(f) && FineEnabled(f, step) && IsWait(step)
    ensures Abs(FineApply(f, step)) == Abs(f) && Shape(FineApply(f, step))
  {
    hide Shape, Abs, DoLockBarrier, DoCheckBarrier, DoWakeUp;
    match step
    case LockBarrier(i) => LockBarrierStutters(f, i);
    case CheckBarrier(i) => CheckBarrierStutters(f, i);
    case WakeUp(i) => WakeUpStutters(f, i);
  }

  lemma WakeUpUnrelated(f: Fine, i: nat)
    requires FineEnabled(f, WakeUp(i)) && Abs(DoWakeUp(f, i)).table == Abs(f).table
    ensures Unrelated(f, DoWakeUp(f, i))
  {
    hide Abs;
  }

  lemma WaiterKeepsMet(f: Fine, step: FineStep)
    requires Met(f) && FineEnabled(f, step) && IsWait(step)
    requires Abs(FineApply(f, step)) == Abs(f)
    ensures Met(FineApply(f, step))
  {
    hide Met, Abs, Unrelated, DoLockBarrier, DoCheckBarrier, DoWakeUp;
    match step
    case LockBarrier(i) => LockBarrierKeeps(f, i);
    case CheckBarrier(i) => if f.frames[i].open { ReturnKeeps(f, i); } else { SleepKeeps(f, i); }
    case WakeUp(i) => WakeUpUnrelated(f, i); UnrelatedKeeps(f, DoWakeUp(f, i));
  }

  /** The looper gets descriptors that nobody else knows yet. */
  ghost predicate IsGain(step: FineStep) {
    (step.OpenNode? && step.node.Some?) || (step.MakePipe? && step.pipe.Some?)
  }

  ghost predicate IsFetch(step: FineStep) {
    || step.Take? || step.LockTable? || step.RemoveEntry? || step.UnlockTable?
    || step.CloseServer? || step.CloseConstraint?
    || IsGain(step)
  }

  lemma FetchStutters(f: Fine, step: FineStep)
    requires Shape(f) && Agrees(Abs(f)) && FineEnabled(f, step) && IsFetch(step)
    ensures Abs(FineApply(f, step)) == Abs(f) && Shape(FineApply(f, step))
  {
    hide Shape, Abs, DoTake, DoLockTable, DoRemoveEntry, DoUnlockTable, DoOpenNode, DoMakePipe, DoCloseServer,
         DoCloseConstraint;
    match step
    case Take => TakeSimulates(f);
    case LockTable => LockTableSimulates(f);
    case RemoveEntry => RemoveEntrySimulates(f);
    case UnlockTable => UnlockTableSimulates(f);
    case OpenNode(node) =>
      if f.looper.ev.OpenTimed? { TimedOpenSimulates(f, node.value); } else { HandleOpenSimulates(f, node.value); }
    case MakePipe(pipe) => PipeSucceedsSimulates(f, pipe.value.0, pipe.value.1);
    case CloseServer => CloseServerSimulates(f);
    case CloseConstraint => CloseConstraintSimulates(f);
  }

  /** Everything clients see is as before; only the looper's own sending may differ. */
  ghost predicate KeepsClients(f: Fine, f': Fine) {
    && f'.clients == f.clients && f'.frames == f.frames && f'.returned == f.returned && f'.corrupted == f.corrupted
    && f'.mem.log == f.mem.log && Phase(f'.looper) == Phase(f.looper)
    && (forall i :: Client(i) in f.sending <==> Client(i) in f'.sending)
    && (forall i :: Client(i) in f.sending ==> f'.sending[Client(i)] == f.sending[Client(i)])
  }

  lemma KeepsClientsUnrelated(f: Fine, f': Fine)
    requires KeepsClients(f, f') && Abs(f').table == Abs(f).table
    ensures Unrelated(f, f')
  {
    hide Abs;
  }

  lemma LooperSendsKeeps(f: Fine, f': Fine, w: Sending)
    requires f'.clients == f.clients && f'.frames == f.frames && f'.returned == f.returned
             && f'.corrupted == f.corrupted
    requires f'.mem.log == f.mem.log && f'.sending == f.sending[Looper := w]
    requires !Answering(f.looper) && !Answering(f'.looper)
    ensures KeepsClients(f, f')
  {
  }

  lemma OpenEffect(f: Fine, fd: nat)
    requires FineEnabled(f, OpenNode(Some(fd)))
    ensures KeepsClients(f, DoOpenNode(f, Some(fd)))
  {
    hide KeepsClients;
    var ev := f.looper.ev;
    if ev.OpenTimed? {
      LooperSendsKeeps(f, DoOpenNode(f, Some(fd)), Wanting(CloseTimed(fd), ev.timeout));
    } else {
      SameSendingKeeps(f, DoOpenNode(f, Some(fd)));
    }
  }

  lemma PipeEffect(f: Fine, pipe: (nat, nat))
    requires FineEnabled(f, MakePipe(Some(pipe)))
    ensures KeepsClients(f, DoMakePipe(f, Some(pipe)))
  {
  }

  lemma SameSendingKeeps(f: Fine, f': Fine)
    requires f'.clients == f.clients && f'.frames == f.frames && f'.returned == f.returned
             && f'.corrupted == f.corrupted
    requires f'.mem.log == f.mem.log && f'.sending == f.sending && !Answering(f.looper) && !Answering(f'.looper)
    ensures KeepsClients(f, f')
  {
  }

  lemma GainEffect(f: Fine, step: FineStep)
    requires FineEnabled(f, step) && IsGain(step)
    ensures KeepsClients(f, FineApply(f, step))
  {
    hide KeepsClients, DoOpenNode, DoMakePipe;
    if step.OpenNode? { OpenEffect(f, step.node.value); } else { PipeEffect(f, step.pipe.value); }
  }

  lemma LockTableEffect(f: Fine)
    requires f.looper.Took?
    ensures KeepsClients(f, DoLockTable(f))
  {
    hide KeepsClients;
    SameSendingKeeps(f, DoLockTable(f));
  }

  lemma RemoveEffect(f: Fine)
    requires f.looper.Fetching?
    ensures KeepsClients(f, DoRemoveEntry(f))
  {
    hide KeepsClients;
    SameSendingKeeps(f, DoRemoveEntry(f));
  }

  lemma UnlockEffect(f: Fine)
    requires f.looper.Fetched? || f.looper.Missing?
    ensures KeepsClients(f, DoUnlockTable(f))
  {
    hide KeepsClients;
    SameSendingKeeps(f, DoUnlockTable(f));
  }

  lemma TakeEffect(f: Fine)
    requires f.looper.Polling? && f.mem.queue != []
    ensures KeepsClients(f, DoTake(f))
  {
    hide KeepsClients;
    SameSendingKeeps(f, DoTake(f));
  }

  lemma ClosingEffect(f: Fine)
    ensures f.looper.Unhooked? ==> KeepsClients(f, DoCloseServer(f))
    ensures f.looper.HalfClosed? ==> KeepsClients(f, DoCloseConstraint(f))
  {
    hide KeepsClients;
    if f.looper.Unhooked? { SameSendingKeeps(f, DoCloseServer(f)); }
    if f.looper.HalfClosed? { SameSendingKeeps(f, DoCloseConstraint(f)); }
  }

  lemma FetchEffect(f: Fine, step: FineStep)
    requires FineEnabled(f, step) && IsFetch(step) && !IsGain(step)
    ensures KeepsClients(f, FineApply(f, step))
  {
    hide KeepsClients, DoTake, DoLockTable, DoRemoveEntry, DoUnlockTable, DoCloseServer, DoCloseConstraint;
    if step.Take? { TakeEffect(f); }
    else if step.CloseServer? || step.CloseConstraint? { ClosingEffect(f); }
    else if step.LockTable? { LockTableEffect(f); }
    else if step.RemoveEntry? { RemoveEffect(f); }
    else { UnlockEffect(f); }
  }

  ghost predicate IsAnswer(step: FineStep) {
    step.DropNode? || step.WriteResult? || step.LockToOpen? || step.OpenBarrier? || step.UnlockBarrier?
  }

  lemma WriteStutters(f: Fine)
    requires Shape(f) && f.looper.Writing?
    ensures Abs(DoWriteResult(f)) == Abs(f) && Shape(DoWriteResult(f))
  {
    hide Shape, Abs;
    AnswerSimulates(f, DoWriteResult(f));
  }

  lemma LockStutters(f: Fine)
    requires Shape(f) && f.looper.Written?
    ensures Abs(DoLockToOpen(f)) == Abs(f) && Shape(DoLockToOpen(f))
  {
    hide Shape, Abs;
    AnswerSimulates(f, DoLockToOpen(f));
  }

  lemma OpenStutters(f: Fine)
    requires Shape(f) && f.looper.Signals?
    ensures Abs(DoOpenBarrier(f)) == Abs(f) && Shape(DoOpenBarrier(f))
  {
    hide Shape, Abs;
    AnswerSimulates(f, DoOpenBarrier(f));
  }

  lemma UnlockStutters(f: Fine)
    requires Shape(f) && f.looper.Signalled?
    ensures Abs(DoUnlockBarrier(f)) == Abs(f) && Shape(DoUnlockBarrier(f))
  {
    hide Shape, Abs;
    AnswerSimulates(f, DoUnlockBarrier(f));
  }

  lemma AnswerStutters(f: Fine, step: FineStep)
    requires Shape(f) && FineEnabled(f, step) && IsAnswer(step)
    ensures Abs(FineApply(f, step)) == Abs(f) && Shape(FineApply(f, step))
  {
    hide Shape, Abs, DoDropNode, DoWriteResult, DoLockToOpen, DoOpenBarrier, DoUnlockBarrier;
    match step
    case DropNode => DropNodeSimulates(f);
    case WriteResult => WriteStutters(f);
    case LockToOpen => LockStutters(f);
    case OpenBarrier => OpenStutters(f);
    case UnlockBarrier => UnlockStutters(f);
  }

  lemma DropProceeds(f: Fine)
    requires f.looper.Dropping? && f.looper.caller in f.frames && Abs(DoDropNode(f)).table == Abs(f).table
    ensures Proceeds(f, DoDropNode(f))
  {
  }

  lemma WriteProceeds(f: Fine)
    requires f.looper.Writing? && f.looper.caller in f.frames && Abs(DoWriteResult(f)).table == Abs(f).table
    ensures Proceeds(f, DoWriteResult(f))
  {
  }

  lemma LockProceeds(f: Fine)
    requires f.looper.Written? && f.looper.caller in f.frames && f.frames[f.looper.caller].holder == None
    requires Abs(DoLockToOpen(f)).table == Abs(f).table
    ensures Proceeds(f, DoLockToOpen(f))
  {
  }

  lemma OpenProceeds(f: Fine)
    requires f.looper.Signals? && f.looper.caller in f.frames && Abs(DoOpenBarrier(f)).table == Abs(f).table
    ensures Proceeds(f, DoOpenBarrier(f))
  {
  }

  lemma UnlockProceeds(f: Fine)
    requires f.looper.Signalled? && f.looper.caller in f.frames && Abs(DoUnlockBarrier(f)).table == Abs(f).table
    ensures Proceeds(f, DoUnlockBarrier(f))
  {
  }

  lemma AnswerProceeds(f: Fine, step: FineStep)
    requires FineEnabled(f, step) && IsAnswer(step) && f.looper.caller in f.frames
    requires Abs(FineApply(f, step)) == Abs(f)
    ensures Proceeds(f, FineApply(f, step))
  {
    hide Proceeds, Abs, DoDropNode, DoWriteResult, DoLockToOpen, DoOpenBarrier, DoUnlockBarrier;
    if step.DropNode? { DropProceeds(f); }
    else if step.WriteResult? { WriteProceeds(f); }
    else if step.LockToOpen? { LockProceeds(f); }
    else if step.OpenBarrier? { OpenProceeds(f); }
    else { UnlockProceeds(f); }
  }

  // ---------- Steps that complete a coarse step ----------

  lemma DispatchKeepsHandles(s: State, r: Response)
    requires Inv(s) && Enabled(s, DoDispatch(r))
    ensures s.queue[0].key in s.table
    ensures !s.table[s.queue[0].key].OpenHandle? ==>
              && SameHandles(s.table, Dispatch(s, r).table) && Dispatch(s, r).log.results == s.log.results
              && Dispatch(s, r).log.history == s.log.history
  {
    DispatchTakes(s, r);
    NewKeyNotPending(s);
    var k, ev := s.queue[0].key, s.table[s.queue[0].key];
    hide Inv, Dispatch, SameHandles;
    if ev.OpenTimed? && r.node.Some? {
      SwapPlain(s.table, k, s.nextKey, CloseTimed(r.node.value));
    } else if !ev.OpenHandle? {
      RemovePlain(s.table, k);
    }
  }

  lemma RemovePlain(table: map<nat, Event>, k: nat)
    requires k in table && !table[k].OpenHandle?
    ensures SameHandles(table, table - {k})
  {
  }

  lemma SwapPlain(table: map<nat, Event>, k: nat, n: nat, ev: Event)
    requires k in table && !table[k].OpenHandle? && n !in table && !ev.OpenHandle?
    ensures SameHandles(table, (table - {k})[n := ev])
  {
  }

  lemma NewKeyNotPending(s: State)
    requires Agrees(s)
    ensures s.nextKey !in s.table
  {
  }

  lemma OpenFails(f: Fine)
    requires Shape(f) && FineEnabled(f, OpenNode(None))
    ensures Enabled(Abs(f), DoDispatch(Response(None, None, true)))
    ensures Abs(DoOpenNode(f, None)) == Dispatch(Abs(f), Response(None, None, true)) && Shape(DoOpenNode(f, None))
  {
    hide Shape, Dispatch, DoOpenNode, Abs;
    if f.looper.ev.OpenTimed? { TimedOpenFailsSimulates(f); } else { HandleOpenFailsSimulates(f); }
  }

  lemma HandInTable(f: Fine)
    requires HasEvent(f.looper)
    ensures f.looper.m.key in Abs(f).table && Abs(f).table[f.looper.m.key] == f.looper.ev
    ensures Abs(f).queue != [] && Abs(f).queue[0] == f.looper.m
  {
  }

  /** Going from `f` to `f'` is one dispatch of the engine. */
  ghost predicate Dispatches(f: Fine, f': Fine, r: Response) {
    Enabled(Abs(f), DoDispatch(r)) && Abs(f') == Dispatch(Abs(f), r)
  }

  /** Running a timed open or a closing event concerns no frame. */
  lemma TimedEventKeepsMet(f: Fine, f': Fine, r: Response)
    requires FineInv(f) && HasEvent(f.looper) && !f.looper.ev.OpenHandle?
    requires Dispatches(f, f', r)
    requires f'.clients == f.clients && f'.frames == f.frames && f'.returned == f.returned
             && f'.corrupted == f.corrupted
    requires SameStatuses(f, f') && !Answering(f'.looper)
    ensures Met(f')
  {
    HandInTable(f);
    DispatchKeepsHandles(Abs(f), r);
    assert f'.mem.log == Abs(f').log;
    assert Unrelated(f, f');
    UnrelatedKeeps(f, f');
  }

  lemma HandleEventAnswers(f: Fine, f': Fine, r: Response, v: int)
    requires FineInv(f) && HasEvent(f.looper) && f.looper.ev.OpenHandle?
    requires Dispatches(f, f', r)
    requires v == (if r.node.None? || r.pipe.None? then -1 else r.pipe.value.0)
    requires f'.clients == f.clients && f'.sending == f.sending && f'.frames == f.frames
    requires f'.returned == f.returned && f'.corrupted == f.corrupted
    requires f'.looper == Writing(f.looper.ev.caller, f.looper.m.key, v)
          || (v == -1 && f'.looper.Dropping? && f'.looper.caller == f.looper.ev.caller
              && f'.looper.key == f.looper.m.key)
    ensures Met(f')
  {
    HandInTable(f);
    DispatchEffect(Abs(f), r);
    assert f'.mem.log == Abs(f').log;
    AnswersKeeps(f, f', f.looper.m, f.looper.ev, v);
  }

  /** The four places where an event other than a successful timed open takes effect. */
  lemma OpenFailsKeepsMet(f: Fine, f': Fine)
    requires FineEnabled(f, OpenNode(None)) && f' == DoOpenNode(f, None)
    requires FineInv(f) && Dispatches(f, f', Response(None, None, true))
    ensures Met(f')
  {
    hide Met, Core, Dispatches, Abs;
    OpenFailsEffect(f, f');
    hide DoOpenNode;
    var r := Response(None, None, true);
    if f.looper.ev.OpenHandle? { HandleEventAnswers(f, f', r, -1); } else { TimedEventKeepsMet(f, f', r); }
  }

  lemma OpenFailsEffect(f: Fine, f': Fine)
    requires FineEnabled(f, OpenNode(None)) && f' == DoOpenNode(f, None)
    ensures f'.clients == f.clients && f'.sending == f.sending && f'.frames == f.frames
    ensures f'.returned == f.returned && f'.corrupted == f.corrupted
    ensures f'.looper == if f.looper.ev.OpenHandle? then Writing(f.looper.ev.caller, f.looper.m.key, -1) else Polling
  {
  }

  lemma CloseNodeKeepsMet(f: Fine)
    requires FineInv(f) && FineEnabled(f, CloseNode) && Dispatches(f, DoCloseNode(f), Response(None, None, true))
    ensures Met(DoCloseNode(f))
  {
    hide Met, Core, Dispatches, Abs;
    TimedEventKeepsMet(f, DoCloseNode(f), Response(None, None, true));
  }

  lemma PipeFailsKeepsMet(f: Fine)
    requires FineInv(f) && FineEnabled(f, MakePipe(None))
    requires Dispatches(f, DoMakePipe(f, None), Response(Some(f.looper.fd), None, true))
    ensures Met(DoMakePipe(f, None))
  {
    hide Met, Core, Dispatches, Abs;
    HandleEventAnswers(f, DoMakePipe(f, None), Response(Some(f.looper.fd), None, true), -1);
  }

  lemma WatchKeepsMet(f: Fine, accepted: bool)
    requires FineInv(f) && FineEnabled(f, Watch(accepted))
    requires Dispatches(f, DoWatch(f, accepted),
                        Response(Some(f.looper.fd), Some((f.looper.client, f.looper.server)), accepted))
    ensures Met(DoWatch(f, accepted))
  {
    hide Met, Core, Dispatches, Abs;
    var r := Response(Some(f.looper.fd), Some((f.looper.client, f.looper.server)), accepted);
    HandleEventAnswers(f, DoWatch(f, accepted), r, f.looper.client);
  }

  lemma ArmKeepsMet(f: Fine)
    requires FineInv(f) && FineEnabled(f, Post(Looper)) && f.looper.Arming?
    requires Dispatches(f, DoPost(f, Looper), Response(Some(f.looper.fd), None, true))
    ensures Met(DoPost(f, Looper))
  {
    hide Met, Dispatches, Abs, Inv;
    assert SameStatuses(f, DoPost(f, Looper));
    TimedEventKeepsMet(f, DoPost(f, Looper), Response(Some(f.looper.fd), None, true));
  }

  lemma PlainEntry(table: map<nat, Event>, k: nat, ev: Event)
    requires k !in table && !ev.OpenHandle?
    ensures SameHandles(table, table[k := ev])
  {
  }

  /** What posting a timed request leaves as it was. */
  lemma PlainPostEffect(f: Fine, i: nat)
    requires Shape(f) && FineEnabled(f, Post(Client(i))) && !f.sending[Client(i)].ev.OpenHandle?
    requires f.sending[Client(i)].key !in f.mem.log.history
    ensures var f' := DoPost(f, Client(i));
            && SameStatuses(f, f') && f'.looper == f.looper && f'.mem.log.results == f.mem.log.results
            && (forall k :: k in f.mem.log.history ==>
                  k in f'.mem.log.history && f'.mem.log.history[k] == f.mem.log.history[k])
            && f'.frames == f.frames && f'.returned == f.returned && f'.corrupted == f.corrupted
  {
  }

  lemma PlainPostKeepsMet(f: Fine, i: nat)
    requires FineInv(f) && FineEnabled(f, Post(Client(i)))
    requires Abs(DoPost(f, Client(i))) == Push(Abs(f), f.sending[Client(i)].ev) && f.sending[Client(i)].ev.OpenTimed?
    requires f.sending[Client(i)].key == Abs(f).nextKey
    ensures Met(DoPost(f, Client(i)))
  {
    var f' := DoPost(f, Client(i));
    NextKeyUnused(Abs(f));
    PlainEntry(Abs(f).table, Abs(f).nextKey, f.sending[Client(i)].ev);
    LogBehind(f);
    hide Met, Inv, Shape, SameHandles, SameStatuses, DoPost, Abs;
    PlainPostEffect(f, i);
    UnrelatedKeeps(f, f');
  }

  lemma LogBehind(f: Fine)
    ensures Abs(f).log == f.mem.log
  {
  }

  lemma ClientPostKeepsMet(f: Fine, i: nat)
    requires FineInv(f) && FineEnabled(f, Post(Client(i)))
    requires Abs(DoPost(f, Client(i))) == Push(Abs(f), f.sending[Client(i)].ev) && !f.sending[Client(i)].ev.CloseTimed?
    ensures Met(DoPost(f, Client(i)))
  {
    hide Met, Inv, Abs, DoPost, Push;
    if f.sending[Client(i)].ev.OpenHandle? {
      PostKeeps(f, i);
    } else {
      PostUsesNextKey(f, i);
      PlainPostKeepsMet(f, i);
    }
  }

  lemma PostUsesNextKey(f: Fine, j: nat)
    requires Shape(f) && Client(j) in f.sending && f.sending[Client(j)].Added?
    ensures f.sending[Client(j)].key == Abs(f).nextKey
  {
  }

  lemma QuietKeepsMet(f: Fine, f': Fine)
    requires Met(f) && Abs(f').table == Abs(f).table && f'.mem.log == f.mem.log
    requires f'.clients == f.clients && f'.sending == f.sending && f'.frames == f.frames
    requires f'.returned == f.returned && f'.corrupted == f.corrupted && Phase(f'.looper) == Phase(f.looper)
    ensures Met(f')
  {
    UnrelatedKeeps(f, f');
  }

  lemma PipedNotReturned(f: Fine)
    requires FineInv(f) && f.looper.Piped?
    ensures f.looper.m.key !in f.returned
  {
    HandInTable(f);
  }

  // ---------- No lost wake-up ----------

  lemma StaysAwake(f: Fine, f': Fine)
    requires Awake(f) && f'.clients == f.clients && f'.frames == f.frames
    ensures Awake(f')
  {
  }

  lemma RequestStaysAwake(f: Fine, i: nat, ev: Event)
    requires Awake(f) && i !in f.clients
    ensures Awake(DoRequest(f, i, ev))
  {
  }

  lemma ReleaseStaysAwake(f: Fine, t: Thread)
    requires Awake(f) && IsSending(f, t) && f.sending[t].Posted?
    ensures Awake(DoRelease(f, t))
  {
  }

  lemma WaiterStaysAwake(f: Fine, step: FineStep)
    requires Awake(f) && FineEnabled(f, step) && IsWait(step)
    ensures Awake(FineApply(f, step))
  {
    match step
    case LockBarrier(i) => LockStaysAwake(f, i);
    case CheckBarrier(i) => CheckStaysAwake(f, i);
    case WakeUp(i) => WakeUpStaysAwake(f, i);
  }

  lemma LockStaysAwake(f: Fine, i: nat)
    requires Awake(f) && i in f.clients && f.clients[i].Waits? && i in f.frames
    ensures Awake(DoLockBarrier(f, i))
  {
  }

  lemma CheckStaysAwake(f: Fine, i: nat)
    requires Awake(f) && i in f.clients && f.clients[i].Checks? && i in f.frames
    ensures Awake(DoCheckBarrier(f, i))
  {
  }

  lemma WakeUpStaysAwake(f: Fine, i: nat)
    requires Awake(f) && i in f.clients && f.clients[i].Sleeps?
    ensures Awake(DoWakeUp(f, i))
  {
  }

  /** Opening a barrier wakes the client that sleeps on it. */
  lemma OpenStaysAwake(f: Fine)
    requires Awake(f) && f.looper.Signals?
    ensures Awake(DoOpenBarrier(f))
  {
  }

  lemma TouchStaysAwake(f: Fine, f': Fine)
    requires Awake(f) && f'.clients == f.clients && f.frames.Keys <= f'.frames.Keys
    requires forall i :: i in f.frames ==> f'.frames[i].open == f.frames[i].open
    ensures Awake(f')
  {
  }

  lemma WriteStaysAwake(f: Fine)
    requires Awake(f) && f.looper.Writing?
    ensures Awake(DoWriteResult(f))
  {
    hide Awake;
    TouchStaysAwake(f, DoWriteResult(f));
  }

  lemma LockToOpenStaysAwake(f: Fine)
    requires Awake(f) && f.looper.Written?
    ensures Awake(DoLockToOpen(f))
  {
    hide Awake;
    TouchStaysAwake(f, DoLockToOpen(f));
  }

  lemma UnlockStaysAwake(f: Fine)
    requires Awake(f) && f.looper.Signalled?
    ensures Awake(DoUnlockBarrier(f))
  {
    hide Awake;
    TouchStaysAwake(f, DoUnlockBarrier(f));
  }

  lemma AnswerStaysAwake(f: Fine, step: FineStep)
    requires Awake(f) && FineEnabled(f, step) && IsAnswer(step)
    ensures Awake(FineApply(f, step))
  {
    hide Awake, DoWriteResult, DoLockToOpen, DoOpenBarrier, DoUnlockBarrier;
    match step
    case DropNode => StaysAwake(f, DoDropNode(f));
    case WriteResult => WriteStaysAwake(f);
    case LockToOpen => LockToOpenStaysAwake(f);
    case OpenBarrier => OpenStaysAwake(f);
    case UnlockBarrier => UnlockStaysAwake(f);
  }

  lemma StepStaysAwake(f: Fine, step: FineStep)
    requires Awake(f) && FineEnabled(f, step)
    ensures Awake(FineApply(f, step))
  {
    hide Awake, DoOpenBarrier, DoCheckBarrier, DoLockBarrier, DoWakeUp;
    if step.Request? {
      RequestStaysAwake(f, step.i, step.ev);
    } else if step.Release? {
      ReleaseStaysAwake(f, step.t);
    } else if IsWait(step) {
      WaiterStaysAwake(f, step);
    } else if IsAnswer(step) {
      AnswerStaysAwake(f, step);
    } else {
      OtherStepsTouchNoFrame(f, step);
      StaysAwake(f, FineApply(f, step));
    }
  }

  lemma SendersTouchNoFrame(f: Fine, step: FineStep)
    requires FineEnabled(f, step) && (step.Acquire? || step.NewKey? || step.AddEntry? || step.Post?)
    ensures FineApply(f, step).clients == f.clients && FineApply(f, step).frames == f.frames
  {
  }

  lemma FetchTouchesNoFrame(f: Fine, step: FineStep)
    requires FineEnabled(f, step) && IsFetch(step) && !IsGain(step)
    ensures FineApply(f, step).clients == f.clients && FineApply(f, step).frames == f.frames
  {
    hide DoAcquire, DoNewKey, DoAddEntry, DoPost, DoRelease, DoLockBarrier, DoCheckBarrier, DoOpenNode, DoMakePipe,
         DoCloseNode, DoWatch, DoDropNode, DoWriteResult, DoLockToOpen, DoOpenBarrier, DoUnlockBarrier;
  }

  ghost predicate TouchesNoFrame(f: Fine, f': Fine) {
    f'.clients == f.clients && f'.frames == f.frames
  }

  lemma OpenNodeTouchesNoFrame(f: Fine, node: Option<nat>)
    requires f.looper.Running? && !f.looper.ev.CloseTimed?
    ensures TouchesNoFrame(f, DoOpenNode(f, node))
  {
  }

  lemma CloseNodeTouchesNoFrame(f: Fine)
    requires f.looper.Running? && f.looper.ev.CloseTimed?
    ensures TouchesNoFrame(f, DoCloseNode(f))
  {
  }

  lemma MakePipeTouchesNoFrame(f: Fine, pipe: Option<(nat, nat)>)
    requires f.looper.Node? && f.looper.ev.OpenHandle?
    ensures TouchesNoFrame(f, DoMakePipe(f, pipe))
  {
  }

  lemma WatchTouchesNoFrame(f: Fine, accepted: bool)
    requires f.looper.Piped? && f.looper.ev.OpenHandle?
    ensures TouchesNoFrame(f, DoWatch(f, accepted))
  {
  }

  lemma EventsTouchNoFrame(f: Fine, step: FineStep)
    requires FineEnabled(f, step) && (step.OpenNode? || step.CloseNode? || step.MakePipe? || step.Watch?)
    ensures TouchesNoFrame(f, FineApply(f, step))
  {
    hide DoOpenNode, DoCloseNode, DoMakePipe, DoWatch, TouchesNoFrame;
    match step
    case OpenNode(node) => OpenNodeTouchesNoFrame(f, node);
    case CloseNode => CloseNodeTouchesNoFrame(f);
    case MakePipe(pipe) => MakePipeTouchesNoFrame(f, pipe);
    case Watch(accepted) => WatchTouchesNoFrame(f, accepted);
  }

  lemma OtherStepsTouchNoFrame(f: Fine, step: FineStep)
    requires FineEnabled(f, step) && !step.Request? && !step.Release? && !IsWait(step) && !IsAnswer(step)
    ensures FineApply(f, step).clients == f.clients && FineApply(f, step).frames == f.frames
  {
    hide FineEnabled, DoAcquire, DoNewKey, DoAddEntry, DoPost, DoTake, DoLockTable, DoRemoveEntry, DoUnlockTable,
         DoOpenNode, DoCloseNode, DoMakePipe, DoWatch, DoCloseServer, DoCloseConstraint;
    if step.Acquire? || step.NewKey? || step.AddEntry? || step.Post? {
      SendersTouchNoFrame(f, step);
    } else if step.OpenNode? || step.CloseNode? || step.MakePipe? || step.Watch? {
      EventsTouchNoFrame(f, step);
    } else if IsFetch(step) {
      FetchTouchesNoFrame(f, step);
    }
  }

  // ---------- All steps ----------

  ghost predicate Stutters(step: FineStep) {
    step.Request? || IsSend(step) || IsWait(step) || IsFetch(step) || IsAnswer(step)
  }

  ghost predicate Stands(f: Fine, f': Fine) {
    Abs(f') == Abs(f) && Shape(f') && Met(f')
  }

  lemma TimedRequestUnrelated(f: Fine, i: nat, ev: Event)
    requires Shape(f) && FineEnabled(f, Request(i, ev)) && ev.OpenTimed? && Abs(DoRequest(f, i, ev)) == Abs(f)
    ensures Unrelated(f, DoRequest(f, i, ev))
  {
  }

  lemma RequestStands(f: Fine, i: nat, ev: Event)
    requires FineInv(f) && FineEnabled(f, Request(i, ev))
    ensures Stands(f, DoRequest(f, i, ev))
  {
    hide Met, Inv, Shape, Unrelated, Abs, DoRequest;
    RequestSimulates(f, i, ev);
    if ev.OpenHandle? {
      RequestKeeps(f, i, ev);
    } else {
      TimedRequestUnrelated(f, i, ev);
      UnrelatedKeeps(f, DoRequest(f, i, ev));
    }
  }

  lemma SendStands(f: Fine, step: FineStep)
    requires FineInv(f) && FineEnabled(f, step) && IsSend(step)
    ensures Stands(f, FineApply(f, step))
  {
    hide Met, Inv, Shape, Unrelated, Abs, FineApply, FineEnabled;
    SenderStutters(f, step);
    SenderUnrelated(f, step);
    UnrelatedKeeps(f, FineApply(f, step));
  }

  lemma WaitStands(f: Fine, step: FineStep)
    requires FineInv(f) && FineEnabled(f, step) && IsWait(step)
    ensures Stands(f, FineApply(f, step))
  {
    hide Met, Inv, Shape, Unrelated, Abs, FineApply, FineEnabled;
    WaiterStutters(f, step);
    WaiterKeepsMet(f, step);
  }

  lemma FetchStands(f: Fine, step: FineStep)
    requires FineInv(f) && FineEnabled(f, step) && IsFetch(step)
    ensures Stands(f, FineApply(f, step))
  {
    hide Met, Shape, Unrelated, Abs, FineApply, FineEnabled, IsFetch, Agrees;
    FetchStutters(f, step);
    if IsGain(step) { GainEffect(f, step); } else { FetchEffect(f, step); }
    KeepsClientsUnrelated(f, FineApply(f, step));
    UnrelatedKeeps(f, FineApply(f, step));
  }

  lemma AnswerStands(f: Fine, step: FineStep)
    requires FineInv(f) && FineEnabled(f, step) && IsAnswer(step)
    ensures Stands(f, FineApply(f, step))
  {
    hide Met, Inv, Shape, Proceeds, Abs, FineApply;
    AnswerStutters(f, step);
    FrameIsLive(f);
    AnswerProceeds(f, step);
    ProceedsKeeps(f, FineApply(f, step));
  }

  lemma StutterKeeps(f: Fine, step: FineStep)
    requires FineInv(f) && FineEnabled(f, step) && Stutters(step)
    ensures Abs(FineApply(f, step)) == Abs(f) && FineInv(FineApply(f, step)) && CoarseStep(f, step) == None
  {
    hide Met, Inv, Shape, Abs, FineEnabled, Awake, FineApply;
    StepStaysAwake(f, step);
    StutterStands(f, step);
    StutterIsNoStep(f, step);
  }

  lemma StutterStands(f: Fine, step: FineStep)
    requires FineInv(f) && FineEnabled(f, step) && Stutters(step)
    ensures Stands(f, FineApply(f, step))
  {
    hide FineInv, Stands, FineEnabled, IsSend, IsWait, IsFetch, IsAnswer;
    if step.Request? { RequestStands(f, step.i, step.ev); }
    else if IsSend(step) { SendStands(f, step); }
    else if IsWait(step) { WaitStands(f, step); }
    else if IsFetch(step) { FetchStands(f, step); }
    else { AnswerStands(f, step); }
  }

  lemma StutterIsNoStep(f: Fine, step: FineStep)
    requires FineEnabled(f, step) && Stutters(step)
    ensures CoarseStep(f, step) == None
  {
    hide FineEnabled;
  }

  ghost predicate Commits(f: Fine, step: FineStep)
    requires FineEnabled(f, step)
  {
    CoarseStep(f, step).Some? && Simulates(f, step, FineApply(f, step)) && Met(FineApply(f, step))
  }

  lemma PostCommits(f: Fine, t: Thread)
    requires FineInv(f) && FineEnabled(f, Post(t))
    ensures Commits(f, Post(t))
  {
    hide Met, Agrees, RequestsTracked, OutcomesTracked, TimedOwned, TimedDue, HandlesOwned, Shape, Abs, Dispatch,
         DoPost;
    match t
    case Client(i) => PostOfClientSimulates(f, i); ClientPostKeepsMet(f, i);
    case Looper => PostOfLooperSimulates(f); ArmKeepsMet(f);
  }

  lemma EventCommits(f: Fine, step: FineStep)
    requires FineInv(f) && FineEnabled(f, step)
    requires step == OpenNode(None) || step == MakePipe(None) || step.CloseNode? || step.Watch?
    ensures Commits(f, step)
  {
    hide Met, Inv, Shape, Abs, Dispatch, DoOpenNode, DoCloseNode, DoMakePipe, DoWatch, Enabled;
    match step
    case OpenNode(_) => OpenFails(f); OpenFailsKeepsMet(f, DoOpenNode(f, None));
    case CloseNode => CloseNodeSimulates(f); CloseNodeKeepsMet(f);
    case MakePipe(_) => PipeFailsSimulates(f); PipeFailsKeepsMet(f);
    case Watch(accepted) => WatchSimulates(f, accepted); WatchKeepsMet(f, accepted);
  }

  lemma UnhookCommits(f: Fine, server: nat)
    requires FineInv(f) && FineEnabled(f, Unhook(server))
    ensures Commits(f, Unhook(server))
  {
    UnhookSimulates(f, server);
    UnhookKeepsMet(f, server);
  }

  lemma UnhookKeepsMet(f: Fine, server: nat)
    requires Met(f) && FineEnabled(f, Unhook(server))
    ensures Met(DoUnhook(f, server))
  {
    hide Met;
    QuietKeepsMet(f, DoUnhook(f, server));
  }

  lemma EnvironmentCommits(f: Fine, e: Step)
    requires FineInv(f) && FineEnabled(f, Environment(e))
    ensures Commits(f, Environment(e))
  {
    hide Met, Shape, Inv, Apply, Enabled;
    if f.looper.Piped? { PipedNotReturned(f); }
    EnvironmentSimulates(f, e);
    EnvironmentKeepsMet(f, e);
  }

  lemma EnvironmentKeepsMet(f: Fine, e: Step)
    requires Met(f) && FineEnabled(f, Environment(e))
    ensures Met(DoEnvironment(f, e))
  {
    hide Met;
    QuietKeepsMet(f, DoEnvironment(f, e));
  }

  lemma CommitKeeps(f: Fine, step: FineStep)
    requires FineInv(f) && FineEnabled(f, step) && !Stutters(step)
    ensures Commits(f, step)
  {
    hide FineInv, Commits, FineEnabled;
    match step
    case Post(t) => PostCommits(f, t);
    case Unhook(server) => UnhookCommits(f, server);
    case Environment(e) => EnvironmentCommits(f, e);
    case _ => EventCommits(f, step);
  }

  /** Every fine step is one coarse step or none, and keeps the invariant. */
  lemma FineStepKeeps(f: Fine, step: FineStep)
    requires FineInv(f) && FineEnabled(f, step)
    ensures Simulates(f, step, FineApply(f, step)) && FineInv(FineApply(f, step))
  {
    hide Met, Shape, Inv, Awake, FineApply, Apply, Enabled, FineEnabled, Stutters;
    if Stutters(step) {
      StutterKeeps(f, step);
    } else {
      CommitKeeps(f, step);
      StepStaysAwake(f, step);
      StepKeeps(Abs(f), CoarseStep(f, step).value);
    }
  }
}
