/** createPmQosHandle at the grain of single steps: the caller's frame stays alive while anything
    refers to it, and the caller returns what its own event produced. */
module Rendezvous {
  import opened Wrappers
  import opened PokerEngine
  import opened EngineInvariant
  import opened Interleaving
  import opened InterleavingRefines

  /** Where a client is with respect to its frame. */
  datatype Status = Outside | Calling | Awaiting(key: nat, checking: bool)

  ghost function StatusOf(clients: map<nat, ClientPc>, sending: map<Thread, Sending>, i: nat): Status {
    if i !in clients then Outside
    else match clients[i]
      case Waits(k) => Awaiting(k, false)
      case Sleeps(k) => Awaiting(k, false)
      case Checks(k) => Awaiting(k, true)
      case Sends =>
        if Client(i) !in sending || !sending[Client(i)].ev.OpenHandle? then Outside
        else if sending[Client(i)].Posted? then Awaiting(sending[Client(i)].key, false)
        else Calling
  }

  ghost predicate Awaits(status: Status, k: nat) {
    status.Awaiting? && status.key == k
  }

  /** The looper is past the point of no return for (caller, key) but not done with the frame. */
  ghost predicate Answering(l: LooperPc) {
    l.Dropping? || l.Writing? || l.Written? || l.Signals? || l.Signalled?
  }

  /** The part of the looper's position that matters to waiting callers. */
  ghost function Phase(l: LooperPc): LooperPc {
    if Answering(l) then l else Polling
  }

  /** Every event that points at a frame points at the frame of the client that awaits it. */
  ghost predicate ReferencesOk(table: map<nat, Event>, clients: map<nat, ClientPc>, sending: map<Thread, Sending>) {
    forall k :: k in table && table[k].OpenHandle? ==> Awaits(StatusOf(clients, sending, table[k].caller), k)
  }

  ghost predicate Pending(table: map<nat, Event>, k: nat) {
    k in table && table[k].OpenHandle?
  }

  ghost predicate AnswerOk(l: LooperPc, table: map<nat, Event>, log: Log, status: Status) {
    Answering(l) ==>
      && Awaits(status, l.key) && l.key in log.results && !Pending(table, l.key)
      && (l.Writing? ==> l.value == log.results[l.key])
      && (l.Dropping? ==> log.results[l.key] == -1)
  }

  ghost predicate HolderIs(fr: Frame, i: nat, checking: bool) {
    fr.holder == if checking then Some(Client(i)) else None
  }

  /** What a frame contains, from the call until the return. */
  ghost predicate FrameOk(fr: Frame, i: nat, status: Status, l: LooperPc, table: map<nat, Event>, log: Log) {
    match status
    case Outside => false
    case Calling => fr == Frame(None, false, None)
    case Awaiting(k, checking) =>
      && k in log.history && log.history[k].event.OpenHandle? && log.history[k].event.caller == i
      && if Pending(table, k) then !fr.open && HolderIs(fr, i, checking)
         else
           && k in log.results
           && if Answering(l) && l.key == k then
                && (l.Dropping? || l.Writing? ==> !fr.open && HolderIs(fr, i, checking))
                && (l.Written? ==> !fr.open && fr.ret == Some(log.results[k]) && HolderIs(fr, i, checking))
                && (l.Signals? ==> fr == Frame(Some(log.results[k]), false, Some(Looper)) && !checking)
                && (l.Signalled? ==> fr == Frame(Some(log.results[k]), true, Some(Looper)) && !checking)
              else fr.open && fr.ret == Some(log.results[k]) && HolderIs(fr, i, checking)
  }

  ghost predicate FramesOk(f: Fine, table: map<nat, Event>) {
    && (forall i :: i in f.frames ==>
          FrameOk(f.frames[i], i, StatusOf(f.clients, f.sending, i), f.looper, table, f.mem.log))
    && (forall i :: StatusOf(f.clients, f.sending, i) != Outside ==> i in f.frames)
  }

  ghost predicate ReturnsOk(f: Fine) {
    && !f.corrupted
    && (forall k :: k in f.returned ==> k in f.mem.log.results && f.returned[k] == f.mem.log.results[k])
  }

  ghost function LooperStatus(f: Fine): Status {
    if Answering(f.looper) then StatusOf(f.clients, f.sending, f.looper.caller) else Outside
  }

  ghost predicate Met(f: Fine) {
    && ReferencesOk(Abs(f).table, f.clients, f.sending)
    && AnswerOk(f.looper, Abs(f).table, f.mem.log, LooperStatus(f))
    && FramesOk(f, Abs(f).table)
    && ReturnsOk(f)
  }

  // ---------- Steps that do not concern any frame ----------

  ghost predicate SameHandles(table: map<nat, Event>, table': map<nat, Event>) {
    && (forall k :: k in table && table[k].OpenHandle? ==> k in table' && table'[k] == table[k])
    && (forall k :: k in table' && table'[k].OpenHandle? ==> k in table && table[k] == table'[k])
  }

  ghost predicate SameStatuses(f: Fine, f': Fine) {
    forall i :: StatusOf(f'.clients, f'.sending, i) == StatusOf(f.clients, f.sending, i)
  }

  /** Keys that some client awaits, or that were answered, mean the same before and after. */
  ghost predicate Unrelated(f: Fine, f': Fine) {
    && SameHandles(Abs(f).table, Abs(f').table)
    && SameStatuses(f, f')
    && Phase(f'.looper) == Phase(f.looper)
    && f'.mem.log.results == f.mem.log.results
    && (forall k :: k in f.mem.log.history ==>
          k in f'.mem.log.history && f'.mem.log.history[k] == f.mem.log.history[k])
    && f'.frames == f.frames && f'.returned == f.returned && f'.corrupted == f.corrupted
  }

  lemma UnrelatedKeeps(f: Fine, f': Fine)
    requires Met(f) && Unrelated(f, f')
    ensures Met(f')
  {
    forall i | i in f'.frames
      ensures FrameOk(f'.frames[i], i, StatusOf(f'.clients, f'.sending, i), f'.looper, Abs(f').table, f'.mem.log)
    {
      assert FrameOk(f.frames[i], i, StatusOf(f.clients, f.sending, i), f.looper, Abs(f).table, f.mem.log);
    }
  }

  // ---------- The caller's steps ----------

  /** Only client `i` and its frame change. */
  ghost predicate OnlyClient(f: Fine, f': Fine, i: nat) {
    && (forall j :: j != i ==> StatusOf(f'.clients, f'.sending, j) == StatusOf(f.clients, f.sending, j))
    && (forall j :: j != i ==> (j in f'.frames <==> j in f.frames))
    && (forall j :: j != i && j in f.frames ==> f'.frames[j] == f.frames[j])
    && f'.looper == f.looper && f'.corrupted == f.corrupted
  }

  lemma RequestKeeps(f: Fine, i: nat, ev: Event)
    requires Met(f) && Shape(f) && i !in f.clients && ev.OpenHandle? && ev.caller == i
    ensures Met(DoRequest(f, i, ev))
  {
    var f' := DoRequest(f, i, ev);
    assert OnlyClient(f, f', i);
    RequestSimulates(f, i, ev);
    forall j | j in f'.frames
      ensures FrameOk(f'.frames[j], j, StatusOf(f'.clients, f'.sending, j), f'.looper, Abs(f').table, f'.mem.log)
    {
      if j != i {
        assert FrameOk(f.frames[j], j, StatusOf(f.clients, f.sending, j), f.looper, Abs(f).table, f.mem.log);
      }
    }
  }

  lemma PostEffect(f: Fine, i: nat)
    requires Shape(f) && Agrees(Abs(f))
    requires Client(i) in f.sending && f.sending[Client(i)].Added? && f.sending[Client(i)].ev.OpenHandle?
    ensures var (f', s) := (DoPost(f, Client(i)), f.sending[Client(i)]);
            && OnlyClient(f, f', i) && f'.frames == f.frames && f'.returned == f.returned
            && StatusOf(f.clients, f.sending, i) == Calling
            && StatusOf(f'.clients, f'.sending, i) == Awaiting(s.key, false)
            && s.ev.caller == i && s.key == Abs(f).nextKey && Abs(f').table == Abs(f).table[s.key := s.ev]
            && f'.mem.log == f.mem.log.(history := f.mem.log.history[s.key := Pushed(s.ev, f.mem.now)])
  {
    PostOfClientSimulates(f, i);
  }

  lemma NewReferenceKeeps(f: Fine, f': Fine, i: nat, k: nat, p: Pushed)
    requires Met(f) && k !in Abs(f).table && k !in f.mem.log.history && k !in f.mem.log.results
    requires OnlyClient(f, f', i) && f'.frames == f.frames && f'.returned == f.returned
    requires StatusOf(f.clients, f.sending, i) == Calling && StatusOf(f'.clients, f'.sending, i) == Awaiting(k, false)
    requires p.event.OpenHandle? && p.event.caller == i
    requires Abs(f').table == Abs(f).table[k := p.event]
    requires f'.mem.log == f.mem.log.(history := f.mem.log.history[k := p])
    ensures Met(f')
  {
    NewReferenceInOrder(f, f', i, k, p);
    NewReferenceFrames(f, f', i, k, p);
    hide FrameOk, ReferencesOk, StatusOf, Abs;
    assert FramesOk(f', Abs(f').table);
  }

  lemma NewReferenceInOrder(f: Fine, f': Fine, i: nat, k: nat, p: Pushed)
    requires ReferencesOk(Abs(f).table, f.clients, f.sending) && k !in Abs(f).table && k !in f.mem.log.results
    requires AnswerOk(f.looper, Abs(f).table, f.mem.log, LooperStatus(f)) && OnlyClient(f, f', i)
    requires StatusOf(f.clients, f.sending, i) == Calling && StatusOf(f'.clients, f'.sending, i) == Awaiting(k, false)
    requires p.event.OpenHandle? && p.event.caller == i && Abs(f').table == Abs(f).table[k := p.event]
    requires f'.mem.log == f.mem.log.(history := f.mem.log.history[k := p])
    ensures ReferencesOk(Abs(f').table, f'.clients, f'.sending)
    ensures AnswerOk(f'.looper, Abs(f').table, f'.mem.log, LooperStatus(f'))
  {
    hide Abs, StatusOf;
  }

  lemma NewReferenceFrames(f: Fine, f': Fine, i: nat, k: nat, p: Pushed)
    requires FramesOk(f, Abs(f).table) && k !in Abs(f).table && k !in f.mem.log.history && OnlyClient(f, f', i)
    requires f'.frames == f.frames && p.event.OpenHandle? && p.event.caller == i
    requires StatusOf(f.clients, f.sending, i) == Calling && StatusOf(f'.clients, f'.sending, i) == Awaiting(k, false)
    requires Abs(f').table == Abs(f).table[k := p.event]
    requires f'.mem.log == f.mem.log.(history := f.mem.log.history[k := p])
    ensures forall j :: j in f'.frames ==>
              FrameOk(f'.frames[j], j, StatusOf(f'.clients, f'.sending, j), f'.looper, Abs(f').table, f'.mem.log)
    ensures forall j :: StatusOf(f'.clients, f'.sending, j) != Outside ==> j in f'.frames
  {
    hide Abs, StatusOf;
    forall j | j in f'.frames
      ensures FrameOk(f'.frames[j], j, StatusOf(f'.clients, f'.sending, j), f'.looper, Abs(f').table, f'.mem.log)
    {
      assert FrameOk(f.frames[j], j, StatusOf(f.clients, f.sending, j), f.looper, Abs(f).table, f.mem.log);
    }
  }

  lemma NextKeyUnused(s: State)
    requires Agrees(s) && RequestsTracked(s) && OutcomesTracked(s)
    ensures s.nextKey !in s.table && s.nextKey !in s.log.history && s.nextKey !in s.log.results
  {
  }

  lemma PostKeeps(f: Fine, i: nat)
    requires Met(f) && Shape(f) && Inv(Abs(f))
    requires Client(i) in f.sending && f.sending[Client(i)].Added? && f.sending[Client(i)].ev.OpenHandle?
    ensures Met(DoPost(f, Client(i)))
  {
    PostEffect(f, i);
    NextKeyUnused(Abs(f));
    var s := f.sending[Client(i)];
    NewReferenceKeeps(f, DoPost(f, Client(i)), i, s.key, Pushed(s.ev, f.mem.now));
  }

  /** A step of client `i` in Barrier::wait, after which its frame and its references are in order. */
  ghost predicate WaitStep(f: Fine, f': Fine, i: nat) {
    && OnlyClient(f, f', i) && Abs(f').table == Abs(f).table && f'.mem.log == f.mem.log
    && var (old_, new_) := (StatusOf(f.clients, f.sending, i), StatusOf(f'.clients, f'.sending, i));
       && (new_ == Outside || (old_.Awaiting? && new_.Awaiting? && new_.key == old_.key))
       && (new_ == Outside <==> i !in f'.frames)
       && (new_ != Outside ==> FrameOk(f'.frames[i], i, new_, f'.looper, Abs(f').table, f'.mem.log))
       && (new_ == Outside ==>
             && (forall k :: k in Abs(f).table && Abs(f).table[k].OpenHandle? ==> Abs(f).table[k].caller != i)
             && (Answering(f.looper) ==> f.looper.caller != i))
  }

  lemma WaitStepKeeps(f: Fine, f': Fine, i: nat)
    requires Met(f) && WaitStep(f, f', i) && ReturnsOk(f')
    ensures Met(f')
  {
    forall j | j in f'.frames
      ensures FrameOk(f'.frames[j], j, StatusOf(f'.clients, f'.sending, j), f'.looper, Abs(f').table, f'.mem.log)
    {
      if j != i {
        assert FrameOk(f.frames[j], j, StatusOf(f.clients, f.sending, j), f.looper, Abs(f).table, f.mem.log);
      }
    }
  }

  lemma FrameInOrder(f: Fine, i: nat)
    requires Met(f) && i in f.frames
    ensures FrameOk(f.frames[i], i, StatusOf(f.clients, f.sending, i), f.looper, Abs(f).table, f.mem.log)
  {
  }

  lemma LockEffect(f: Fine, i: nat)
    requires FineEnabled(f, LockBarrier(i)) && Abs(DoLockBarrier(f, i)).table == Abs(f).table
    requires FrameOk(f.frames[i], i, StatusOf(f.clients, f.sending, i), f.looper, Abs(f).table, f.mem.log)
    ensures WaitStep(f, DoLockBarrier(f, i), i)
  {
    hide Abs;
  }

  lemma LockBarrierKeeps(f: Fine, i: nat)
    requires Met(f) && FineEnabled(f, LockBarrier(i)) && Abs(DoLockBarrier(f, i)) == Abs(f)
    ensures Met(DoLockBarrier(f, i))
  {
    FrameInOrder(f, i);
    LockEffect(f, i);
    assert ReturnsOk(DoLockBarrier(f, i));
    hide Met, WaitStep, FrameOk, Abs, DoLockBarrier, ReturnsOk;
    WaitStepKeeps(f, DoLockBarrier(f, i), i);
  }

  lemma SleepEffect(f: Fine, i: nat)
    requires FineEnabled(f, CheckBarrier(i)) && !f.frames[i].open && Abs(DoCheckBarrier(f, i)).table == Abs(f).table
    requires FrameOk(f.frames[i], i, StatusOf(f.clients, f.sending, i), f.looper, Abs(f).table, f.mem.log)
    ensures WaitStep(f, DoCheckBarrier(f, i), i)
  {
    hide Abs;
  }

  lemma SleepKeeps(f: Fine, i: nat)
    requires Met(f) && FineEnabled(f, CheckBarrier(i)) && !f.frames[i].open && Abs(DoCheckBarrier(f, i)) == Abs(f)
    ensures Met(DoCheckBarrier(f, i))
  {
    FrameInOrder(f, i);
    SleepEffect(f, i);
    assert ReturnsOk(DoCheckBarrier(f, i));
    hide Met, WaitStep, FrameOk, Abs, DoCheckBarrier, ReturnsOk;
    WaitStepKeeps(f, DoCheckBarrier(f, i), i);
  }

  /** A caller that sees its barrier open is referred to by no event and by no looper step. */
  lemma OpenMeansFinished(f: Fine, i: nat)
    requires Met(f) && FineEnabled(f, CheckBarrier(i)) && f.frames[i].open
    ensures f.clients[i].key in f.mem.log.results && f.frames[i].ret == Some(f.mem.log.results[f.clients[i].key])
    ensures forall k :: k in Abs(f).table && Abs(f).table[k].OpenHandle? ==> Abs(f).table[k].caller != i
    ensures Answering(f.looper) ==> f.looper.caller != i
  {
    assert FrameOk(f.frames[i], i, StatusOf(f.clients, f.sending, i), f.looper, Abs(f).table, f.mem.log);
  }

  lemma ReturnEffect(f: Fine, i: nat)
    requires FineEnabled(f, CheckBarrier(i)) && f.frames[i].open && Abs(DoCheckBarrier(f, i)) == Abs(f)
    requires forall k :: k in Abs(f).table && Abs(f).table[k].OpenHandle? ==> Abs(f).table[k].caller != i
    requires Answering(f.looper) ==> f.looper.caller != i
    ensures WaitStep(f, DoCheckBarrier(f, i), i)
  {
  }

  lemma ReturnKeeps(f: Fine, i: nat)
    requires Met(f) && FineEnabled(f, CheckBarrier(i)) && f.frames[i].open && Abs(DoCheckBarrier(f, i)) == Abs(f)
    ensures Met(DoCheckBarrier(f, i))
  {
    OpenMeansFinished(f, i);
    ReturnEffect(f, i);
    WaitStepKeeps(f, DoCheckBarrier(f, i), i);
  }

  // ---------- The looper's steps ----------

  /** A handle request has just taken effect with result `v`. */
  ghost predicate Answers(f: Fine, f': Fine, m: Message, ev: Event, v: int) {
    && ev.OpenHandle? && !Answering(f.looper)
    && m.key in Abs(f).table && Abs(f).table[m.key] == ev
    && Abs(f').table == Abs(f).table - {m.key}
    && f'.mem.log.history == f.mem.log.history && f'.mem.log.results == f.mem.log.results[m.key := v]
    && (f'.looper == Writing(ev.caller, m.key, v)
        || (v == -1 && f'.looper.Dropping? && f'.looper.caller == ev.caller && f'.looper.key == m.key))
    && f'.clients == f.clients && f'.sending == f.sending && f'.frames == f.frames
    && f'.returned == f.returned && f'.corrupted == f.corrupted
  }

  lemma AnswersKeeps(f: Fine, f': Fine, m: Message, ev: Event, v: int)
    requires Met(f) && RequestsTracked(Abs(f)) && OutcomesTracked(Abs(f)) && Answers(f, f', m, ev, v)
    ensures Met(f')
  {
    assert Awaits(StatusOf(f.clients, f.sending, ev.caller), m.key);
    forall j | j in f'.frames
      ensures FrameOk(f'.frames[j], j, StatusOf(f'.clients, f'.sending, j), f'.looper, Abs(f').table, f'.mem.log)
    {
      assert FrameOk(f.frames[j], j, StatusOf(f.clients, f.sending, j), f.looper, Abs(f).table, f.mem.log);
    }
  }

  /** The looper moves on within the answering phase and touches at most the caller's frame. */
  ghost predicate Proceeds(f: Fine, f': Fine) {
    && Answering(f.looper) && Abs(f').table == Abs(f).table && f'.mem.log == f.mem.log
    && SameStatuses(f, f')
    && f'.frames.Keys == f.frames.Keys
    && (forall j :: j in f.frames && j != f.looper.caller ==> f'.frames[j] == f.frames[j])
    && f'.returned == f.returned && f'.corrupted == f.corrupted
    && f.looper.caller in f.frames
    && var (l, l', fr) := (f.looper, f'.looper, f.frames[f.looper.caller]);
       var fr' := f'.frames[l.caller];
       || (l.Dropping? && l' == Writing(l.caller, l.key, -1) && fr' == fr)
       || (l.Writing? && l' == Written(l.caller, l.key) && fr' == fr.(ret := Some(l.value)))
       || (l.Written? && l' == Signals(l.caller, l.key) && fr.holder == None && fr' == fr.(holder := Some(Looper)))
       || (l.Signals? && l' == Signalled(l.caller, l.key) && fr' == fr.(open := true))
       || (l.Signalled? && l' == Polling && fr' == fr.(holder := None))
  }

  lemma ProceedsKeeps(f: Fine, f': Fine)
    requires Met(f) && Proceeds(f, f')
    ensures Met(f')
  {
    var l := f.looper;
    forall j | j in f'.frames
      ensures FrameOk(f'.frames[j], j, StatusOf(f'.clients, f'.sending, j), f'.looper, Abs(f').table, f'.mem.log)
    {
      assert FrameOk(f.frames[j], j, StatusOf(f.clients, f.sending, j), f.looper, Abs(f).table, f.mem.log);
    }
  }

  /** While the looper answers, the frame it is about to touch is the live frame of the caller that
      awaits this very event. */
  lemma FrameIsLive(f: Fine)
    requires Met(f) && Answering(f.looper)
    ensures f.looper.caller in f.frames && f.looper.caller in f.clients
    ensures Awaits(StatusOf(f.clients, f.sending, f.looper.caller), f.looper.key)
  {
  }
}
