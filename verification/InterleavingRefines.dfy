/** The fine machine refines the coarse one: each fine step is one coarse step or none. */
module InterleavingRefines {
  import opened Wrappers
  import opened PokerEngine
  import opened EngineInvariant
  import opened Interleaving

  // ---------- The coarse state behind a fine state ----------

  ghost function HolderSending(lock: Option<Thread>, sending: map<Thread, Sending>): Option<Sending> {
    if lock.Some? && lock.value in sending then Some(sending[lock.value]) else None
  }

  /** The message delivered to handleMessage whose event has not taken effect yet. */
  ghost function InHand(l: LooperPc): Option<Message> {
    if l.Took? || l.Fetching? || l.Fetched? || l.Running? || l.Arming? || l.Node? || l.Piped? then Some(l.m) else None
  }

  /** Its event, once it has been removed from the table. */
  ghost predicate HasEvent(l: LooperPc) {
    l.Fetched? || l.Running? || l.Arming? || l.Node? || l.Piped?
  }

  /** Descriptors only the looper thread knows: not handed over yet, or about to be closed. */
  ghost function Private(l: LooperPc): set<nat> {
    match l
    case Arming(_, _, fd) => {fd}
    case Node(_, _, fd) => {fd}
    case Piped(_, _, fd, client, server) => {fd, client, server}
    case Dropping(_, _, fd) => {fd}
    case Unhooked(server, fd) => {server, fd}
    case HalfClosed(fd) => {fd}
    case _ => {}
  }

  ghost function AbsKey(nextKey: nat, s: Option<Sending>): nat {
    if s.Some? && (s.value.Keyed? || s.value.Added?) then s.value.key else nextKey
  }

  ghost function AbsTable(table: map<nat, Event>, s: Option<Sending>, l: LooperPc): map<nat, Event> {
    var posted := if s.Some? && s.value.Added? then table - {s.value.key} else table;
    if HasEvent(l) then posted[l.m.key := l.ev] else posted
  }

  ghost function AbsQueue(queue: seq<Message>, l: LooperPc): seq<Message> {
    if InHand(l).Some? then [InHand(l).value] + queue else queue
  }

  ghost function Abs(f: Fine): State {
    var s := HolderSending(f.lock, f.sending);
    State(f.mem.now, AbsKey(f.mem.nextKey, s), AbsTable(f.mem.table, s, f.looper), AbsQueue(f.mem.queue, f.looper),
          f.mem.fds - Private(f.looper), f.mem.contexts, f.mem.log)
  }

  // ---------- Invariants of the fine machine ----------

  ghost predicate HoldsTable(l: LooperPc) {
    l.Fetching? || l.Fetched? || l.Missing?
  }

  /** mEvLock is held by exactly the thread that is inside a critical section. */
  ghost predicate LockOk(lock: Option<Thread>, sending: map<Thread, Sending>, l: LooperPc) {
    && (forall t :: t in sending ==> (!sending[t].Wanting? <==> lock == Some(t)))
    && (lock.Some? && lock.value !in sending ==> lock.value == Looper && HoldsTable(l))
    && (HoldsTable(l) ==> lock == Some(Looper))
    && (Looper in sending <==> l.Arming? || l.Armed?)
    && (Looper in sending ==> (l.Armed? <==> sending[Looper].Posted?))
  }

  ghost predicate SendsOk(sending: map<Thread, Sending>, clients: map<nat, ClientPc>, l: LooperPc) {
    && (forall i :: Client(i) in sending <==> i in clients && clients[i].Sends?)
    && (forall i :: Client(i) in sending ==> ClientRequest(i, sending[Client(i)].ev) && sending[Client(i)].delay == 0)
    && (l.Arming? && Looper in sending ==>
          l.ev.OpenTimed? && sending[Looper].ev == CloseTimed(l.fd) && sending[Looper].delay == l.ev.timeout)
  }

  /** The key in use under the lock is the newest one, and its entry is in the table once added. */
  ghost predicate HolderOk(s: Option<Sending>, nextKey: nat, table: map<nat, Event>) {
    && (s.Some? && (s.value.Keyed? || s.value.Added?) ==> s.value.key + 1 == nextKey)
    && (s.Some? && s.value.Added? ==> s.value.key in table && table[s.value.key] == s.value.ev)
  }

  ghost predicate LooperOk(l: LooperPc, now: int, table: map<nat, Event>, fds: map<nat, Object>) {
    && !l.Missing?
    && (InHand(l).Some? ==> InHand(l).value.due <= now)
    && (HasEvent(l) ==> l.m.key !in table)
    && (l.Arming? ==> Is(fds, l.fd, TimedConstraint(l.m.key)) && l.ev.OpenTimed?)
    && (l.Node? ==> Is(fds, l.fd, HandleConstraint(l.m.key)) && l.ev.OpenHandle?)
    && (l.Piped? ==>
          && Is(fds, l.fd, HandleConstraint(l.m.key)) && l.ev.OpenHandle?
          && Is(fds, l.client, PipeClient(l.m.key)) && Is(fds, l.server, PipeServer(l.m.key)))
    && (l.Dropping? ==> Is(fds, l.fd, HandleConstraint(l.key)))
    && (l.Unhooked? ==>
          && l.server in fds && fds[l.server].PipeServer? && Is(fds, l.fd, HandleConstraint(fds[l.server].call)))
    && (l.HalfClosed? ==> l.fd in fds && fds[l.fd].HandleConstraint?)
  }

  ghost predicate Shape(f: Fine) {
    && LockOk(f.lock, f.sending, f.looper)
    && SendsOk(f.sending, f.clients, f.looper)
    && HolderOk(HolderSending(f.lock, f.sending), f.mem.nextKey, f.mem.table)
    && LooperOk(f.looper, f.mem.now, f.mem.table, f.mem.fds)
  }

  ghost predicate Core(f: Fine) {
    Inv(Abs(f)) && Shape(f)
  }

  /** The coarse step that a fine step completes, if any. */
  ghost function CoarseStep(f: Fine, step: FineStep): Option<Step>
    requires FineEnabled(f, step)
  {
    match step
    case Post(Client(i)) => Some(DoPush(f.sending[Client(i)].ev))
    case Post(Looper) =>
      if f.looper.Arming? then Some(DoDispatch(Response(Some(f.looper.fd), None, true))) else None
    case OpenNode(None) => Some(DoDispatch(Response(None, None, true)))
    case CloseNode => Some(DoDispatch(Response(None, None, true)))
    case MakePipe(None) => Some(DoDispatch(Response(Some(f.looper.fd), None, true)))
    case Watch(accepted) =>
      Some(DoDispatch(Response(Some(f.looper.fd), Some((f.looper.client, f.looper.server)), accepted)))
    case Unhook(server) => Some(DoHangUp(server))
    case Environment(step) => Some(step)
    case _ => None
  }

  ghost predicate Matches(s: State, c: Option<Step>, s': State) {
    match c
    case None => s' == s
    case Some(step) => Enabled(s, step) && s' == Apply(s, step)
  }

  /** What every step lemma below establishes. */
  ghost predicate Simulates(f: Fine, step: FineStep, f': Fine)
    requires FineEnabled(f, step)
  {
    Matches(Abs(f), CoarseStep(f, step), Abs(f')) && Shape(f')
  }

  // ---------- Sender steps ----------

  lemma RequestSimulates(f: Fine, i: nat, ev: Event)
    requires Shape(f) && i !in f.clients && ClientRequest(i, ev)
    ensures Abs(DoRequest(f, i, ev)) == Abs(f) && Shape(DoRequest(f, i, ev))
  {
  }

  lemma AcquireSimulates(f: Fine, t: Thread)
    requires Shape(f) && t in f.sending && f.sending[t].Wanting? && f.lock == None
    ensures Abs(DoAcquire(f, t)) == Abs(f) && Shape(DoAcquire(f, t))
  {
  }

  lemma NewKeySimulates(f: Fine, t: Thread)
    requires Shape(f) && t in f.sending && f.sending[t].Locked?
    ensures Abs(DoNewKey(f, t)) == Abs(f) && Shape(DoNewKey(f, t))
  {
  }

  lemma KeyIsFresh(f: Fine, t: Thread)
    requires Shape(f) && Agrees(Abs(f)) && t in f.sending && f.sending[t].Keyed?
    ensures f.sending[t].key !in f.mem.table
    ensures HasEvent(f.looper) ==> f.looper.m.key != f.sending[t].key
  {
    assert f.sending[t].key !in Abs(f).table;
  }

  lemma AddEntrySimulates(f: Fine, t: Thread)
    requires Shape(f) && Agrees(Abs(f)) && t in f.sending && f.sending[t].Keyed?
    ensures Abs(DoAddEntry(f, t)) == Abs(f) && Shape(DoAddEntry(f, t))
  {
    KeyIsFresh(f, t);
    var f' := DoAddEntry(f, t);
    assert f'.mem.table - {f.sending[t].key} == f.mem.table;
  }

  lemma ReleaseSimulates(f: Fine, t: Thread)
    requires Shape(f) && t in f.sending && f.sending[t].Posted?
    ensures Abs(DoRelease(f, t)) == Abs(f) && Shape(DoRelease(f, t))
  {
  }

  // ---------- Barrier steps ----------

  ghost predicate SameSenders(clients: map<nat, ClientPc>, clients': map<nat, ClientPc>) {
    forall i :: (i in clients && clients[i].Sends?) <==> (i in clients' && clients'[i].Sends?)
  }

  /** Steps in Barrier::wait change neither the shared memory nor who is sending. */
  lemma WaitingSimulates(f: Fine, f': Fine)
    requires Shape(f) && f'.mem == f.mem && f'.lock == f.lock && f'.sending == f.sending && f'.looper == f.looper
    requires SameSenders(f.clients, f'.clients)
    ensures Abs(f') == Abs(f) && Shape(f')
  {
  }

  lemma TakeSimulates(f: Fine)
    requires Shape(f) && f.looper.Polling? && f.mem.queue != [] && f.mem.queue[0].due <= f.mem.now
    ensures Abs(DoTake(f)) == Abs(f) && Shape(DoTake(f))
  {
    assert f.mem.queue == [f.mem.queue[0]] + f.mem.queue[1..];
  }

  lemma LockTableSimulates(f: Fine)
    requires Shape(f) && f.looper.Took? && f.lock == None
    ensures Abs(DoLockTable(f)) == Abs(f) && Shape(DoLockTable(f))
  {
  }

  /** removeEventByKey always finds its entry. */
  lemma EntryIsThere(f: Fine)
    requires Shape(f) && Agrees(Abs(f)) && f.looper.Fetching?
    ensures f.looper.m.key in f.mem.table
  {
    assert f.looper.m in Abs(f).queue;
    assert f.looper.m.key in Keys(Abs(f).queue);
  }

  lemma RemoveEntrySimulates(f: Fine)
    requires Shape(f) && Agrees(Abs(f)) && f.looper.Fetching?
    ensures Abs(DoRemoveEntry(f)) == Abs(f) && Shape(DoRemoveEntry(f))
  {
    EntryIsThere(f);
    var k := f.looper.m.key;
    assert (f.mem.table - {k})[k := f.mem.table[k]] == f.mem.table;
  }

  lemma UnlockTableSimulates(f: Fine)
    requires Shape(f) && (f.looper.Fetched? || f.looper.Missing?)
    ensures Abs(DoUnlockTable(f)) == Abs(f) && Shape(DoUnlockTable(f))
  {
  }

  lemma TimedOpenSimulates(f: Fine, fd: nat)
    requires Shape(f) && f.looper.Running? && f.looper.ev.OpenTimed? && fd !in f.mem.fds
    ensures Abs(DoOpenNode(f, Some(fd))) == Abs(f) && Shape(DoOpenNode(f, Some(fd)))
  {
    var f' := DoOpenNode(f, Some(fd));
    assert f'.mem.fds - {fd} == f.mem.fds - {};
  }

  lemma HandleOpenSimulates(f: Fine, fd: nat)
    requires Shape(f) && f.looper.Running? && f.looper.ev.OpenHandle? && fd !in f.mem.fds
    ensures Abs(DoOpenNode(f, Some(fd))) == Abs(f) && Shape(DoOpenNode(f, Some(fd)))
  {
    var f' := DoOpenNode(f, Some(fd));
    assert f'.mem.fds - {fd} == f.mem.fds - {};
  }

  lemma PipeSucceedsSimulates(f: Fine, client: nat, server: nat)
    requires Shape(f) && FineEnabled(f, MakePipe(Some((client, server))))
    ensures Abs(DoMakePipe(f, Some((client, server)))) == Abs(f) && Shape(DoMakePipe(f, Some((client, server))))
  {
    var f' := DoMakePipe(f, Some((client, server)));
    assert f'.mem.fds - {f.looper.fd, client, server} == f.mem.fds - {f.looper.fd};
  }

  lemma DropNodeSimulates(f: Fine)
    requires Shape(f) && f.looper.Dropping?
    ensures Abs(DoDropNode(f)) == Abs(f) && Shape(DoDropNode(f))
  {
    assert (f.mem.fds - {f.looper.fd}) - {} == f.mem.fds - {f.looper.fd};
  }

  lemma AnswerSimulates(f: Fine, f': Fine)
    requires Shape(f) && (f.looper.Writing? || f.looper.Written? || f.looper.Signals? || f.looper.Signalled?)
    requires f'.mem == f.mem && f'.lock == f.lock && f'.sending == f.sending
    requires f'.looper.Written? || f'.looper.Signals? || f'.looper.Signalled? || f'.looper.Polling?
    requires f'.clients == f.clients
          || (exists i ::
                i in f.clients && f.clients[i].Sleeps? && f'.clients == f.clients[i := Waits(f.clients[i].key)])
    ensures Abs(f') == Abs(f) && Shape(f')
  {
  }

  lemma CloseServerSimulates(f: Fine)
    requires Shape(f) && f.looper.Unhooked?
    ensures Abs(DoCloseServer(f)) == Abs(f) && Shape(DoCloseServer(f))
  {
    var p := f.looper;
    assert (f.mem.fds - {p.server}) - {p.fd} == f.mem.fds - {p.server, p.fd};
  }

  lemma CloseConstraintSimulates(f: Fine)
    requires Shape(f) && f.looper.HalfClosed?
    ensures Abs(DoCloseConstraint(f)) == Abs(f) && Shape(DoCloseConstraint(f))
  {
    assert (f.mem.fds - {f.looper.fd}) - {} == f.mem.fds - {f.looper.fd};
  }

  // ---------- Steps that complete a coarse step ----------

  lemma PostOfClientShape(f: Fine, i: nat)
    requires Shape(f) && Client(i) in f.sending && f.sending[Client(i)].Added?
    ensures Shape(DoPost(f, Client(i))) && !f.sending[Client(i)].ev.CloseTimed?
    ensures f.sending[Client(i)].delay == 0 && HolderSending(f.lock, f.sending) == Some(f.sending[Client(i)])
    ensures InHand(f.looper).Some? ==> InHand(f.looper).value.due <= f.mem.now
    ensures HasEvent(f.looper) ==> f.looper.m.key !in f.mem.table
  {
  }

  lemma BehindHand(q: seq<Message>, l: LooperPc, m: Message)
    requires InHand(l).Some? ==> InHand(l).value.due <= m.due
    ensures AbsQueue(Insert(q, m), l) == Insert(AbsQueue(q, l), m)
  {
    if InHand(l).Some? { assert ([InHand(l).value] + q)[1..] == q; }
  }

  lemma EntryBehindHand(table: map<nat, Event>, s: Sending, s': Sending, l: LooperPc)
    requires s.Added? && s'.Posted? && s.key in table && table[s.key] == s.ev && (HasEvent(l) ==> l.m.key !in table)
    ensures AbsTable(table, Some(s'), l) == AbsTable(table, Some(s), l)[s.key := s.ev]
  {
  }

  lemma PostOfClientSimulates(f: Fine, i: nat)
    requires Shape(f) && Agrees(Abs(f)) && Client(i) in f.sending && f.sending[Client(i)].Added?
    ensures Abs(DoPost(f, Client(i))) == Push(Abs(f), f.sending[Client(i)].ev) && Shape(DoPost(f, Client(i)))
    ensures !f.sending[Client(i)].ev.CloseTimed?
  {
    var s := f.sending[Client(i)];
    PostOfClientShape(f, i);
    assert HolderOk(Some(s), f.mem.nextKey, f.mem.table) && LooperOk(f.looper, f.mem.now, f.mem.table, f.mem.fds);
    EntryBehindHand(f.mem.table, s, Posted(s.ev, s.delay, s.key), f.looper);
    hide Shape, Agreement, Insert, AbsQueue, AbsTable, LooperOk, LockOk, SendsOk;
    BehindHand(f.mem.queue, f.looper, Message(f.mem.now, s.key));
  }

  /** The coarse state without the event in hand. */
  ghost function Behind(f: Fine): State
    requires HasEvent(f.looper)
  {
    var s := HolderSending(f.lock, f.sending);
    State(f.mem.now, AbsKey(f.mem.nextKey, s), AbsTable(f.mem.table, s, Polling), f.mem.queue,
          f.mem.fds - Private(f.looper), f.mem.contexts, Ran(f.mem.log, f.looper.m))
  }

  /** The event in hand is the head of the coarse queue. */
  lemma InHandIsHead(f: Fine, r: Response)
    requires HasEvent(f.looper) && LooperOk(f.looper, f.mem.now, f.mem.table, f.mem.fds)
    ensures Abs(f).queue != [] && Abs(f).queue[0].due <= Abs(f).now
    ensures Dispatch(Abs(f), r) == RunEvent(Behind(f), f.looper.m.key, f.looper.ev, r)
  {
    var (s, l) := (Abs(f), f.looper);
    assert ([l.m] + f.mem.queue)[1..] == f.mem.queue;
    assert s.table - {l.m.key} == AbsTable(f.mem.table, HolderSending(f.lock, f.sending), Polling);
  }

  lemma PostOfLooperShape(f: Fine)
    requires Shape(f) && Looper in f.sending && f.sending[Looper].Added?
    ensures f.looper.Arming? && f.lock == Some(Looper) && Shape(DoPost(f, Looper))
  {
  }

  lemma PostOfLooperSimulates(f: Fine)
    requires Shape(f) && Agrees(Abs(f)) && Looper in f.sending && f.sending[Looper].Added?
    ensures f.looper.Arming? && Enabled(Abs(f), DoDispatch(Response(Some(f.looper.fd), None, true)))
    ensures Abs(DoPost(f, Looper)) == Dispatch(Abs(f), Response(Some(f.looper.fd), None, true))
            && Shape(DoPost(f, Looper))
  {
    PostOfLooperShape(f);
    InHandIsHead(f, Response(Some(f.looper.fd), None, true));
    ArmedEffect(f);
  }

  lemma ArmedMaps(table: map<nat, Event>, key: nat, ev: Event, fds: map<nat, Object>, fd: nat, o: Object)
    requires key in table && table[key] == ev && Is(fds, fd, o)
    ensures (table - {key})[key := ev] == table && (fds - {fd})[fd := o] == fds && fds - {} == fds
  {
  }

  lemma ArmedShape(f: Fine)
    requires Shape(f) && f.looper.Arming? && Looper in f.sending && f.sending[Looper].Added?
    ensures f.lock == Some(Looper) && f.sending[Looper].ev == CloseTimed(f.looper.fd)
    ensures f.sending[Looper].delay == f.looper.ev.timeout && f.sending[Looper].key + 1 == f.mem.nextKey
    ensures f.sending[Looper].key in f.mem.table && f.mem.table[f.sending[Looper].key] == f.sending[Looper].ev
    ensures Is(f.mem.fds, f.looper.fd, TimedConstraint(f.looper.m.key))
  {
  }

  lemma ArmedEffect(f: Fine)
    requires Shape(f) && f.looper.Arming? && Looper in f.sending && f.sending[Looper].Added?
    ensures Abs(DoPost(f, Looper)) == RunOpenTimed(Behind(f), f.looper.m.key, f.looper.ev.timeout, Some(f.looper.fd))
  {
    ArmedShape(f);
    hide Shape, Insert;
    var s, l := f.sending[Looper], f.looper;
    ArmedMaps(f.mem.table, s.key, s.ev, f.mem.fds, l.fd, TimedConstraint(l.m.key));
  }

  lemma TimedOpenFailsSimulates(f: Fine)
    requires Shape(f) && f.looper.Running? && f.looper.ev.OpenTimed?
    ensures Enabled(Abs(f), DoDispatch(Response(None, None, true)))
    ensures Abs(DoOpenNode(f, None)) == Dispatch(Abs(f), Response(None, None, true)) && Shape(DoOpenNode(f, None))
  {
    InHandIsHead(f, Response(None, None, true));
  }

  lemma HandleOpenFailsSimulates(f: Fine)
    requires Shape(f) && f.looper.Running? && f.looper.ev.OpenHandle?
    ensures Enabled(Abs(f), DoDispatch(Response(None, None, true)))
    ensures Abs(DoOpenNode(f, None)) == Dispatch(Abs(f), Response(None, None, true)) && Shape(DoOpenNode(f, None))
  {
    InHandIsHead(f, Response(None, None, true));
  }

  lemma CloseNodeSimulates(f: Fine)
    requires Shape(f) && f.looper.Running? && f.looper.ev.CloseTimed?
    ensures Enabled(Abs(f), DoDispatch(Response(None, None, true)))
    ensures Abs(DoCloseNode(f)) == Dispatch(Abs(f), Response(None, None, true)) && Shape(DoCloseNode(f))
  {
    InHandIsHead(f, Response(None, None, true));
    assert f.mem.fds - {} == f.mem.fds;
    assert DoCloseNode(f).mem.fds - {} == DoCloseNode(f).mem.fds;
  }

  lemma PipeFailsSimulates(f: Fine)
    requires Shape(f) && f.looper.Node? && f.looper.ev.OpenHandle?
    ensures Enabled(Abs(f), DoDispatch(Response(Some(f.looper.fd), None, true)))
    ensures Abs(DoMakePipe(f, None)) == Dispatch(Abs(f), Response(Some(f.looper.fd), None, true))
            && Shape(DoMakePipe(f, None))
  {
    InHandIsHead(f, Response(Some(f.looper.fd), None, true));
  }

  lemma WatchShape(f: Fine, accepted: bool)
    requires Shape(f) && f.looper.Piped? && f.looper.ev.OpenHandle?
    ensures Shape(DoWatch(f, accepted))
  {
  }

  /** The engine after a piped handle was handed to the looper. */
  ghost function Watched(f: Fine, accepted: bool): State
    requires f.looper.Piped? && f.looper.ev.OpenHandle?
  {
    var s := HolderSending(f.lock, f.sending);
    State(f.mem.now, AbsKey(f.mem.nextKey, s), AbsTable(f.mem.table, s, Polling), f.mem.queue, f.mem.fds,
          DoWatch(f, accepted).mem.contexts, DoWatch(f, accepted).mem.log)
  }

  lemma WatchAbs(f: Fine, accepted: bool)
    requires f.looper.Piped? && f.looper.ev.OpenHandle?
    ensures Abs(DoWatch(f, accepted)) == Watched(f, accepted)
  {
    assert f.mem.fds - {} == f.mem.fds;
  }

  lemma PutBack(fds: map<nat, Object>, key: nat, fd: nat, client: nat, server: nat)
    requires Is(fds, fd, HandleConstraint(key)) && Is(fds, client, PipeClient(key)) && Is(fds, server, PipeServer(key))
    ensures (fds - {fd, client, server})[fd := HandleConstraint(key)][client := PipeClient(key)]
            [server := PipeServer(key)]
         == fds
  {
  }

  lemma WatchRuns(f: Fine, accepted: bool)
    requires f.looper.Piped? && f.looper.ev.OpenHandle? && LooperOk(f.looper, f.mem.now, f.mem.table, f.mem.fds)
    ensures var p := f.looper;
            RunOpenHandle(Behind(f), p.m.key, Response(Some(p.fd), Some((p.client, p.server)), accepted))
            == Watched(f, accepted)
  {
    PutBack(f.mem.fds, f.looper.m.key, f.looper.fd, f.looper.client, f.looper.server);
  }

  lemma WatchSimulates(f: Fine, accepted: bool)
    requires Shape(f) && f.looper.Piped? && f.looper.ev.OpenHandle?
    ensures var r := Response(Some(f.looper.fd), Some((f.looper.client, f.looper.server)), accepted);
            && Enabled(Abs(f), DoDispatch(r))
            && Abs(DoWatch(f, accepted)) == Dispatch(Abs(f), r) && Shape(DoWatch(f, accepted))
  {
    var p := f.looper;
    WatchShape(f, accepted);
    WatchAbs(f, accepted);
    WatchRuns(f, accepted);
    WatchEnabled(f, accepted);
    hide DoWatch, Watched, Dispatch, RunOpenHandle, Shape, Behind;
    InHandIsHead(f, Response(Some(p.fd), Some((p.client, p.server)), accepted));
  }

  lemma WatchEnabled(f: Fine, accepted: bool)
    requires Shape(f) && f.looper.Piped?
    ensures Enabled(Abs(f), DoDispatch(Response(Some(f.looper.fd), Some((f.looper.client, f.looper.server)), accepted)))
    ensures LooperOk(f.looper, f.mem.now, f.mem.table, f.mem.fds)
  {
  }

  lemma UnhookShape(f: Fine, server: nat)
    requires Shape(f) && FineEnabled(f, Unhook(server))
    requires Is(f.mem.fds, f.mem.contexts[server].fd, HandleConstraint(f.mem.fds[server].call))
    ensures Shape(DoUnhook(f, server))
  {
  }

  lemma PollingHidesNothing(f: Fine)
    requires f.looper.Polling?
    ensures Abs(f).fds == f.mem.fds
  {
  }

  lemma UnhookEffect(f: Fine, server: nat)
    requires f.looper.Polling? && server in f.mem.contexts
    ensures Abs(DoUnhook(f, server)) == HangUp(Abs(f), server)
  {
    PollingHidesNothing(f);
  }

  lemma UnhookSimulates(f: Fine, server: nat)
    requires Shape(f) && FineEnabled(f, Unhook(server))
    requires HandlesOwned(Abs(f).fds, Abs(f).contexts, Abs(f).log.handles)
    ensures Enabled(Abs(f), DoHangUp(server))
    ensures Abs(DoUnhook(f, server)) == HangUp(Abs(f), server) && Shape(DoUnhook(f, server))
  {
    PollingHidesNothing(f);
    ReleaseKeepsHandles(f.mem.fds, f.mem.contexts, f.mem.log.handles, server);
    assert RegisteredFor(f.mem.fds, f.mem.log.handles, server, f.mem.contexts[server]);
    UnhookShape(f, server);
    UnhookEffect(f, server);
  }

  lemma TickSimulates(f: Fine, d: nat)
    requires Shape(f)
    ensures Abs(DoEnvironment(f, DoTick(d))) == Apply(Abs(f), DoTick(d)) && Shape(DoEnvironment(f, DoTick(d)))
  {
  }

  lemma CloseOfOtherSimulates(f: Fine, step: Step)
    requires Shape(f) && (step.DoClientClose? || step.DoForeignClose?) && step.fd !in Private(f.looper)
    ensures Abs(DoEnvironment(f, step)) == Apply(Abs(f), step) && Shape(DoEnvironment(f, step))
  {
    assert (f.mem.fds - {step.fd}) - Private(f.looper) == (f.mem.fds - Private(f.looper)) - {step.fd};
  }

  lemma ForeignOpenSimulates(f: Fine, fd: nat)
    requires Shape(f) && fd !in f.mem.fds
    ensures Abs(DoEnvironment(f, DoForeignOpen(fd))) == Apply(Abs(f), DoForeignOpen(fd))
    ensures Shape(DoEnvironment(f, DoForeignOpen(fd)))
  {
    assert fd !in Private(f.looper);
    assert f.mem.fds[fd := Foreign] - Private(f.looper) == (f.mem.fds - Private(f.looper))[fd := Foreign];
  }

  /** The client's end of a pipe is not touched by clients before its number was returned. */
  lemma EnvironmentSimulates(f: Fine, step: Step)
    requires Shape(f) && FineEnabled(f, Environment(step))
    requires f.looper.Piped? ==> f.looper.m.key !in f.returned
    ensures Enabled(Abs(f), step)
    ensures Abs(DoEnvironment(f, step)) == Apply(Abs(f), step) && Shape(DoEnvironment(f, step))
  {
    match step
    case DoTick(d) => TickSimulates(f, d);
    case DoForeignOpen(fd) => ForeignOpenSimulates(f, fd);
    case _ => CloseOfOtherSimulates(f, step);
  }
}
