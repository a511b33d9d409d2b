/** The same engine at the grain of single lock, table, looper and kernel operations: any number of
    client threads and one looper thread, sharing the memory of the coarse machine, mEvLock, and the
    stack frames of the callers that wait for a handle. */
module Interleaving {
  import opened Wrappers
  import opened PokerEngine

  datatype Thread = Client(id: nat) | Looper

  /** Where a thread is inside sendEventDelayed; all but the first hold mEvLock. */
  datatype Sending =
    | Wanting(ev: Event, delay: int)
    | Locked(ev: Event, delay: int)
    | Keyed(ev: Event, delay: int, key: nat)
    | Added(ev: Event, delay: int, key: nat)
    | Posted(ev: Event, delay: int, key: nat)

  /** Where a client is: sending, or in Barrier::wait. Clients not in the map are outside. */
  datatype ClientPc =
    | Sends
    | Waits(key: nat)
    | Checks(key: nat)
    | Sleeps(key: nat)

  datatype LooperPc =
    | Polling
    | Took(m: Message)
    | Fetching(m: Message)
    | Missing
    | Fetched(m: Message, ev: Event)
    | Running(m: Message, ev: Event)
    | Arming(m: Message, ev: Event, fd: nat)
    | Armed
    | Node(m: Message, ev: Event, fd: nat)
    | Piped(m: Message, ev: Event, fd: nat, client: nat, server: nat)
    | Dropping(caller: nat, key: nat, fd: nat)
    | Writing(caller: nat, key: nat, value: int)
    | Written(caller: nat, key: nat)
    | Signals(caller: nat, key: nat)
    | Signalled(caller: nat, key: nat)
    | Unhooked(server: nat, fd: nat)
    | HalfClosed(fd: nat)

  /** The locals of createPmQosHandle: `ret` and the barrier with its lock. */
  datatype Frame = Frame(ret: Option<int>, open: bool, holder: Option<Thread>)

  /** `corrupted` records a looper access to a frame that is gone. */
  datatype Fine = Fine(
    mem: State,
    lock: Option<Thread>,
    sending: map<Thread, Sending>,
    clients: map<nat, ClientPc>,
    looper: LooperPc,
    frames: map<nat, Frame>,
    returned: map<nat, int>,
    corrupted: bool)

  function FineInit(now: int): Fine {
    Fine(Init(now), None, map[], map[], Polling, map[], map[], false)
  }

  datatype FineStep =
    | Request(i: nat, ev: Event)
    | Acquire(t: Thread) | NewKey(t: Thread) | AddEntry(t: Thread) | Post(t: Thread) | Release(t: Thread)
    | LockBarrier(i: nat) | CheckBarrier(i: nat) | WakeUp(i: nat)
    | Take | LockTable | RemoveEntry | UnlockTable
    | OpenNode(node: Option<nat>) | CloseNode
    | MakePipe(pipe: Option<(nat, nat)>) | DropNode | Watch(accepted: bool)
    | WriteResult | LockToOpen | OpenBarrier | UnlockBarrier
    | Unhook(server: nat) | CloseServer | CloseConstraint
    | Environment(step: Step)

  // ---------- Guards ----------

  predicate IsSending(f: Fine, t: Thread) {
    t in f.sending
  }

  /** The event and the delay with which client `i` calls sendEventDelayed. */
  predicate ClientRequest(i: nat, ev: Event) {
    ev.OpenTimed? || (ev.OpenHandle? && ev.caller == i)
  }

  ghost predicate FineEnabled(f: Fine, step: FineStep) {
    match step
    case Request(i, ev) => i !in f.clients && ClientRequest(i, ev)
    case Acquire(t) => t in f.sending && f.sending[t].Wanting? && f.lock == None
    case NewKey(t) => t in f.sending && f.sending[t].Locked?
    case AddEntry(t) => t in f.sending && f.sending[t].Keyed?
    case Post(t) => t in f.sending && f.sending[t].Added?
    case Release(t) => t in f.sending && f.sending[t].Posted?
    case LockBarrier(i) => i in f.clients && f.clients[i].Waits? && i in f.frames && f.frames[i].holder == None
    case CheckBarrier(i) => i in f.clients && f.clients[i].Checks? && i in f.frames
    case WakeUp(i) => i in f.clients && f.clients[i].Sleeps?
    case Take => f.looper.Polling? && f.mem.queue != [] && f.mem.queue[0].due <= f.mem.now
    case LockTable => f.looper.Took? && f.lock == None
    case RemoveEntry => f.looper.Fetching?
    case UnlockTable => f.looper.Fetched? || f.looper.Missing?
    case OpenNode(node) =>
      f.looper.Running? && !f.looper.ev.CloseTimed? && (node.Some? ==> node.value !in f.mem.fds)
    case CloseNode => f.looper.Running? && f.looper.ev.CloseTimed?
    case MakePipe(pipe) =>
      && f.looper.Node? && f.looper.ev.OpenHandle?
      && (pipe.Some? ==>
            pipe.value.0 !in f.mem.fds && pipe.value.1 !in f.mem.fds && pipe.value.0 != pipe.value.1)
    case DropNode => f.looper.Dropping?
    case Watch(_) => f.looper.Piped? && f.looper.ev.OpenHandle?
    case WriteResult => f.looper.Writing?
    case LockToOpen => f.looper.Written? && (f.looper.caller in f.frames ==> f.frames[f.looper.caller].holder == None)
    case OpenBarrier => f.looper.Signals?
    case UnlockBarrier => f.looper.Signalled?
    case Unhook(server) =>
      && f.looper.Polling? && server in f.mem.contexts && server in f.mem.fds && f.mem.fds[server].PipeServer?
      && (forall g :: g in f.mem.fds ==> f.mem.fds[g] != PipeClient(f.mem.fds[server].call))
    case CloseServer => f.looper.Unhooked?
    case CloseConstraint => f.looper.HalfClosed?
    case Environment(step) =>
      match step {
        case DoTick(_) => true
        case DoClientClose(fd) => fd in f.mem.fds && f.mem.fds[fd].PipeClient? && f.mem.fds[fd].call in f.returned
        case DoForeignOpen(fd) => fd !in f.mem.fds
        case DoForeignClose(fd) => fd in f.mem.fds && f.mem.fds[fd].Foreign?
        case _ => false
      }
  }

  // ---------- Sender ----------

  function DoRequest(f: Fine, i: nat, ev: Event): Fine {
    f.(clients := f.clients[i := Sends],
       sending := f.sending[Client(i) := Wanting(ev, 0)],
       frames := if ev.OpenHandle? then f.frames[i := Frame(None, false, None)] else f.frames)
  }

  function DoAcquire(f: Fine, t: Thread): Fine
    requires IsSending(f, t)
  {
    f.(lock := Some(t), sending := f.sending[t := Locked(f.sending[t].ev, f.sending[t].delay)])
  }

  function DoNewKey(f: Fine, t: Thread): Fine
    requires IsSending(f, t)
  {
    f.(mem := f.mem.(nextKey := f.mem.nextKey + 1),
       sending := f.sending[t := Keyed(f.sending[t].ev, f.sending[t].delay, f.mem.nextKey)])
  }

  function DoAddEntry(f: Fine, t: Thread): Fine
    requires IsSending(f, t) && f.sending[t].Keyed?
  {
    var s := f.sending[t];
    f.(mem := f.mem.(table := f.mem.table[s.key := s.ev]), sending := f.sending[t := Added(s.ev, s.delay, s.key)])
  }

  /** What the record notes when an event is posted: a client's push, or a closing event armed. */
  function PostLog(f: Fine, t: Thread): Log
    requires IsSending(f, t) && f.sending[t].Added?
  {
    var (log, s) := (f.mem.log, f.sending[t]);
    match t
    case Client(_) => log.(history := log.history[s.key := Pushed(s.ev, f.mem.now)])
    case Looper =>
      if !f.looper.Arming? then log else
        log.(ran := log.ran + [f.looper.m],
             granted := log.granted[f.looper.m.key := Opening(f.looper.fd, s.key, f.mem.now, f.mem.now + s.delay)],
             closers := log.closers[s.key := f.looper.m.key])
  }

  function DoPost(f: Fine, t: Thread): Fine
    requires IsSending(f, t) && f.sending[t].Added?
  {
    var s := f.sending[t];
    f.(mem := f.mem.(queue := Insert(f.mem.queue, Message(f.mem.now + s.delay, s.key)), log := PostLog(f, t)),
       sending := f.sending[t := Posted(s.ev, s.delay, s.key)],
       looper := if t.Looper? then Armed else f.looper)
  }

  function DoRelease(f: Fine, t: Thread): Fine
    requires IsSending(f, t) && f.sending[t].Posted?
  {
    var s := f.sending[t];
    f.(lock := None,
       sending := f.sending - {t},
       clients := if t.Looper? then f.clients
                  else if s.ev.OpenHandle? then f.clients[t.id := Waits(s.key)]
                  else f.clients - {t.id},
       looper := if t.Looper? then Polling else f.looper)
  }

  // ---------- Barrier::wait ----------

  function DoLockBarrier(f: Fine, i: nat): Fine
    requires i in f.clients && f.clients[i].Waits? && i in f.frames
  {
    f.(clients := f.clients[i := Checks(f.clients[i].key)],
       frames := f.frames[i := f.frames[i].(holder := Some(Client(i)))])
  }

  /** The loop test under the barrier's lock: return, or release the lock and sleep. */
  function DoCheckBarrier(f: Fine, i: nat): Fine
    requires i in f.clients && f.clients[i].Checks? && i in f.frames
  {
    var k := f.clients[i].key;
    if f.frames[i].open then
      f.(clients := f.clients - {i}, frames := f.frames - {i},
         returned := f.returned[k := match f.frames[i].ret case Some(v) => v case None => 0])
    else
      f.(clients := f.clients[i := Sleeps(k)], frames := f.frames[i := f.frames[i].(holder := None)])
  }

  function DoWakeUp(f: Fine, i: nat): Fine
    requires i in f.clients && f.clients[i].Sleeps?
  {
    f.(clients := f.clients[i := Waits(f.clients[i].key)])
  }

  // ---------- Looper ----------

  function DoTake(f: Fine): Fine
    requires f.mem.queue != []
  {
    f.(mem := f.mem.(queue := f.mem.queue[1..]), looper := Took(f.mem.queue[0]))
  }

  function DoLockTable(f: Fine): Fine
    requires f.looper.Took?
  {
    f.(lock := Some(Looper), looper := Fetching(f.looper.m))
  }

  function DoRemoveEntry(f: Fine): Fine
    requires f.looper.Fetching?
  {
    var m := f.looper.m;
    if m.key in f.mem.table then
      f.(mem := f.mem.(table := f.mem.table - {m.key}), looper := Fetched(m, f.mem.table[m.key]))
    else f.(looper := Missing)
  }

  function DoUnlockTable(f: Fine): Fine
    requires f.looper.Fetched? || f.looper.Missing?
  {
    f.(lock := None, looper := if f.looper.Fetched? then Running(f.looper.m, f.looper.ev) else Polling)
  }

  function Ran(log: Log, m: Message): Log {
    log.(ran := log.ran + [m])
  }

  function DoOpenNode(f: Fine, node: Option<nat>): Fine
    requires f.looper.Running? && !f.looper.ev.CloseTimed?
  {
    var (m, ev) := (f.looper.m, f.looper.ev);
    match node
    case None =>
      if ev.OpenTimed? then
        f.(mem := f.mem.(log := Ran(f.mem.log, m).(failed := f.mem.log.failed + {m.key})), looper := Polling)
      else
        f.(mem := f.mem.(log := Ran(f.mem.log, m).(results := f.mem.log.results[m.key := -1])),
           looper := Writing(ev.caller, m.key, -1))
    case Some(fd) =>
      if ev.OpenTimed? then
        f.(mem := f.mem.(fds := f.mem.fds[fd := TimedConstraint(m.key)]),
           sending := f.sending[Looper := Wanting(CloseTimed(fd), ev.timeout)],
           looper := Arming(m, ev, fd))
      else
        f.(mem := f.mem.(fds := f.mem.fds[fd := HandleConstraint(m.key)]), looper := Node(m, ev, fd))
  }

  function DoCloseNode(f: Fine): Fine
    requires f.looper.Running? && f.looper.ev.CloseTimed?
  {
    f.(mem := RunCloseTimed(f.mem.(log := Ran(f.mem.log, f.looper.m)), f.looper.ev.fd), looper := Polling)
  }

  function DoMakePipe(f: Fine, pipe: Option<(nat, nat)>): Fine
    requires f.looper.Node? && f.looper.ev.OpenHandle?
  {
    var (m, ev, fd) := (f.looper.m, f.looper.ev, f.looper.fd);
    match pipe
    case None =>
      f.(mem := f.mem.(log := Ran(f.mem.log, m).(results := f.mem.log.results[m.key := -1])),
         looper := Dropping(ev.caller, m.key, fd))
    case Some((client, server)) =>
      f.(mem := f.mem.(fds := f.mem.fds[client := PipeClient(m.key)][server := PipeServer(m.key)]),
         looper := Piped(m, ev, fd, client, server))
  }

  function DoDropNode(f: Fine): Fine
    requires f.looper.Dropping?
  {
    f.(mem := f.mem.(fds := f.mem.fds - {f.looper.fd}), looper := Writing(f.looper.caller, f.looper.key, -1))
  }

  function DoWatch(f: Fine, accepted: bool): Fine
    requires f.looper.Piped? && f.looper.ev.OpenHandle?
  {
    var p := f.looper;
    var log := Ran(f.mem.log, p.m);
    f.(mem := f.mem.(contexts := if accepted then f.mem.contexts[p.server := Context(p.fd, p.m.key)]
                                 else f.mem.contexts,
                     log := log.(handles := log.handles[p.m.key := Handle(p.fd, p.client, p.server, accepted)],
                                 results := log.results[p.m.key := p.client])),
       looper := Writing(p.ev.caller, p.m.key, p.client))
  }

  /** A looper access to the frame of `caller`. */
  function Touch(f: Fine, caller: nat, frame: Frame -> Frame): Fine {
    if caller in f.frames then f.(frames := f.frames[caller := frame(f.frames[caller])]) else f.(corrupted := true)
  }

  function DoWriteResult(f: Fine): Fine
    requires f.looper.Writing?
  {
    var p := f.looper;
    Touch(f, p.caller, (fr: Frame) => fr.(ret := Some(p.value))).(looper := Written(p.caller, p.key))
  }

  function DoLockToOpen(f: Fine): Fine
    requires f.looper.Written?
  {
    var p := f.looper;
    Touch(f, p.caller, (fr: Frame) => fr.(holder := Some(Looper))).(looper := Signals(p.caller, p.key))
  }

  /** Sets the state and wakes every thread asleep on this barrier. */
  function DoOpenBarrier(f: Fine): Fine
    requires f.looper.Signals?
  {
    var p := f.looper;
    Touch(f, p.caller, (fr: Frame) => fr.(open := true))
      .(looper := Signalled(p.caller, p.key),
        clients := if p.caller in f.clients && f.clients[p.caller].Sleeps?
                   then f.clients[p.caller := Waits(f.clients[p.caller].key)] else f.clients)
  }

  function DoUnlockBarrier(f: Fine): Fine
    requires f.looper.Signalled?
  {
    Touch(f, f.looper.caller, (fr: Frame) => fr.(holder := None)).(looper := Polling)
  }

  function DoUnhook(f: Fine, server: nat): Fine
    requires server in f.mem.contexts
  {
    f.(mem := f.mem.(contexts := f.mem.contexts - {server}), looper := Unhooked(server, f.mem.contexts[server].fd))
  }

  function DoCloseServer(f: Fine): Fine
    requires f.looper.Unhooked?
  {
    f.(mem := f.mem.(fds := f.mem.fds - {f.looper.server}), looper := HalfClosed(f.looper.fd))
  }

  function DoCloseConstraint(f: Fine): Fine
    requires f.looper.HalfClosed?
  {
    f.(mem := f.mem.(fds := f.mem.fds - {f.looper.fd}), looper := Polling)
  }

  function DoEnvironment(f: Fine, step: Step): Fine
    requires step.DoTick? || step.DoClientClose? || step.DoForeignOpen? || step.DoForeignClose?
  {
    f.(mem := Apply(f.mem, step))
  }

  ghost function FineApply(f: Fine, step: FineStep): Fine
    requires FineEnabled(f, step)
  {
    match step
    case Request(i, ev) => DoRequest(f, i, ev)
    case Acquire(t) => DoAcquire(f, t)
    case NewKey(t) => DoNewKey(f, t)
    case AddEntry(t) => DoAddEntry(f, t)
    case Post(t) => DoPost(f, t)
    case Release(t) => DoRelease(f, t)
    case LockBarrier(i) => DoLockBarrier(f, i)
    case CheckBarrier(i) => DoCheckBarrier(f, i)
    case WakeUp(i) => DoWakeUp(f, i)
    case Take => DoTake(f)
    case LockTable => DoLockTable(f)
    case RemoveEntry => DoRemoveEntry(f)
    case UnlockTable => DoUnlockTable(f)
    case OpenNode(node) => DoOpenNode(f, node)
    case CloseNode => DoCloseNode(f)
    case MakePipe(pipe) => DoMakePipe(f, pipe)
    case DropNode => DoDropNode(f)
    case Watch(accepted) => DoWatch(f, accepted)
    case WriteResult => DoWriteResult(f)
    case LockToOpen => DoLockToOpen(f)
    case OpenBarrier => DoOpenBarrier(f)
    case UnlockBarrier => DoUnlockBarrier(f)
    case Unhook(server) => DoUnhook(f, server)
    case CloseServer => DoCloseServer(f)
    case CloseConstraint => DoCloseConstraint(f)
    case Environment(step) => DoEnvironment(f, step)
  }
}
