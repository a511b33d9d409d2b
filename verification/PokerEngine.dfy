/** Optional values. */
module Wrappers {
  datatype Option<+T> = None | Some(value: T)
}

/** The timeout engine of power/timeoutpoker.{h,cpp} as a machine over whole operations: one client
    push, one looper dispatch, one hang-up callback, one clock step. Times are in nanoseconds. */
module PokerEngine {
  import opened Wrappers

  /** What is written to a PM QoS node: one value, or a prioritised max/min pair. */
  datatype Command = Plain(val: int) | Prioritized(priority: int, max: int, min: int)

  /** `caller` stands for the caller's stack frame: its result slot and its barrier. */
  datatype Event =
    | OpenTimed(node: string, command: Command, timeout: int)
    | OpenHandle(node: string, command: Command, caller: nat)
    | CloseTimed(fd: nat)

  datatype Message = Message(due: int, key: nat)

  /** What an open descriptor number refers to. Numbers are reused after a close; objects never are:
      `request` and `call` are the key under which the opening event was pushed. */
  datatype Object =
    | TimedConstraint(request: nat)
    | HandleConstraint(call: nat)
    | PipeClient(call: nat)
    | PipeServer(call: nat)
    | Foreign

  /** The data registered with the looper for a pipe's server end. */
  datatype Context = Context(fd: nat, call: nat)

  datatype Pushed = Pushed(event: Event, at: int)
  datatype Opening = Opening(fd: nat, closer: nat, at: int, expires: int)
  datatype Handle = Handle(constraint: nat, client: nat, server: nat, listening: bool)

  datatype State = State(
    now: int,
    nextKey: nat,
    table: map<nat, Event>,
    queue: seq<Message>,
    fds: map<nat, Object>,
    contexts: map<nat, Context>,
    log: Log)

  /** A record of what happened, by the key of the client's push (`closers` goes from the key of a
      closing event to the request it was armed for). No operation reads it. */
  datatype Log = Log(
    history: map<nat, Pushed>,
    failed: set<nat>,
    granted: map<nat, Opening>,
    closers: map<nat, nat>,
    closedAt: map<nat, int>,
    handles: map<nat, Handle>,
    results: map<nat, int>,
    ran: seq<Message>)

  function Init(now: int): State {
    State(now, 0, map[], [], map[], map[], Log(map[], {}, map[], map[], map[], map[], map[], []))
  }

  // ---------- The looper's message queue (assumed contract) ----------

  /** Delivery order: by due time, and in order of posting among equals. */
  predicate Before(a: Message, b: Message) {
    a.due < b.due || (a.due == b.due && a.key < b.key)
  }

  function Insert(q: seq<Message>, m: Message): seq<Message> {
    if q == [] || m.due < q[0].due then [m] + q else [q[0]] + Insert(q[1..], m)
  }

  function Keys(q: seq<Message>): set<nat> {
    set m | m in q :: m.key
  }

  // ---------- Operations ----------

  function SendDelayed(s: State, delay: int, ev: Event): State {
    s.(nextKey := s.nextKey + 1,
       table := s.table[s.nextKey := ev],
       queue := Insert(s.queue, Message(s.now + delay, s.nextKey)))
  }

  function Push(s: State, ev: Event): State {
    SendDelayed(s.(log := s.log.(history := s.log.history[s.nextKey := Pushed(ev, s.now)])), 0, ev)
  }

  /** The environment's answers while one event runs: the node's descriptor, the pipe's two ends,
      and whether the looper accepted the server end. */
  datatype Response = Response(node: Option<nat>, pipe: Option<(nat, nat)>, listening: bool)

  /** The kernel hands out any numbers that are not in use. */
  predicate Unused(fds: map<nat, Object>, r: Response) {
    && (r.node.Some? ==> r.node.value !in fds)
    && (r.pipe.Some? ==>
          && r.pipe.value.0 !in fds && r.pipe.value.1 !in fds && r.pipe.value.0 != r.pipe.value.1
          && r.node != Some(r.pipe.value.0) && r.node != Some(r.pipe.value.1))
  }

  function RunOpenTimed(s: State, key: nat, timeout: int, node: Option<nat>): State {
    match node
    case None => s.(log := s.log.(failed := s.log.failed + {key}))
    case Some(fd) =>
      SendDelayed(s.(fds := s.fds[fd := TimedConstraint(key)],
                     log := s.log.(granted := s.log.granted[key := Opening(fd, s.nextKey, s.now, s.now + timeout)],
                                   closers := s.log.closers[s.nextKey := key])),
                  timeout, CloseTimed(fd))
  }

  function RunOpenHandle(s: State, key: nat, r: Response): State {
    if r.node.None? || r.pipe.None? then
      s.(log := s.log.(results := s.log.results[key := -1]))
    else
      var (fd, client, server) := (r.node.value, r.pipe.value.0, r.pipe.value.1);
      s.(fds := s.fds[fd := HandleConstraint(key)][client := PipeClient(key)][server := PipeServer(key)],
         contexts := if r.listening then s.contexts[server := Context(fd, key)] else s.contexts,
         log := s.log.(handles := s.log.handles[key := Handle(fd, client, server, r.listening)],
                       results := s.log.results[key := client]))
  }

  /** `close(fd)` closes whatever the number refers to now. */
  function RunCloseTimed(s: State, fd: nat): State {
    s.(fds := s.fds - {fd},
       log := if fd in s.fds && s.fds[fd].TimedConstraint?
              then s.log.(closedAt := s.log.closedAt[s.fds[fd].request := s.now]) else s.log)
  }

  function RunEvent(s: State, key: nat, ev: Event, r: Response): State {
    match ev
    case OpenTimed(_, _, timeout) => RunOpenTimed(s, key, timeout, r.node)
    case OpenHandle(_, _, _) => RunOpenHandle(s, key, r)
    case CloseTimed(fd) => RunCloseTimed(s, fd)
  }

  function Dispatch(s: State, r: Response): State
    requires s.queue != []
  {
    var m := s.queue[0];
    var t := s.(queue := s.queue[1..], log := s.log.(ran := s.log.ran + [m]));
    if m.key !in s.table then t
    else RunEvent(t.(table := t.table - {m.key}), m.key, s.table[m.key], r)
  }

  function HangUp(s: State, server: nat): State
    requires server in s.contexts
  {
    s.(contexts := s.contexts - {server}, fds := s.fds - {server, s.contexts[server].fd})
  }

  // ---------- Runs ----------

  datatype Step =
    | DoPush(ev: Event)
    | DoDispatch(r: Response)
    | DoTick(d: nat)
    | DoClientClose(fd: nat)
    | DoHangUp(server: nat)
    | DoForeignOpen(fd: nat)
    | DoForeignClose(fd: nat)

  ghost predicate Enabled(s: State, step: Step) {
    match step
    case DoPush(ev) => !ev.CloseTimed?
    case DoDispatch(r) => s.queue != [] && s.queue[0].due <= s.now && Unused(s.fds, r)
    case DoTick(_) => true
    case DoClientClose(fd) => fd in s.fds && s.fds[fd].PipeClient?
    case DoHangUp(server) =>
      && server in s.contexts && server in s.fds && s.fds[server].PipeServer?
      && forall f :: f in s.fds ==> s.fds[f] != PipeClient(s.fds[server].call)
    case DoForeignOpen(fd) => fd !in s.fds
    case DoForeignClose(fd) => fd in s.fds && s.fds[fd].Foreign?
  }

  function Apply(s: State, step: Step): State
    requires step.DoDispatch? ==> s.queue != []
    requires step.DoHangUp? ==> step.server in s.contexts
  {
    match step
    case DoPush(ev) => Push(s, ev)
    case DoDispatch(r) => Dispatch(s, r)
    case DoTick(d) => s.(now := s.now + d)
    case DoClientClose(fd) => s.(fds := s.fds - {fd})
    case DoHangUp(server) => HangUp(s, server)
    case DoForeignOpen(fd) => s.(fds := s.fds[fd := Foreign])
    case DoForeignClose(fd) => s.(fds := s.fds - {fd})
  }

  /** Prompt dispatch: the clock never moves past the due time of a pending message. */
  predicate Prompt(s: State, step: Step) {
    step.DoTick? && step.d > 0 && s.queue != [] ==> s.now + step.d <= s.queue[0].due
  }

  ghost predicate Feasible(s: State, steps: seq<Step>)
    decreases |steps|
  {
    steps != [] ==> Enabled(s, steps[0]) && Feasible(Apply(s, steps[0]), steps[1..])
  }

  ghost predicate PromptRun(s: State, steps: seq<Step>)
    requires Feasible(s, steps)
    decreases |steps|
  {
    steps != [] ==> Prompt(s, steps[0]) && PromptRun(Apply(s, steps[0]), steps[1..])
  }

  ghost function Execute(s: State, steps: seq<Step>): State
    requires Feasible(s, steps)
    decreases |steps|
  {
    if steps == [] then s else Execute(Apply(s, steps[0]), steps[1..])
  }

  /** Nothing is left to handle at this instant. */
  predicate Settled(s: State) {
    s.queue != [] ==> s.now < s.queue[0].due
  }
}
