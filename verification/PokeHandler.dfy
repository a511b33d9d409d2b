/** PokeHandler of power/timeoutpoker.{h,cpp} as the source has it: an object with a key counter and a keyed table,
    posting to a looper and opening descriptors in a kernel. Each operation is proved to be the engine's. */
module PokerObjects {
  import opened Wrappers
  import opened PokerEngine
  import opened Barriers
  import opened ConstraintCommand
  import opened CText

  newtype int32 = x: int | -0x8000_0000 <= x < 0x8000_0000

  /** The bytes of one write: an int as it is in memory, or a text. */
  datatype Payload = Binary(val: int) | Characters(text: string)

  /** What a request puts into its node: an int by itself, or "max min priority 0" as far as it fits in 20 characters
      with a terminator. A reader of that format gets the request back if and only if all of it fits. */
  ghost predicate Carries(p: Payload, c: Command) {
    match c
    case Plain(val) => p == Binary(val)
    case Prioritized(priority, max, min) =>
      p.Characters? &&
      var whole := Decimal(max) + " " + Decimal(min) + " " + Decimal(priority) + " 0";
      if |whole| < 20 then p.text == whole && Read(p.text) == Some(Constraint(max, min, priority, 0))
      else p.text == whole[..19] && Read(p.text) == None
  }

  /** One write more, of the request to descriptor `fd`. */
  ghost predicate Wrote(before: seq<(nat, Payload)>, after: seq<(nat, Payload)>, fd: nat, c: Command) {
    && |after| == |before| + 1 && after[..|before|] == before
    && after[|before|].0 == fd && Carries(after[|before|].1, c)
  }

  /** What opening a node for a request leaves behind: the path that was opened and what was written, or nothing. */
  ghost predicate Requested(opens: seq<(nat, string)>, opens': seq<(nat, string)>, writes: seq<(nat, Payload)>,
                            writes': seq<(nat, Payload)>, node: Option<nat>, path: string, c: Command) {
    match node
    case None => opens' == opens && writes' == writes
    case Some(fd) => opens' == opens + [(fd, path)] && Wrote(writes, writes', fd, c)
  }

  /** The kernel answers open and pipe with numbers that are not in use; which ones is up to it. */
  class Kernel {
    ghost var fds: map<nat, Object>
    var opens: seq<(nat, string)>
    var writes: seq<(nat, Payload)>

    method Open(path: string, answer: Option<nat>, ghost target: Object) returns (fd: int)
      requires answer.Some? ==> answer.value !in fds
      modifies this
      ensures fd == (if answer.Some? then answer.value else -1) && writes == old(writes)
      ensures opens == old(opens) + if answer.Some? then [(answer.value, path)] else []
      ensures fds == if answer.Some? then old(fds)[answer.value := target] else old(fds)
    {
      if answer.None? { return -1; }
      fds, opens := fds[answer.value := target], opens + [(answer.value, path)];
      return answer.value;
    }

    method Pipe(answer: Option<(nat, nat)>, ghost call: nat) returns (res: int, client: int, server: int)
      requires answer.Some? ==> answer.value.0 !in fds && answer.value.1 !in fds && answer.value.0 != answer.value.1
      modifies this
      ensures answer.None? <==> res != 0
      ensures answer.Some? ==> client == answer.value.0 && server == answer.value.1
      ensures fds == if answer.None? then old(fds)
                     else old(fds)[answer.value.0 := PipeClient(call)][answer.value.1 := PipeServer(call)]
      ensures writes == old(writes) && opens == old(opens)
    {
      if answer.None? { return -1, -1, -1; }
      fds := fds[answer.value.0 := PipeClient(call)][answer.value.1 := PipeServer(call)];
      return 0, answer.value.0, answer.value.1;
    }

    method Write(fd: nat, payload: Payload)
      modifies this
      ensures writes == old(writes) + [(fd, payload)] && fds == old(fds) && opens == old(opens)
    {
      writes := writes + [(fd, payload)];
    }

    method Close(fd: nat)
      modifies this
      ensures fds == old(fds) - {fd} && writes == old(writes) && opens == old(opens)
    {
      fds := fds - {fd};
    }
  }

  /** The looper, by its assumed contract: messages in delivery order, callbacks by descriptor. */
  class Looper {
    var now: int
    var queue: seq<Message>
    var callbacks: map<nat, Context>

    constructor (now: int)
      ensures this.now == now && queue == [] && callbacks == map[]
    {
      this.now, queue, callbacks := now, [], map[];
    }

    method SendMessageDelayed(delay: int, what: nat)
      modifies this
      ensures queue == Insert(old(queue), Message(now + delay, what)) && now == old(now) && callbacks == old(callbacks)
    {
      queue := Insert(queue, Message(now + delay, what));
    }

    method Take() returns (m: Message)
      requires queue != [] && queue[0].due <= now
      modifies this
      ensures m == old(queue[0]) && queue == old(queue[1..]) && now == old(now) && callbacks == old(callbacks)
    {
      m := queue[0];
      queue := queue[1..];
    }

    method AddFd(fd: nat, accepted: bool, data: Context) returns (res: int)
      modifies this
      ensures callbacks == (if accepted then old(callbacks)[fd := data] else old(callbacks))
      ensures queue == old(queue) && now == old(now)
    {
      if !accepted { return -1; }
      callbacks := callbacks[fd := data];
      return 1;
    }

    method RemoveFd(fd: nat)
      modifies this
      ensures callbacks == old(callbacks) - {fd} && queue == old(queue) && now == old(now)
    {
      callbacks := callbacks - {fd};
    }
  }

  /** The stack frame of a thread inside createPmQosHandle. */
  class Caller {
    var ret: int
    const done: Barrier

    constructor ()
      ensures fresh(done) && done.state == CLOSED
    {
      done := new Barrier();
    }
  }

  class PokeHandler {
    var mKey: int32
    var mQueuedEvents: map<nat, Event>
    var callers: map<nat, Caller>
    const looper: Looper
    const kernel: Kernel
    ghost var log: Log

    /** Starts the looper thread and waits until it says that its looper is there. Thread and caller are shown here
        one after the other; Startup has their interleavings. */
    constructor (kernel: Kernel, now: int, readyToRun: Barrier)
      modifies readyToRun
      ensures Valid() && Abs() == Init(now).(fds := kernel.fds) && this.kernel == kernel && callers == map[]
      ensures fresh(looper) && readyToRun.state == OPENED
    {
      mKey, mQueuedEvents, callers := 0, map[], map[];
      looper := new Looper(now);
      this.kernel := kernel;
      log := Init(now).log;
      new;
      readyToRun.Open();
      var through, sleeps := readyToRun.Wait([]);
    }

    /** Keys are not negative, and what a queued event points to is there, separate for each caller. */
    ghost predicate Valid()
      reads this
    {
      && mKey >= 0
      && (forall k :: k in mQueuedEvents && mQueuedEvents[k].OpenHandle? ==> mQueuedEvents[k].caller in callers)
      && (forall i, j :: i in callers && j in callers && i != j ==>
            callers[i] != callers[j] && callers[i].done != callers[j].done)
    }

    ghost function Abs(): State
      requires mKey >= 0
      reads this, looper, kernel
    {
      State(looper.now, mKey as nat, mQueuedEvents, looper.queue, kernel.fds, looper.callbacks, log)
    }

    ghost function Frames(): set<object>
      reads this
    {
      (set i | i in callers :: callers[i] as object) + (set i | i in callers :: callers[i].done as object)
    }

    // ---------- Posting ----------

    method GenerateNewKey() returns (key: int32)
      requires mKey < 0x7FFF_FFFF
      modifies this`mKey
      ensures key == old(mKey) && mKey == old(mKey) + 1
    {
      key := mKey;
      mKey := mKey + 1;
    }

    method SendEventDelayed(delay: int, ev: Event)
      requires mKey >= 0 && mKey < 0x7FFF_FFFF
      modifies this`mKey, this`mQueuedEvents, looper
      ensures mKey >= 0 && Abs() == SendDelayed(old(Abs()), delay, ev)
    {
      var key := GenerateNewKey();
      mQueuedEvents := mQueuedEvents[key as nat := ev];
      looper.SendMessageDelayed(delay, key as nat);
    }

    method PushEvent(ev: Event)
      requires Valid() && mKey < 0x7FFF_FFFF && (ev.OpenHandle? ==> ev.caller in callers)
      modifies this`mKey, this`mQueuedEvents, this`log, looper
      ensures Valid() && Abs() == Push(old(Abs()), ev)
    {
      log := log.(history := log.history[mKey as nat := Pushed(ev, looper.now)]);
      SendEventDelayed(0, ev);
    }

    method RemoveEventByKey(what: nat) returns (e: Option<Event>)
      modifies this`mQueuedEvents
      ensures e == (if what in old(mQueuedEvents) then Some(old(mQueuedEvents)[what]) else None)
      ensures mQueuedEvents == old(mQueuedEvents) - {what}
    {
      e := if what in mQueuedEvents then Some(mQueuedEvents[what]) else None;
      mQueuedEvents := mQueuedEvents - {what};
    }

    // ---------- Opening ----------

    method OpenPmQosNode(path: string, command: Command, node: Option<nat>, ghost target: Object) returns (fd: int)
      requires node.Some? ==> node.value !in kernel.fds
      modifies kernel
      ensures fd == if node.Some? then node.value else -1
      ensures kernel.fds == if node.Some? then old(kernel.fds)[node.value := target] else old(kernel.fds)
      ensures Requested(old(kernel.opens), kernel.opens, old(kernel.writes), kernel.writes, node, path, command)
    {
      hide Read, Decimal;
      fd := kernel.Open(path, node, target);
      if fd < 0 { return -1; }
      match command {
        case Plain(val) =>
          kernel.Write(fd, Binary(val));
        case Prioritized(priority, max, min) =>
          var text := new char[COMMAND_SIZE];
          var size := CreateConstraintCommand(text, COMMAND_SIZE, priority, max, min);
          CommandCarries(priority, max, min);
          kernel.Write(fd, Characters(text[..size]));
      }
    }

    /** The result of addFd is not looked at. */
    method CreateHandleForFd(fd: nat, r: Response, call: nat) returns (res: int)
      requires r.pipe.Some? ==> r.pipe.value.0 !in kernel.fds && r.pipe.value.1 !in kernel.fds
                                && r.pipe.value.0 != r.pipe.value.1
      modifies kernel, looper
      ensures res == if r.pipe.Some? then r.pipe.value.0 else -1
      ensures kernel.fds == if r.pipe.None? then old(kernel.fds) - {fd}
                else old(kernel.fds)[r.pipe.value.0 := PipeClient(call)][r.pipe.value.1 := PipeServer(call)]
      ensures looper.callbacks == if r.pipe.Some? && r.listening
                then old(looper.callbacks)[r.pipe.value.1 := Context(fd, call)] else old(looper.callbacks)
      ensures looper.queue == old(looper.queue) && looper.now == old(looper.now)
      ensures kernel.writes == old(kernel.writes) && kernel.opens == old(kernel.opens)
    {
      var failed, client, server := kernel.Pipe(r.pipe, call);
      if failed != 0 {
        kernel.Close(fd);
        return -1;
      }
      var _ := looper.AddFd(server, r.listening, Context(fd, call));
      return client;
    }

    // ---------- Running events ----------

    method OpenPmQosTimed(path: string, command: Command, timeout: int, node: Option<nat>, ghost request: nat)
      requires mKey >= 0 && mKey < 0x7FFF_FFFF && (node.Some? ==> node.value !in kernel.fds)
      modifies this`mKey, this`mQueuedEvents, this`log, looper, kernel
      ensures mKey >= 0 && Abs() == RunOpenTimed(old(Abs()), request, timeout, node)
      ensures Requested(old(kernel.opens), kernel.opens, old(kernel.writes), kernel.writes, node, path, command)
    {
      hide Requested;
      var fd := OpenPmQosNode(path, command, node, TimedConstraint(request));
      if fd < 0 {
        log := log.(failed := log.failed + {request});
        return;
      }
      log := log.(granted := log.granted[request := Opening(fd, mKey as nat, looper.now, looper.now + timeout)],
                  closers := log.closers[mKey as nat := request]);
      SendEventDelayed(timeout, CloseTimed(fd));
    }

    method CreateHandleForPmQosRequest(path: string, command: Command, r: Response, call: nat) returns (fd: int)
      requires mKey >= 0 && Unused(kernel.fds, r)
      modifies this`log, looper, kernel
      ensures Abs() == RunOpenHandle(old(Abs()), call, r) && fd == log.results[call]
      ensures fd == if r.node.None? || r.pipe.None? then -1 else r.pipe.value.0
      ensures fd != -1 ==> fd in kernel.fds && kernel.fds[fd] == PipeClient(call)
      ensures Requested(old(kernel.opens), kernel.opens, old(kernel.writes), kernel.writes, r.node, path, command)
    {
      hide Requested;
      fd := OpenPmQosNode(path, command, r.node, HandleConstraint(call));
      if fd >= 0 {
        ghost var constraint := fd;
        fd := CreateHandleForFd(fd, r, call);
        if r.pipe.Some? {
          log := log.(handles := log.handles[call := Handle(constraint, r.pipe.value.0, r.pipe.value.1, r.listening)]);
        } else {
          assert kernel.fds == old(kernel.fds);
        }
      }
      log := log.(results := log.results[call := fd]);
    }

    method TimeoutRequest(fd: nat)
      requires mKey >= 0
      modifies this`log, kernel
      ensures Abs() == RunCloseTimed(old(Abs()), fd)
      ensures kernel.writes == old(kernel.writes) && kernel.opens == old(kernel.opens)
    {
      if fd in kernel.fds && kernel.fds[fd].TimedConstraint? {
        log := log.(closedAt := log.closedAt[kernel.fds[fd].request := looper.now]);
      }
      kernel.Close(fd);
    }

    /** What running an event opens and writes: the event's own node and its own request; a closing event none. */
    twostate predicate NodeServed(e: Event, r: Response)
      reads kernel
    {
      if e.CloseTimed? then kernel.writes == old(kernel.writes) && kernel.opens == old(kernel.opens)
      else Requested(old(kernel.opens), kernel.opens, old(kernel.writes), kernel.writes, r.node, e.node, e.command)
    }

    /** The frame of caller `i` is as it was. */
    twostate predicate FrameKept(i: nat)
      requires i in callers && callers == old(callers)
      reads this, callers[i], callers[i].done
    {
      callers[i].ret == old(callers[i].ret) && callers[i].done.state == old(callers[i].done.state)
    }

    /** The call behind event `key` is over for caller `i`: its barrier is open, and it was left -1, or the client's end
        of its own pipe if the node and the pipe could be opened. */
    ghost predicate Answered(i: nat, key: nat, r: Response)
      requires i in callers
      reads this, callers[i], callers[i].done, kernel
    {
      var (ret, failed) := (callers[i].ret, r.node.None? || r.pipe.None?);
      && callers[i].done.state == OPENED && (ret == -1 <==> failed)
      && (!failed ==> ret in kernel.fds && kernel.fds[ret] == PipeClient(key))
    }

    /** The result goes into the caller's frame, and then its barrier is opened. */
    method RunOpenHandleEvent(path: string, command: Command, caller: nat, r: Response, key: nat)
      requires Valid() && Unused(kernel.fds, r) && caller in callers
      modifies this`log, looper, kernel, callers[caller], callers[caller].done
      ensures Abs() == RunOpenHandle(old(Abs()), key, r)
      ensures Requested(old(kernel.opens), kernel.opens, old(kernel.writes), kernel.writes, r.node, path, command)
      ensures Answered(caller, key, r) && callers[caller].ret == log.results[key]
    {
      hide Requested;
      var frame := callers[caller];
      frame.ret := CreateHandleForPmQosRequest(path, command, r, key);
      frame.done.Open();
    }

    /** Of the waiting callers, only the event's own has its result written and its barrier opened. */
    method Run(e: Event, r: Response, key: nat)
      requires Valid() && mKey < 0x7FFF_FFFF && Unused(kernel.fds, r) && (e.OpenHandle? ==> e.caller in callers)
      modifies this`mKey, this`mQueuedEvents, this`log, looper, kernel, Frames()
      ensures Valid() && Abs() == RunEvent(old(Abs()), key, e, r)
      ensures NodeServed(e, r)
      ensures forall i :: i in callers ==>
                if e.OpenHandle? && i == e.caller then Answered(i, key, r) && callers[i].ret == log.results[key]
                else FrameKept(i)
    {
      hide Requested;
      match e {
        case OpenTimed(path, command, timeout) =>
          OpenPmQosTimed(path, command, timeout, r.node, key);
        case OpenHandle(path, command, caller) =>
          RunOpenHandleEvent(path, command, caller, r, key);
        case CloseTimed(fd) =>
          TimeoutRequest(fd);
      }
    }

    method HandleMessage(what: nat, r: Response)
      requires Valid() && mKey < 0x7FFF_FFFF && Unused(kernel.fds, r)
      modifies this`mKey, this`mQueuedEvents, this`log, looper, kernel, Frames()
      ensures Valid()
      ensures var s := old(Abs());
              Abs() == if what in s.table then RunEvent(s.(table := s.table - {what}), what, s.table[what], r) else s
      ensures what in old(mQueuedEvents) ==> NodeServed(old(mQueuedEvents[what]), r)
      ensures what !in old(mQueuedEvents) ==> kernel.writes == old(kernel.writes) && kernel.opens == old(kernel.opens)
      ensures forall i :: i in callers ==>
                if what in old(mQueuedEvents) && old(mQueuedEvents[what]).OpenHandle?
                   && i == old(mQueuedEvents[what]).caller
                then Answered(i, what, r) else FrameKept(i)
    {
      var e := RemoveEventByKey(what);
      if e.Some? {
        Run(e.value, r, what);
      } else {
        assert mQueuedEvents == old(mQueuedEvents);
      }
    }

    /** One turn of the looper thread that finds a message due. */
    method PollOnce(r: Response)
      requires Valid() && mKey < 0x7FFF_FFFF && Unused(kernel.fds, r)
      requires looper.queue != [] && looper.queue[0].due <= looper.now
      modifies this`mKey, this`mQueuedEvents, this`log, looper, kernel, Frames()
      ensures Valid() && Abs() == Dispatch(old(Abs()), r)
      ensures if old(looper.queue[0].key !in mQueuedEvents)
              then kernel.writes == old(kernel.writes) && kernel.opens == old(kernel.opens)
              else NodeServed(old(mQueuedEvents[looper.queue[0].key]), r)
      ensures var what := old(looper.queue[0].key);
              forall i :: i in callers ==>
                if what in old(mQueuedEvents) && old(mQueuedEvents)[what].OpenHandle?
                   && i == old(mQueuedEvents)[what].caller
                then Answered(i, what, r) else FrameKept(i)
    {
      log := log.(ran := log.ran + [looper.queue[0]]);
      var m := looper.Take();
      HandleMessage(m.key, r);
    }

    /** The looper calls this for a registered descriptor; false tells it to forget the callback. */
    method PipeCloseCb(handle: nat, hangUp: bool) returns (keep: bool)
      requires Valid() && handle in looper.callbacks
      modifies looper, kernel
      ensures keep == !hangUp && Valid() && kernel.writes == old(kernel.writes) && kernel.opens == old(kernel.opens)
      ensures Abs() == if hangUp then HangUp(old(Abs()), handle) else old(Abs())
    {
      if hangUp {
        var ctx := looper.callbacks[handle];
        looper.RemoveFd(handle);
        kernel.Close(handle);
        kernel.Close(ctx.fd);
        assert kernel.fds == old(kernel.fds) - {handle, ctx.fd};
        return false;
      }
      return true;
    }

    // ---------- Clients ----------

    method RequestPmQosTimed(node: string, command: Command, timeout: int)
      requires Valid() && mKey < 0x7FFF_FFFF
      modifies this`mKey, this`mQueuedEvents, this`log, looper
      ensures Valid() && Abs() == Push(old(Abs()), OpenTimed(node, command, timeout)) && mKey == old(mKey) + 1
    {
      PushEvent(OpenTimed(node, command, timeout));
    }

    /** createPmQosHandle up to its wait: thread `i` pushes an event that points to its own frame. */
    method EnterCreatePmQosHandle(i: nat, node: string, command: Command) returns (frame: Caller)
      requires Valid() && mKey < 0x7FFF_FFFF && i !in callers
      modifies this`mKey, this`mQueuedEvents, this`callers, this`log, looper
      ensures Valid() && Abs() == Push(old(Abs()), OpenHandle(node, command, i))
      ensures fresh(frame) && fresh(frame.done) && callers == old(callers)[i := frame] && frame.done.state == CLOSED
    {
      frame := new Caller();
      callers := callers[i := frame];
      PushEvent(OpenHandle(node, command, i));
    }

    /** createPmQosHandle after its wait: the frame goes, and no queued event may point to it. */
    method LeaveCreatePmQosHandle(i: nat) returns (ret: int)
      requires Valid() && i in callers && callers[i].done.state == OPENED
      requires forall k :: k in mQueuedEvents && mQueuedEvents[k].OpenHandle? ==> mQueuedEvents[k].caller != i
      modifies this`callers
      ensures Valid() && ret == old(callers[i].ret) && callers == old(callers) - {i} && Abs() == old(Abs())
    {
      ret := callers[i].ret;
      callers := callers - {i};
    }
  }

  /** The text that the command buffer holds. */
  lemma CommandCarries(priority: int, max: int, min: int)
    ensures Carries(Characters(Cut(Text(priority, max, min), COMMAND_SIZE)), Prioritized(priority, max, min))
  {
    hide Read, Decimal;
    ReadBackIff(priority, max, min, COMMAND_SIZE);
  }
}
