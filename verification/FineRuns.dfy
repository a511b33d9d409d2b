/** Whole runs of the fine machine: what its lock steps, barriers and frames guarantee. */
module FineRuns {
  import opened Wrappers
  import opened PokerEngine
  import opened EngineInvariant
  import opened EngineTheorems
  import opened Interleaving
  import opened InterleavingRefines
  import opened Rendezvous
  import opened FineTheorems

  ghost predicate FineFeasible(f: Fine, steps: seq<FineStep>)
    decreases |steps|
  {
    steps != [] ==> FineEnabled(f, steps[0]) && FineFeasible(FineApply(f, steps[0]), steps[1..])
  }

  ghost function FineExecute(f: Fine, steps: seq<FineStep>): Fine
    requires FineFeasible(f, steps)
    decreases |steps|
  {
    if steps == [] then f else FineExecute(FineApply(f, steps[0]), steps[1..])
  }

  /** The clock moves only while the looper is idle and not past the first pending due time. */
  ghost predicate FinePrompt(f: Fine, step: FineStep) {
    step.Environment? ==> Prompt(f.mem, step.step) && (step.step.DoTick? && step.step.d > 0 ==> f.looper.Polling?)
  }

  ghost predicate FinePromptRun(f: Fine, steps: seq<FineStep>)
    requires FineFeasible(f, steps)
    decreases |steps|
  {
    steps != [] ==> FinePrompt(f, steps[0]) && FinePromptRun(FineApply(f, steps[0]), steps[1..])
  }

  ghost predicate FineReachable(f: Fine) {
    exists now, steps :: FineFeasible(FineInit(now), steps) && f == FineExecute(FineInit(now), steps)
  }

  lemma FineInitInv(now: int)
    ensures FineInv(FineInit(now)) && Abs(FineInit(now)) == Init(now)
  {
    InitInv(now);
    assert Abs(FineInit(now)) == Init(now);
    hide Inv;
  }

  lemma PromptMatches(f: Fine, step: FineStep)
    requires FineEnabled(f, step) && FinePrompt(f, step) && CoarseStep(f, step).Some?
    ensures Prompt(Abs(f), CoarseStep(f, step).value)
  {
  }

  /** Every run of the fine machine is, step by step, a run of the coarse machine. */
  lemma {:induction false} FineRunRefines(f: Fine, steps: seq<FineStep>) returns (coarse: seq<Step>)
    requires FineInv(f) && FineFeasible(f, steps)
    ensures FineInv(FineExecute(f, steps))
    ensures Feasible(Abs(f), coarse) && Execute(Abs(f), coarse) == Abs(FineExecute(f, steps))
    ensures FinePromptRun(f, steps) ==> PromptRun(Abs(f), coarse)
    decreases |steps|
  {
    hide Inv, Shape, Met, FineEnabled, FineApply, Abs, Enabled, Apply, Prompt, FinePrompt;
    if steps == [] {
      coarse := [];
    } else {
      FineStepKeeps(f, steps[0]);
      var rest := FineRunRefines(FineApply(f, steps[0]), steps[1..]);
      match CoarseStep(f, steps[0])
      case None => coarse := rest;
      case Some(c) =>
        coarse := [c] + rest;
        assert coarse[1..] == rest;
        if FinePrompt(f, steps[0]) { PromptMatches(f, steps[0]); }
    }
  }

  lemma FineReachableInv(f: Fine)
    requires FineReachable(f)
    ensures FineInv(f) && Reachable(Abs(f))
  {
    var now, steps :| FineFeasible(FineInit(now), steps) && f == FineExecute(FineInit(now), steps);
    FineInitInv(now);
    var coarse := FineRunRefines(FineInit(now), steps);
  }

  // ---------- Locks and the key table ----------

  /** Whenever nobody holds mEvLock, the keys in the table are exactly the keys of the messages that
      are queued or just delivered, each once. */
  lemma TableMatchesMessages(f: Fine)
    requires FineReachable(f) && f.lock == None
    ensures f.looper.Took? ==> f.looper.m.key !in Keys(f.mem.queue)
    ensures f.mem.table.Keys == Keys(f.mem.queue) + (if f.looper.Took? then {f.looper.m.key} else {})
    ensures DistinctKeys(f.mem.queue)
  {
    hide Met, RequestsTracked, OutcomesTracked, TimedOwned, TimedDue, HandlesOwned, FineReachable;
    FineReachableInv(f);
    QueueWithHand(f.mem.queue, f.looper, Abs(f).table, Abs(f).nextKey);
  }

  lemma QueueWithHand(q: seq<Message>, l: LooperPc, table: map<nat, Event>, nextKey: nat)
    requires Agreement(AbsQueue(q, l), table, nextKey)
    ensures DistinctKeys(q)
    ensures InHand(l).Some? ==> InHand(l).value.key in table && InHand(l).value.key !in Keys(q)
                                && Keys(q) == table.Keys - {InHand(l).value.key}
    ensures InHand(l).None? ==> Keys(q) == table.Keys
  {
    if InHand(l).Some? {
      var a := AbsQueue(q, l);
      assert a[1..] == q;
      TakeAgrees(a, table, nextKey);
    }
  }

  /** The looper always finds the event of the message it was given, and the table is not empty when
      it looks. */
  lemma LookupSucceeds(f: Fine)
    requires FineReachable(f)
    ensures !f.looper.Missing?
    ensures f.looper.Took? || f.looper.Fetching? ==> f.looper.m.key in f.mem.table && f.mem.table != map[]
  {
    FineReachableInv(f);
    if f.looper.Fetching? { EntryIsThere(f); }
    if f.looper.Took? {
      assert f.looper.m in Abs(f).queue;
      assert f.looper.m.key in Keys(Abs(f).queue);
    }
  }

  /** At most one thread is between taking and releasing mEvLock. */
  lemma MutualExclusion(f: Fine, t: Thread, u: Thread)
    requires FineReachable(f) && t in f.sending && u in f.sending && !f.sending[t].Wanting? && !f.sending[u].Wanting?
    ensures t == u && !HoldsTable(f.looper)
  {
    FineReachableInv(f);
  }

  // ---------- The rendezvous of createPmQosHandle ----------

  /** Every event that is queued, in hand or being answered points at a live frame, that of the one
      client that awaits it; the looper never touched a frame that was gone. */
  lemma NoDanglingReference(f: Fine)
    requires FineReachable(f)
    ensures !f.corrupted
    ensures forall k :: k in f.mem.table && f.mem.table[k].OpenHandle? ==>
              && f.mem.table[k].caller in f.frames
              && (StatusOf(f.clients, f.sending, f.mem.table[k].caller) == Calling
                  || Awaits(StatusOf(f.clients, f.sending, f.mem.table[k].caller), k))
    ensures HasEvent(f.looper) && f.looper.ev.OpenHandle? ==>
              && f.looper.ev.caller in f.frames
              && Awaits(StatusOf(f.clients, f.sending, f.looper.ev.caller), f.looper.m.key)
    ensures Answering(f.looper) ==>
              && f.looper.caller in f.frames
              && Awaits(StatusOf(f.clients, f.sending, f.looper.caller), f.looper.key)
    ensures forall i :: i !in f.clients ==> i !in f.frames
  {
    FineReachableInv(f);
    hide Inv, Shape, Met, Abs, StatusOf, Awaits;
    QueuedReferences(f);
    HeldReferences(f);
    FramesHaveCallers(f);
  }

  lemma QueuedReferences(f: Fine)
    requires Shape(f) && Met(f)
    ensures !f.corrupted
    ensures forall k :: k in f.mem.table && f.mem.table[k].OpenHandle? ==>
              && f.mem.table[k].caller in f.frames
              && (StatusOf(f.clients, f.sending, f.mem.table[k].caller) == Calling
                  || Awaits(StatusOf(f.clients, f.sending, f.mem.table[k].caller), k))
  {
    hide Abs;
    forall k | k in f.mem.table && f.mem.table[k].OpenHandle? ensures
      && f.mem.table[k].caller in f.frames
      && (StatusOf(f.clients, f.sending, f.mem.table[k].caller) == Calling
          || Awaits(StatusOf(f.clients, f.sending, f.mem.table[k].caller), k))
    {
      AddedOrPending(f, k);
    }
  }

  lemma HeldReferences(f: Fine)
    requires Met(f)
    ensures HasEvent(f.looper) && f.looper.ev.OpenHandle? ==>
              && f.looper.ev.caller in f.frames
              && Awaits(StatusOf(f.clients, f.sending, f.looper.ev.caller), f.looper.m.key)
    ensures Answering(f.looper) ==>
              && f.looper.caller in f.frames
              && Awaits(StatusOf(f.clients, f.sending, f.looper.caller), f.looper.key)
  {
    if HasEvent(f.looper) { HandInTable(f); }
    hide Abs;
  }

  lemma FramesHaveCallers(f: Fine)
    requires Met(f)
    ensures forall i :: i in f.frames ==> i in f.clients
  {
    forall i | i in f.frames ensures i in f.clients {
      assert FrameOk(f.frames[i], i, StatusOf(f.clients, f.sending, i), f.looper, Abs(f).table, f.mem.log);
    }
  }

  lemma AddedOrPending(f: Fine, k: nat)
    requires Shape(f) && k in f.mem.table && f.mem.table[k].OpenHandle?
    ensures (k in Abs(f).table && Abs(f).table[k] == f.mem.table[k])
         || StatusOf(f.clients, f.sending, f.mem.table[k].caller) == Calling
  {
    if f.lock.Some? && f.lock.value in f.sending && f.sending[f.lock.value].Added? && f.sending[f.lock.value].key == k {
      match f.lock.value
      case Client(i) => assert ClientRequest(i, f.sending[Client(i)].ev) && f.clients[i].Sends?;
      case Looper =>
    }
  }

  /** createPmQosHandle returns only after its own event wrote the result, and returns that result. */
  lemma ReturnsItsOwnResult(f: Fine, i: nat)
    requires FineReachable(f) && FineEnabled(f, CheckBarrier(i)) && f.frames[i].open
    ensures var (f', k) := (FineApply(f, CheckBarrier(i)), f.clients[i].key);
            && k in f.mem.log.history && f.mem.log.history[k].event.OpenHandle?
            && f.mem.log.history[k].event.caller == i
            && k in f.mem.log.results && f.frames[i].ret == Some(f.mem.log.results[k])
            && i !in f'.clients && i !in f'.frames && k in f'.returned && f'.returned[k] == f.mem.log.results[k]
  {
    hide Inv, Shape, Met, FineReachable, Abs;
    FineReachableInv(f);
    FrameInOrder(f, i);
  }

  /** What a call returned never differs from what its event produced. */
  lemma ReturnedResults(f: Fine)
    requires FineReachable(f)
    ensures forall k :: k in f.returned ==> k in f.mem.log.results && f.returned[k] == f.mem.log.results[k]
  {
    FineReachableInv(f);
  }

  // ---------- The timed constraints, at the grain of single steps ----------

  /** With the looper idle and nothing due, the constraints in the kernel's descriptor table are
      exactly those the requests call for, in every prompt interleaving of all threads. */
  lemma OpenConstraintsInEveryInterleaving(now: int, steps: seq<FineStep>)
    requires FineFeasible(FineInit(now), steps) && FinePromptRun(FineInit(now), steps)
    ensures var f := FineExecute(FineInit(now), steps);
            f.looper.Polling? && Settled(f.mem) ==> OpenRequests(f.mem) == ActiveRequests(f.mem)
  {
    FineInitInv(now);
    var coarse := FineRunRefines(FineInit(now), steps);
    OpenRequestsAreTheFilter(now, coarse);
    var f := FineExecute(FineInit(now), steps);
    if f.looper.Polling? { PollingHidesNothing(f); }
  }

  /** Two descriptors of the looper thread's own never belong to anybody else. */
  lemma PrivateIsUnowned(f: Fine)
    requires FineReachable(f)
    ensures Private(f.looper) <= f.mem.fds.Keys
    ensures var s := Abs(f);
            Private(f.looper) !! (HeldByTimeouts(s) + HeldByContexts(s) + s.contexts.Keys + ClientEnds(s)
                + ForeignFds(s) + Refused(s))
    ensures var s := Abs(f);
            f.mem.fds.Keys == Private(f.looper) + HeldByTimeouts(s) + HeldByContexts(s) + s.contexts.Keys
                              + ClientEnds(s) + ForeignFds(s) + Refused(s)
  {
    hide Inv, Met, FineReachable, Reachable;
    FineReachableInv(f);
    DescriptorsPartitioned(Abs(f));
    PrivateIsOpen(f);
    assert f.mem.fds.Keys == Abs(f).fds.Keys + Private(f.looper);
  }

  lemma PrivateIsOpen(f: Fine)
    requires Shape(f)
    ensures Private(f.looper) <= f.mem.fds.Keys
  {
  }

  // ---------- A hang-up, at the grain of single steps ----------

  /** Once a client has closed its end and the looper is idle, the callback's three steps are possible in any
      interleaving, and of all open descriptors they close the handle's own two. */
  lemma HangUpInSteps(f: Fine, c: nat)
    requires FineReachable(f) && f.looper.Polling? && c in f.mem.log.handles && f.mem.log.handles[c].listening
    requires Is(f.mem.fds, f.mem.log.handles[c].server, PipeServer(c))
    requires !Is(f.mem.fds, f.mem.log.handles[c].client, PipeClient(c))
    ensures var h := f.mem.log.handles[c];
            var steps := [Unhook(h.server), CloseServer, CloseConstraint];
            && FineFeasible(f, steps)
            && FineExecute(f, steps) == f.(mem := f.mem.(fds := f.mem.fds - {h.server, h.constraint},
                                                         contexts := f.mem.contexts - {h.server}))
  {
    hide Met, Shape, FineReachable, Inv;
    FineReachableInv(f);
    PollingHidesNothing(f);
    HandleReleasedAfterHangUp(Abs(f), c);
    RegisteredHandle(f, c);
    UnhookSteps(f, f.mem.log.handles[c].server);
  }

  lemma RegisteredHandle(f: Fine, c: nat)
    requires Inv(Abs(f)) && f.looper.Polling? && c in f.mem.log.handles && f.mem.log.handles[c].listening
    requires Is(f.mem.fds, f.mem.log.handles[c].server, PipeServer(c))
    ensures var h := f.mem.log.handles[c];
            h.server in f.mem.contexts && f.mem.contexts[h.server].fd == h.constraint
  {
    PollingHidesNothing(f);
    assert HandleOk(Abs(f).fds, Abs(f).contexts, c, Abs(f).log.handles[c]);
  }

  lemma UnhookSteps(f: Fine, server: nat)
    requires FineEnabled(f, Unhook(server))
    ensures var steps := [Unhook(server), CloseServer, CloseConstraint];
            && FineFeasible(f, steps)
            && FineExecute(f, steps)
               == f.(mem := f.mem.(fds := f.mem.fds - {server, f.mem.contexts[server].fd},
                                   contexts := f.mem.contexts - {server}))
  {
    var one, two := DoUnhook(f, server), DoCloseServer(DoUnhook(f, server));
    var three := DoCloseConstraint(two);
    CallbackCloses(f, server);
    CallbackStep(f, server);
    hide FineEnabled, FineApply, DoUnhook, DoCloseServer, DoCloseConstraint;
    assert FineFeasible(three, []);
    StepThen(two, CloseConstraint, []);
    StepThen(one, CloseServer, [CloseConstraint] + []);
    StepThen(f, Unhook(server), [CloseServer] + ([CloseConstraint] + []));
    assert [Unhook(server), CloseServer, CloseConstraint]
        == [Unhook(server)] + ([CloseServer] + ([CloseConstraint] + []));
  }

  lemma CallbackCloses(f: Fine, server: nat)
    requires f.looper.Polling? && server in f.mem.contexts
    ensures DoCloseConstraint(DoCloseServer(DoUnhook(f, server)))
         == f.(mem := f.mem.(fds := f.mem.fds - {server, f.mem.contexts[server].fd},
                             contexts := f.mem.contexts - {server}))
  {
    assert f.mem.fds - {server} - {f.mem.contexts[server].fd} == f.mem.fds - {server, f.mem.contexts[server].fd};
  }

  lemma CallbackStep(f: Fine, server: nat)
    requires FineEnabled(f, Unhook(server))
    ensures var (one, two) := (DoUnhook(f, server), DoCloseServer(DoUnhook(f, server)));
            && FineApply(f, Unhook(server)) == one
            && FineEnabled(one, CloseServer) && FineApply(one, CloseServer) == two
            && FineEnabled(two, CloseConstraint) && FineApply(two, CloseConstraint) == DoCloseConstraint(two)
  {
  }

  lemma StepThen(f: Fine, step: FineStep, rest: seq<FineStep>)
    requires FineEnabled(f, step) && FineFeasible(FineApply(f, step), rest)
    ensures FineFeasible(f, [step] + rest)
    ensures FineExecute(f, [step] + rest) == FineExecute(FineApply(f, step), rest)
  {
    hide FineEnabled, FineApply;
    assert ([step] + rest)[1..] == rest;
  }
}
