/** What holds in every state of every run of the engine. */
module EngineTheorems {
  import opened Wrappers
  import opened PokerEngine
  import opened EngineInvariant

  ghost predicate Reachable(s: State) {
    exists now, steps :: Feasible(Init(now), steps) && s == Execute(Init(now), steps)
  }

  lemma ReachableInv(s: State)
    requires Reachable(s)
    ensures Inv(s)
  {
    var now, steps :| Feasible(Init(now), steps) && s == Execute(Init(now), steps);
    InitInv(now);
    RunKeeps(Init(now), steps);
  }

  lemma OneMoreStep(s: State, step: Step, rest: seq<Step>)
    requires Enabled(s, step) && Feasible(Apply(s, step), rest)
    ensures Feasible(s, [step] + rest) && Execute(s, [step] + rest) == Execute(Apply(s, step), rest)
  {
    hide Enabled, Apply;
    assert ([step] + rest)[1..] == rest;
  }

  lemma NoStep(s: State)
    ensures Feasible(s, []) && Execute(s, []) == s
  {
  }

  ghost predicate AllForeign(fds: map<nat, Object>) {
    forall f :: f in fds ==> fds[f] == Foreign
  }

  /** The numbers `fs`, opened one after the other. */
  function OpenAll(fds: map<nat, Object>, fs: seq<nat>): map<nat, Object>
    decreases |fs|
  {
    if fs == [] then fds else OpenAll(fds[fs[0] := Foreign], fs[1..])
  }

  lemma {:induction false} OpenForeign(s: State, fs: seq<nat>) returns (steps: seq<Step>)
    requires (forall f :: f in fs ==> f !in s.fds) && forall i, j :: 0 <= i < j < |fs| ==> fs[i] != fs[j]
    ensures Feasible(s, steps) && Execute(s, steps) == s.(fds := OpenAll(s.fds, fs))
    decreases |fs|
  {
    hide Feasible, Execute;
    if fs == [] {
      steps := [];
      NoStep(s);
    } else {
      var next := Apply(s, DoForeignOpen(fs[0]));
      assert forall i :: 0 < i < |fs| ==> fs[0] != fs[i];
      var rest := OpenForeign(next, fs[1..]);
      OneMoreStep(s, DoForeignOpen(fs[0]), rest);
      steps := [DoForeignOpen(fs[0])] + rest;
    }
  }

  lemma {:induction false} OpenAllGives(fds: map<nat, Object>, fs: seq<nat>)
    ensures forall f :: f in OpenAll(fds, fs) <==> f in fds || f in fs
    ensures forall f :: f in fs ==> OpenAll(fds, fs)[f] == Foreign
    ensures forall f :: f in fds && f !in fs ==> OpenAll(fds, fs)[f] == fds[f]
    decreases |fs|
  {
    if fs != [] {
      OpenAllGives(fds[fs[0] := Foreign], fs[1..]);
      assert forall f :: f in fs <==> f == fs[0] || f in fs[1..];
    }
  }

  lemma {:induction false} InSomeOrder(numbers: set<nat>) returns (fs: seq<nat>)
    ensures forall f :: f in fs <==> f in numbers
    ensures forall i, j :: 0 <= i < j < |fs| ==> fs[i] != fs[j]
  {
    if numbers == {} {
      fs := [];
    } else {
      var f :| f in numbers;
      var rest := InSomeOrder(numbers - {f});
      fs := [f] + rest;
    }
  }

  /** The state of a handler just constructed in a process that has descriptors of its own. */
  lemma StartIsReachable(now: int, fds: map<nat, Object>)
    requires AllForeign(fds)
    ensures Reachable(Init(now).(fds := fds))
  {
    var fs := InSomeOrder(fds.Keys);
    OpenAllGives(map[], fs);
    assert OpenAll(map[], fs) == fds;
    var steps := OpenForeign(Init(now), fs);
  }

  // ---------- Descriptor ownership ----------

  ghost function HeldByTimeouts(s: State): set<nat> {
    set k | k in s.table && s.table[k].CloseTimed? :: s.table[k].fd
  }

  ghost function HeldByContexts(s: State): set<nat> {
    set f | f in s.contexts :: s.contexts[f].fd
  }

  ghost function ClientEnds(s: State): set<nat> {
    set f | f in s.fds && s.fds[f].PipeClient?
  }

  ghost function ForeignFds(s: State): set<nat> {
    set f | f in s.fds && s.fds[f].Foreign?
  }

  /** The constraints and server ends of handles whose server end the looper refused. */
  ghost function Refused(s: State): set<nat> {
    set f | f in s.fds && (s.fds[f].PipeServer? || s.fds[f].HandleConstraint?)
            && s.fds[f].call in s.log.handles && !s.log.handles[s.fds[f].call].listening
  }

  lemma TimeoutsHold(s: State)
    requires Inv(s)
    ensures forall f :: f in HeldByTimeouts(s) <==> f in s.fds && s.fds[f].TimedConstraint?
    ensures forall j, k :: j in s.table && k in s.table && s.table[j].CloseTimed? && s.table[j] == s.table[k] ==> j == k
  {
    forall k | k in s.table && s.table[k].CloseTimed?
      ensures Is(s.fds, s.table[k].fd, TimedConstraint(s.log.closers[k]))
    {
      assert ArmedFor(s.log, k, s.table[k].fd) && HeldBy(s, s.log.closers[k]);
    }
    forall f | f in s.fds && s.fds[f].TimedConstraint? ensures f in HeldByTimeouts(s) {
      assert HeldBy(s, s.fds[f].request);
    }
    forall j, k | j in s.table && k in s.table && s.table[j].CloseTimed? && s.table[j] == s.table[k] ensures j == k {
      assert ArmedFor(s.log, j, s.table[j].fd) && ArmedFor(s.log, k, s.table[k].fd);
    }
  }

  lemma ContextsHold(s: State)
    requires Inv(s)
    ensures forall f :: f in s.contexts ==>
              s.contexts[f].fd in s.fds && s.fds[s.contexts[f].fd] == HandleConstraint(s.contexts[f].call)
              && f in s.fds && s.fds[f] == PipeServer(s.contexts[f].call)
    ensures forall f :: f in s.fds && f !in Refused(s) ==>
              (s.fds[f].PipeServer? <==> f in s.contexts) && (s.fds[f].HandleConstraint? <==> f in HeldByContexts(s))
    ensures forall f :: f in Refused(s) ==> f !in s.contexts && f !in HeldByContexts(s)
  {
    forall f | f in s.contexts ensures
      && Is(s.fds, s.contexts[f].fd, HandleConstraint(s.contexts[f].call))
      && Is(s.fds, f, PipeServer(s.contexts[f].call))
      && s.contexts[f].call in s.log.handles && s.log.handles[s.contexts[f].call].listening
    {
      assert RegisteredFor(s.fds, s.log.handles, f, s.contexts[f]);
      assert HandleOk(s.fds, s.contexts, s.contexts[f].call, s.log.handles[s.contexts[f].call]);
    }
    forall f | f in s.fds && f !in Refused(s) && s.fds[f].PipeServer? ensures f in s.contexts {
      assert BelongsTo(s.log.handles, f, s.fds[f]);
      assert HandleOk(s.fds, s.contexts, s.fds[f].call, s.log.handles[s.fds[f].call]);
    }
    forall f | f in s.fds && f !in Refused(s) && s.fds[f].HandleConstraint? ensures f in HeldByContexts(s) {
      assert BelongsTo(s.log.handles, f, s.fds[f]);
      var h := s.log.handles[s.fds[f].call];
      assert HandleOk(s.fds, s.contexts, s.fds[f].call, h);
      assert h.server in s.contexts;
    }
  }

  lemma OwnersByKind(s: State)
    requires Inv(s)
    ensures forall f :: f in HeldByTimeouts(s) <==> f in s.fds && s.fds[f].TimedConstraint?
    ensures forall f :: f in HeldByContexts(s) <==> f in s.fds && s.fds[f].HandleConstraint? && f !in Refused(s)
    ensures forall f :: f in s.contexts <==> f in s.fds && s.fds[f].PipeServer? && f !in Refused(s)
  {
    TimeoutsHold(s);
    ContextsHold(s);
  }

  lemma ContextsDistinct(s: State)
    requires Inv(s)
    ensures forall f, g :: f in s.contexts && g in s.contexts && s.contexts[f].fd == s.contexts[g].fd ==> f == g
  {
    forall f, g | f in s.contexts && g in s.contexts && s.contexts[f].fd == s.contexts[g].fd ensures f == g {
      assert RegisteredFor(s.fds, s.log.handles, f, s.contexts[f])
          && RegisteredFor(s.fds, s.log.handles, g, s.contexts[g]);
      ContextsHold(s);
    }
  }

  /** In every reachable state each open descriptor has exactly one owner: a pending closing event, a
      registered context (for the constraint and for the pipe's server end), the client (for its
      end), the rest of the process, or nobody when the looper refused the server end. */
  lemma DescriptorsPartitioned(s: State)
    requires Reachable(s)
    ensures HeldByTimeouts(s) !! HeldByContexts(s) !! s.contexts.Keys !! ClientEnds(s) !! ForeignFds(s) !! Refused(s)
    ensures s.fds.Keys == HeldByTimeouts(s) + HeldByContexts(s) + s.contexts.Keys + ClientEnds(s) + ForeignFds(s)
            + Refused(s)
    ensures forall j, k :: j in s.table && k in s.table && s.table[j].CloseTimed? && s.table[j] == s.table[k] ==> j == k
    ensures forall f, g :: f in s.contexts && g in s.contexts && s.contexts[f].fd == s.contexts[g].fd ==> f == g
  {
    ReachableInv(s);
    TimeoutsHold(s);
    ContextsDistinct(s);
    OwnersByKind(s);
    KindsPartition(s);
  }

  lemma KindsPartition(s: State)
    requires forall f :: f in HeldByTimeouts(s) <==> f in s.fds && s.fds[f].TimedConstraint?
    requires forall f :: f in HeldByContexts(s) <==> f in s.fds && s.fds[f].HandleConstraint? && f !in Refused(s)
    requires forall f :: f in s.contexts <==> f in s.fds && s.fds[f].PipeServer? && f !in Refused(s)
    ensures HeldByTimeouts(s) !! HeldByContexts(s) !! s.contexts.Keys !! ClientEnds(s) !! ForeignFds(s) !! Refused(s)
    ensures s.fds.Keys == HeldByTimeouts(s) + HeldByContexts(s) + s.contexts.Keys + ClientEnds(s) + ForeignFds(s)
            + Refused(s)
  {
  }

  /** A closing event closes the constraint it was armed for, whatever numbers were reused meanwhile:
      not before it expires, and never a second time. */
  lemma TimeoutClosesItsOwn(s: State, r: Response)
    requires Reachable(s) && Enabled(s, DoDispatch(r))
    requires s.queue[0].key in s.table && s.table[s.queue[0].key].CloseTimed?
    ensures var (key, fd) := (s.queue[0].key, s.table[s.queue[0].key].fd);
            && key in s.log.closers && s.log.closers[key] in s.log.granted && s.log.closers[key] !in s.log.closedAt
            && fd in s.fds && s.fds[fd] == TimedConstraint(s.log.closers[key])
            && s.log.granted[s.log.closers[key]].expires <= s.now
            && Dispatch(s, r).fds == s.fds - {fd}
            && Dispatch(s, r).log.closedAt == s.log.closedAt[s.log.closers[key] := s.now]
  {
    ReachableInv(s);
    DispatchEffect(s, r);
    var key := s.queue[0].key;
    assert s.queue[0] in s.queue;
    assert ArmedFor(s.log, key, s.table[key].fd) && HeldBy(s, s.log.closers[key]);
  }

  // ---------- Timed constraints are a filter of the requests ----------

  ghost function OpenRequests(s: State): set<nat> {
    set f | f in s.fds && s.fds[f].TimedConstraint? :: s.fds[f].request
  }

  /** The requests whose node opened and whose timeout, counted from the push, has not run out. */
  ghost function ActiveRequests(s: State): set<nat> {
    set k | k in s.log.history && s.log.history[k].event.OpenTimed? && k !in s.log.failed
            && s.log.history[k].at <= s.now < s.log.history[k].at + s.log.history[k].event.timeout
  }

  lemma OpenIsGrantedNotClosed(s: State)
    requires Inv(s)
    ensures OpenRequests(s) == s.log.granted.Keys - s.log.closedAt.Keys
    ensures forall f, g :: f in s.fds && g in s.fds && s.fds[f].TimedConstraint? && s.fds[f] == s.fds[g] ==> f == g
  {
    forall k | k in s.log.granted && k !in s.log.closedAt ensures k in OpenRequests(s) {
      assert HeldBy(s, k);
    }
  }

  /** A constraint is never released before its time, prompt dispatch or not. */
  lemma NeverReleasedEarly(s: State, k: nat)
    requires Reachable(s) && k in s.log.granted && s.now < s.log.granted[k].expires
    ensures k in OpenRequests(s)
  {
    ReachableInv(s);
    OpenIsGrantedNotClosed(s);
  }

  lemma SettledMeansFuture(s: State, k: nat) returns (m: Message)
    requires Inv(s) && Settled(s) && k in s.table
    ensures m in s.queue && m.key == k && s.now < m.due
  {
    assert k in Keys(s.queue);
    m :| m in s.queue && m.key == k;
    var i :| 0 <= i < |s.queue| && s.queue[i] == m;
    if i > 0 { assert Before(s.queue[0], s.queue[i]); }
  }

  /** Once nothing is left to handle at this instant, exactly the granted constraints that have not
      expired are open. */
  lemma SettledOpenExactly(s: State)
    requires Inv(s) && Settled(s)
    ensures forall k :: k in OpenRequests(s) <==> k in s.log.granted && s.now < s.log.granted[k].expires
    ensures forall k :: k in s.table ==> s.table[k].CloseTimed?
  {
    OpenIsGrantedNotClosed(s);
    forall k | k in s.table ensures s.table[k].CloseTimed? {
      var m := SettledMeansFuture(s, k);
    }
    forall k | k in OpenRequests(s) ensures s.now < s.log.granted[k].expires {
      assert HeldBy(s, k);
      var m := SettledMeansFuture(s, s.log.granted[k].closer);
      assert ArmedFor(s.log, m.key, s.log.granted[k].fd);
      assert HeldBy(s, s.log.closers[m.key]);
    }
  }

  /** Under prompt dispatch a request is opened at the instant it was pushed. */
  ghost predicate OpensAtOnce(s: State) {
    && (forall k :: k in s.table && !s.table[k].CloseTimed? ==> k in s.log.history && s.log.history[k].at == s.now)
    && (forall k :: k in s.log.granted ==> k in s.log.history && s.log.granted[k].at == s.log.history[k].at)
  }

  lemma TickKeepsOpensAtOnce(s: State, d: nat)
    requires Inv(s) && OpensAtOnce(s) && Prompt(s, DoTick(d))
    ensures OpensAtOnce(Apply(s, DoTick(d)))
  {
    forall k | k in s.table && !s.table[k].CloseTimed? ensures d == 0 {
      assert k in Keys(s.queue);
      var m :| m in s.queue && m.key == k;
      var i :| 0 <= i < |s.queue| && s.queue[i] == m;
      if i > 0 { assert Before(s.queue[0], s.queue[i]); }
    }
  }

  lemma DispatchKeepsOpensAtOnce(s: State, r: Response)
    requires Inv(s) && OpensAtOnce(s) && Enabled(s, DoDispatch(r))
    ensures OpensAtOnce(Dispatch(s, r))
  {
    hide Agreement, RequestsTracked, OutcomesTracked, TimedOwned, TimedDue, HandlesOwned, ResultsTracked, Dispatch;
    DispatchEffect(s, r);
  }

  lemma StepKeepsOpensAtOnce(s: State, step: Step)
    requires Inv(s) && OpensAtOnce(s) && Enabled(s, step) && Prompt(s, step)
    ensures OpensAtOnce(Apply(s, step))
  {
    match step
    case DoTick(d) => TickKeepsOpensAtOnce(s, d);
    case DoDispatch(r) => DispatchKeepsOpensAtOnce(s, r);
    case DoPush(ev) => PushEffect(s, ev);
    case _ =>
  }

  lemma {:induction false} RunKeepsOpensAtOnce(s: State, steps: seq<Step>)
    requires Inv(s) && OpensAtOnce(s) && Feasible(s, steps) && PromptRun(s, steps)
    ensures OpensAtOnce(Execute(s, steps)) && Inv(Execute(s, steps))
    decreases |steps|
  {
    if steps != [] {
      StepKeeps(s, steps[0]);
      StepKeepsOpensAtOnce(s, steps[0]);
      RunKeepsOpensAtOnce(Apply(s, steps[0]), steps[1..]);
    }
  }

  /** The central refinement. Under prompt dispatch, in every interleaving of clients, failed opens,
      hang-ups and clock steps, the timed constraints open at a settled instant are exactly the
      requests pushed at p with p <= now < p + timeout, each held by one descriptor. */
  lemma OpenRequestsAreTheFilter(now: int, steps: seq<Step>)
    requires Feasible(Init(now), steps) && PromptRun(Init(now), steps)
    ensures var s := Execute(Init(now), steps);
            Settled(s) ==> OpenRequests(s) == ActiveRequests(s)
    ensures var s := Execute(Init(now), steps);
            forall f, g :: f in s.fds && g in s.fds && s.fds[f].TimedConstraint? && s.fds[f] == s.fds[g] ==> f == g
  {
    InitInv(now);
    RunKeepsOpensAtOnce(Init(now), steps);
    var s := Execute(Init(now), steps);
    OpenIsGrantedNotClosed(s);
    if Settled(s) { SettledOpenIsFilter(s); }
  }

  lemma SettledOpenIsFilter(s: State)
    requires Inv(s) && OpensAtOnce(s) && Settled(s)
    ensures OpenRequests(s) == ActiveRequests(s)
  {
    SettledOpenExactly(s);
    forall k | k in ActiveRequests(s) ensures k in OpenRequests(s) {
      assert k !in s.table && k in s.log.granted;
    }
  }

  // ---------- Execution order ----------

  ghost predicate NoNegativeTimeout(s: State) {
    forall k :: k in s.log.history && s.log.history[k].event.OpenTimed? ==> s.log.history[k].event.timeout >= 0
  }

  ghost predicate RanInOrder(s: State) {
    && Sorted(s.log.ran)
    && (forall m :: m in s.log.ran ==> m.due <= s.now && m.key < s.nextKey)
    && (forall m, n :: m in s.log.ran && n in s.queue ==> Before(m, n))
  }

  lemma PushKeepsOrder(s: State, s': State, ev: Event)
    requires Pushes(s, s', ev) && Agrees(s) && RanInOrder(s)
    ensures RanInOrder(s')
  {
    SendAgrees(s.queue, s.table, s.nextKey, s.now, ev);
  }

  lemma AppendKeepsSorted(q: seq<Message>, m: Message)
    requires Sorted(q) && forall x :: x in q ==> Before(x, m)
    ensures Sorted(q + [m])
  {
  }

  lemma TakeKeepsOrder(s: State, s': State)
    requires Agrees(s) && RanInOrder(s) && s.queue != [] && s.queue[0].due <= s.now
    requires s'.queue == s.queue[1..] && s'.now == s.now && s'.nextKey == s.nextKey
    requires s'.log.ran == s.log.ran + [s.queue[0]]
    ensures RanInOrder(s')
  {
    TakeAgrees(s.queue, s.table, s.nextKey);
    AppendKeepsSorted(s.log.ran, s.queue[0]);
    forall m, n | m in s'.log.ran && n in s'.queue ensures Before(m, n) {
      if m != s.queue[0] { assert m in s.log.ran && n in s.queue; }
    }
  }

  lemma GrantKeepsOrder(s: State, s': State, ev: Event, fd: nat)
    requires Grants(s, s', ev, fd) && Agrees(s) && RanInOrder(s) && ev.timeout >= 0
    ensures RanInOrder(s')
  {
    TakeAgrees(s.queue, s.table, s.nextKey);
    GrantKeepsAgreement(s, s', ev, fd);
    AppendKeepsSorted(s.log.ran, s.queue[0]);
    forall m, n | m in s'.log.ran && n in s'.queue ensures Before(m, n) {
      assert m == s.queue[0] || m in s.log.ran;
      if n in s.queue[1..] { assert n in s.queue; }
    }
  }

  lemma DispatchKeepsOrder(s: State, r: Response)
    requires Inv(s) && RanInOrder(s) && NoNegativeTimeout(s) && Enabled(s, DoDispatch(r))
    ensures RanInOrder(Dispatch(s, r))
  {
    DispatchEffect(s, r);
    var s', ev := Dispatch(s, r), s.table[s.queue[0].key];
    if ev.OpenTimed? && r.node.Some? {
      assert s.queue[0] in s.queue;
      GrantKeepsOrder(s, s', ev, r.node.value);
    } else {
      TakeKeepsOrder(s, s');
    }
  }

  lemma StepKeepsOrder(s: State, step: Step)
    requires Inv(s) && Enabled(s, step) && NoNegativeTimeout(Apply(s, step)) && RanInOrder(s)
    ensures NoNegativeTimeout(s) && RanInOrder(Apply(s, step))
  {
    if step.DoPush? {
      PushEffect(s, step.ev);
      forall k | k in s.log.history ensures Apply(s, step).log.history[k] == s.log.history[k] {}
      PushKeepsOrder(s, Apply(s, step), step.ev);
    } else if step.DoDispatch? {
      DispatchEffect(s, step.r);
      assert Apply(s, step).log.history == s.log.history;
      DispatchKeepsOrder(s, step.r);
    } else {
      QuietEffect(s, step);
    }
  }

  lemma {:induction false} RunKeepsOrder(s: State, steps: seq<Step>)
    requires Inv(s) && Feasible(s, steps) && NoNegativeTimeout(Execute(s, steps))
    ensures NoNegativeTimeout(s)
    ensures RanInOrder(s) ==> RanInOrder(Execute(s, steps))
    decreases |steps|
  {
    if steps != [] {
      StepKeeps(s, steps[0]);
      RunKeepsOrder(Apply(s, steps[0]), steps[1..]);
      HistoryGrows(s, steps[0]);
      if RanInOrder(s) { StepKeepsOrder(s, steps[0]); }
    }
  }

  lemma HistoryGrows(s: State, step: Step)
    requires Inv(s) && Enabled(s, step)
    ensures NoNegativeTimeout(Apply(s, step)) ==> NoNegativeTimeout(s)
  {
    if step.DoPush? {
      forall k | k in s.log.history
        ensures k in Apply(s, step).log.history && Apply(s, step).log.history[k] == s.log.history[k]
      {
      }
    } else if step.DoDispatch? {
      DispatchEffect(s, step.r);
    }
  }

  /** With non-negative timeouts the events run in strictly increasing order of (due time, key): so
      zero-delay requests of all clients run in the order of their keys. */
  lemma RunsInOrder(now: int, steps: seq<Step>)
    requires Feasible(Init(now), steps) && NoNegativeTimeout(Execute(Init(now), steps))
    ensures var ran := Execute(Init(now), steps).log.ran;
            forall i, j :: 0 <= i < |ran| && 0 <= j < |ran| ==> (Before(ran[i], ran[j]) <==> i < j)
  {
    InitInv(now);
    RunKeepsOrder(Init(now), steps);
  }

  /** The condition is needed: a constraint asked for with a negative timeout is closed by a message
      that was due before the one that opened it. */
  lemma NegativeTimeoutBreaksOrder()
    ensures var steps := [DoPush(OpenTimed("node", Plain(1), -1)), DoDispatch(Response(Some(0), None, true)),
                          DoDispatch(Response(None, None, true))];
            Feasible(Init(0), steps) && !Sorted(Execute(Init(0), steps).log.ran)
  {
    var push, open, close := DoPush(OpenTimed("node", Plain(1), -1)), DoDispatch(Response(Some(0), None, true)),
                             DoDispatch(Response(None, None, true));
    var s1, s2, s3 := AfterPush(), AfterOpen(), AfterClose();
    BadSteps(push, open, close);
    hide Init, Enabled, Apply, AfterPush, AfterOpen;
    OneMoreStep(s2, close, []);
    OneMoreStep(s1, open, [close] + []);
    OneMoreStep(Init(0), push, [open] + ([close] + []));
    assert [push, open, close] == [push] + ([open] + ([close] + []));
    assert !Before(s3.log.ran[0], s3.log.ran[1]);
  }

  function AfterPush(): State {
    Push(Init(0), OpenTimed("node", Plain(1), -1))
  }

  function AfterOpen(): State {
    var s := AfterPush();
    s.(table := map[1 := CloseTimed(0)], queue := [Message(-1, 1)], nextKey := 2, fds := map[0 := TimedConstraint(0)],
       log := s.log.(ran := [Message(0, 0)], granted := map[0 := Opening(0, 1, 0, -1)], closers := map[1 := 0]))
  }

  function AfterClose(): State {
    var s := AfterOpen();
    s.(table := map[], queue := [], fds := map[],
       log := s.log.(ran := [Message(0, 0), Message(-1, 1)], closedAt := map[0 := 0]))
  }

  lemma BadSteps(push: Step, open: Step, close: Step)
    requires push == DoPush(OpenTimed("node", Plain(1), -1)) && open == DoDispatch(Response(Some(0), None, true))
    requires close == DoDispatch(Response(None, None, true))
    ensures Enabled(Init(0), push) && Apply(Init(0), push) == AfterPush()
    ensures Enabled(AfterPush(), open) && Apply(AfterPush(), open) == AfterOpen()
    ensures Enabled(AfterOpen(), close) && Apply(AfterOpen(), close) == AfterClose()
  {
    assert AfterPush().queue == [Message(0, 0)] && [Message(0, 0)][1..] == [] && [Message(-1, 1)][1..] == [];
    assert map[0 := OpenTimed("node", Plain(1), -1)] - {0} == map[];
    assert map[1 := CloseTimed(0)] - {1} == map[] && map[0 := TimedConstraint(0)] - {0} == map[];
  }

  // ---------- Handles ----------

  /** While the client's end is open, the constraint is held and the server end is open; and the
      server end is watched if the looper accepted it. */
  lemma HandleHeldWhileClientOpen(s: State, f: nat)
    requires Reachable(s) && f in s.fds && s.fds[f].PipeClient?
    ensures var c := s.fds[f].call;
            && c in s.log.handles && s.log.handles[c].client == f
            && Is(s.fds, s.log.handles[c].constraint, HandleConstraint(c))
            && Is(s.fds, s.log.handles[c].server, PipeServer(c))
            && (s.log.handles[c].listening <==> s.log.handles[c].server in s.contexts)
  {
    ReachableInv(s);
    assert BelongsTo(s.log.handles, f, s.fds[f]);
    var c := s.fds[f].call;
    var h := s.log.handles[c];
    assert HandleOk(s.fds, s.contexts, c, h);
    if h.server in s.contexts { assert RegisteredFor(s.fds, s.log.handles, h.server, s.contexts[h.server]); }
  }

  lemma HangUpReleases(s: State, c: nat)
    requires Inv(s) && c in s.log.handles && s.log.handles[c].listening
    requires Is(s.fds, s.log.handles[c].server, PipeServer(c))
    requires !Is(s.fds, s.log.handles[c].client, PipeClient(c))
    ensures var server := s.log.handles[c].server;
            && Enabled(s, DoHangUp(server))
            && (forall f :: f in HangUp(s, server).fds <==>
                  f in s.fds && s.fds[f] != HandleConstraint(c) && s.fds[f] != PipeServer(c))
            && (forall f :: f in HangUp(s, server).fds ==> HangUp(s, server).fds[f] == s.fds[f])
            && HangUp(s, server).contexts == s.contexts - {server}
            && (forall f :: f in HangUp(s, server).fds ==>
                  HangUp(s, server).fds[f] !in {PipeClient(c), PipeServer(c), HandleConstraint(c)})
  {
    HandleIsAllThereIs(s, c);
    hide Inv;
  }

  lemma HandleIsAllThereIs(s: State, c: nat)
    requires Inv(s) && c in s.log.handles && s.log.handles[c].listening
    ensures HandleOk(s.fds, s.contexts, c, s.log.handles[c])
    ensures forall f :: f in s.fds ==>
              && (s.fds[f] == PipeClient(c) ==> f == s.log.handles[c].client)
              && (s.fds[f] == PipeServer(c) ==> f == s.log.handles[c].server)
              && (s.fds[f] == HandleConstraint(c) ==> f == s.log.handles[c].constraint)
  {
    hide Agrees, RequestsTracked, OutcomesTracked, TimedOwned, TimedDue, HandleOk, RegisteredFor;
    assert forall f :: f in s.fds ==> BelongsTo(s.log.handles, f, s.fds[f]);
  }

  /** After the client closed its end the hang-up callback can run, and it leaves nothing of the
      handle behind and everything else as it was. */
  lemma HandleReleasedAfterHangUp(s: State, c: nat)
    requires Reachable(s) && c in s.log.handles && s.log.handles[c].listening
    requires Is(s.fds, s.log.handles[c].server, PipeServer(c))
    requires !Is(s.fds, s.log.handles[c].client, PipeClient(c))
    ensures var server := s.log.handles[c].server;
            && Enabled(s, DoHangUp(server))
            && (forall f :: f in HangUp(s, server).fds <==>
                  f in s.fds && s.fds[f] != HandleConstraint(c) && s.fds[f] != PipeServer(c))
            && (forall f :: f in HangUp(s, server).fds ==> HangUp(s, server).fds[f] == s.fds[f])
            && HangUp(s, server).contexts == s.contexts - {server}
            && (forall f :: f in HangUp(s, server).fds ==>
                  HangUp(s, server).fds[f] !in {PipeClient(c), PipeServer(c), HandleConstraint(c)})
  {
    ReachableInv(s);
    HangUpReleases(s, c);
  }

  /** When the looper refused the server end, the constraint stays in force and the server end open for ever. */
  lemma RefusedHandleStays(s: State, c: nat, steps: seq<Step>)
    requires Reachable(s) && Feasible(s, steps) && c in s.log.handles && !s.log.handles[c].listening
    ensures var t := Execute(s, steps);
            && c in t.log.handles && t.log.handles[c] == s.log.handles[c]
            && Is(t.fds, t.log.handles[c].constraint, HandleConstraint(c))
            && Is(t.fds, t.log.handles[c].server, PipeServer(c))
  {
    ReachableInv(s);
    RunKeeps(s, steps);
    HandlesPersist(s, c, steps);
    var t := Execute(s, steps);
    assert HandleOk(t.fds, t.contexts, c, t.log.handles[c]);
  }

  lemma {:induction false} HandlesPersist(s: State, c: nat, steps: seq<Step>)
    requires Inv(s) && Feasible(s, steps) && c in s.log.handles
    ensures c in Execute(s, steps).log.handles && Execute(s, steps).log.handles[c] == s.log.handles[c]
    decreases |steps|
  {
    if steps != [] {
      StepKeeps(s, steps[0]);
      HandlePersists(s, c, steps[0]);
      HandlesPersist(Apply(s, steps[0]), c, steps[1..]);
    }
  }

  lemma HandlePersists(s: State, c: nat, step: Step)
    requires Inv(s) && Enabled(s, step) && c in s.log.handles
    ensures c in Apply(s, step).log.handles && Apply(s, step).log.handles[c] == s.log.handles[c]
  {
    if step.DoDispatch? {
      DispatchEffect(s, step.r);
      assert c in s.log.results;
    } else if step.DoPush? {
      PushEffect(s, step.ev);
    }
  }
}
