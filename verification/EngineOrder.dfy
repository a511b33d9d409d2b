/** When exactly the looper runs its events in order of (due time, key). */
module EngineOrder {
  import opened PokerEngine
  import opened EngineInvariant
  import opened EngineTheorems

  /** The closing event of request `k` fell due no earlier than the request itself. */
  ghost predicate OnTime(log: Log, k: nat) {
    k in log.granted && k in log.history && log.history[k].at <= log.granted[k].expires
  }

  ghost predicate ClosedOnTime(log: Log) {
    forall k :: k in log.closedAt ==> OnTime(log, k)
  }

  ghost predicate LateCloser(s: State, key: nat) {
    && key in s.table && s.table[key].CloseTimed?
    && key in s.log.closers && !OnTime(s.log, s.log.closers[key])
  }

  ghost predicate OpenersRan(log: Log) {
    forall k :: k in log.granted ==> k in log.history && Message(log.history[k].at, k) in log.ran
  }

  ghost predicate AheadOfQueue(s: State) {
    forall m, n :: m in s.log.ran && n in s.queue ==> Before(m, n) || LateCloser(s, n.key)
  }

  ghost predicate RanPast(s: State) {
    forall m :: m in s.log.ran ==> m.due <= s.now && m.key < s.nextKey
  }

  ghost predicate OrderInv(s: State) {
    && OpenersRan(s.log) && RanPast(s)
    && (Sorted(s.log.ran) <==> ClosedOnTime(s.log))
    && (ClosedOnTime(s.log) ==> AheadOfQueue(s))
  }

  lemma OneMoreRan(ran: seq<Message>, h: Message)
    requires Sorted(ran) && forall m :: m in ran ==> Before(m, h)
    ensures Sorted(ran + [h])
  {
  }

  lemma StaysUnsorted(ran: seq<Message>, h: Message)
    ensures Sorted(ran + [h]) ==> Sorted(ran)
  {
    if Sorted(ran + [h]) {
      forall i, j | 0 <= i < j < |ran| ensures Before(ran[i], ran[j]) {
        assert (ran + [h])[i] == ran[i] && (ran + [h])[j] == ran[j];
      }
    }
  }

  lemma OutOfOrder(ran: seq<Message>, m: Message, h: Message)
    requires m in ran && !Before(m, h)
    ensures !Sorted(ran + [h])
  {
    var i :| 0 <= i < |ran| && ran[i] == m;
    assert (ran + [h])[i] == m && (ran + [h])[|ran|] == h;
  }

  /** Recording a new request, or granting one, changes nothing for those already closed. */
  lemma SameClosedOnTime(log: Log, log': Log)
    requires log'.closedAt == log.closedAt && forall k :: k in log.closedAt ==> k in log.granted && k in log.history
    requires forall k :: k in log.closedAt ==>
               && k in log'.granted && log'.granted[k] == log.granted[k]
               && k in log'.history && log'.history[k] == log.history[k]
    ensures ClosedOnTime(log') <==> ClosedOnTime(log)
  {
    forall k | k in log.closedAt ensures OnTime(log', k) <==> OnTime(log, k) {}
  }

  lemma PushStaysAhead(s: State, s': State, ev: Event)
    requires Pushes(s, s', ev) && Agrees(s) && AheadOfQueue(s) && RanPast(s)
    requires forall k :: k in s.log.history ==> k < s.nextKey
    requires forall k :: k in s.log.granted ==> k in s.log.history
    ensures AheadOfQueue(s')
  {
    SendAgrees(s.queue, s.table, s.nextKey, s.now, ev);
    hide Sorted, Agreement, Agrees;
    forall m, n | m in s'.log.ran && n in s'.queue ensures Before(m, n) || LateCloser(s', n.key) {
      if n in s.queue && !Before(m, n) { assert LateCloser(s, n.key) && n.key != s.nextKey; }
    }
  }

  lemma PushKeepsInOrder(s: State, s': State, ev: Event)
    requires Pushes(s, s', ev) && Agrees(s) && RequestsTracked(s) && OutcomesTracked(s) && OrderInv(s)
    ensures OrderInv(s')
  {
    hide Sorted, Agreement, Agrees, AheadOfQueue;
    assert forall k :: k in s.log.history ==> k < s.nextKey;
    assert forall k :: k in s.log.granted ==> k in s.log.history;
    SameClosedOnTime(s.log, s'.log);
    if ClosedOnTime(s.log) { PushStaysAhead(s, s', ev); }
  }

  /** Running the head of the queue, when it is not a late closer, keeps what ran ahead of the rest. */
  lemma TakeStaysAhead(s: State, s': State)
    requires Agrees(s) && s.queue != [] && s'.queue == s.queue[1..] && s'.table == s.table - {s.queue[0].key}
    requires s'.log.ran == s.log.ran + [s.queue[0]] && s'.log.closers == s.log.closers
    requires s'.log.granted == s.log.granted && s'.log.history == s.log.history
    requires AheadOfQueue(s)
    ensures AheadOfQueue(s')
  {
    TakeAgrees(s.queue, s.table, s.nextKey);
    forall m, n | m in s'.log.ran && n in s'.queue ensures Before(m, n) || LateCloser(s', n.key) {
      if m != s.queue[0] { assert m in s.log.ran && n in s.queue; }
    }
  }

  lemma HeadAhead(s: State)
    requires s.queue != [] && AheadOfQueue(s) && !LateCloser(s, s.queue[0].key) && Sorted(s.log.ran)
    ensures Sorted(s.log.ran + [s.queue[0]])
  {
    assert s.queue[0] in s.queue;
    OneMoreRan(s.log.ran, s.queue[0]);
  }

  lemma DropKeepsInOrder(s: State, s': State, ev: Event)
    requires Drops(s, s', ev) && Agrees(s) && OrderInv(s)
    requires s'.log.ran == s.log.ran + [s.queue[0]] && s'.log.history == s.log.history
    requires s'.now == s.now && s'.nextKey == s.nextKey
    ensures OrderInv(s')
  {
    hide Sorted, AheadOfQueue, Agreement;
    HeadBehindClock(s);
    StaysUnsorted(s.log.ran, s.queue[0]);
    assert ClosedOnTime(s'.log) <==> ClosedOnTime(s.log);
    if ClosedOnTime(s.log) {
      HeadAhead(s);
      TakeStaysAhead(s, s');
    }
  }

  lemma HeadBehindClock(s: State)
    requires Agrees(s) && s.queue != []
    ensures s.queue[0].key < s.nextKey
  {
    TakeAgrees(s.queue, s.table, s.nextKey);
  }

  lemma CloserOf(s: State) returns (k: nat)
    requires Agrees(s) && TimedOwned(s) && TimedDue(s) && OutcomesTracked(s)
    requires s.queue != [] && s.queue[0].key in s.table && s.table[s.queue[0].key].CloseTimed?
    ensures var fd := s.table[s.queue[0].key].fd;
            && s.queue[0].key in s.log.closers && k == s.log.closers[s.queue[0].key]
            && k in s.log.granted && k in s.log.history && k !in s.log.closedAt
            && fd in s.fds && s.fds[fd] == TimedConstraint(k) && s.queue[0].due == s.log.granted[k].expires
  {
    var h := s.queue[0];
    assert h in s.queue;
    k := s.log.closers[h.key];
    assert ArmedFor(s.log, h.key, s.table[h.key].fd) && HeldBy(s, k);
  }

  /** Running a late closer breaks the order for good. */
  lemma LateCloseBreaks(s: State, h: Message, k: nat)
    requires OpenersRan(s.log) && k in s.log.granted && k in s.log.history && !OnTime(s.log, k)
    requires h.due == s.log.granted[k].expires
    ensures !Sorted(s.log.ran + [h])
  {
    OutOfOrder(s.log.ran, Message(s.log.history[k].at, k), h);
  }

  lemma CloseKeepsRecords(s: State, s': State, ev: Event, h: Message)
    requires Closes(s, s', ev) && OpenersRan(s.log) && RanPast(s) && h == s.queue[0] && h.key < s.nextKey
    ensures OpenersRan(s'.log) && RanPast(s')
  {
  }

  lemma CloseKeepsInOrder(s: State, s': State, ev: Event)
    requires Closes(s, s', ev) && Agrees(s) && TimedOwned(s) && TimedDue(s) && OutcomesTracked(s) && OrderInv(s)
    ensures OrderInv(s')
  {
    hide Sorted, AheadOfQueue, Agreement, TimedOwned, TimedDue, OutcomesTracked, OpenersRan, RanPast, ClosedOnTime,
         OnTime;
    var h := s.queue[0];
    var k := CloserOf(s);
    HeadBehindClock(s);
    CloseKeepsRecords(s, s', ev, h);
    StaysUnsorted(s.log.ran, h);
    ClosedOneMore(s.log, s'.log, k);
    if !OnTime(s.log, k) {
      LateCloseBreaks(s, h, k);
    } else if ClosedOnTime(s.log) {
      HeadAhead(s);
      TakeStaysAhead(s, s');
    }
  }

  lemma ClosedOneMore(log: Log, log': Log, k: nat)
    requires log'.granted == log.granted && log'.history == log.history
    requires log'.closedAt.Keys == log.closedAt.Keys + {k}
    ensures ClosedOnTime(log') <==> ClosedOnTime(log) && OnTime(log, k)
  {
    assert k in log'.closedAt;
    assert forall j :: j in log.closedAt ==> j in log'.closedAt;
    assert forall j :: OnTime(log', j) <==> OnTime(log, j);
  }

  lemma GrantKeepsRecords(s: State, s': State, ev: Event, fd: nat, h: Message)
    requires Grants(s, s', ev, fd) && OpenersRan(s.log) && RanPast(s) && h == s.queue[0] && h.key < s.nextKey
    requires h.key in s.log.history && h == Message(s.log.history[h.key].at, h.key)
    ensures OpenersRan(s'.log) && RanPast(s')
  {
  }

  lemma ClosedWereGranted(s: State, key: nat)
    requires OutcomesTracked(s) && key !in s.log.granted
    ensures forall k :: k in s.log.closedAt ==> k in s.log.granted && k in s.log.history && k != key
  {
  }

  lemma GrantKeepsInOrder(s: State, s': State, ev: Event, fd: nat)
    requires Grants(s, s', ev, fd) && Agrees(s) && RequestsTracked(s) && OutcomesTracked(s) && OrderInv(s)
    ensures OrderInv(s')
  {
    var h := s.queue[0];
    assert h in s.queue && h.key !in s.log.granted && h == Message(s.log.history[h.key].at, h.key);
    HeadBehindClock(s);
    GrantKeepsRecords(s, s', ev, fd, h);
    ClosedWereGranted(s, h.key);
    hide Sorted, Agreement, Agrees, AheadOfQueue, RequestsTracked, OutcomesTracked, OpenersRan, ClosedOnTime, OnTime;
    SameClosedOnTime(s.log, s'.log);
    StaysUnsorted(s.log.ran, h);
    if ClosedOnTime(s.log) {
      HeadAhead(s);
      GrantStaysAhead(s, s', ev, fd);
    }
  }

  lemma GrantStaysAhead(s: State, s': State, ev: Event, fd: nat)
    requires Grants(s, s', ev, fd) && Agrees(s) && AheadOfQueue(s) && RanPast(s) && s.queue[0].key !in s.log.granted
    requires s.queue[0].key in s.log.history && s.queue[0].due == s.log.history[s.queue[0].key].at
    ensures AheadOfQueue(s')
  {
    hide Sorted, Agreement;
    var h, c := s.queue[0], Message(s.now + ev.timeout, s.nextKey);
    assert h in s.queue && !LateCloser(s, h.key);
    HeadBehindClock(s);
    TakeAgrees(s.queue, s.table, s.nextKey);
    GrantKeepsAgreement(s, s', ev, fd);
    hide Agrees;
    forall m, n | m in s'.log.ran && n in s'.queue ensures Before(m, n) || LateCloser(s', n.key) {
      assert m == h || (m in s.log.ran && Before(m, h));
      if n == c {
        assert s'.log.closers[c.key] == h.key && s'.log.granted[h.key].expires == c.due;
      } else {
        assert Before(h, n);
      }
    }
  }

  lemma RestKeepsInOrder(s: State, s': State)
    requires Rest(s, s') && OrderInv(s)
    ensures OrderInv(s')
  {
    assert forall k :: LateCloser(s, k) ==> LateCloser(s', k);
  }

  lemma DispatchKeepsInOrder(s: State, r: Response)
    requires Inv(s) && OrderInv(s) && Enabled(s, DoDispatch(r))
    ensures OrderInv(Dispatch(s, r))
  {
    hide OrderInv, Agreement, RequestsTracked, OutcomesTracked, TimedOwned, TimedDue, HandlesOwned, Dispatch;
    DispatchEffect(s, r);
    var s', ev := Dispatch(s, r), s.table[s.queue[0].key];
    match ev
    case OpenTimed(_, _, _) =>
      if r.node.None? { DropKeepsInOrder(s, s', ev); } else { GrantKeepsInOrder(s, s', ev, r.node.value); }
    case OpenHandle(_, _, _) => DropKeepsInOrder(s, s', ev);
    case CloseTimed(_) => CloseKeepsInOrder(s, s', ev);
  }

  lemma {:induction false} RunKeepsInOrder(s: State, steps: seq<Step>)
    requires Inv(s) && OrderInv(s) && Feasible(s, steps)
    ensures OrderInv(Execute(s, steps)) && Inv(Execute(s, steps))
    decreases |steps|
  {
    hide Inv, OrderInv;
    if steps != [] {
      StepKeeps(s, steps[0]);
      StepKeepsInOrder(s, steps[0]);
      RunKeepsInOrder(Apply(s, steps[0]), steps[1..]);
    }
  }

  lemma StepKeepsInOrder(s: State, step: Step)
    requires Inv(s) && OrderInv(s) && Enabled(s, step)
    ensures OrderInv(Apply(s, step))
  {
    hide OrderInv;
    if step.DoPush? {
      PushEffect(s, step.ev);
      PushKeepsInOrder(s, Apply(s, step), step.ev);
    } else if step.DoDispatch? {
      DispatchKeepsInOrder(s, step.r);
    } else {
      QuietEffect(s, step);
      RestKeepsInOrder(s, Apply(s, step));
    }
  }

  /** In every run the events have run in strictly increasing order of (due time, key) if and only if every closing
      event that has run fell due no earlier than the request it closes was pushed. */
  lemma RunsInOrderIff(now: int, steps: seq<Step>)
    requires Feasible(Init(now), steps)
    ensures Sorted(Execute(Init(now), steps).log.ran) <==> ClosedOnTime(Execute(Init(now), steps).log)
  {
    hide Inv;
    InitInv(now);
    RunKeepsInOrder(Init(now), steps);
  }

  ghost predicate NoNegativeTimeoutClosed(log: Log) {
    forall k :: k in log.closedAt ==>
      k in log.history && log.history[k].event.OpenTimed? && log.history[k].event.timeout >= 0
  }

  /** Under prompt dispatch: if and only if none of the constraints closed so far had a negative timeout. */
  lemma PromptRunsInOrderIff(now: int, steps: seq<Step>)
    requires Feasible(Init(now), steps) && PromptRun(Init(now), steps)
    ensures Sorted(Execute(Init(now), steps).log.ran) <==> NoNegativeTimeoutClosed(Execute(Init(now), steps).log)
  {
    RunsInOrderIff(now, steps);
    InitInv(now);
    RunKeepsOpensAtOnce(Init(now), steps);
    TimeoutsAsAsked(Execute(Init(now), steps));
  }

  lemma TimeoutsAsAsked(s: State)
    requires Inv(s) && OpensAtOnce(s)
    ensures ClosedOnTime(s.log) <==> NoNegativeTimeoutClosed(s.log)
  {
    forall k | k in s.log.closedAt
      ensures OnTime(s.log, k) <==> s.log.history[k].event.timeout >= 0
      ensures k in s.log.history && s.log.history[k].event.OpenTimed?
    {
    }
  }

  // ---------- Closing events against later requests ----------

  lemma CloserOfGranted(s: State, k: nat)
    requires Inv(s) && k in s.log.granted && k !in s.log.closedAt
    ensures var c := s.log.granted[k].closer;
            && c in s.log.closers && s.log.closers[c] == k
            && c in s.table && s.table[c] == CloseTimed(s.log.granted[k].fd)
    ensures Message(s.log.granted[k].expires, s.log.granted[k].closer) in s.queue
  {
    assert HeldBy(s, k);
    var c := s.log.granted[k].closer;
    assert ArmedFor(s.log, c, s.log.granted[k].fd);
    assert HeldBy(s, s.log.closers[c]);
    assert c in Keys(s.queue);
  }

  /** Request `j` was pushed after the closing event of constraint `k` was armed, and not before `k` expired. */
  ghost predicate Later(log: Log, k: nat, j: nat) {
    && k in log.granted && j in log.history
    && log.granted[k].closer < j && log.granted[k].expires <= log.history[j].at
  }

  /** In delivery order a pending closing event precedes every later request. */
  lemma TimeoutBeforeLaterRequest(s: State, k: nat, j: nat)
    requires Inv(s) && Later(s.log, k, j) && k !in s.log.closedAt
    ensures Message(s.log.granted[k].expires, s.log.granted[k].closer) in s.queue
    ensures Before(Message(s.log.granted[k].expires, s.log.granted[k].closer), Message(s.log.history[j].at, j))
  {
    CloserOfGranted(s, k);
  }

  /** A later request is pending as long as the constraint is open. */
  ghost predicate LaterWaits(s: State) {
    forall k, j :: Later(s.log, k, j) && k !in s.log.closedAt ==> j in s.table
  }

  lemma TakeKeepsLaterWaits(s: State, s': State)
    requires Inv(s) && LaterWaits(s)
    requires s.queue != [] && s.queue[0].key in s.table && s'.table.Keys >= s.table.Keys - {s.queue[0].key}
    requires forall k, j :: Later(s'.log, k, j) ==> Later(s.log, k, j)
    requires s'.log.closedAt.Keys >= s.log.closedAt.Keys
    ensures LaterWaits(s') || s.table[s.queue[0].key].CloseTimed?
  {
    hide Later, RequestsTracked, OutcomesTracked, TimedOwned, TimedDue, HandlesOwned;
    var h := s.queue[0];
    if !s.table[h.key].CloseTimed? {
      forall k, j | Later(s'.log, k, j) && k !in s'.log.closedAt ensures j in s'.table {
        assert Later(s.log, k, j) && j in s.table;
        if j == h.key { HeadIsNotLater(s, k); }
      }
    }
  }

  /** The head of the queue is no later request of a constraint that is still open. */
  lemma HeadIsNotLater(s: State, k: nat)
    requires Inv(s) && s.queue != [] && k !in s.log.closedAt
    requires s.queue[0].key in s.table && !s.table[s.queue[0].key].CloseTimed?
    ensures !Later(s.log, k, s.queue[0].key)
  {
    var h := s.queue[0];
    assert h in s.queue;
    if Later(s.log, k, h.key) {
      assert h == Message(s.log.history[h.key].at, h.key);
      TimeoutBeforeLaterRequest(s, k, h.key);
      HeadIsFirst(s.queue, Message(s.log.granted[k].expires, s.log.granted[k].closer));
    }
  }

  lemma HeadIsFirst(q: seq<Message>, m: Message)
    requires Sorted(q) && m in q
    ensures !Before(m, q[0])
  {
    var i :| 0 <= i < |q| && q[i] == m;
    if i > 0 { assert Before(q[0], q[i]); }
  }

  lemma CloseKeepsLaterWaits(s: State, s': State, ev: Event)
    requires Closes(s, s', ev) && RequestsTracked(s) && LaterWaits(s)
    ensures LaterWaits(s')
  {
    forall k, j | Later(s'.log, k, j) && k !in s'.log.closedAt ensures j in s'.table {
      assert Later(s.log, k, j);
    }
  }

  lemma DispatchKeepsLaterWaits(s: State, r: Response)
    requires Inv(s) && LaterWaits(s) && Enabled(s, DoDispatch(r))
    ensures LaterWaits(Dispatch(s, r))
  {
    DispatchEffect(s, r);
    var s', ev := Dispatch(s, r), s.table[s.queue[0].key];
    hide LaterWaits, Dispatch, Agreement, OutcomesTracked, TimedOwned, TimedDue, HandlesOwned;
    if ev.CloseTimed? {
      CloseKeepsLaterWaits(s, s', ev);
    } else {
      if ev.OpenTimed? && r.node.Some? { GrantMakesNoneLater(s, s', ev, r.node.value); }
      TakeKeepsLaterWaits(s, s');
    }
  }

  /** Nothing pushed so far is later than a constraint that is granted now. */
  lemma GrantMakesNoneLater(s: State, s': State, ev: Event, fd: nat)
    requires Grants(s, s', ev, fd) && RequestsTracked(s)
    ensures forall k, j :: Later(s'.log, k, j) ==> Later(s.log, k, j)
  {
  }

  lemma PushKeepsLaterWaits(s: State, ev: Event)
    requires OutcomesTracked(s) && RequestsTracked(s) && LaterWaits(s)
    ensures LaterWaits(Push(s, ev))
  {
    var s' := Push(s, ev);
    forall k, j | Later(s'.log, k, j) && k !in s'.log.closedAt ensures j in s'.table {
      if j != s.nextKey { assert Later(s.log, k, j); }
    }
  }

  lemma {:induction false} RunKeepsLaterWaits(s: State, steps: seq<Step>)
    requires Inv(s) && LaterWaits(s) && Feasible(s, steps)
    ensures LaterWaits(Execute(s, steps))
    decreases |steps|
  {
    hide LaterWaits, Inv;
    if steps != [] {
      StepKeeps(s, steps[0]);
      StepKeepsLaterWaits(s, steps[0]);
      RunKeepsLaterWaits(Apply(s, steps[0]), steps[1..]);
    }
  }

  lemma StepKeepsLaterWaits(s: State, step: Step)
    requires Inv(s) && LaterWaits(s) && Enabled(s, step)
    ensures LaterWaits(Apply(s, step))
  {
    if step.DoPush? { PushKeepsLaterWaits(s, step.ev); }
    else if step.DoDispatch? { DispatchKeepsLaterWaits(s, step.r); }
    else { QuietEffect(s, step); }
  }

  /** In every run, prompt or not and whatever the timeouts: a request that was pushed after the closing event
      of a constraint was armed, and not before the constraint expired, runs only after the constraint was closed. */
  lemma TimeoutRunsBeforeLaterRequest(s: State, k: nat, j: nat)
    requires Reachable(s) && k in s.log.granted && j in s.log.history
    requires s.log.granted[k].closer < j && s.log.granted[k].expires <= s.log.history[j].at
    ensures j !in s.table ==> k in s.log.closedAt
  {
    var now, steps :| Feasible(Init(now), steps) && s == Execute(Init(now), steps);
    InitInv(now);
    RunKeepsLaterWaits(Init(now), steps);
    assert Later(s.log, k, j);
  }

  /** Keys grow with time: what is pushed at a later instant than a constraint is granted comes after its closing event
      was armed. */
  ghost predicate KeysFollowClock(log: Log) {
    forall k, j ::
      (k in log.granted && j in log.history && log.granted[k].at < log.history[j].at) ==> log.granted[k].closer < j
  }

  lemma DispatchKeepsKeys(s: State, r: Response)
    requires Inv(s) && KeysFollowClock(s.log) && Enabled(s, DoDispatch(r))
    ensures KeysFollowClock(Dispatch(s, r).log)
  {
    DispatchEffect(s, r);
    hide Agreement, OutcomesTracked, TimedOwned, TimedDue, HandlesOwned, Dispatch;
  }

  lemma ClosersBelowNext(s: State, k: nat)
    requires OutcomesTracked(s) && ClosersRecorded(s.log) && k in s.log.granted
    ensures s.log.granted[k].closer < s.nextKey
  {
  }

  ghost predicate ClosersRecorded(log: Log) {
    forall k :: k in log.granted ==> log.granted[k].closer in log.closers
  }

  lemma PushKeepsKeys(s: State, ev: Event)
    requires OutcomesTracked(s) && ClosersRecorded(s.log) && KeysFollowClock(s.log)
    ensures KeysFollowClock(Push(s, ev).log)
  {
    forall k | k in s.log.granted ensures s.log.granted[k].closer < s.nextKey { ClosersBelowNext(s, k); }
  }

  lemma StepKeepsKeys(s: State, step: Step)
    requires Inv(s) && KeysFollowClock(s.log) && ClosersRecorded(s.log) && Enabled(s, step)
    ensures KeysFollowClock(Apply(s, step).log) && ClosersRecorded(Apply(s, step).log)
  {
    hide KeysFollowClock;
    if step.DoPush? {
      PushKeepsKeys(s, step.ev);
    } else if step.DoDispatch? {
      DispatchKeepsKeys(s, step.r);
      DispatchRecordsClosers(s, step.r);
    } else {
      QuietEffect(s, step);
    }
  }

  lemma DispatchRecordsClosers(s: State, r: Response)
    requires Inv(s) && ClosersRecorded(s.log) && Enabled(s, DoDispatch(r))
    ensures ClosersRecorded(Dispatch(s, r).log)
  {
    DispatchEffect(s, r);
    hide Agreement, RequestsTracked, OutcomesTracked, TimedOwned, TimedDue, HandlesOwned, Dispatch;
  }

  lemma {:induction false} RunKeepsKeys(s: State, steps: seq<Step>)
    requires Inv(s) && KeysFollowClock(s.log) && ClosersRecorded(s.log) && Feasible(s, steps)
    ensures KeysFollowClock(Execute(s, steps).log)
    decreases |steps|
  {
    hide KeysFollowClock, ClosersRecorded, Inv;
    if steps != [] {
      StepKeeps(s, steps[0]);
      StepKeepsKeys(s, steps[0]);
      RunKeepsKeys(Apply(s, steps[0]), steps[1..]);
    }
  }

  /** So every request pushed at a later instant than a constraint was granted, and not before it expired, is one of
      those. */
  lemma LaterInstantLargerKey(s: State, k: nat, j: nat)
    requires Reachable(s) && k in s.log.granted && j in s.log.history && s.log.granted[k].at < s.log.history[j].at
    ensures s.log.granted[k].closer < j
  {
    var now, steps :| Feasible(Init(now), steps) && s == Execute(Init(now), steps);
    InitInv(now);
    RunKeepsKeys(Init(now), steps);
  }
}
