/** Draining and waiting: how many dispatches it takes. */
module EngineProgress {
  import opened PokerEngine
  import opened EngineInvariant
  import opened EngineTheorems

  // ---------- Drain ----------

  ghost function ToOpen(table: map<nat, Event>): set<nat> {
    set k | k in table && table[k].OpenTimed?
  }

  /** Two for each pending timed open, which enqueues its own closing event, and one for any other. */
  ghost function Measure(s: State): nat {
    |s.queue| + |ToOpen(s.table)|
  }

  lemma {:induction false} InsertLength(q: seq<Message>, m: Message)
    ensures |Insert(q, m)| == |q| + 1
  {
    if q != [] && m.due >= q[0].due { InsertLength(q[1..], m); }
  }

  lemma TakeShrinks(s: State, s': State)
    requires s.queue != [] && s'.queue == s.queue[1..] && s'.table == s.table - {s.queue[0].key}
    ensures Measure(s') < Measure(s)
  {
    assert ToOpen(s'.table) <= ToOpen(s.table);
    SubsetSize(ToOpen(s'.table), ToOpen(s.table));
  }

  lemma SubsetSize(a: set<nat>, b: set<nat>)
    requires a <= b
    ensures |a| <= |b|
  {
    assert b == a + (b - a);
  }

  lemma GrantShrinks(s: State, s': State, ev: Event, fd: nat)
    requires Grants(s, s', ev, fd) && s.nextKey !in s.table
    ensures Measure(s') < Measure(s)
  {
    assert ToOpen(s'.table) == ToOpen(s.table) - {s.queue[0].key};
    InsertLength(s.queue[1..], Message(s.now + ev.timeout, s.nextKey));
  }

  lemma DispatchShrinks(s: State, r: Response)
    requires Agrees(s) && TimedOwned(s) && Enabled(s, DoDispatch(r))
    ensures Measure(Dispatch(s, r)) < Measure(s)
  {
    DispatchEffect(s, r);
    var s', ev := Dispatch(s, r), s.table[s.queue[0].key];
    if ev.OpenTimed? && r.node.Some? { GrantShrinks(s, s', ev, r.node.value); } else { TakeShrinks(s, s'); }
  }

  predicate PushFree(steps: seq<Step>) {
    forall step :: step in steps ==> !step.DoPush?
  }

  function Dispatches(steps: seq<Step>): nat {
    if steps == [] then 0 else (if steps[0].DoDispatch? then 1 else 0) + Dispatches(steps[1..])
  }

  /** With no further requests every dispatch uses up the measure. */
  lemma {:induction false} DrainBound(s: State, steps: seq<Step>)
    requires Inv(s) && Feasible(s, steps) && PushFree(steps)
    ensures Dispatches(steps) + Measure(Execute(s, steps)) <= Measure(s)
    decreases |steps|
  {
    if steps != [] {
      var s' := Apply(s, steps[0]);
      StepKeeps(s, steps[0]);
      assert steps[0] in steps;
      forall step | step in steps[1..] ensures step in steps {}
      DrainBound(s', steps[1..]);
      if steps[0].DoDispatch? { DispatchShrinks(s, steps[0].r); } else { QuietEffect(s, steps[0]); }
    }
  }

  lemma DrainedHoldsNothing(s: State)
    requires Inv(s) && s.queue == []
    ensures s.table == map[] && OpenRequests(s) == {}
  {
    assert Keys(s.queue) == {};
    assert s.table.Keys == {};
    OpenIsGrantedNotClosed(s);
    assert forall k :: k in s.log.granted && k !in s.log.closedAt ==> HeldBy(s, k);
  }

  /** Waiting for the first message to fall due and handling it. */
  function Turn(s: State, answer: State -> Response): (Step, Step)
    requires s.queue != []
  {
    var tick := DoTick(if s.queue[0].due > s.now then s.queue[0].due - s.now else 0);
    (tick, DoDispatch(answer(Apply(s, tick))))
  }

  lemma TurnShrinks(s: State, answer: State -> Response)
    requires Inv(s) && s.queue != [] && forall t: State :: Unused(t.fds, answer(t))
    ensures var (tick, go) := Turn(s, answer);
            && Enabled(s, tick) && Prompt(s, tick) && Enabled(Apply(s, tick), go)
            && Inv(Apply(Apply(s, tick), go)) && Measure(Apply(Apply(s, tick), go)) < Measure(s)
  {
    var (tick, go) := Turn(s, answer);
    StepKeeps(s, tick);
    StepKeeps(Apply(s, tick), go);
    DispatchShrinks(Apply(s, tick), go.r);
  }

  lemma RunTwo(s: State, a: Step, b: Step, rest: seq<Step>)
    requires Enabled(s, a) && Prompt(s, a) && Enabled(Apply(s, a), b) && Prompt(Apply(s, a), b)
    requires Feasible(Apply(Apply(s, a), b), rest) && PromptRun(Apply(Apply(s, a), b), rest)
    ensures Feasible(s, [a, b] + rest) && PromptRun(s, [a, b] + rest)
    ensures Execute(s, [a, b] + rest) == Execute(Apply(Apply(s, a), b), rest)
    ensures Dispatches([a, b] + rest) ==
              (if a.DoDispatch? then 1 else 0) + (if b.DoDispatch? then 1 else 0) + Dispatches(rest)
  {
    var s1 := Apply(s, a);
    assert ([a, b] + rest)[1..] == [b] + rest && ([b] + rest)[1..] == rest;
    assert Feasible(s1, [b] + rest) && PromptRun(s1, [b] + rest);
    assert Execute(s1, [b] + rest) == Execute(Apply(s1, b), rest);
    assert Dispatches([b] + rest) == (if b.DoDispatch? then 1 else 0) + Dispatches(rest);
  }

  /** Whatever the environment answers, waiting for each message and handling it empties the queue
      and closes every timed constraint, within Measure dispatches and under prompt dispatch. */
  lemma {:induction false} Drains(s: State, answer: State -> Response) returns (steps: seq<Step>)
    requires Inv(s) && forall t: State :: Unused(t.fds, answer(t))
    ensures Feasible(s, steps) && PushFree(steps) && PromptRun(s, steps)
    ensures Dispatches(steps) <= Measure(s)
    ensures Execute(s, steps).queue == [] && OpenRequests(Execute(s, steps)) == {}
    decreases Measure(s)
  {
    hide Inv, OpenRequests, Prompt, Enabled, Apply;
    if s.queue == [] {
      steps := [];
      DrainedHoldsNothing(s);
    } else {
      var (tick, go) := Turn(s, answer);
      TurnShrinks(s, answer);
      var rest := Drains(Apply(Apply(s, tick), go), answer);
      RunTwo(s, tick, go, rest);
      steps := [tick, go] + rest;
    }
  }

  // ---------- Waiting ----------

  /** How many messages are delivered before the one with key `k`. */
  function Position(q: seq<Message>, k: nat): nat {
    if q == [] || q[0].key == k then 0 else 1 + Position(q[1..], k)
  }

  lemma {:induction false} InsertKeepsPosition(q: seq<Message>, m: Message, k: nat)
    requires Sorted(q) && k in Keys(q) && k != m.key
    requires forall x :: x in q && x.key == k ==> x.due <= m.due
    ensures Position(Insert(q, m), k) == Position(q, k)
  {
    var x :| x in q && x.key == k;
    var i :| 0 <= i < |q| && q[i] == x;
    if i > 0 { assert Before(q[0], q[i]); }
    if q[0].key != k {
      assert q[1..][i - 1] == x;
      forall y | y in q[1..] && y.key == k ensures y.due <= m.due { assert y in q; }
      InsertKeepsPosition(q[1..], m, k);
    }
  }

  /** A request with delay zero stays due, so it waits only for the messages ahead of it. */
  lemma PendingIsDue(s: State, k: nat)
    requires Inv(s) && k in s.table && s.table[k].OpenHandle?
    ensures k in Keys(s.queue) && s.queue != [] && s.queue[0].due <= s.now
    ensures forall x :: x in s.queue && x.key == k ==> x.due <= s.now
  {
    assert k in Keys(s.queue);
    var m :| m in s.queue && m.key == k;
    var i :| 0 <= i < |s.queue| && s.queue[i] == m;
    if i > 0 { assert Before(s.queue[0], s.queue[i]); }
  }

  lemma PushKeepsPosition(s: State, ev: Event, k: nat)
    requires Inv(s) && !ev.CloseTimed? && k in s.table && s.table[k].OpenHandle?
    ensures Position(Push(s, ev).queue, k) == Position(s.queue, k)
  {
    PendingIsDue(s, k);
    InsertKeepsPosition(s.queue, Message(s.now, s.nextKey), k);
  }

  lemma TakeAdvances(s: State, s': State, k: nat)
    requires Agrees(s) && s.queue != [] && k in Keys(s.queue) && s.queue[0].key != k
    requires s'.queue == s.queue[1..]
    ensures k in Keys(s'.queue) && Position(s'.queue, k) == Position(s.queue, k) - 1
  {
    TakeAgrees(s.queue, s.table, s.nextKey);
    TakeMembers(s.queue);
    var x :| x in s.queue && x.key == k;
    assert x in s.queue[1..];
  }

  lemma GrantAdvances(s: State, s': State, ev: Event, fd: nat, k: nat)
    requires Grants(s, s', ev, fd) && Agrees(s) && ev.timeout >= 0 && k in Keys(s.queue) && s.queue[0].key != k
    requires forall x :: x in s.queue && x.key == k ==> x.due <= s.now
    ensures Position(s'.queue, k) == Position(s.queue, k) - 1
  {
    TakeAdvances(s, s.(queue := s.queue[1..]), k);
    TakeAgrees(s.queue, s.table, s.nextKey);
    InsertKeepsPosition(s.queue[1..], Message(s.now + ev.timeout, s.nextKey), k);
  }

  lemma DispatchAdvances(s: State, r: Response, k: nat)
    requires Inv(s) && NoNegativeTimeout(s) && Enabled(s, DoDispatch(r)) && k in s.table && s.table[k].OpenHandle?
    ensures Position(s.queue, k) == 0 ==> k in Dispatch(s, r).log.results
    ensures Position(s.queue, k) > 0 ==>
              && k in Dispatch(s, r).table && Dispatch(s, r).table[k] == s.table[k]
              && Position(Dispatch(s, r).queue, k) == Position(s.queue, k) - 1
  {
    hide Position, Agreement, RequestsTracked, OutcomesTracked, TimedOwned, TimedDue, HandlesOwned, Dispatch, Keys,
         NoNegativeTimeout;
    DispatchTakes(s, r);
    PendingIsDue(s, k);
    KeyBelowNext(s, k);
    PositionOfHead(s.queue, k);
    TimeoutOfHead(s);
    var ev := s.table[s.queue[0].key];
    if ev.OpenTimed? && r.node.Some? {
      GrantAdvances(s, Dispatch(s, r), ev, r.node.value, k);
    } else if s.queue[0].key != k {
      TakeAdvances(s, Dispatch(s, r), k);
    }
  }

  lemma PositionOfHead(q: seq<Message>, k: nat)
    requires q != []
    ensures Position(q, k) == 0 <==> q[0].key == k
  {
  }

  lemma TimeoutOfHead(s: State)
    requires RequestsTracked(s) && NoNegativeTimeout(s) && s.queue != [] && s.queue[0].key in s.table
    ensures s.table[s.queue[0].key].OpenTimed? ==> s.table[s.queue[0].key].timeout >= 0
  {
    assert s.queue[0] in s.queue;
  }

  lemma StepAdvances(s: State, step: Step, k: nat)
    requires Inv(s) && NoNegativeTimeout(s) && Enabled(s, step) && k in s.table && s.table[k].OpenHandle?
    ensures var s' := Apply(s, step);
            || k in s'.log.results
            || (&& k in s'.table && s'.table[k] == s.table[k]
                && Position(s'.queue, k) == Position(s.queue, k) - (if step.DoDispatch? then 1 else 0))
  {
    if step.DoPush? { PushEffect(s, step.ev); PushKeepsPosition(s, step.ev, k); }
    else if step.DoDispatch? { DispatchAdvances(s, step.r, k); }
    else { QuietEffect(s, step); }
  }

  lemma {:induction false} ResultsPersist(s: State, steps: seq<Step>, k: nat)
    requires Inv(s) && Feasible(s, steps) && k in s.log.results
    ensures k in Execute(s, steps).log.results && Execute(s, steps).log.results[k] == s.log.results[k]
    decreases |steps|
  {
    if steps != [] {
      StepKeeps(s, steps[0]);
      ResultPersists(s, steps[0], k);
      ResultsPersist(Apply(s, steps[0]), steps[1..], k);
    }
  }

  lemma ResultPersists(s: State, step: Step, k: nat)
    requires Inv(s) && Enabled(s, step) && k in s.log.results
    ensures k in Apply(s, step).log.results && Apply(s, step).log.results[k] == s.log.results[k]
  {
    if step.DoDispatch? { DispatchKeepsResult(s, step.r, k); }
  }

  lemma DispatchKeepsResult(s: State, r: Response, k: nat)
    requires Agrees(s) && TimedOwned(s) && OutcomesTracked(s) && Enabled(s, DoDispatch(r)) && k in s.log.results
    ensures k in Dispatch(s, r).log.results && Dispatch(s, r).log.results[k] == s.log.results[k]
  {
    DispatchTakes(s, r);
    hide Agreement, TimedOwned, Dispatch;
  }

  /** A pending handle request is answered by the dispatch that its position announces, however many
      requests the clients push meanwhile; and such a dispatch is always possible. */
  lemma {:induction false} WaiterIsServed(s: State, steps: seq<Step>, k: nat)
    requires Inv(s) && Feasible(s, steps) && NoNegativeTimeout(Execute(s, steps))
    requires k in s.table && s.table[k].OpenHandle?
    ensures s.queue != [] && s.queue[0].due <= s.now
    ensures Dispatches(steps) > Position(s.queue, k) ==> k in Execute(s, steps).log.results
    ensures k !in Execute(s, steps).log.results ==>
              Position(Execute(s, steps).queue, k) + Dispatches(steps) == Position(s.queue, k)
    decreases |steps|
  {
    PendingIsDue(s, k);
    if steps != [] {
      var s' := Apply(s, steps[0]);
      RunKeepsOrder(s, steps);
      StepKeeps(s, steps[0]);
      StepAdvances(s, steps[0], k);
      if k in s'.log.results {
        ResultsPersist(s', steps[1..], k);
      } else {
        WaiterIsServed(s', steps[1..], k);
      }
    } else {
      assert k !in s.log.results;
    }
  }

  // ---------- Waiting when timeouts may be negative ----------

  function Weight(table: map<nat, Event>, key: nat): nat {
    if key in table && table[key].OpenTimed? then 2 else 1
  }

  /** What is ahead of the message with key `k`: two for a timed open, whose closing event may come in ahead too if its
      timeout is negative, and one for any other. */
  function Ahead(q: seq<Message>, table: map<nat, Event>, k: nat): nat {
    if q == [] || q[0].key == k then 0 else Weight(table, q[0].key) + Ahead(q[1..], table, k)
  }

  ghost predicate SameWeights(q: seq<Message>, table: map<nat, Event>, table': map<nat, Event>) {
    forall m :: m in q ==> Weight(table', m.key) == Weight(table, m.key)
  }

  lemma {:induction false} SameAhead(q: seq<Message>, table: map<nat, Event>, table': map<nat, Event>, k: nat)
    requires SameWeights(q, table, table')
    ensures Ahead(q, table', k) == Ahead(q, table, k)
  {
    if q != [] {
      assert q[0] in q && forall m :: m in q[1..] ==> m in q;
      SameAhead(q[1..], table, table', k);
    }
  }

  /** Wherever a message of weight one goes, it adds one at most. */
  lemma {:induction false} InsertAddsOne(q: seq<Message>, m: Message, table: map<nat, Event>, k: nat)
    requires Weight(table, m.key) == 1
    ensures Ahead(Insert(q, m), table, k) <= Ahead(q, table, k) + 1
  {
    if q == [] || m.due < q[0].due {
      assert ([m] + q)[1..] == q;
    } else {
      InsertAddsOne(q[1..], m, table, k);
      assert ([q[0]] + Insert(q[1..], m))[1..] == Insert(q[1..], m);
    }
  }

  /** A message that is due no earlier than `k` goes behind it. */
  lemma {:induction false} InsertBehind(q: seq<Message>, m: Message, table: map<nat, Event>, k: nat)
    requires Sorted(q) && k in Keys(q) && k != m.key
    requires forall x :: x in q && x.key == k ==> x.due <= m.due
    ensures Ahead(Insert(q, m), table, k) == Ahead(q, table, k)
  {
    var x :| x in q && x.key == k;
    var i :| 0 <= i < |q| && q[i] == x;
    if i > 0 { assert Before(q[0], q[i]); }
    if q[0].key != k {
      assert q[1..][i - 1] == x;
      forall y | y in q[1..] && y.key == k ensures y.due <= m.due { assert y in q; }
      InsertBehind(q[1..], m, table, k);
      assert ([q[0]] + Insert(q[1..], m))[1..] == Insert(q[1..], m);
    }
  }

  lemma SendKeepsAhead(q: seq<Message>, table: map<nat, Event>, key: nat, due: int, ev: Event, k: nat)
    requires Agreement(q, table, key) && k in Keys(q)
    requires forall x :: x in q && x.key == k ==> x.due <= due
    ensures Ahead(Insert(q, Message(due, key)), table[key := ev], k) == Ahead(q, table, k)
  {
    SendAgrees(q, table, key, due, ev);
    hide Insert, Ahead;
    SameAhead(q, table, table[key := ev], k);
    InsertBehind(q, Message(due, key), table[key := ev], k);
  }

  lemma PushKeepsAhead(s: State, ev: Event, k: nat)
    requires Inv(s) && k in s.table && s.table[k].OpenHandle?
    ensures Ahead(Push(s, ev).queue, Push(s, ev).table, k) == Ahead(s.queue, s.table, k)
  {
    PendingIsDue(s, k);
    hide Agreement, Keys, Insert, Ahead, RequestsTracked, OutcomesTracked, TimedOwned, TimedDue, HandlesOwned;
    SendKeepsAhead(s.queue, s.table, s.nextKey, s.now, ev, k);
  }

  lemma TakeLowersAhead(s: State, s': State, k: nat)
    requires Agrees(s) && s.queue != [] && s.queue[0].key != k
    requires s'.queue == s.queue[1..] && s'.table == s.table - {s.queue[0].key}
    ensures Ahead(s'.queue, s'.table, k) == Ahead(s.queue, s.table, k) - Weight(s.table, s.queue[0].key)
  {
    TakeAgrees(s.queue, s.table, s.nextKey);
    SameAhead(s.queue[1..], s.table, s.table - {s.queue[0].key}, k);
  }

  lemma GrantLowersAhead(s: State, s': State, ev: Event, fd: nat, k: nat)
    requires Grants(s, s', ev, fd) && Agrees(s) && s.queue[0].key != k
    ensures Ahead(s'.queue, s'.table, k) < Ahead(s.queue, s.table, k)
  {
    hide Sorted, DistinctKeys, Keys, Insert, Ahead;
    var q, table := s.queue[1..], s.table - {s.queue[0].key};
    TakeLowersAhead(s, s.(queue := q, table := table), k);
    TakeAgrees(s.queue, s.table, s.nextKey);
    assert forall m :: m in q ==> m.key != s.nextKey;
    SameAhead(q, table, s'.table, k);
    InsertAddsOne(q, Message(s.now + ev.timeout, s.nextKey), s'.table, k);
  }

  /** Every dispatch before the one of `k` lowers what is ahead of it, whatever the timeouts are. */
  lemma DispatchLowersAhead(s: State, r: Response, k: nat)
    requires Inv(s) && Enabled(s, DoDispatch(r)) && k in s.table && s.table[k].OpenHandle?
    ensures var s' := Dispatch(s, r);
            || k in s'.log.results
            || (k in s'.table && s'.table[k] == s.table[k] && Ahead(s'.queue, s'.table, k) < Ahead(s.queue, s.table, k))
  {
    hide RequestsTracked, OutcomesTracked, TimedDue, HandlesOwned, Dispatch, Ahead;
    DispatchEffect(s, r);
    var s', ev := Dispatch(s, r), s.table[s.queue[0].key];
    KeyBelowNext(s, k);
    if s.queue[0].key == k {
    } else if ev.OpenTimed? && r.node.Some? {
      GrantLowersAhead(s, s', ev, r.node.value, k);
    } else {
      TakeLowersAhead(s, s', k);
    }
  }

  lemma KeyBelowNext(s: State, k: nat)
    requires Agrees(s) && k in s.table
    ensures k < s.nextKey
  {
  }

  lemma StepLowersAhead(s: State, step: Step, k: nat)
    requires Inv(s) && Enabled(s, step) && k in s.table && s.table[k].OpenHandle?
    ensures var s' := Apply(s, step);
            || k in s'.log.results
            || (&& k in s'.table && s'.table[k] == s.table[k]
                && Ahead(s'.queue, s'.table, k) <= Ahead(s.queue, s.table, k) - (if step.DoDispatch? then 1 else 0))
  {
    if step.DoPush? {
      PushEffect(s, step.ev);
      KeyBelowNext(s, k);
      PushKeepsAhead(s, step.ev, k);
    } else if step.DoDispatch? {
      DispatchLowersAhead(s, step.r, k);
    } else {
      QuietEffect(s, step);
    }
  }

  /** A pending handle request is answered within as many dispatches as Ahead says and one more, whatever timeouts
      were asked for and however many requests are pushed meanwhile; and a dispatch is always possible. */
  lemma {:induction false} WaiterIsServedWithin(s: State, steps: seq<Step>, k: nat)
    requires Inv(s) && Feasible(s, steps) && k in s.table && s.table[k].OpenHandle?
    ensures s.queue != [] && s.queue[0].due <= s.now
    ensures Dispatches(steps) > Ahead(s.queue, s.table, k) ==> k in Execute(s, steps).log.results
    decreases |steps|
  {
    hide Inv, Ahead, Apply;
    PendingIsDue(s, k);
    if steps != [] {
      var s' := Apply(s, steps[0]);
      StepKeeps(s, steps[0]);
      StepLowersAhead(s, steps[0], k);
      if k in s'.log.results {
        ResultsPersist(s', steps[1..], k);
      } else {
        WaiterIsServedWithin(s', steps[1..], k);
      }
    }
  }
}
