/** The inductive invariant of the engine. */
module EngineInvariant {
  import opened PokerEngine

  ghost predicate Sorted(q: seq<Message>) {
    forall i, j :: 0 <= i < j < |q| ==> Before(q[i], q[j])
  }

  ghost predicate DistinctKeys(q: seq<Message>) {
    forall m, n :: m in q && n in q && m.key == n.key ==> m == n
  }

  /** The key table and the looper's queue name the same events, each once. */
  ghost predicate Agreement(q: seq<Message>, table: map<nat, Event>, nextKey: nat) {
    && Sorted(q)
    && DistinctKeys(q)
    && Keys(q) == table.Keys
    && (forall k :: k in table ==> k < nextKey)
  }

  /** Every pushed request is pending, failed, or done. */
  ghost predicate RequestsTracked(s: State) {
    && (forall k :: k in s.log.history ==>
          && k < s.nextKey && s.log.history[k].at <= s.now && !s.log.history[k].event.CloseTimed?
          && (k in s.table ==> s.log.history[k].event == s.table[k])
          && (k !in s.table && s.log.history[k].event.OpenTimed? ==> k in s.log.failed || k in s.log.granted)
          && (k !in s.table && s.log.history[k].event.OpenHandle? ==> k in s.log.results))
    && (forall m :: m in s.queue && m.key in s.table && !s.table[m.key].CloseTimed? ==>
          m.key in s.log.history && m.due == s.log.history[m.key].at)
  }

  /** What is recorded of a request appears only once it has left the table. */
  ghost predicate OutcomesTracked(s: State) {
    && (forall k :: k in s.table ==> k !in s.log.granted && k !in s.log.failed && k !in s.log.results)
    && (forall k :: k in s.log.failed ==> k < s.nextKey && k !in s.log.granted)
    && (forall k :: k in s.log.results ==> k < s.nextKey)
    && (forall k :: k in s.log.granted ==>
          && k in s.log.history && s.log.history[k].event.OpenTimed? && k < s.nextKey
          && s.log.history[k].at <= s.log.granted[k].at <= s.now
          && s.log.granted[k].expires == s.log.granted[k].at + s.log.history[k].event.timeout)
    && (forall k :: k in s.log.closedAt ==>
          k in s.log.granted && s.log.granted[k].expires <= s.log.closedAt[k] <= s.now)
    && (forall k :: k in s.log.closers ==> k < s.nextKey)
  }

  ghost predicate Is(fds: map<nat, Object>, f: nat, o: Object) {
    f in fds && fds[f] == o
  }

  /** Request `r` was granted and not closed yet; its descriptor and its closing event are in place. */
  ghost predicate HeldBy(s: State, r: nat) {
    && r in s.log.granted && r !in s.log.closedAt
    && Is(s.fds, s.log.granted[r].fd, TimedConstraint(r))
    && s.log.granted[r].closer in s.table
    && s.table[s.log.granted[r].closer] == CloseTimed(s.log.granted[r].fd)
  }

  ghost predicate ArmedFor(log: Log, k: nat, fd: nat) {
    && k in log.closers && log.closers[k] in log.granted && log.closers[k] !in log.closedAt
    && log.granted[log.closers[k]].closer == k && log.granted[log.closers[k]].fd == fd
  }

  /** Timed constraints, their descriptors and their pending closing events are in bijection. */
  ghost predicate TimedOwned(s: State) {
    && (forall k :: k in s.table && s.table[k].CloseTimed? ==> ArmedFor(s.log, k, s.table[k].fd))
    && (forall f :: f in s.fds && s.fds[f].TimedConstraint? ==>
          && s.fds[f].request in s.log.granted && s.fds[f].request !in s.log.closedAt
          && s.log.granted[s.fds[f].request].fd == f)
    && (forall r :: r in s.log.granted && r !in s.log.closedAt ==> HeldBy(s, r))
  }

  /** A closing event falls due exactly when its constraint expires. */
  ghost predicate TimedDue(s: State) {
    forall m :: m in s.queue && m.key in s.table && s.table[m.key].CloseTimed? ==>
      && m.key in s.log.closers && s.log.closers[m.key] in s.log.granted
      && m.due == s.log.granted[s.log.closers[m.key]].expires
  }

  /** A handle's descriptors: the constraint and the server end live together, the client end no
      longer than they do, and the server end is registered unless the looper refused it. */
  ghost predicate HandleOk(fds: map<nat, Object>, contexts: map<nat, Context>, c: nat, h: Handle) {
    && (Is(fds, h.client, PipeClient(c)) ==> Is(fds, h.server, PipeServer(c)))
    && (Is(fds, h.server, PipeServer(c)) <==> Is(fds, h.constraint, HandleConstraint(c)))
    && (Is(fds, h.server, PipeServer(c)) && h.listening <==>
          h.server in contexts && contexts[h.server] == Context(h.constraint, c))
    && (!h.listening ==> Is(fds, h.server, PipeServer(c)))
  }

  ghost predicate BelongsTo(handles: map<nat, Handle>, f: nat, o: Object) {
    match o
    case PipeClient(c) => c in handles && handles[c].client == f
    case PipeServer(c) => c in handles && handles[c].server == f
    case HandleConstraint(c) => c in handles && handles[c].constraint == f
    case _ => true
  }

  ghost predicate RegisteredFor(fds: map<nat, Object>, handles: map<nat, Handle>, f: nat, ctx: Context) {
    && ctx.call in handles && handles[ctx.call].server == f && handles[ctx.call].constraint == ctx.fd
    && Is(fds, f, PipeServer(ctx.call))
  }

  ghost predicate HandlesOwned(fds: map<nat, Object>, contexts: map<nat, Context>, handles: map<nat, Handle>) {
    && (forall c :: c in handles ==> HandleOk(fds, contexts, c, handles[c]))
    && (forall f :: f in fds ==> BelongsTo(handles, f, fds[f]))
    && (forall f :: f in contexts ==> RegisteredFor(fds, handles, f, contexts[f]))
  }

  ghost predicate ResultsTracked(s: State) {
    forall c :: c in s.log.handles ==> c in s.log.results && s.log.results[c] == s.log.handles[c].client
  }

  ghost predicate Inv(s: State) {
    && Agrees(s) && RequestsTracked(s) && OutcomesTracked(s)
    && TimedOwned(s) && TimedDue(s)
    && HandlesOwned(s.fds, s.contexts, s.log.handles) && ResultsTracked(s)
  }

  ghost predicate Agrees(s: State) {
    Agreement(s.queue, s.table, s.nextKey)
  }

  // ---------- Queue lemmas ----------

  lemma {:induction false} InsertMembers(q: seq<Message>, m: Message)
    ensures forall x :: x in Insert(q, m) <==> x in q || x == m
  {
    if q != [] && m.due >= q[0].due {
      InsertMembers(q[1..], m);
      assert q == [q[0]] + q[1..];
    }
  }

  /** A message with a larger key than any queued one is inserted in delivery order. */
  lemma {:induction false} InsertSorted(q: seq<Message>, m: Message)
    requires Sorted(q)
    requires forall x :: x in q ==> x.key < m.key
    ensures Sorted(Insert(q, m))
  {
    if q == [] {
    } else if m.due < q[0].due {
      var r := Insert(q, m);
      assert forall j :: 1 <= j < |r| ==> r[j] == q[j - 1];
      assert forall j :: 0 < j < |q| ==> Before(q[0], q[j]);
    } else {
      var r := Insert(q[1..], m);
      InsertSorted(q[1..], m);
      InsertMembers(q[1..], m);
      forall j | 0 <= j < |r| ensures Before(q[0], r[j]) {
        assert r[j] in r;
        if r[j] != m { var i :| 0 <= i < |q[1..]| && q[1..][i] == r[j]; assert q[i + 1] == r[j]; }
        else { assert q[0] in q; }
      }
      assert Insert(q, m) == [q[0]] + r;
    }
  }

  lemma SendAgrees(q: seq<Message>, table: map<nat, Event>, key: nat, due: int, ev: Event)
    requires Agreement(q, table, key)
    ensures Agreement(Insert(q, Message(due, key)), table[key := ev], key + 1)
    ensures forall x :: x in Insert(q, Message(due, key)) <==> x in q || x == Message(due, key)
    ensures forall x :: x in q ==> x.key in table && x.key < key
  {
    var m := Message(due, key);
    var q' := Insert(q, m);
    InsertMembers(q, m);
    forall x | x in q ensures x.key in table { assert x.key in Keys(q); }
    InsertSorted(q, m);
    assert Keys(q') == Keys(q) + {key} by {
      assert m in q';
      forall k | k in Keys(q) ensures k in Keys(q') {
        var x :| x in q && x.key == k;
        assert x in q';
      }
    }
  }

  lemma TakeAgrees(q: seq<Message>, table: map<nat, Event>, nextKey: nat)
    requires Agreement(q, table, nextKey) && q != []
    ensures q[0].key in table && q[0] in q
    ensures Agreement(q[1..], table - {q[0].key}, nextKey)
    ensures forall x :: x in q[1..] ==> x in q && x.key in table && x.key != q[0].key && Before(q[0], x)
  {
    assert q[0].key in Keys(q);
    TakeMembers(q);
    forall x | x in q[1..] ensures x.key in table { assert x.key in Keys(q); }
    assert Keys(q[1..]) == Keys(q) - {q[0].key} by {
      forall k | k in Keys(q) && k != q[0].key ensures k in Keys(q[1..]) {
        var x :| x in q && x.key == k;
        assert x in q[1..];
      }
    }
  }

  lemma TakeMembers(q: seq<Message>)
    requires Sorted(q) && DistinctKeys(q) && q != []
    ensures Sorted(q[1..]) && DistinctKeys(q[1..])
    ensures forall x :: x in q ==> x == q[0] || x in q[1..]
    ensures forall x :: x in q[1..] ==> x in q && x.key != q[0].key && Before(q[0], x)
  {
    assert q == [q[0]] + q[1..];
    forall x | x in q[1..] ensures x in q && x.key != q[0].key && Before(q[0], x) {
      var i :| 0 <= i < |q[1..]| && q[1..][i] == x;
      assert q[i + 1] == x && Before(q[0], q[i + 1]);
      assert q[0] in q;
    }
  }

  // ---------- What one step changes ----------

  ghost predicate Pushes(s: State, s': State, ev: Event) {
    && !ev.CloseTimed?
    && s'.now == s.now && s'.nextKey == s.nextKey + 1
    && s'.table == s.table[s.nextKey := ev] && s'.queue == Insert(s.queue, Message(s.now, s.nextKey))
    && s'.fds == s.fds && s'.contexts == s.contexts
    && s'.log == s.log.(history := s.log.history[s.nextKey := Pushed(ev, s.now)])
  }

  /** What every dispatch does first: the head message and its event are gone. */
  ghost predicate Runs(s: State, ev: Event) {
    && s.queue != [] && s.queue[0].due <= s.now
    && s.queue[0].key in s.table && s.table[s.queue[0].key] == ev
  }

  ghost predicate Grants(s: State, s': State, ev: Event, fd: nat) {
    && ev.OpenTimed? && Runs(s, ev) && fd !in s.fds
    && s'.now == s.now && s'.nextKey == s.nextKey + 1
    && s'.table == (s.table - {s.queue[0].key})[s.nextKey := CloseTimed(fd)]
    && s'.queue == Insert(s.queue[1..], Message(s.now + ev.timeout, s.nextKey))
    && s'.fds == s.fds[fd := TimedConstraint(s.queue[0].key)] && s'.contexts == s.contexts
    && s'.log == s.log.(ran := s.log.ran + [s.queue[0]],
                        granted := s.log.granted[s.queue[0].key :=
                                     Opening(fd, s.nextKey, s.now, s.now + ev.timeout)],
                        closers := s.log.closers[s.nextKey := s.queue[0].key])
  }

  /** An event that leaves the descriptor table alone: an open or a pipe has failed. */
  ghost predicate Fails(s: State, s': State, ev: Event) {
    && !ev.CloseTimed? && Runs(s, ev)
    && s'.now == s.now && s'.nextKey == s.nextKey
    && s'.table == s.table - {s.queue[0].key} && s'.queue == s.queue[1..]
    && s'.fds == s.fds && s'.contexts == s.contexts
    && s'.log == (if ev.OpenTimed?
                  then s.log.(ran := s.log.ran + [s.queue[0]], failed := s.log.failed + {s.queue[0].key})
                  else s.log.(ran := s.log.ran + [s.queue[0]], results := s.log.results[s.queue[0].key := -1]))
  }

  ghost predicate Creates(s: State, s': State, ev: Event, h: Handle) {
    && ev.OpenHandle? && Runs(s, ev)
    && h.constraint !in s.fds && h.client !in s.fds && h.server !in s.fds
    && h.constraint != h.client && h.constraint != h.server && h.client != h.server
    && s'.now == s.now && s'.nextKey == s.nextKey
    && s'.table == s.table - {s.queue[0].key} && s'.queue == s.queue[1..]
    && s'.fds == s.fds[h.constraint := HandleConstraint(s.queue[0].key)]
                      [h.client := PipeClient(s.queue[0].key)][h.server := PipeServer(s.queue[0].key)]
    && s'.contexts == (if h.listening then s.contexts[h.server := Context(h.constraint, s.queue[0].key)]
                       else s.contexts)
    && s'.log == s.log.(ran := s.log.ran + [s.queue[0]], handles := s.log.handles[s.queue[0].key := h],
                        results := s.log.results[s.queue[0].key := h.client])
  }

  ghost predicate Closes(s: State, s': State, ev: Event) {
    && ev.CloseTimed? && Runs(s, ev) && ev.fd in s.fds && s.fds[ev.fd].TimedConstraint?
    && s'.now == s.now && s'.nextKey == s.nextKey
    && s'.table == s.table - {s.queue[0].key} && s'.queue == s.queue[1..]
    && s'.fds == s.fds - {ev.fd} && s'.contexts == s.contexts
    && s'.log == s.log.(ran := s.log.ran + [s.queue[0]],
                        closedAt := s.log.closedAt[s.fds[ev.fd].request := s.now])
  }

  /** Steps that change only the clock, or descriptors and contexts of handles and of others. */
  ghost predicate Rest(s: State, s': State) {
    && s.now <= s'.now && s'.nextKey == s.nextKey && s'.table == s.table && s'.queue == s.queue
    && s'.log == s.log
    && SameTimed(s.fds, s'.fds)
  }

  ghost predicate SameTimed(fds: map<nat, Object>, fds': map<nat, Object>) {
    && (forall f :: f in fds && fds[f].TimedConstraint? ==> f in fds' && fds'[f] == fds[f])
    && (forall f :: f in fds' && fds'[f].TimedConstraint? ==> f in fds && fds'[f] == fds[f])
  }

  /** A dispatch that touches no timed constraint. */
  ghost predicate Drops(s: State, s': State, ev: Event) {
    && !ev.CloseTimed? && Runs(s, ev)
    && s'.table == s.table - {s.queue[0].key} && s'.queue == s.queue[1..]
    && SameTimed(s.fds, s'.fds)
    && s'.log.granted == s.log.granted && s'.log.closers == s.log.closers && s'.log.closedAt == s.log.closedAt
  }

  lemma PushEffect(s: State, ev: Event)
    requires !ev.CloseTimed?
    ensures Pushes(s, Push(s, ev), ev)
  {
  }

  lemma TimedOpenEffect(s: State, r: Response, ev: Event)
    requires Runs(s, ev) && ev.OpenTimed? && Unused(s.fds, r)
    ensures if r.node.None? then Fails(s, Dispatch(s, r), ev) else Grants(s, Dispatch(s, r), ev, r.node.value)
  {
    hide Insert;
  }

  lemma HandleOpenEffect(s: State, r: Response, ev: Event)
    requires Runs(s, ev) && ev.OpenHandle? && Unused(s.fds, r)
    ensures if r.node.None? || r.pipe.None? then Fails(s, Dispatch(s, r), ev)
            else Creates(s, Dispatch(s, r), ev, Handle(r.node.value, r.pipe.value.0, r.pipe.value.1, r.listening))
  {
  }

  lemma CloseEffect(s: State, r: Response, ev: Event)
    requires Runs(s, ev) && ev.CloseTimed? && ev.fd in s.fds && s.fds[ev.fd].TimedConstraint?
    ensures Closes(s, Dispatch(s, r), ev)
  {
  }

  lemma CloserFindsItsOwn(s: State, key: nat)
    requires TimedOwned(s) && key in s.table && s.table[key].CloseTimed?
    ensures s.table[key].fd in s.fds && s.fds[s.table[key].fd].TimedConstraint?
  {
    assert ArmedFor(s.log, key, s.table[key].fd) && HeldBy(s, s.log.closers[key]);
  }

  /** Under the invariant a dispatch finds its event, and a closing event finds its own constraint. */
  lemma DispatchEffect(s: State, r: Response)
    requires Agreement(s.queue, s.table, s.nextKey) && TimedOwned(s) && Enabled(s, DoDispatch(r))
    ensures s.queue[0].key in s.table
    ensures var (s', ev) := (Dispatch(s, r), s.table[s.queue[0].key]);
            match ev
            case OpenTimed(_, _, _) => if r.node.None? then Fails(s, s', ev) else Grants(s, s', ev, r.node.value)
            case OpenHandle(_, _, _) =>
              if r.node.None? || r.pipe.None? then Fails(s, s', ev)
              else Creates(s, s', ev, Handle(r.node.value, r.pipe.value.0, r.pipe.value.1, r.listening))
            case CloseTimed(_) => Closes(s, s', ev)
  {
    TakeAgrees(s.queue, s.table, s.nextKey);
    var ev := s.table[s.queue[0].key];
    hide Agreement, TimedOwned, Dispatch, Grants, Fails, Creates, Closes;
    match ev
    case OpenTimed(_, _, _) => TimedOpenEffect(s, r, ev);
    case OpenHandle(_, _, _) => HandleOpenEffect(s, r, ev);
    case CloseTimed(_) => CloserFindsItsOwn(s, s.queue[0].key); CloseEffect(s, r, ev);
  }

  /** What a dispatch does when it is not a granted timed open. */
  ghost predicate TakesHead(s: State, s': State, ev: Event) {
    && Runs(s, ev) && s'.queue == s.queue[1..] && s'.table == s.table - {s.queue[0].key}
    && s'.log.history == s.log.history
    && (if ev.OpenHandle? then s'.log.results.Keys == s.log.results.Keys + {s.queue[0].key}
                               && (forall k :: k in s.log.results && k != s.queue[0].key ==>
                                     s'.log.results[k] == s.log.results[k])
        else s'.log.results == s.log.results)
  }

  lemma OthersTakeHead(s: State, s': State, ev: Event)
    requires Fails(s, s', ev) || Closes(s, s', ev) || exists h :: Creates(s, s', ev, h)
    ensures TakesHead(s, s', ev)
  {
  }

  lemma DispatchTakes(s: State, r: Response)
    requires Agrees(s) && TimedOwned(s) && Enabled(s, DoDispatch(r))
    ensures s.queue[0].key in s.table
    ensures var ev := s.table[s.queue[0].key];
            if ev.OpenTimed? && r.node.Some? then Grants(s, Dispatch(s, r), ev, r.node.value)
            else TakesHead(s, Dispatch(s, r), ev)
  {
    DispatchEffect(s, r);
    var ev := s.table[s.queue[0].key];
    hide Agreement, TimedOwned, Dispatch, Grants, Fails, Creates, Closes, TakesHead;
    if !(ev.OpenTimed? && r.node.Some?) { OthersTakeHead(s, Dispatch(s, r), ev); }
  }

  // ---------- Preservation ----------

  lemma PushKeepsRequests(s: State, s': State, ev: Event)
    requires Pushes(s, s', ev) && Agrees(s) && RequestsTracked(s)
    ensures Agrees(s') && RequestsTracked(s')
  {
    SendAgrees(s.queue, s.table, s.nextKey, s.now, ev);
  }

  lemma PushKeepsOutcomes(s: State, s': State, ev: Event)
    requires Pushes(s, s', ev) && Agrees(s) && OutcomesTracked(s)
    ensures OutcomesTracked(s')
  {
    SendAgrees(s.queue, s.table, s.nextKey, s.now, ev);
  }

  lemma PushKeepsTimed(s: State, s': State, ev: Event)
    requires Pushes(s, s', ev) && Agrees(s) && TimedOwned(s) && TimedDue(s)
    ensures TimedOwned(s') && TimedDue(s')
  {
    SendAgrees(s.queue, s.table, s.nextKey, s.now, ev);
  }

  lemma GrantKeepsAgreement(s: State, s': State, ev: Event, fd: nat)
    requires Grants(s, s', ev, fd) && Agrees(s)
    ensures Agrees(s')
    ensures forall m :: m in s'.queue <==> m == Message(s.now + ev.timeout, s.nextKey) || m in s.queue[1..]
  {
    TakeAgrees(s.queue, s.table, s.nextKey);
    SendAgrees(s.queue[1..], s.table - {s.queue[0].key}, s.nextKey, s.now + ev.timeout, CloseTimed(fd));
  }

  lemma GrantKeepsRequests(s: State, s': State, ev: Event, fd: nat)
    requires Grants(s, s', ev, fd) && Agrees(s) && RequestsTracked(s)
    ensures RequestsTracked(s')
  {
    hide Agreement, Sorted, DistinctKeys, Keys, Insert;
    GrantKeepsAgreement(s, s', ev, fd);
    TakeAgrees(s.queue, s.table, s.nextKey);
  }

  lemma GrantKeepsOutcomes(s: State, s': State, ev: Event, fd: nat)
    requires Grants(s, s', ev, fd) && Agrees(s) && RequestsTracked(s) && OutcomesTracked(s)
    ensures OutcomesTracked(s')
  {
    TakeAgrees(s.queue, s.table, s.nextKey);
    SendAgrees(s.queue[1..], s.table - {s.queue[0].key}, s.nextKey, s.now + ev.timeout, CloseTimed(fd));
  }

  /** The request just granted is held; the others are as before. */
  lemma GrantHolds(s: State, s': State, ev: Event, fd: nat, q: nat)
    requires Grants(s, s', ev, fd) && q in s'.log.granted && q !in s'.log.closedAt
    requires q != s.queue[0].key ==> HeldBy(s, q)
    requires s.nextKey !in s.table && s.queue[0].key !in s.log.granted && !s.table[s.queue[0].key].CloseTimed?
    ensures HeldBy(s', q)
  {
  }

  lemma GrantArms(s: State, s': State, ev: Event, fd: nat, k: nat)
    requires Grants(s, s', ev, fd) && OutcomesTracked(s) && k in s'.table && s'.table[k].CloseTimed?
    requires k != s.nextKey ==> ArmedFor(s.log, k, s.table[k].fd)
    requires s.queue[0].key !in s.log.granted
    ensures ArmedFor(s'.log, k, s'.table[k].fd)
  {
  }

  lemma GrantKeepsTimed(s: State, s': State, ev: Event, fd: nat)
    requires Grants(s, s', ev, fd) && Agrees(s) && OutcomesTracked(s) && TimedOwned(s)
    ensures TimedOwned(s')
  {
    TakeAgrees(s.queue, s.table, s.nextKey);
    assert s.nextKey !in s.table && s.queue[0].key !in s.log.granted;
    hide Agreement, Agrees, Insert, ArmedFor, HeldBy;
    forall k | k in s'.table && s'.table[k].CloseTimed? ensures ArmedFor(s'.log, k, s'.table[k].fd) {
      GrantArms(s, s', ev, fd, k);
    }
    forall q | q in s'.log.granted && q !in s'.log.closedAt ensures HeldBy(s', q) {
      GrantHolds(s, s', ev, fd, q);
    }
  }

  lemma GrantKeepsDue(s: State, s': State, ev: Event, fd: nat)
    requires Grants(s, s', ev, fd) && Agrees(s) && OutcomesTracked(s) && TimedOwned(s) && TimedDue(s)
    ensures TimedDue(s')
  {
    TakeAgrees(s.queue, s.table, s.nextKey);
    GrantKeepsAgreement(s, s', ev, fd);
    assert s.queue[0].key !in s.log.granted;
    hide Agreement, Agrees, Insert, TimedOwned, OutcomesTracked;
    forall m | m in s'.queue && m.key in s'.table && s'.table[m.key].CloseTimed?
      ensures m.key in s'.log.closers && s'.log.closers[m.key] in s'.log.granted
      ensures m.due == s'.log.granted[s'.log.closers[m.key]].expires
    {
      if m.key == s.nextKey {
        assert m !in s.queue[1..];
      } else {
        assert m in s.queue && s.log.closers[m.key] in s.log.granted;
      }
    }
  }

  lemma GrantKeepsHandles(s: State, s': State, ev: Event, fd: nat)
    requires Grants(s, s', ev, fd) && HandlesOwned(s.fds, s.contexts, s.log.handles)
    ensures HandlesOwned(s'.fds, s'.contexts, s'.log.handles)
  {
  }

  lemma DropKeepsTimed(s: State, s': State, ev: Event)
    requires Drops(s, s', ev) && TimedOwned(s)
    ensures TimedOwned(s')
  {
    forall k | k in s'.table && s'.table[k].CloseTimed? ensures ArmedFor(s'.log, k, s'.table[k].fd) {
      assert ArmedFor(s.log, k, s.table[k].fd);
    }
    forall q | q in s'.log.granted && q !in s'.log.closedAt ensures HeldBy(s', q) {
      assert HeldBy(s, q);
    }
  }

  lemma DropKeepsDue(s: State, s': State, ev: Event)
    requires Drops(s, s', ev) && Agrees(s) && TimedDue(s)
    ensures TimedDue(s')
  {
    TakeAgrees(s.queue, s.table, s.nextKey);
  }

  lemma FailKeepsRequests(s: State, s': State, ev: Event)
    requires Fails(s, s', ev) && Agrees(s) && RequestsTracked(s)
    ensures Agrees(s') && RequestsTracked(s')
  {
    TakeAgrees(s.queue, s.table, s.nextKey);
  }

  lemma FailKeepsOutcomes(s: State, s': State, ev: Event)
    requires Fails(s, s', ev) && Agrees(s) && RequestsTracked(s) && OutcomesTracked(s)
    ensures OutcomesTracked(s')
  {
    TakeAgrees(s.queue, s.table, s.nextKey);
  }

  lemma CreateKeepsRequests(s: State, s': State, ev: Event, h: Handle)
    requires Creates(s, s', ev, h) && Agrees(s) && RequestsTracked(s)
    ensures Agrees(s') && RequestsTracked(s')
  {
    TakeAgrees(s.queue, s.table, s.nextKey);
  }

  lemma CreateKeepsOutcomes(s: State, s': State, ev: Event, h: Handle)
    requires Creates(s, s', ev, h) && Agrees(s) && RequestsTracked(s) && OutcomesTracked(s)
    ensures OutcomesTracked(s')
  {
    TakeAgrees(s.queue, s.table, s.nextKey);
  }

  ghost predicate Adds(fds: map<nat, Object>, fds': map<nat, Object>, key: nat, h: Handle) {
    && h.constraint !in fds && h.client !in fds && h.server !in fds
    && h.constraint != h.client && h.constraint != h.server && h.client != h.server
    && fds' == fds[h.constraint := HandleConstraint(key)][h.client := PipeClient(key)][h.server := PipeServer(key)]
  }

  lemma AddsKeepsOthers(fds: map<nat, Object>, fds': map<nat, Object>, key: nat, h: Handle, f: nat, o: Object)
    requires Adds(fds, fds', key, h)
    requires o.HandleConstraint? || o.PipeClient? || o.PipeServer?
    requires o.call != key
    ensures Is(fds', f, o) <==> Is(fds, f, o)
  {
  }

  lemma AddsKeepsHandle(fds: map<nat, Object>, fds': map<nat, Object>, contexts: map<nat, Context>,
                        key: nat, h: Handle, c: nat, g: Handle)
    requires Adds(fds, fds', key, h) && c != key && h.server !in contexts
    requires HandleOk(fds, contexts, c, g)
    ensures HandleOk(fds', contexts, c, g)
    ensures HandleOk(fds', contexts[h.server := Context(h.constraint, key)], c, g)
  {
    AddsKeepsOthers(fds, fds', key, h, g.client, PipeClient(c));
    AddsKeepsOthers(fds, fds', key, h, g.server, PipeServer(c));
    AddsKeepsOthers(fds, fds', key, h, g.constraint, HandleConstraint(c));
  }

  lemma AddsKeepsMembership(fds: map<nat, Object>, fds': map<nat, Object>, handles: map<nat, Handle>, key: nat,
      h: Handle)
    requires forall f :: f in fds ==> BelongsTo(handles, f, fds[f])
    requires key !in handles && Adds(fds, fds', key, h)
    ensures forall f :: f in fds' ==> BelongsTo(handles[key := h], f, fds'[f])
  {
  }

  lemma AddsKeepsContexts(fds: map<nat, Object>, fds': map<nat, Object>, contexts: map<nat, Context>,
                          contexts': map<nat, Context>, handles: map<nat, Handle>, key: nat, h: Handle)
    requires forall f :: f in contexts ==> RegisteredFor(fds, handles, f, contexts[f])
    requires key !in handles && Adds(fds, fds', key, h)
    requires contexts' == (if h.listening then contexts[h.server := Context(h.constraint, key)] else contexts)
    ensures h.server !in contexts
    ensures forall f :: f in contexts' ==> RegisteredFor(fds', handles[key := h], f, contexts'[f])
  {
  }

  lemma CreateKeepsResults(s: State, s': State, ev: Event, h: Handle)
    requires Creates(s, s', ev, h) && ResultsTracked(s)
    ensures ResultsTracked(s')
  {
  }

  lemma AddedHandleOk(fds: map<nat, Object>, fds': map<nat, Object>, contexts: map<nat, Context>, key: nat, h: Handle)
    requires Adds(fds, fds', key, h) && h.server !in contexts
    ensures HandleOk(fds', if h.listening then contexts[h.server := Context(h.constraint, key)] else contexts, key, h)
  {
  }

  lemma CreateKeepsHandles(s: State, s': State, ev: Event, h: Handle)
    requires Creates(s, s', ev, h) && Agrees(s) && OutcomesTracked(s) && ResultsTracked(s)
    requires HandlesOwned(s.fds, s.contexts, s.log.handles)
    ensures HandlesOwned(s'.fds, s'.contexts, s'.log.handles) && ResultsTracked(s')
  {
    var key, hs := s.queue[0].key, s.log.handles;
    assert key !in hs;
    CreateKeepsResults(s, s', ev, h);
    hide Agrees, OutcomesTracked, ResultsTracked, HandleOk, BelongsTo, RegisteredFor;
    assert Adds(s.fds, s'.fds, key, h);
    hide Adds;
    AddsKeepsMembership(s.fds, s'.fds, hs, key, h);
    AddsKeepsContexts(s.fds, s'.fds, s.contexts, s'.contexts, hs, key, h);
    AddedHandleOk(s.fds, s'.fds, s.contexts, key, h);
    forall c | c in s'.log.handles ensures HandleOk(s'.fds, s'.contexts, c, s'.log.handles[c]) {
      if c != key { AddsKeepsHandle(s.fds, s'.fds, s.contexts, key, h, c, hs[c]); }
    }
  }

  lemma CloseKeepsRequests(s: State, s': State, ev: Event)
    requires Closes(s, s', ev) && Agrees(s) && RequestsTracked(s)
    ensures Agrees(s') && RequestsTracked(s')
  {
    TakeAgrees(s.queue, s.table, s.nextKey);
  }

  lemma CloseKeepsOutcomes(s: State, s': State, ev: Event)
    requires Closes(s, s', ev) && Agrees(s) && OutcomesTracked(s) && TimedOwned(s) && TimedDue(s)
    ensures OutcomesTracked(s')
  {
    TakeAgrees(s.queue, s.table, s.nextKey);
  }

  lemma CloseKeepsTimed(s: State, s': State, ev: Event)
    requires Closes(s, s', ev) && Agrees(s) && TimedOwned(s)
    ensures TimedOwned(s')
  {
    TakeAgrees(s.queue, s.table, s.nextKey);
    var key := s.queue[0].key;
    assert ArmedFor(s.log, key, ev.fd);
    var r := s.log.closers[key];
    assert HeldBy(s, r);
    forall k | k in s'.table && s'.table[k].CloseTimed? ensures ArmedFor(s'.log, k, s'.table[k].fd) {
      assert ArmedFor(s.log, k, s.table[k].fd);
    }
    forall q | q in s'.log.granted && q !in s'.log.closedAt ensures HeldBy(s', q) {
      assert HeldBy(s, q);
    }
  }

  lemma CloseKeepsDue(s: State, s': State, ev: Event)
    requires Closes(s, s', ev) && Agrees(s) && TimedOwned(s) && TimedDue(s)
    ensures TimedDue(s')
  {
    TakeAgrees(s.queue, s.table, s.nextKey);
  }

  lemma CloseKeepsHandles(s: State, s': State, ev: Event)
    requires Closes(s, s', ev) && HandlesOwned(s.fds, s.contexts, s.log.handles)
    ensures HandlesOwned(s'.fds, s'.contexts, s'.log.handles)
  {
  }

  lemma RestKeeps(s: State, s': State)
    requires Rest(s, s') && Agrees(s) && RequestsTracked(s) && OutcomesTracked(s) && TimedOwned(s) && TimedDue(s)
    ensures Agrees(s') && RequestsTracked(s') && OutcomesTracked(s') && TimedOwned(s') && TimedDue(s')
  {
  }

  lemma ReleaseKeepsHandles(fds: map<nat, Object>, contexts: map<nat, Context>, handles: map<nat, Handle>, server: nat)
    requires HandlesOwned(fds, contexts, handles) && server in contexts && server in fds && fds[server].PipeServer?
    requires forall f :: f in fds ==> fds[f] != PipeClient(fds[server].call)
    ensures HandlesOwned(fds - {server, contexts[server].fd}, contexts - {server}, handles)
    ensures Is(fds, contexts[server].fd, HandleConstraint(contexts[server].call))
  {
    assert RegisteredFor(fds, handles, server, contexts[server]);
    var k, ctx := contexts[server].call, contexts[server];
    assert HandleOk(fds, contexts, k, handles[k]);
    var fds', contexts' := fds - {server, ctx.fd}, contexts - {server};
    forall c | c in handles ensures HandleOk(fds', contexts', c, handles[c]) {
      assert HandleOk(fds, contexts, c, handles[c]);
    }
    forall f | f in contexts' ensures RegisteredFor(fds', handles, f, contexts'[f]) {
      assert RegisteredFor(fds, handles, f, contexts[f]);
    }
  }

  /** Closing a client end, or opening or closing a foreign descriptor. */
  lemma OneFdKeepsHandles(fds: map<nat, Object>, fds': map<nat, Object>, contexts: map<nat, Context>,
                          handles: map<nat, Handle>, f: nat)
    requires HandlesOwned(fds, contexts, handles)
    requires (f !in fds && fds' == fds[f := Foreign])
          || (f in fds && (fds[f].PipeClient? || fds[f].Foreign?) && fds' == fds - {f})
    ensures HandlesOwned(fds', contexts, handles)
  {
    forall c | c in handles ensures HandleOk(fds', contexts, c, handles[c]) {
      assert HandleOk(fds, contexts, c, handles[c]);
    }
    forall g | g in contexts ensures RegisteredFor(fds', handles, g, contexts[g]) {
      assert RegisteredFor(fds, handles, g, contexts[g]);
    }
  }

  lemma FailKeepsResults(s: State, s': State, ev: Event)
    requires Fails(s, s', ev) && OutcomesTracked(s) && ResultsTracked(s)
    ensures ResultsTracked(s')
  {
  }

  lemma GrantKeeps(s: State, s': State, ev: Event, fd: nat)
    requires Inv(s) && Grants(s, s', ev, fd)
    ensures Inv(s')
  {
    GrantKeepsAgreement(s, s', ev, fd); GrantKeepsRequests(s, s', ev, fd); GrantKeepsOutcomes(s, s', ev, fd);
    GrantKeepsTimed(s, s', ev, fd); GrantKeepsDue(s, s', ev, fd); GrantKeepsHandles(s, s', ev, fd);
  }

  lemma FailKeeps(s: State, s': State, ev: Event)
    requires Inv(s) && Fails(s, s', ev)
    ensures Inv(s')
  {
    FailKeepsRequests(s, s', ev); FailKeepsOutcomes(s, s', ev); FailKeepsResults(s, s', ev);
    DropKeepsTimed(s, s', ev); DropKeepsDue(s, s', ev);
  }

  lemma CreateDrops(s: State, s': State, ev: Event, h: Handle)
    requires Creates(s, s', ev, h)
    ensures Drops(s, s', ev)
  {
  }

  lemma CreateKeeps(s: State, s': State, ev: Event, h: Handle)
    requires Inv(s) && Creates(s, s', ev, h)
    ensures Inv(s')
  {
    CreateDrops(s, s', ev, h);
    CreateKeepsRequests(s, s', ev, h); CreateKeepsOutcomes(s, s', ev, h); CreateKeepsHandles(s, s', ev, h);
    DropKeepsTimed(s, s', ev); DropKeepsDue(s, s', ev);
  }

  lemma CloseKeeps(s: State, s': State, ev: Event)
    requires Inv(s) && Closes(s, s', ev)
    ensures Inv(s')
  {
    CloseKeepsRequests(s, s', ev); CloseKeepsOutcomes(s, s', ev);
    CloseKeepsTimed(s, s', ev); CloseKeepsDue(s, s', ev); CloseKeepsHandles(s, s', ev);
  }

  lemma DispatchKeeps(s: State, r: Response)
    requires Inv(s) && Enabled(s, DoDispatch(r))
    ensures Inv(Dispatch(s, r))
  {
    DispatchEffect(s, r);
    var s', ev := Dispatch(s, r), s.table[s.queue[0].key];
    if ev.CloseTimed? {
      CloseKeeps(s, s', ev);
    } else if r.node.None? || (ev.OpenHandle? && r.pipe.None?) {
      FailKeeps(s, s', ev);
    } else if ev.OpenTimed? {
      GrantKeeps(s, s', ev, r.node.value);
    } else {
      CreateKeeps(s, s', ev, Handle(r.node.value, r.pipe.value.0, r.pipe.value.1, r.listening));
    }
  }

  lemma PushKeeps(s: State, ev: Event)
    requires Inv(s) && !ev.CloseTimed?
    ensures Inv(Push(s, ev))
  {
    PushEffect(s, ev);
    var s' := Push(s, ev);
    PushKeepsRequests(s, s', ev); PushKeepsOutcomes(s, s', ev); PushKeepsTimed(s, s', ev);
  }

  ghost predicate Quiet(step: Step) {
    !step.DoPush? && !step.DoDispatch?
  }

  lemma QuietEffect(s: State, step: Step)
    requires Enabled(s, step) && Quiet(step) && HandlesOwned(s.fds, s.contexts, s.log.handles)
    ensures Rest(s, Apply(s, step))
    ensures HandlesOwned(Apply(s, step).fds, Apply(s, step).contexts, Apply(s, step).log.handles)
  {
    if step.DoHangUp? {
      ReleaseKeepsHandles(s.fds, s.contexts, s.log.handles, step.server);
    } else if !step.DoTick? {
      OneFdKeepsHandles(s.fds, Apply(s, step).fds, s.contexts, s.log.handles, step.fd);
    }
  }

  lemma QuietKeeps(s: State, s': State)
    requires Inv(s) && Rest(s, s') && HandlesOwned(s'.fds, s'.contexts, s'.log.handles)
    ensures Inv(s')
  {
    RestKeeps(s, s');
  }

  /** Every step of the machine keeps the invariant. */
  lemma StepKeeps(s: State, step: Step)
    requires Inv(s) && Enabled(s, step)
    ensures Inv(Apply(s, step))
  {
    if step.DoPush? {
      PushKeeps(s, step.ev);
    } else if step.DoDispatch? {
      DispatchKeeps(s, step.r);
    } else {
      QuietEffect(s, step);
      QuietKeeps(s, Apply(s, step));
    }
  }

  /** Every state of every run satisfies the invariant. */
  lemma {:induction false} RunKeeps(s: State, steps: seq<Step>)
    requires Inv(s) && Feasible(s, steps)
    ensures Inv(Execute(s, steps))
    decreases |steps|
  {
    if steps != [] {
      StepKeeps(s, steps[0]);
      RunKeeps(Apply(s, steps[0]), steps[1..]);
    }
  }

  lemma InitInv(now: int)
    ensures Inv(Init(now))
  {
  }
}
