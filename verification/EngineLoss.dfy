/** Which descriptors are lost: those that no continuation of the run ever closes. */
module EngineLoss {
  import opened Wrappers
  import opened PokerEngine
  import opened EngineInvariant
  import opened EngineTheorems
  import opened EngineProgress

  ghost predicate StaysOpen(s: State, f: nat, steps: seq<Step>) {
    f in s.fds && (Feasible(s, steps) ==> Is(Execute(s, steps).fds, f, s.fds[f]))
  }

  /** Whatever happens from here on, the number goes on referring to the same object. */
  ghost predicate Lost(s: State, f: nat) {
    forall steps :: StaysOpen(s, f, steps)
  }

  lemma RefusedIsLost(s: State, f: nat)
    requires Reachable(s) && f in Refused(s)
    ensures Lost(s, f)
  {
    ReachableInv(s);
    var c := s.fds[f].call;
    assert BelongsTo(s.log.handles, f, s.fds[f]);
    forall steps ensures StaysOpen(s, f, steps) {
      if Feasible(s, steps) { RefusedHandleStays(s, c, steps); }
    }
  }

  lemma OneStep(s: State, a: Step)
    requires Enabled(s, a)
    ensures Feasible(s, [a]) && Execute(s, [a]) == Apply(s, a)
  {
    assert [a][1..] == [];
    assert Feasible(Apply(s, a), []);
  }

  lemma TwoSteps(s: State, a: Step, b: Step)
    requires Enabled(s, a) && Enabled(Apply(s, a), b)
    ensures Feasible(s, [a, b]) && Execute(s, [a, b]) == Apply(Apply(s, a), b)
  {
    assert [a, b][1..] == [b];
    OneStep(Apply(s, a), b);
  }

  lemma OneStepCloses(s: State, f: nat, step: Step)
    requires Enabled(s, step) && (step == DoForeignClose(f) || step == DoClientClose(f))
    ensures !Lost(s, f)
  {
    OneStep(s, step);
    assert !StaysOpen(s, f, [step]);
  }

  lemma OpenRequestsHas(s: State)
    ensures forall g :: g in s.fds && s.fds[g].TimedConstraint? ==> s.fds[g].request in OpenRequests(s)
  {
  }

  /** Draining closes every timed constraint. */
  lemma TimedIsNotLost(s: State, f: nat)
    requires Inv(s) && f in s.fds && s.fds[f].TimedConstraint?
    ensures !Lost(s, f)
  {
    hide Inv, OpenRequests;
    var steps := Drains(s, _ => Response(None, None, true));
    OpenRequestsHas(Execute(s, steps));
    assert !StaysOpen(s, f, steps);
  }

  /** An accepted handle is released when the client closes its end, if it has not done so yet, and the callback
      runs. */
  lemma AcceptedIsNotLost(s: State, f: nat)
    requires Inv(s) && f in s.fds && (s.fds[f].PipeServer? || s.fds[f].HandleConstraint?) && f !in Refused(s)
    ensures !Lost(s, f)
  {
    hide Inv;
    var c := s.fds[f].call;
    HandleOfDescriptor(s, f);
    var h := s.log.handles[c];
    if Is(s.fds, h.client, PipeClient(c)) {
      var t := Apply(s, DoClientClose(h.client));
      StepKeeps(s, DoClientClose(h.client));
      HangUpReleases(t, c);
      TwoSteps(s, DoClientClose(h.client), DoHangUp(h.server));
      assert !StaysOpen(s, f, [DoClientClose(h.client), DoHangUp(h.server)]);
    } else {
      HangUpReleases(s, c);
      OneStep(s, DoHangUp(h.server));
      assert !StaysOpen(s, f, [DoHangUp(h.server)]);
    }
  }

  lemma HandleOfDescriptor(s: State, f: nat)
    requires Inv(s) && f in s.fds && (s.fds[f].PipeServer? || s.fds[f].HandleConstraint?) && f !in Refused(s)
    ensures var c := s.fds[f].call;
            c in s.log.handles && s.log.handles[c].listening && Is(s.fds, s.log.handles[c].server, PipeServer(c))
  {
    assert BelongsTo(s.log.handles, f, s.fds[f]);
    assert HandleOk(s.fds, s.contexts, s.fds[f].call, s.log.handles[s.fds[f].call]);
  }

  /** In every reachable state an open descriptor is lost if and only if it is the constraint or the server end of a
      handle whose server end the looper refused. */
  lemma LostIff(s: State, f: nat)
    requires Reachable(s)
    ensures Lost(s, f) <==> f in Refused(s)
  {
    hide Inv, Reachable, Lost;
    ReachableInv(s);
    if f in Refused(s) {
      RefusedIsLost(s, f);
    } else if f !in s.fds {
      NotOpenIsNotLost(s, f);
    } else {
      match s.fds[f]
      case TimedConstraint(_) => TimedIsNotLost(s, f);
      case HandleConstraint(_) => AcceptedIsNotLost(s, f);
      case PipeServer(_) => AcceptedIsNotLost(s, f);
      case PipeClient(_) => OneStepCloses(s, f, DoClientClose(f));
      case Foreign => OneStepCloses(s, f, DoForeignClose(f));
    }
  }

  lemma NotOpenIsNotLost(s: State, f: nat)
    requires f !in s.fds
    ensures !Lost(s, f)
  {
    assert !StaysOpen(s, f, []);
  }

  /** No descriptor is lost if and only if the looper accepted every server end. */
  lemma NothingLostIff(s: State)
    requires Reachable(s)
    ensures (forall f :: !Lost(s, f)) <==> forall c :: c in s.log.handles ==> s.log.handles[c].listening
  {
    hide Lost, Reachable;
    forall f ensures Lost(s, f) <==> f in Refused(s) { LostIff(s, f); }
    ReachableInv(s);
    forall c | c in s.log.handles && !s.log.handles[c].listening ensures s.log.handles[c].server in Refused(s) {
      assert HandleOk(s.fds, s.contexts, c, s.log.handles[c]);
    }
  }

  /** A run in which two descriptors are lost: a handle is asked for, and the looper refuses its server end. */
  function Refusal(): seq<Step> {
    [DoPush(OpenHandle("node", Plain(1), 0)), DoDispatch(Response(Some(0), Some((1, 2)), false))]
  }

  lemma RefusalRuns(now: int)
    ensures Feasible(Init(now), Refusal())
    ensures Refused(Execute(Init(now), Refusal())) == {0, 2}
  {
    var push, open := Refusal()[0], Refusal()[1];
    var s1 := Apply(Init(now), push);
    assert s1.queue == [Message(now, 0)] && [Message(now, 0)][1..] == [];
    var s2 := Apply(s1, open);
    assert s2.fds == map[0 := HandleConstraint(0), 1 := PipeClient(0), 2 := PipeServer(0)];
    assert s2.log.handles == map[0 := Handle(0, 1, 2, false)];
    TwoSteps(Init(now), push, open);
  }

  lemma RefusalLoses(now: int)
    ensures Feasible(Init(now), Refusal())
    ensures forall f :: Lost(Execute(Init(now), Refusal()), f) <==> f in {0, 2}
  {
    hide Lost, Refused, Refusal;
    RefusalRuns(now);
    var s := Execute(Init(now), Refusal());
    assert Reachable(s);
    forall f ensures Lost(s, f) <==> f in {0, 2} { LostIff(s, f); }
  }
}
