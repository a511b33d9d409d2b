/** The start-up handshake: common_power_open constructs the poker, whose constructor starts the looper thread
    and waits on a barrier; then common_power_open waits on the same barrier again. */
module Startup {
  import opened Wrappers

  datatype Thread = Opener | Worker

  /** `wait` is 1 in the constructor and 2 in common_power_open. */
  datatype OpenerPc =
    | Creating
    | Entering(wait: int)
    | Testing(wait: int)
    | Sleeping(wait: int, signalled: bool)
    | Passing(wait: int)
    | Sending

  datatype WorkerPc = Unborn | Preparing | Prepared | Opening | Broadcasting | Polling | Failed

  /** `sends` are the looks that sendEventDelayed took at the looper pointer: true for not null. */
  datatype Start = Start(opener: OpenerPc, worker: WorkerPc, holder: Option<Thread>, open: bool, looper: bool,
      sends: seq<bool>)

  const FRESH := Start(Creating, Unborn, None, false, false, [])

  datatype StartStep =
    | RunWorker | LockToWait | Test | WakeUp | SpuriousWakeUp | UnlockAfterWait | Send
    | Prepare(ok: bool) | LockToOpen | Open | UnlockAfterOpen

  predicate Can(s: Start, step: StartStep) {
    match step
    case RunWorker => s.opener.Creating?
    case LockToWait => s.opener.Entering? && s.holder == None
    case Test => s.opener.Testing?
    case WakeUp => s.opener.Sleeping? && s.opener.signalled
    case SpuriousWakeUp => s.opener.Sleeping?
    case UnlockAfterWait => s.opener.Passing?
    case Send => s.opener.Sending?
    case Prepare(_) => s.worker.Preparing?
    case LockToOpen => s.worker.Prepared? && s.holder == None
    case Open => s.worker.Opening?
    case UnlockAfterOpen => s.worker.Broadcasting?
  }

  /** The loop of Barrier::wait tests the state with the lock held; sleeping gives the lock up. */
  function Tested(s: Start): Start
    requires s.opener.Testing?
  {
    if s.open then s.(opener := Passing(s.opener.wait))
    else s.(opener := Sleeping(s.opener.wait, false), holder := None)
  }

  function Do(s: Start, step: StartStep): Start
    requires Can(s, step)
  {
    match step
    case RunWorker => s.(opener := Entering(1), worker := Preparing)
    case LockToWait => s.(opener := Testing(s.opener.wait), holder := Some(Opener))
    case Test => Tested(s)
    case WakeUp => s.(opener := Entering(s.opener.wait))
    case SpuriousWakeUp => s.(opener := Entering(s.opener.wait))
    case UnlockAfterWait => s.(opener := if s.opener.wait == 1 then Entering(2) else Sending, holder := None)
    case Send => s.(sends := s.sends + [s.looper])
    case Prepare(ok) => if ok then s.(looper := true, worker := Prepared) else s.(worker := Failed)
    case LockToOpen => s.(worker := Opening, holder := Some(Worker))
    case Open =>
      s.(open := true, worker := Broadcasting,
         opener := if s.opener.Sleeping? then s.opener.(signalled := true) else s.opener)
    case UnlockAfterOpen => s.(worker := Polling, holder := None)
  }

  predicate Possible(s: Start, steps: seq<StartStep>)
    decreases |steps|
  {
    steps != [] ==> Can(s, steps[0]) && Possible(Do(s, steps[0]), steps[1..])
  }

  function RunAll(s: Start, steps: seq<StartStep>): Start
    requires Possible(s, steps)
    decreases |steps|
  {
    if steps == [] then s else RunAll(Do(s, steps[0]), steps[1..])
  }

  /** The constructor of the poker has returned. */
  predicate Constructed(s: Start) {
    s.opener.Sending? || (!s.opener.Creating? && s.opener.wait == 2)
  }

  predicate StartInv(s: Start) {
    && (s.holder == Some(Opener) <==> s.opener.Testing? || s.opener.Passing?)
    && (s.holder == Some(Worker) <==> s.worker.Opening? || s.worker.Broadcasting?)
    && (s.worker.Unborn? <==> s.opener.Creating?)
    && (s.looper <==> s.worker in {Prepared, Opening, Broadcasting, Polling})
    && (s.open <==> s.worker in {Broadcasting, Polling})
    && (s.opener.Passing? || Constructed(s) ==> s.open)
    && (!s.opener.Creating? && !s.opener.Sending? ==> s.opener.wait == 1 || s.opener.wait == 2)
    && (s.opener.Sleeping? ==> s.opener.wait == 1 && s.opener.signalled == s.open)
    && (forall i :: 0 <= i < |s.sends| ==> s.sends[i])
  }

  lemma StartStepKeeps(s: Start, step: StartStep)
    requires StartInv(s) && Can(s, step)
    ensures StartInv(Do(s, step))
    ensures s.open ==> Do(s, step).open
  {
  }

  lemma {:induction false} StartRunKeeps(s: Start, steps: seq<StartStep>)
    requires StartInv(s) && Possible(s, steps)
    ensures StartInv(RunAll(s, steps))
    decreases |steps|
  {
    if steps != [] {
      StartStepKeeps(s, steps[0]);
      StartRunKeeps(Do(s, steps[0]), steps[1..]);
    }
  }

  /** In every interleaving, with any number of spurious wake-ups: no send ever finds a null looper; once the
      constructor has returned, the barrier is open and stays so, and the second wait never sleeps. */
  lemma NoNullLooper(steps: seq<StartStep>)
    requires Possible(FRESH, steps)
    ensures var s := RunAll(FRESH, steps);
            && (forall i :: 0 <= i < |s.sends| ==> s.sends[i])
            && (Constructed(s) ==> s.looper && s.open && !s.opener.Sleeping?)
  {
    StartRunKeeps(FRESH, steps);
  }

  /** If the looper cannot be prepared, the constructor never returns. */
  lemma FailureNeverReturns(steps: seq<StartStep>)
    requires Possible(FRESH, steps)
    ensures RunAll(FRESH, steps).worker.Failed? ==> !Constructed(RunAll(FRESH, steps)) && !RunAll(FRESH, steps).open
  {
    StartRunKeeps(FRESH, steps);
  }

  /** How far the two threads are from the first send; a wait whose test fails goes back to sleep only while the
      worker still has steps to make. */
  function Remaining(s: Start): nat {
    var worker := match s.worker
      case Unborn => 6 case Preparing => 5 case Prepared => 4 case Opening => 3 case Broadcasting => 2
      case Polling => 1 case Failed => 0;
    var opener := match s.opener
      case Creating => 10
      case Entering(w) => if w == 1 then 8 else 3
      case Testing(w) => if w == 1 then 7 else 2
      case Sleeping(_, signalled) => if signalled then 9 else 6
      case Passing(w) => if w == 1 then 5 else 1
      case Sending => 0;
    10 * worker + opener
  }

  /** Some step other than a spurious wake-up. */
  function NextStep(s: Start): StartStep {
    if s.opener.Creating? then RunWorker
    else if s.worker.Broadcasting? then UnlockAfterOpen
    else if s.worker.Opening? then Open
    else if s.opener.Testing? then Test
    else if s.opener.Passing? then UnlockAfterWait
    else if s.worker.Preparing? then Prepare(true)
    else if s.worker.Prepared? then LockToOpen
    else if s.opener.Sleeping? then WakeUp
    else LockToWait
  }

  lemma NextStepCloser(s: Start)
    requires StartInv(s) && !s.opener.Sending? && !s.worker.Failed?
    ensures Can(s, NextStep(s)) && !NextStep(s).SpuriousWakeUp?
    ensures Remaining(Do(s, NextStep(s))) < Remaining(s)
  {
    if s.holder.Some? {
      assert s.holder == Some(s.holder.value) && (s.holder.value.Opener? || s.holder.value.Worker?);
    }
  }

  /** No wake-up is lost and nothing gets stuck: while preparing has not failed and the opener cannot send yet,
      a step other than a spurious wake-up is possible and brings it closer. */
  lemma StartProgress(steps: seq<StartStep>)
    requires Possible(FRESH, steps) && !RunAll(FRESH, steps).opener.Sending? && !RunAll(FRESH, steps).worker.Failed?
    ensures exists step :: Can(RunAll(FRESH, steps), step) && !step.SpuriousWakeUp?
                           && Remaining(Do(RunAll(FRESH, steps), step)) < Remaining(RunAll(FRESH, steps))
  {
    StartRunKeeps(FRESH, steps);
    NextStepCloser(RunAll(FRESH, steps));
  }
}
