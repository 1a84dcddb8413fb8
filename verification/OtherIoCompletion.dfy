/**
  The delayed completion of a private I/O request: the same timer and work item, but the cancel routine is the
  framework's, and whoever takes the request out of its cancelable state first may complete it. The model starts
  once the timer runs and the request is cancelable.
*/
module OtherIoCompletion {

  /** Cancelable, claimed by the framework for the cancel routine, or withdrawn by the work item. */
  datatype Mark = Cancelable | Claimed | Withdrawn

  datatype Timer = Armed | Firing | Fired | Stopped

  datatype Worker = Ready | Queued | Running | HasWritten | MayComplete | HasCompleted | MustNotComplete | WorkerDone

  datatype Canceller = NotAsked | Asked | HasStopped | HasCancelled | CancelDone

  datatype Status = Success | Cancelled

  /** `misused`: some call was made on the timer after it had been deleted. */
  datatype State = State(mark: Mark, timer: Timer, worker: Worker, canceller: Canceller, answers: seq<Status>, deletions: nat,
    misused: bool)

  datatype Event =
    | Expire
    | Enqueue
    | WorkerStarts
    | WorkerWrites
    | WorkerUnmarks
    | WorkerCompletes
    | WorkerDeletes
    | CancelClaims
    | CancelStops
    | CancelCompletes
    | CancelDeletes

  predicate IsInitial(s: State) {
    s == State(Cancelable, Armed, Ready, NotAsked, [], 0, false)
  }

  predicate Enabled(s: State, e: Event) {
    match e
    case Expire => s.timer == Armed
    case Enqueue => s.timer == Firing
    case WorkerStarts => s.worker == Queued
    case WorkerWrites => s.worker == Running
    case WorkerUnmarks => s.worker == HasWritten
    case WorkerCompletes => s.worker == MayComplete
    case WorkerDeletes => s.worker == HasCompleted || s.worker == MustNotComplete
    case CancelClaims => s.mark == Cancelable && s.answers == []
    case CancelStops => s.canceller == Asked
    case CancelCompletes => s.canceller == HasStopped
    case CancelDeletes => s.canceller == HasCancelled
  }

  /** A call that uses the timer. */
  function Using(s: State): State {
    s.(misused := s.misused || s.deletions > 0)
  }

  function Step(s: State, e: Event): State {
    match e
    case Expire => s.(timer := Firing)
    case Enqueue => Using(s).(timer := Fired, worker := Queued)
    case WorkerStarts => Using(s).(worker := Running)
    case WorkerWrites => Using(s).(worker := HasWritten)
    case WorkerUnmarks =>
      if s.mark == Claimed then Using(s).(worker := MustNotComplete)
      else Using(s).(worker := MayComplete, mark := Withdrawn)
    case WorkerCompletes => Using(s).(worker := HasCompleted, answers := s.answers + [Success])
    case WorkerDeletes => Using(s).(worker := WorkerDone, deletions := s.deletions + 1)
    case CancelClaims => s.(mark := Claimed, canceller := Asked)
    case CancelStops =>
      if s.timer == Armed then Using(s).(timer := Stopped, canceller := HasStopped) else Using(s).(canceller := CancelDone)
    case CancelCompletes => s.(canceller := HasCancelled, answers := s.answers + [Cancelled])
    case CancelDeletes => Using(s).(canceller := CancelDone, deletions := s.deletions + 1)
  }

  predicate Runs(s: State, es: seq<Event>) {
    es == [] || (Runs(s, es[..|es| - 1]) && Enabled(After(s, es[..|es| - 1]), es[|es| - 1]))
  }

  function After(s: State, es: seq<Event>): State {
    if es == [] then s else Step(After(s, es[..|es| - 1]), es[|es| - 1])
  }

  predicate Inv(s: State) {
    && (s.worker == Ready <==> s.timer != Fired)
    && (s.mark == Claimed <==> s.canceller != NotAsked)
    && (s.worker == MayComplete || s.worker == HasCompleted ==> s.mark == Withdrawn)
    && (s.mark == Withdrawn ==> s.worker == MayComplete || s.worker == HasCompleted || s.worker == WorkerDone)
    && (s.worker == MustNotComplete || s.worker == WorkerDone ==> s.mark != Cancelable)
    && (s.canceller == HasStopped || s.canceller == HasCancelled ==> s.timer == Stopped)
    && (s.timer == Stopped ==> s.canceller == HasStopped || s.canceller == HasCancelled || s.canceller == CancelDone)
    && (s.canceller == CancelDone ==> s.timer != Armed)
    && s.answers == (if s.mark == Withdrawn && s.worker != MayComplete then [Success] else [])
                    + (if s.timer == Stopped && s.canceller != HasStopped then [Cancelled] else [])
    && s.deletions == (if s.worker == WorkerDone then 1 else 0) + (if s.timer == Stopped && s.canceller == CancelDone then 1 else 0)
  }

  lemma {:induction false} StepKeepsInv(s: State, e: Event)
    requires Inv(s) && Enabled(s, e)
    ensures Inv(Step(s, e))
    ensures Step(s, e).misused <==> s.misused || (e == CancelStops && s.worker == WorkerDone)
  {
  }

  lemma {:induction false} ReachableInv(s: State, es: seq<Event>)
    requires IsInitial(s) && Runs(s, es)
    ensures Inv(After(s, es))
  {
    if es != [] {
      ReachableInv(s, es[..|es| - 1]);
      StepKeepsInv(After(s, es[..|es| - 1]), es[|es| - 1]);
    }
  }

  /** In every run the request is completed at most once and the timer deleted at most once. */
  lemma {:induction false} AtMostOnce(s: State, es: seq<Event>)
    requires IsInitial(s) && Runs(s, es)
    ensures |After(s, es).answers| <= 1 && After(s, es).deletions <= 1
  {
    ReachableInv(s, es);
  }

  /**
    A request is completed with success only if the work item withdrew it first, and as cancelled only if it was
    claimed first and its timer was stopped.
  */
  lemma {:induction false} CompletionsTell(s: State, es: seq<Event>)
    requires IsInitial(s) && Runs(s, es)
    ensures var t := After(s, es);
      && (t.answers == [] || t.answers == [Success] || t.answers == [Cancelled])
      && (t.answers == [Success] ==> t.mark == Withdrawn && t.timer == Fired)
      && (t.answers == [Cancelled] ==> t.mark == Claimed && t.timer == Stopped)
  {
    ReachableInv(s, es);
    assert [Success] != [Cancelled];
  }

  /** Nothing is left to do, though a cancel might still arrive. */
  ghost predicate Quiet(s: State) {
    forall e: Event :: Enabled(s, e) ==> e == CancelClaims
  }

  /** The cancel routine claimed the request but came too late to stop the timer. */
  predicate LateCancel(s: State) {
    s.mark == Claimed && s.canceller == CancelDone && s.timer != Stopped
  }

  /** When nothing is left to do, the request was left uncompleted exactly if a cancel came too late to stop the timer. */
  lemma {:induction false} LostIffLate(s: State, es: seq<Event>)
    requires IsInitial(s) && Runs(s, es) && Quiet(After(s, es))
    ensures After(s, es).answers == [] <==> LateCancel(After(s, es))
    ensures After(s, es).deletions == 1
  {
    ReachableInv(s, es);
    QuietStates(After(s, es));
    SettledStates(After(s, es));
  }

  lemma {:induction false} QuietStates(t: State)
    requires Quiet(t)
    ensures t.timer == Fired || t.timer == Stopped
    ensures t.worker == Ready || t.worker == WorkerDone
    ensures t.canceller == NotAsked || t.canceller == CancelDone
  {
    assert !Enabled(t, Expire) && !Enabled(t, Enqueue) && !Enabled(t, WorkerStarts) && !Enabled(t, WorkerWrites);
    assert !Enabled(t, WorkerUnmarks) && !Enabled(t, WorkerCompletes) && !Enabled(t, WorkerDeletes);
    assert !Enabled(t, CancelStops) && !Enabled(t, CancelCompletes) && !Enabled(t, CancelDeletes);
  }

  lemma {:induction false} SettledStates(t: State)
    requires Inv(t) && (t.timer == Fired || t.timer == Stopped) && (t.worker == Ready || t.worker == WorkerDone)
    requires t.canceller == NotAsked || t.canceller == CancelDone
    ensures (t.answers == [] <==> LateCancel(t)) && t.deletions == 1
  {
  }

  /** A late cancel is never made good. */
  lemma {:induction false} LateStaysLate(s: State, es: seq<Event>, more: seq<Event>)
    requires IsInitial(s) && Runs(s, es + more) && Runs(s, es) && LateCancel(After(s, es))
    ensures LateCancel(After(s, es + more)) && After(s, es + more).answers == []
    decreases |more|
  {
    if more == [] {
      assert es + more == es;
      ReachableInv(s, es);
    } else {
      var init := more[..|more| - 1];
      assert (es + more)[..|es + more| - 1] == es + init;
      LateStaysLate(s, es, init);
      ReachableInv(s, es + init);
    }
  }

  /** A step is the first to use a deleted timer exactly when it is the cancel routine's attempt to stop it after the work item's end. */
  lemma {:induction false} MisuseIff(s: State, es: seq<Event>, e: Event)
    requires IsInitial(s) && Runs(s, es + [e]) && !After(s, es).misused
    ensures After(s, es + [e]).misused <==> e == CancelStops && After(s, es).worker == WorkerDone
  {
    assert (es + [e])[..|es|] == es;
    ReachableInv(s, es);
    StepKeepsInv(After(s, es), e);
  }

  /** Such a run: the work item finds the request claimed and deletes the timer before the cancel routine gets to it. */
  lemma {:induction false} TimersCanBeMisused(s: State)
    requires IsInitial(s)
    ensures exists es :: Runs(s, es) && After(s, es).misused
  {
    var es: seq<Event> := [];
    es := OneMore(s, es, CancelClaims);
    es := OneMore(s, es, Expire);
    es := OneMore(s, es, Enqueue);
    es := OneMore(s, es, WorkerStarts);
    es := OneMore(s, es, WorkerWrites);
    es := OneMore(s, es, WorkerUnmarks);
    es := OneMore(s, es, WorkerDeletes);
    es := OneMore(s, es, CancelStops);
  }

  lemma {:induction false} OneMore(s: State, es: seq<Event>, e: Event) returns (more: seq<Event>)
    requires Runs(s, es) && Enabled(After(s, es), e)
    ensures Runs(s, more) && After(s, more) == Step(After(s, es), e)
  {
    more := es + [e];
    assert more[..|more| - 1] == es;
  }

  /** Such a run: the timer fires, the cancel claims the request, and both sides leave it to the other. */
  lemma {:induction false} RequestsCanBeLost(s: State)
    requires IsInitial(s)
    ensures exists es :: Runs(s, es) && Quiet(After(s, es)) && After(s, es).answers == []
  {
    var es: seq<Event> := [];
    es := OneMore(s, es, Expire);
    es := OneMore(s, es, CancelClaims);
    es := OneMore(s, es, CancelStops);
    es := OneMore(s, es, Enqueue);
    es := OneMore(s, es, WorkerStarts);
    es := OneMore(s, es, WorkerWrites);
    es := OneMore(s, es, WorkerUnmarks);
    es := OneMore(s, es, WorkerDeletes);
    assert Quiet(After(s, es));
  }
}
