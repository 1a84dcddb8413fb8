/**
  The delayed completion of one secure-service request: the dispatch routine arms a timer, the timer's
  callback queues a work item, the work item answers the request, and a cancel routine races with all of it.
  Each step is one call to the framework. A timer that is stopped while still queued does not fire.
*/
module DelayedCompletion {

  /** Where the dispatch routine stands. */
  datatype Starter = AtChecks | AtTimer | AtWorkItem | AtStart | AtReturn | Returned

  datatype Timer = NoTimer | Idle | Armed | Firing | Fired | Stopped

  datatype Worker = NoItem | Ready | Queued | Running | HasWritten | HasCompleted | WorkerDone

  datatype Canceller = NotAsked | Asked | HasStopped | HasCancelled | CancelDone

  datatype Status = Success | Cancelled | InvalidParameter | BufferOverflow | NotCreated

  /** What the requester gets: a status and the length reported with it. */
  datatype Answer = Answer(status: Status, length: nat)

  /** `misused`: some call was made on the timer after it had been deleted. */
  datatype State = State(starter: Starter, timer: Timer, worker: Worker, canceller: Canceller,
    answers: seq<Answer>, deletions: nat, written: bool, misused: bool)

  datatype Event =
    | Check(inputSize: nat, outputSize: nat, before: nat)
    | CreateTimer(ok: bool)
    | CreateWorkItem(ok: bool)
    | StartTimer
    | ReturnPending
    | Expire
    | Enqueue
    | WorkerStarts
    | WorkerWrites
    | WorkerCompletes
    | WorkerDeletes
    | CancelArrives
    | CancelStops
    | CancelCompletes
    | CancelDeletes

  const ULONG_SIZE: nat := 4

  const DONE := Answer(Success, ULONG_SIZE)
  const CANCELLED := Answer(Cancelled, 0)
  const NOT_CREATED := Answer(NotCreated, 0)

  predicate IsInitial(s: State) {
    s == State(AtChecks, NoTimer, NoItem, NotAsked, [], 0, false, false)
  }

  /** The timer was started. */
  predicate Started(s: State) {
    s.timer == Armed || s.timer == Firing || s.timer == Fired || s.timer == Stopped
  }

  /**
    A cancel is delivered only while the request is pending. If `held`, the request also stays pending from
    that moment until the cancel routine has tried to stop the timer.
  */
  predicate Enabled(s: State, e: Event, held: bool) {
    match e
    case Check(_, _, _) => s.starter == AtChecks
    case CreateTimer(_) => s.starter == AtTimer
    case CreateWorkItem(_) => s.starter == AtWorkItem
    case StartTimer => s.starter == AtStart
    case ReturnPending => s.starter == AtReturn
    case Expire => s.timer == Armed
    case Enqueue => s.timer == Firing
    case WorkerStarts => s.worker == Queued
    case WorkerWrites => s.worker == Running
    case WorkerCompletes => s.worker == HasWritten && !(held && s.canceller == Asked)
    case WorkerDeletes => s.worker == HasCompleted
    case CancelArrives => s.starter == Returned && Started(s) && s.answers == [] && s.canceller == NotAsked
    case CancelStops => s.canceller == Asked
    case CancelCompletes => s.canceller == HasStopped
    case CancelDeletes => s.canceller == HasCancelled
  }

  function Answered(s: State, a: Answer): State {
    s.(answers := s.answers + [a])
  }

  /** A call that uses the timer. */
  function Using(s: State): State {
    s.(misused := s.misused || s.deletions > 0)
  }

  function Step(s: State, e: Event): State {
    match e
    // A request that is too short for its delay is refused before the length is set.
    case Check(input, output, before) =>
      if input < ULONG_SIZE then Answered(s, Answer(InvalidParameter, before)).(starter := Returned)
      else if output < ULONG_SIZE then Answered(s, Answer(BufferOverflow, ULONG_SIZE)).(starter := Returned)
      else s.(starter := AtTimer)
    case CreateTimer(ok) =>
      if ok then s.(starter := AtWorkItem, timer := Idle) else Answered(s, NOT_CREATED).(starter := Returned)
    case CreateWorkItem(ok) =>
      if ok then Using(s).(starter := AtStart, worker := Ready)
      else Answered(Using(s), NOT_CREATED).(starter := Returned, deletions := s.deletions + 1)
    case StartTimer => Using(s).(starter := AtReturn, timer := Armed)
    case ReturnPending => s.(starter := Returned)
    case Expire => s.(timer := Firing)
    case Enqueue => Using(s).(timer := Fired, worker := Queued)
    case WorkerStarts => Using(s).(worker := Running)
    case WorkerWrites => Using(s).(worker := HasWritten, written := true)
    case WorkerCompletes => Answered(s, DONE).(worker := HasCompleted)
    case WorkerDeletes => Using(s).(worker := WorkerDone, deletions := s.deletions + 1)
    case CancelArrives => s.(canceller := Asked)
    case CancelStops =>
      if s.timer == Armed then Using(s).(timer := Stopped, canceller := HasStopped) else Using(s).(canceller := CancelDone)
    case CancelCompletes => Answered(s, CANCELLED).(canceller := HasCancelled)
    case CancelDeletes => Using(s).(canceller := CancelDone, deletions := s.deletions + 1)
  }

  predicate Runs(s: State, es: seq<Event>, held: bool) {
    es == [] || (Runs(s, es[..|es| - 1], held) && Enabled(After(s, es[..|es| - 1]), es[|es| - 1], held))
  }

  function After(s: State, es: seq<Event>): State {
    if es == [] then s else Step(After(s, es[..|es| - 1]), es[|es| - 1])
  }

  // ---------- the invariant ----------

  predicate SettingUp(s: State) {
    && s.canceller == NotAsked && !s.written
    && (s.starter != Returned ==>
          && s.answers == [] && s.deletions == 0
          && (s.timer == Idle <==> s.starter == AtWorkItem || s.starter == AtStart)
          && (s.timer == NoTimer <==> s.starter == AtChecks || s.starter == AtTimer)
          && s.worker == if s.starter == AtStart then Ready else NoItem)
    && (s.starter == Returned ==>
          && s.worker == NoItem && |s.answers| == 1 && s.answers[0].status != Cancelled && s.answers[0].status != Success
          && s.deletions == if s.timer == Idle then 1 else 0)
  }

  /** With the timer started, the answers and the deletions follow from where the work item and the cancel routine stand. */
  predicate UnderWay(s: State) {
    && (s.starter == AtReturn || s.starter == Returned)
    && s.worker != NoItem && (s.worker == Ready <==> s.timer != Fired)
    && (s.canceller == HasStopped || s.canceller == HasCancelled ==> s.timer == Stopped)
    && (s.timer == Stopped ==> s.canceller == HasStopped || s.canceller == HasCancelled || s.canceller == CancelDone)
    && (s.canceller == CancelDone ==> s.timer != Armed)
    && s.written == (s.worker == HasWritten || s.worker == HasCompleted || s.worker == WorkerDone)
    && s.answers == (if s.worker == HasCompleted || s.worker == WorkerDone then [DONE] else [])
                    + (if s.timer == Stopped && s.canceller != HasStopped then [CANCELLED] else [])
    && s.deletions == (if s.worker == WorkerDone then 1 else 0) + (if s.timer == Stopped && s.canceller == CancelDone then 1 else 0)
  }

  predicate Inv(s: State) {
    if Started(s) then UnderWay(s) else SettingUp(s)
  }

  lemma {:induction false} StepKeepsInv(s: State, e: Event, held: bool)
    requires Inv(s) && Enabled(s, e, held)
    ensures Inv(Step(s, e))
    ensures Step(s, e).misused ==> s.misused || (e == CancelStops && s.worker == WorkerDone)
  {
  }

  lemma {:induction false} ReachableInv(s: State, es: seq<Event>, held: bool)
    requires IsInitial(s) && Runs(s, es, held)
    ensures Inv(After(s, es))
  {
    if es != [] {
      ReachableInv(s, es[..|es| - 1], held);
      StepKeepsInv(After(s, es[..|es| - 1]), es[|es| - 1], held);
    }
  }

  // ---------- what every run keeps ----------

  /** Whatever the order of timer, work item and cancel, the request is answered at most once and the timer deleted at most once. */
  lemma {:induction false} AtMostOnce(s: State, es: seq<Event>, held: bool)
    requires IsInitial(s) && Runs(s, es, held)
    ensures |After(s, es).answers| <= 1 && After(s, es).deletions <= 1
  {
    ReachableInv(s, es, held);
  }

  /** The output is written before the request succeeds, and not at all for a request that is answered otherwise. */
  lemma {:induction false} OutputFollowsTheAnswer(s: State, es: seq<Event>, held: bool)
    requires IsInitial(s) && Runs(s, es, held)
    ensures After(s, es).answers == [Answer(Success, 4)] ==> After(s, es).written
    ensures After(s, es).answers != [] && After(s, es).answers != [Answer(Success, 4)] ==> !After(s, es).written
    ensures After(s, es).answers == [Answer(Cancelled, 0)] <==> After(s, es).timer == Stopped && After(s, es).canceller != HasStopped
  {
    ReachableInv(s, es, held);
    AnswersTell(After(s, es));
  }

  lemma {:induction false} AnswersTell(s: State)
    requires Inv(s)
    ensures s.answers == [Answer(Success, 4)] ==> s.written
    ensures s.answers != [] && s.answers != [Answer(Success, 4)] ==> !s.written
    ensures s.answers == [Answer(Cancelled, 0)] <==> s.timer == Stopped && s.canceller != HasStopped
  {
    if Started(s) {
      assert [DONE] != [CANCELLED];
    } else if s.answers != [] {
      assert s.answers[0] != CANCELLED && s.answers[0] != DONE;
    }
  }

  /** An answer is never taken back, and after a cancelled answer the output is never written. */
  lemma {:induction false} AnswersStand(s: State, es: seq<Event>, more: seq<Event>, held: bool)
    requires IsInitial(s) && Runs(s, es + more, held)
    ensures Runs(s, es, held)
    ensures After(s, es).answers <= After(s, es + more).answers
    ensures After(s, es).answers == [Answer(Cancelled, 0)] ==> !After(s, es + more).written
    decreases |more|
  {
    if more == [] {
      assert es + more == es;
    } else {
      var init := more[..|more| - 1];
      assert (es + more)[..|es + more| - 1] == es + init;
      AnswersStand(s, es, init, held);
      AtMostOnce(s, es + more, held);
      StepAnswers(After(s, es + init), more[|more| - 1]);
    }
    OutputFollowsTheAnswer(s, es + more, held);
    OutputFollowsTheAnswer(s, es, held);
    if After(s, es).answers == [Answer(Cancelled, 0)] {
      AtMostOnce(s, es + more, held);
    }
  }

  lemma {:induction false} StepAnswers(s: State, e: Event)
    ensures s.answers <= Step(s, e).answers
  {
  }

  // ---------- completion ----------

  /** Nothing is left to do, though a cancel might still arrive. */
  ghost predicate Quiet(s: State, held: bool) {
    forall e: Event :: Enabled(s, e, held) ==> e == CancelArrives
  }

  /** When nothing is left to do the request was answered, exactly once, and the timer, if there was one, deleted exactly once. */
  lemma {:induction false} QuietIsComplete(s: State, es: seq<Event>, held: bool)
    requires IsInitial(s) && Runs(s, es, held) && Quiet(After(s, es), held)
    ensures |After(s, es).answers| == 1
    ensures After(s, es).deletions == if After(s, es).timer == NoTimer then 0 else 1
  {
    ReachableInv(s, es, held);
    QuietStates(After(s, es), held);
    SettledStates(After(s, es));
  }

  lemma {:induction false} QuietStates(t: State, held: bool)
    requires Quiet(t, held)
    ensures t.starter == Returned && t.timer != Armed && t.timer != Firing
    ensures t.worker == NoItem || t.worker == Ready || t.worker == WorkerDone
    ensures t.canceller == NotAsked || t.canceller == CancelDone
  {
    QuietStarter(t, held);
    QuietWorker(t, held);
  }

  lemma {:induction false} QuietStarter(t: State, held: bool)
    requires Quiet(t, held)
    ensures t.starter == Returned && t.timer != Armed && t.timer != Firing
  {
    assert !Enabled(t, Check(0, 0, 0), held) && !Enabled(t, CreateTimer(true), held) && !Enabled(t, CreateWorkItem(true), held);
    assert !Enabled(t, StartTimer, held) && !Enabled(t, ReturnPending, held);
    assert !Enabled(t, Expire, held) && !Enabled(t, Enqueue, held);
  }

  lemma {:induction false} QuietWorker(t: State, held: bool)
    requires Quiet(t, held)
    ensures t.worker == NoItem || t.worker == Ready || t.worker == WorkerDone
    ensures t.canceller == NotAsked || t.canceller == CancelDone
  {
    assert !Enabled(t, CancelStops, held) && !Enabled(t, CancelCompletes, held) && !Enabled(t, CancelDeletes, held);
    assert !Enabled(t, WorkerStarts, held) && !Enabled(t, WorkerWrites, held);
    assert !Enabled(t, WorkerCompletes, held) && !Enabled(t, WorkerDeletes, held);
  }

  lemma {:induction false} SettledStates(t: State)
    requires Inv(t) && t.starter == Returned && t.timer != Armed && t.timer != Firing
    requires t.worker == NoItem || t.worker == Ready || t.worker == WorkerDone
    requires t.canceller == NotAsked || t.canceller == CancelDone
    ensures |t.answers| == 1 && t.deletions == if t.timer == NoTimer then 0 else 1
  {
  }

  function StarterLeft(s: Starter): nat {
    match s
    case AtChecks => 5
    case AtTimer => 4
    case AtWorkItem => 3
    case AtStart => 2
    case AtReturn => 1
    case Returned => 0
  }

  function TimerLeft(t: Timer): nat {
    match t
    case NoTimer => 4
    case Idle => 3
    case Armed => 2
    case Firing => 1
    case Fired => 0
    case Stopped => 0
  }

  function WorkerLeft(w: Worker): nat {
    match w
    case NoItem => 6
    case Ready => 5
    case Queued => 4
    case Running => 3
    case HasWritten => 2
    case HasCompleted => 1
    case WorkerDone => 0
  }

  function CancellerLeft(c: Canceller): nat {
    match c
    case NotAsked => 4
    case Asked => 3
    case HasStopped => 2
    case HasCancelled => 1
    case CancelDone => 0
  }

  function StepsLeft(s: State): nat {
    StarterLeft(s.starter) + TimerLeft(s.timer) + WorkerLeft(s.worker) + CancellerLeft(s.canceller)
  }

  lemma {:induction false} StepIsProgress(s: State, e: Event, held: bool)
    requires Inv(s) && Enabled(s, e, held)
    ensures StepsLeft(Step(s, e)) < StepsLeft(s)
  {
  }

  /** No run is longer than nineteen steps, so every run that goes on as long as it can ends quiet. */
  lemma {:induction false} RunsEnd(s: State, es: seq<Event>, held: bool)
    requires IsInitial(s) && Runs(s, es, held)
    ensures |es| + StepsLeft(After(s, es)) <= 19
  {
    if es != [] {
      var init := es[..|es| - 1];
      RunsEnd(s, init, held);
      ReachableInv(s, init, held);
      StepIsProgress(After(s, init), es[|es| - 1], held);
    }
  }

  // ---------- use of the timer ----------

  /** If the framework holds the request, no step uses a deleted timer. */
  lemma {:induction false} HeldRunsNeverMisuse(s: State, es: seq<Event>)
    requires IsInitial(s) && Runs(s, es, true)
    ensures !After(s, es).misused
    ensures After(s, es).worker == HasCompleted || After(s, es).worker == WorkerDone ==> After(s, es).canceller != Asked
  {
    if es != [] {
      var init := es[..|es| - 1];
      HeldRunsNeverMisuse(s, init);
      ReachableInv(s, init, true);
      ReachableInv(s, es, true);
      StepKeepsInv(After(s, init), es[|es| - 1], true);
    }
  }

  /** In any run, a step is the first to use a deleted timer exactly when it is a cancel that comes after the work item's end. */
  lemma {:induction false} MisuseIff(s: State, es: seq<Event>, e: Event)
    requires IsInitial(s) && Runs(s, es + [e], false) && !After(s, es).misused
    ensures After(s, es + [e]).misused <==> e == CancelStops && After(s, es).worker == WorkerDone
  {
    assert (es + [e])[..|es|] == es;
    ReachableInv(s, es, false);
    StepKeepsInv(After(s, es), e, false);
  }

  /** If the framework does not hold the request, a cancel can come to a deleted timer. */
  lemma {:induction false} UnheldRunsCanMisuse(s: State)
    requires IsInitial(s)
    ensures exists es :: Runs(s, es, false) && After(s, es).misused
  {
    var es: seq<Event> := [];
    es := OneMore(s, es, Check(4, 4, 0));
    es := OneMore(s, es, CreateTimer(true));
    es := OneMore(s, es, CreateWorkItem(true));
    es := OneMore(s, es, StartTimer);
    es := OneMore(s, es, ReturnPending);
    es := OneMore(s, es, CancelArrives);
    es := OneMore(s, es, Expire);
    es := OneMore(s, es, Enqueue);
    es := OneMore(s, es, WorkerStarts);
    es := OneMore(s, es, WorkerWrites);
    es := OneMore(s, es, WorkerCompletes);
    es := OneMore(s, es, WorkerDeletes);
    es := OneMore(s, es, CancelStops);
  }

  lemma {:induction false} OneMore(s: State, es: seq<Event>, e: Event) returns (more: seq<Event>)
    requires Runs(s, es, false) && Enabled(After(s, es), e, false)
    ensures Runs(s, more, false) && After(s, more) == Step(After(s, es), e)
  {
    more := es + [e];
    assert more[..|more| - 1] == es;
  }

  // ---------- the callbacks ----------

  /** Some run leads from s to t. */
  ghost predicate Reached(s: State, t: State) {
    exists es :: Runs(s, es, false) && After(s, es) == t
  }

  lemma {:induction false} ReachedAtOnce(s: State)
    ensures Reached(s, s)
  {
    assert Runs(s, [], false) && After(s, []) == s;
  }

  lemma {:induction false} ReachedNext(s: State, t: State, e: Event)
    requires Reached(s, t) && Enabled(t, e, false)
    ensures Reached(s, Step(t, e))
  {
    var es :| Runs(s, es, false) && After(s, es) == t;
    var more := OneMore(s, es, e);
  }

  /** The state that the dispatch routine leaves. */
  function Dispatched(s: State, inputSize: nat, outputSize: nat, before: nat, timerOk: bool, itemOk: bool): State {
    if inputSize < ULONG_SIZE then Answered(s, Answer(InvalidParameter, before)).(starter := Returned)
    else if outputSize < ULONG_SIZE then Answered(s, Answer(BufferOverflow, ULONG_SIZE)).(starter := Returned)
    else if !timerOk then Answered(s, NOT_CREATED).(starter := Returned)
    else if !itemOk then Answered(s, NOT_CREATED).(starter := Returned, timer := Idle, deletions := 1)
    else s.(starter := Returned, timer := Armed, worker := Ready)
  }

  lemma {:induction false} DispatchIsARun(s: State, inputSize: nat, outputSize: nat, before: nat, timerOk: bool, itemOk: bool)
    requires IsInitial(s)
    ensures Reached(s, Dispatched(s, inputSize, outputSize, before, timerOk, itemOk))
  {
    ReachedAtOnce(s);
    ReachedNext(s, s, Check(inputSize, outputSize, before));
    if inputSize >= ULONG_SIZE && outputSize >= ULONG_SIZE {
      var t := s.(starter := AtTimer);
      ReachedNext(s, t, CreateTimer(timerOk));
      if timerOk {
        var u := t.(starter := AtWorkItem, timer := Idle);
        ReachedNext(s, u, CreateWorkItem(itemOk));
        if itemOk {
          var v := u.(starter := AtStart, worker := Ready);
          ReachedNext(s, v, StartTimer);
          ReachedNext(s, v.(starter := AtReturn, timer := Armed), ReturnPending);
        }
      }
    }
  }

  function WorkItemEnded(s: State): State {
    Answered(Using(s), DONE).(worker := WorkerDone, written := true, deletions := s.deletions + 1)
  }

  lemma {:induction false} WorkItemIsARun(s: State)
    requires s.worker == Queued
    ensures Reached(s, WorkItemEnded(s))
  {
    ReachedAtOnce(s);
    ReachedNext(s, s, WorkerStarts);
    ReachedNext(s, Using(s).(worker := Running), WorkerWrites);
    ReachedNext(s, Using(s).(worker := HasWritten, written := true), WorkerCompletes);
    ReachedNext(s, Answered(Using(s), DONE).(worker := HasCompleted, written := true), WorkerDeletes);
  }

  /** A cancel that comes after the timer was deleted still uses it. */
  function CancelEnded(s: State): State {
    if s.timer == Armed then
      Answered(Using(s), CANCELLED).(timer := Stopped, canceller := CancelDone, deletions := s.deletions + 1)
    else Using(s).(canceller := CancelDone)
  }

  lemma {:induction false} CancelIsARun(s: State)
    requires s.canceller == Asked
    ensures Reached(s, CancelEnded(s))
  {
    ReachedAtOnce(s);
    ReachedNext(s, s, CancelStops);
    if s.timer == Armed {
      ReachedNext(s, Using(s).(timer := Stopped, canceller := HasStopped), CancelCompletes);
      ReachedNext(s, Answered(Using(s), CANCELLED).(timer := Stopped, canceller := HasCancelled), CancelDeletes);
    }
  }

  lemma {:induction false} ReachedKeepsInv(s: State, t: State)
    requires Inv(s) && Reached(s, t)
    ensures Inv(t)
  {
    var es :| Runs(s, es, false) && After(s, es) == t;
    RunsKeepInv(s, es);
  }

  lemma {:induction false} RunsKeepInv(s: State, es: seq<Event>)
    requires Inv(s) && Runs(s, es, false)
    ensures Inv(After(s, es))
  {
    if es != [] {
      RunsKeepInv(s, es[..|es| - 1]);
      StepKeepsInv(After(s, es[..|es| - 1]), es[|es| - 1], false);
    }
  }

  /** What the work item writes into the output buffer: 0x12345678, lowest byte first. */
  const ANSWER: seq<bv8> := [0x78, 0x56, 0x34, 0x12]

  method WriteAnswer(output: array<bv8>)
    requires output.Length >= ULONG_SIZE
    modifies output
    ensures output[..] == [0x78, 0x56, 0x34, 0x12] + old(output[4..])
  {
    output[0], output[1], output[2], output[3] := ANSWER[0], ANSWER[1], ANSWER[2], ANSWER[3];
  }

  /** One request, with its timer, its work item and its output buffer. Each method is one callback that is not interrupted. */
  class SecureRequest {
    const output: array<bv8>
    var starter: Starter
    var timer: Timer
    var worker: Worker
    var canceller: Canceller
    var answers: seq<Answer>
    ghost var deletions: nat
    ghost var misused: bool
    ghost var written: bool

    ghost function Now(): State
      reads this
    {
      State(starter, timer, worker, canceller, answers, deletions, written, misused)
    }

    /** Only a request whose output has room for the answer has its timer started. */
    ghost predicate Valid()
      reads this, output
    {
      && Inv(Now())
      && (Started(Now()) ==> output.Length >= ULONG_SIZE)
      && (written ==> output.Length >= ULONG_SIZE && output[..ULONG_SIZE] == ANSWER)
    }

    constructor (output: array<bv8>)
      ensures Valid() && IsInitial(Now()) && this.output == output
    {
      starter, timer, worker, canceller := AtChecks, NoTimer, NoItem, NotAsked;
      answers, deletions, misused, written := [], 0, false, false;
      this.output := output;
    }

    /**
      A request is refused at once, with everything it created deleted, or left pending with its timer running.
      The length is only set for a request that is long enough to be looked at.
    */
    method TestServiceDelayedCompletion(inputSize: nat, before: nat, timerOk: bool, itemOk: bool) returns (written: nat)
      requires Valid() && IsInitial(Now())
      modifies this
      ensures Valid() && Now() == Dispatched(old(Now()), inputSize, output.Length, before, timerOk, itemOk)
      ensures Reached(old(Now()), Now())
      ensures answers ==
              if inputSize < 4 then [Answer(InvalidParameter, before)]
              else if output.Length < 4 then [Answer(BufferOverflow, 4)]
              else if !timerOk || !itemOk then [Answer(NotCreated, 0)]
              else []
      ensures answers == [] ==> timer == Armed && worker == Ready && deletions == 0
      ensures answers != [] ==> deletions == if timer == NoTimer then 0 else 1
      ensures written == if inputSize < 4 then before else if output.Length < 4 then 4 else 0
      ensures answers != [] ==> answers[0].length == written
    {
      ghost var s := Now();
      DispatchIsARun(s, inputSize, output.Length, before, timerOk, itemOk);
      ReachedKeepsInv(s, Dispatched(s, inputSize, output.Length, before, timerOk, itemOk));
      starter := Returned;
      if inputSize < ULONG_SIZE {
        answers := answers + [Answer(InvalidParameter, before)];
        return before;
      }
      if output.Length < ULONG_SIZE {
        answers := answers + [Answer(BufferOverflow, ULONG_SIZE)];
        return ULONG_SIZE;
      }
      written := 0;
      if timerOk {
        timer := Idle;
      }
      if timerOk && itemOk {
        worker := Ready;
        timer := Armed;
      } else {
        answers := answers + [Answer(NotCreated, 0)];
        if timer != NoTimer {
          deletions := deletions + 1;
        }
      }
    }

    method DelayedCompletionTimerCallback()
      requires Valid() && timer == Firing
      modifies this`timer, this`worker, this`misused
      ensures Valid() && Now() == Step(old(Now()), Enqueue) && Reached(old(Now()), Now())
    {
      ghost var s := Now();
      ReachedAtOnce(s);
      ReachedNext(s, s, Enqueue);
      StepKeepsInv(s, Enqueue, false);
      misused := misused || deletions > 0;
      timer, worker := Fired, Queued;
    }

    /** The work item writes the output, answers the request and deletes the timer. */
    method DelayedCompletionWorkItemCallback()
      requires Valid() && worker == Queued
      modifies this`worker, this`written, this`answers, this`deletions, this`misused, output
      ensures Valid() && Now() == WorkItemEnded(old(Now())) && Reached(old(Now()), Now())
      ensures answers == old(answers) + [Answer(Success, 4)] && deletions == old(deletions) + 1
      ensures output[..] == [0x78, 0x56, 0x34, 0x12] + old(output[4..])
    {
      ghost var s := Now();
      WorkItemIsARun(s);
      ReachedKeepsInv(s, WorkItemEnded(s));
      misused := misused || deletions > 0;
      WriteAnswer(output);
      written := true;
      answers := answers + [Answer(Success, ULONG_SIZE)];
      deletions, worker := deletions + 1, WorkerDone;
    }

    /** The cancel routine answers the request and deletes the timer exactly if the timer was still waiting. */
    method TestServiceCancelSecureServiceRequest()
      requires Valid() && canceller == Asked
      modifies this`timer, this`canceller, this`answers, this`deletions, this`misused
      ensures Valid() && Now() == CancelEnded(old(Now())) && Reached(old(Now()), Now())
      ensures answers == old(answers) + if old(timer) == Armed then [Answer(Cancelled, 0)] else []
      ensures deletions == old(deletions) + if old(timer) == Armed then 1 else 0
      ensures timer == if old(timer) == Armed then Stopped else old(timer)
    {
      ghost var s := Now();
      CancelIsARun(s);
      ReachedKeepsInv(s, CancelEnded(s));
      misused := misused || deletions > 0;
      if timer == Armed {
        timer := Stopped;
        answers := answers + [Answer(Cancelled, 0)];
        deletions := deletions + 1;
      }
      canceller := CancelDone;
    }
  }
}
