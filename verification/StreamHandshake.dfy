/**
  Opening and closing the SCO stream of a hands-free device. StreamStart and StreamSuspend are
  serialized by their callers; the completion routine of the stream-status request runs between
  any two of their steps.
*/
module StreamHandshake {

  import opened Basics

  /** The stream-status request. */
  datatype Request =
    | Ready                       // new or reused
    | AtTarget
    | Completing(ok: bool)        // in the completion routine, status not yet published
    | Signalling                  // status published, event not yet set
    | Done                        // completed and not reused
    | Unsent                      // the last send failed

  /** The next statement of the call in progress. */
  datatype Call =
    | NoCall
    | StartOpen | StartStatus | StartClear | StartSend | StartSignal
    | StartUndo(accepted: bool) | StartClose | StartMark
    | SuspendClose | SuspendCancel | SuspendWait | SuspendReuse | SuspendMark

  datatype State = State(
    nStreams: int,
    event: bool,                  // m_StreamStatusEvent is set
    request: Request,
    streamStatus: bool,           // NT_SUCCESS(m_StreamStatus)
    call: Call,
    opens: nat,                   // STREAM_OPENs accepted
    closes: nat,                  // STREAM_CLOSEs issued
    granted: int,                 // starts that returned success, less suspends
    reuseFailed: bool)

  /** A device after Init: the event is set, the stream is closed. */
  predicate Fresh(s: State) {
    s == State(0, true, Ready, false, NoCall, 0, 0, 0, false)
  }

  datatype Event =
    | BeginStart | BeginSuspend
    | Next                        // a statement that cannot fail
    | Open(ok: bool) | Send(ok: bool) | Reuse(ok: bool)
    | TargetCompletes(ok: bool) | CompletionPublishes | CompletionSignals

  predicate InFlight(r: Request) { r.AtTarget? || r.Completing? || r.Signalling? }

  predicate Enabled(s: State, e: Event) {
    match e
    case BeginStart => s.call.NoCall?
    // The caller suspends only what it started: ASSERT(m_nStreams > 0).
    case BeginSuspend => s.call.NoCall? && s.nStreams > 0
    case Next =>
      || s.call.StartStatus? || s.call.StartClear? || s.call.StartSignal? || s.call.StartUndo?
      || s.call.StartClose? || s.call.StartMark? || s.call.SuspendClose? || s.call.SuspendCancel?
      || (s.call.SuspendWait? && s.event) || s.call.SuspendMark?
    case Open(_) => s.call.StartOpen?
    case Send(_) => s.call.StartSend?
    case Reuse(_) => s.call.SuspendReuse?
    case TargetCompletes(_) => s.request.AtTarget?
    case CompletionPublishes => s.request.Completing?
    case CompletionSignals => s.request.Signalling?
  }

  function Statement(s: State): State
    requires Enabled(s, Next)
  {
    match s.call
    case StartStatus => s.(streamStatus := true, call := StartClear)
    case StartClear => s.(event := false, call := StartSend)
    case StartSignal => s.(event := true, call := StartUndo(true))
    case StartUndo(accepted) => s.(nStreams := s.nStreams - 1, call := if accepted then StartClose else StartMark)
    case StartClose => s.(closes := s.closes + 1, call := StartMark)
    case StartMark => s.(streamStatus := false, call := NoCall)
    case SuspendClose => s.(closes := s.closes + 1, call := SuspendCancel)
    case SuspendCancel => s.(call := SuspendWait)
    case SuspendWait => s.(call := SuspendReuse)
    case SuspendMark => s.(streamStatus := false, call := NoCall)
  }

  function Step(s: State, e: Event): State
    requires Enabled(s, e)
  {
    match e
    case BeginStart =>
      var n := s.nStreams + 1;
      if n == 1 then s.(nStreams := n, call := StartOpen) else s.(nStreams := n, granted := s.granted + 1)
    case BeginSuspend =>
      var n := s.nStreams - 1;
      s.(nStreams := n, granted := s.granted - 1, call := if n == 0 then SuspendClose else NoCall)
    case Next => Statement(s)
    case Open(ok) =>
      if ok then s.(opens := s.opens + 1, call := StartStatus) else s.(call := StartUndo(false))
    case Send(ok) =>
      if ok then s.(request := AtTarget, granted := s.granted + 1, call := NoCall)
      else s.(request := Unsent, call := StartSignal)
    case Reuse(ok) =>
      s.(request := if ok then Ready else s.request, reuseFailed := s.reuseFailed || !ok, call := SuspendMark)
    case TargetCompletes(ok) => s.(request := Completing(ok))
    case CompletionPublishes => s.(streamStatus := s.request.ok, request := Signalling)
    case CompletionSignals => s.(event := true, request := Done)
  }

  predicate Runs(s: State, es: seq<Event>)
    decreases |es|
  {
    es == [] || (Enabled(s, es[0]) && Runs(Step(s, es[0]), es[1..]))
  }

  function Exec(s: State, es: seq<Event>): State
    requires Runs(s, es)
    decreases |es|
  {
    if es == [] then s else Exec(Step(s, es[0]), es[1..])
  }

  /** Some run leads from s to t. */
  ghost predicate Reached(s: State, t: State) {
    exists es :: Runs(s, es) && Exec(s, es) == t
  }

  lemma {:induction false} RunsAppend(s: State, es: seq<Event>, e: Event)
    requires Runs(s, es) && Enabled(Exec(s, es), e)
    ensures Runs(s, es + [e]) && Exec(s, es + [e]) == Step(Exec(s, es), e)
    decreases |es|
  {
    if es == [] {
      assert (es + [e])[1..] == [];
    } else {
      assert (es + [e])[1..] == es[1..] + [e];
      RunsAppend(Step(s, es[0]), es[1..], e);
    }
  }

  /** A run without its last step. */
  lemma {:induction false} RunsLast(s: State, es: seq<Event>)
    requires Runs(s, es) && es != []
    ensures var init, last := es[..|es| - 1], es[|es| - 1];
      Runs(s, init) && Enabled(Exec(s, init), last) && Exec(s, es) == Step(Exec(s, init), last)
    decreases |es|
  {
    if |es| > 1 {
      assert es[1..][..|es| - 2] == es[..|es| - 1][1..];
      RunsLast(Step(s, es[0]), es[1..]);
    }
  }

  lemma {:induction false} ReachedSelf(s: State)
    ensures Reached(s, s)
  {
    assert Runs(s, []) && Exec(s, []) == s;
  }

  /** One more step of a run. */
  lemma {:induction false} Go(s: State, t: State, e: Event)
    requires Reached(s, t) && Enabled(t, e)
    ensures Reached(s, Step(t, e))
  {
    var es :| Runs(s, es) && Exec(s, es) == t;
    RunsAppend(s, es, e);
  }

  /** A stream is open: accepted and not yet asked to close. */
  predicate StreamIsOpen(s: State) {
    match s.call
    case NoCall => s.nStreams > 0
    case StartStatus | StartClear | StartSend | StartSignal | StartClose | SuspendClose => true
    case StartUndo(accepted) => accepted
    case _ => false
  }

  /** The first stream is being started, or its start undone. */
  predicate Starting(c: Call) {
    c.StartOpen? || c.StartStatus? || c.StartClear? || c.StartSend? || c.StartSignal? || c.StartUndo?
  }

  predicate Inv(s: State) {
    && s.opens - s.closes == (if StreamIsOpen(s) then 1 else 0)
    && (s.call.NoCall? ==> s.nStreams == s.granted >= 0)
    && (Starting(s.call) ==> s.nStreams == 1 && s.granted == 0)
    && (!s.call.NoCall? && !Starting(s.call) ==> s.nStreams == 0 && s.granted == 0)
    // The request is out exactly while a started stream has not heard from it.
    && (match s.call
        case NoCall => if s.nStreams > 0 then InFlight(s.request) || s.request.Done? else !InFlight(s.request)
        case SuspendClose | SuspendCancel | SuspendWait => InFlight(s.request) || s.request.Done?
        case SuspendReuse => s.request.Done?
        case _ => !InFlight(s.request))
    && (!s.event <==> InFlight(s.request) || s.call.StartSend? || s.call.StartSignal?)
    && (s.request.AtTarget? || s.request.Completing? || s.call.StartClear? || s.call.StartSend? ==> s.streamStatus)
    && (s.call.NoCall? && s.nStreams == 0 ==> !s.streamStatus)
    && (s.call.StartOpen? || s.call == StartUndo(false) ==> !s.streamStatus)
    && (s.request.Done? && !(s.call.NoCall? && s.nStreams > 0)
        && !(s.call.SuspendClose? || s.call.SuspendCancel? || s.call.SuspendWait? || s.call.SuspendReuse?)
        ==> s.reuseFailed)
  }

  lemma {:induction false} StatementKeepsInv(s: State)
    requires Inv(s) && Enabled(s, Next)
    ensures Inv(Statement(s))
  {
  }

  lemma {:induction false} StepKeepsInv(s: State, e: Event)
    requires Inv(s) && Enabled(s, e)
    ensures Inv(Step(s, e))
  {
    if e.Next? {
      StatementKeepsInv(s);
    }
  }

  lemma {:induction false} RunsKeepInv(s: State, es: seq<Event>)
    requires Inv(s) && Runs(s, es)
    ensures Inv(Exec(s, es))
    decreases |es|
  {
    if es == [] {
    } else {
      StepKeepsInv(s, es[0]);
      RunsKeepInv(Step(s, es[0]), es[1..]);
    }
  }

  lemma {:induction false} ReachedKeepsInv(s: State, t: State)
    requires Inv(s) && Reached(s, t)
    ensures Inv(t)
  {
    var es :| Runs(s, es) && Exec(s, es) == t;
    RunsKeepInv(s, es);
  }

  lemma {:induction false} ReachableInv(s0: State, es: seq<Event>)
    requires Fresh(s0) && Runs(s0, es)
    ensures Inv(Exec(s0, es))
  {
    RunsKeepInv(s0, es);
  }

  /** Between calls, the stream is open on the device exactly while a caller has a start outstanding. */
  lemma {:induction false} OpensAndClosesBalance(s0: State, es: seq<Event>)
    requires Fresh(s0) && Runs(s0, es) && Exec(s0, es).call.NoCall?
    ensures var s := Exec(s0, es);
      && s.opens - s.closes == (if s.nStreams > 0 then 1 else 0)
      && s.nStreams == s.granted >= 0
  {
    ReachableInv(s0, es);
  }

  // ---------- the counts by the events of a run ----------

  /** A begun start counts one; the suspend of a start, and whatever makes a start fail, takes it away again. */
  function Change(e: Event): int {
    match e
    case BeginStart => 1
    case BeginSuspend => -1
    case Open(ok) => if ok then 0 else -1
    case Send(ok) => if ok then 0 else -1
    case _ => 0
  }

  /** Starts that were begun and neither failed nor suspended. */
  function Outstanding(es: seq<Event>): int {
    if es == [] then 0 else Outstanding(es[..|es| - 1]) + Change(es[|es| - 1])
  }

  /** STREAM_OPENs that the device accepted. */
  function Accepted(es: seq<Event>): nat {
    if es == [] then 0 else Accepted(es[..|es| - 1]) + if es[|es| - 1] == Open(true) then 1 else 0
  }

  /** How the target last completed the status request, if it did so since `before`. */
  function LastCompletion(es: seq<Event>, before: Option<bool>): Option<bool>
    decreases |es|
  {
    if es == [] then before
    else LastCompletion(es[1..], if es[0].TargetCompletes? then Some(es[0].ok) else before)
  }

  /** A start that has been counted and has not failed or returned yet. */
  predicate Undecided(c: Call) {
    c.StartOpen? || c.StartStatus? || c.StartClear? || c.StartSend?
  }

  function Begun(s: State): int {
    s.granted + if Undecided(s.call) then 1 else 0
  }

  /** A status that was published and not overwritten since is that of the last completion. */
  predicate StatusAgrees(s: State, last: Option<bool>) {
    && (s.request.Completing? ==> last == Some(s.request.ok))
    && (s.request.Signalling? ==> last == Some(s.streamStatus))
    && (s.request.Done?
        && ((s.call.NoCall? && s.nStreams > 0) || s.call.SuspendClose? || s.call.SuspendCancel? || s.call.SuspendWait?)
        ==> last == Some(s.streamStatus))
  }

  lemma {:induction false} StepCounts(s: State, e: Event)
    requires Enabled(s, e)
    ensures Begun(Step(s, e)) == Begun(s) + Change(e)
    ensures Step(s, e).opens == s.opens + if e == Open(true) then 1 else 0
  {
    if e.Next? {
      StatementCounts(s);
    }
  }

  lemma {:induction false} StatementCounts(s: State)
    requires Enabled(s, Next)
    ensures Begun(Statement(s)) == Begun(s) && Statement(s).opens == s.opens
  {
  }

  lemma {:induction false} StepPublishes(s: State, e: Event, last: Option<bool>)
    requires Inv(s) && Enabled(s, e) && StatusAgrees(s, last)
    ensures StatusAgrees(Step(s, e), if e.TargetCompletes? then Some(e.ok) else last)
  {
    if e.Next? {
      StatementPublishes(s, last);
    }
  }

  lemma {:induction false} StatementPublishes(s: State, last: Option<bool>)
    requires Inv(s) && Enabled(s, Next) && StatusAgrees(s, last)
    ensures StatusAgrees(Statement(s), last)
  {
  }

  lemma {:induction false} RunsCount(s0: State, es: seq<Event>)
    requires Fresh(s0) && Runs(s0, es)
    ensures Begun(Exec(s0, es)) == Outstanding(es) && Exec(s0, es).opens == Accepted(es)
  {
    if es != [] {
      RunsLast(s0, es);
      RunsCount(s0, es[..|es| - 1]);
      StepCounts(Exec(s0, es[..|es| - 1]), es[|es| - 1]);
    }
  }

  lemma {:induction false} RunsPublish(s: State, es: seq<Event>, last: Option<bool>)
    requires Inv(s) && Runs(s, es) && StatusAgrees(s, last)
    ensures StatusAgrees(Exec(s, es), LastCompletion(es, last))
    decreases |es|
  {
    if es != [] {
      StepKeepsInv(s, es[0]);
      StepPublishes(s, es[0], last);
      RunsPublish(Step(s, es[0]), es[1..], if es[0].TargetCompletes? then Some(es[0].ok) else last);
    }
  }

  lemma {:induction false} FreshAgrees(s0: State)
    requires Fresh(s0)
    ensures Inv(s0) && StatusAgrees(s0, None)
  {
  }

  /**
    Between calls the stream count is the number of starts that neither failed nor were suspended, every accepted
    open but that of the running stream was closed, and a stream whose request has completed has the status of that
    completion.
  */
  lemma {:induction false} CountsByEvents(s0: State, es: seq<Event>)
    requires Fresh(s0) && Runs(s0, es) && Exec(s0, es).call.NoCall?
    ensures var s := Exec(s0, es);
      && s.nStreams == Outstanding(es) >= 0
      && s.opens == Accepted(es) && s.closes == Accepted(es) - (if Outstanding(es) > 0 then 1 else 0)
      && (Outstanding(es) > 0 && s.request.Done? ==> LastCompletion(es, None) == Some(s.streamStatus))
  {
    ReachableInv(s0, es);
    RunsCount(s0, es);
    FreshAgrees(s0);
    RunsPublish(s0, es, None);
  }

  /** The event is clear only while the request is out or being sent. */
  lemma {:induction false} EventIsClearOnlyInFlight(s0: State, es: seq<Event>)
    requires Fresh(s0) && Runs(s0, es)
    ensures var s := Exec(s0, es);
      !s.event <==> InFlight(s.request) || s.call.StartSend? || s.call.StartSignal?
  {
    ReachableInv(s0, es);
  }

  /**
    The stop routine waits only for a completion that is still to come, and reuses the request only after
    its completion routine has set the event; a request is sent only when it is not out, and a completed
    one is sent again only if an earlier reuse failed.
  */
  lemma {:induction false} RequestIsUsedInTurn(s0: State, es: seq<Event>)
    requires Fresh(s0) && Runs(s0, es)
    ensures var s := Exec(s0, es);
      && (s.call.SuspendWait? ==> s.event || InFlight(s.request))
      && (s.call.SuspendReuse? ==> s.request.Done?)
      && (s.call.StartSend? ==> !InFlight(s.request) && (s.request.Done? ==> s.reuseFailed))
  {
    ReachableInv(s0, es);
  }

  /** The published status never says that a stream runs when none does. */
  lemma {:induction false} StatusIsHonest(s0: State, es: seq<Event>)
    requires Fresh(s0) && Runs(s0, es) && Exec(s0, es).call.NoCall?
    ensures var s := Exec(s0, es);
      && (s.streamStatus ==> s.nStreams > 0)
      && (s.nStreams > 0 && !s.streamStatus ==> s.request.Signalling? || s.request.Done?)
  {
    ReachableInv(s0, es);
  }

  // ---------- a call returns ----------

  function CallWeight(c: Call): nat {
    match c
    case NoCall => 0
    case StartMark => 1
    case StartClose => 2
    case StartUndo(_) => 3
    case StartSignal => 4
    case StartSend => 8
    case StartClear => 9
    case StartStatus => 10
    case StartOpen => 11
    case SuspendMark => 1
    case SuspendReuse => 2
    case SuspendWait => 3
    case SuspendCancel => 4
    case SuspendClose => 5
  }

  function RequestWeight(r: Request): nat {
    match r
    case AtTarget => 3
    case Completing(_) => 2
    case Signalling => 1
    case _ => 0
  }

  /** A call in progress ends after finitely many steps, whatever the target does, and is stuck nowhere on the way. */
  lemma {:induction false} CallsReturn(s: State, es: seq<Event>)
    requires Inv(s) && Runs(s, es) && BeginStart !in es && BeginSuspend !in es
    ensures |es| <= CallWeight(s.call) + RequestWeight(s.request)
    ensures (forall e :: Enabled(Exec(s, es), e) ==> e == BeginStart || e == BeginSuspend) ==> Exec(s, es).call.NoCall?
    decreases |es|
  {
    if es == [] {
      if !s.call.NoCall? {
        CallsGoOn(s);
      }
    } else {
      assert es[0] in es;
      StepKeepsInv(s, es[0]);
      StepIsProgress(s, es[0]);
      CallsReturn(Step(s, es[0]), es[1..]);
    }
  }

  /** Until a call has returned there is always a step that is part of it or of the completion it waits for. */
  lemma {:induction false} CallsGoOn(s: State)
    requires Inv(s) && !s.call.NoCall?
    ensures exists e :: Enabled(s, e) && e != BeginStart && e != BeginSuspend
  {
    assert Enabled(s, Next) || Enabled(s, Open(true)) || Enabled(s, Send(true))
        || Enabled(s, Reuse(true)) || Enabled(s, TargetCompletes(true)) || Enabled(s, CompletionPublishes)
        || Enabled(s, CompletionSignals);
  }

  lemma {:induction false} StepIsProgress(s: State, e: Event)
    requires Inv(s) && Enabled(s, e) && e != BeginStart && e != BeginSuspend
    ensures CallWeight(Step(s, e).call) + RequestWeight(Step(s, e).request) < CallWeight(s.call) + RequestWeight(s.request)
  {
  }
}
