/**
  The notification pump of a sideband device. A status request travels from the I/O target
  through its completion routine into a collection, from there to the notification work item,
  and back to the target. Each request has an error budget; stopping the device purges the
  target and then waits for the work item.

  A step is one target action, one spin-lock section or one framework call. Completion
  routines of different requests interleave freely with each other, the worker and Stop.
*/
module NotificationPump {

  import R = References

  /** BTH_HFP_NOTIFICATION_MAX_ERROR_COUNT */
  const MAX_ERRORS := 5

  datatype Status = Succeeded | Failed | Cancelled

  /** A completed request in the collection, with its completion status. */
  datatype Item = Item(req: nat, status: Status)

  /** Where a completion routine is. */
  datatype Completion = Entered(status: Status) | Counted(status: Status)

  datatype Worker =
    | Idle
    | Looping                 // about to look at the collection
    | Handling(item: Item)    // removed from the collection, not handled
    | Reusing(item: Item)     // handled, about to be reused
    | Sending(item: Item)     // reused, about to be re-sent
    | Leaving                 // left the loop, has not returned

  datatype Stop = NotStopping | Purging | Flushing | Stopped

  /**
    The context of a request, and its history: how often it was sent, how often it was
    re-sent after a failure since its last success, and whether it was ever cancelled.
  */
  datatype Context = Context(errors: nat, resends: nat, sent: nat, cancelled: bool)

  datatype State = State(
    ctx: seq<Context>,
    idle: set<nat>,           // never sent
    atTarget: set<nat>,
    completing: map<nat, Completion>,
    collection: seq<Item>,
    worker: Worker,
    queued: bool,
    retired: set<nat>,        // cancelled, or out of budget
    stranded: set<nat>,       // a send, a reuse or an insertion failed
    stop: Stop,
    delivered: seq<nat>,      // successes added to the collection, in order
    handled: seq<nat>,        // successes handled by the worker, in order
    broke: bool)              // the last worker to run left the loop on a failure

  datatype Event =
    | StartSend(req: nat, ok: bool)
    | TargetCompletes(req: nat, status: Status)
    | CompletionCounts(req: nat)
    | CompletionAdds(req: nat, ok: bool)
    | WorkerBegin | WorkerTake | WorkerHandle | WorkerReuse(ok: bool) | WorkerSend(ok: bool) | WorkerReturn
    | StopBegin | PurgeDone | FlushDone

  function Below(n: nat): (r: set<nat>)
    ensures forall x: nat :: x in r <==> x < n
  {
    if n == 0 then {} else Below(n - 1) + {n - 1}
  }

  /** A device with n status requests, none sent yet. */
  function Initial(n: nat): State {
    State(seq(n, _ => Context(0, 0, 0, false)), Below(n), {}, map[], [], Idle, false, {}, {},
          NotStopping, [], [], false)
  }

  // ---------- the steps ----------

  predicate Enabled(s: State, e: Event) {
    match e
    case StartSend(r, _) => s.stop.NotStopping? && r in s.idle && r < |s.ctx|
    case TargetCompletes(r, _) => r in s.atTarget && r < |s.ctx|
    case CompletionCounts(r) => r in s.completing && s.completing[r].Entered? && r < |s.ctx|
    case CompletionAdds(r, _) => r in s.completing && s.completing[r].Counted? && r < |s.ctx|
    case WorkerBegin => s.queued && s.worker.Idle?
    case WorkerTake => s.worker.Looping?
    case WorkerHandle => s.worker.Handling?
    case WorkerReuse(_) => s.worker.Reusing?
    // A target that is being purged takes no more requests.
    case WorkerSend(ok) => s.worker.Sending? && s.worker.item.req < |s.ctx| && (ok ==> s.stop.NotStopping?)
    case WorkerReturn => s.worker.Leaving?
    case StopBegin => s.stop.NotStopping?
    // Purging waits until every request sent was completed and its completion routine returned.
    case PurgeDone => s.stop.Purging? && s.atTarget == {} && s.completing == map[]
    // Flushing waits until the work item is neither queued nor running.
    case FlushDone => s.stop.Flushing? && !s.queued && s.worker.Idle?
  }

  function Started(s: State, r: nat, ok: bool): State
    requires r < |s.ctx|
  {
    if ok then s.(idle := s.idle - {r}, atTarget := s.atTarget + {r},
                  ctx := s.ctx[r := s.ctx[r].(sent := s.ctx[r].sent + 1)])
    else s.(idle := s.idle - {r}, stranded := s.stranded + {r})
  }

  function Completed(s: State, r: nat, st: Status): State
    requires r < |s.ctx|
  {
    s.(atTarget := s.atTarget - {r}, completing := s.completing[r := Entered(st)],
       ctx := s.ctx[r := s.ctx[r].(cancelled := s.ctx[r].cancelled || st.Cancelled?)])
  }

  /** The first part of the completion routine: the error budget. */
  function BudgetChecked(s: State, r: nat): State
    requires r in s.completing && r < |s.ctx|
  {
    var c := s.ctx[r];
    match s.completing[r].status
    case Cancelled => s.(completing := s.completing - {r}, retired := s.retired + {r})
    case Failed =>
      var t := s.(ctx := s.ctx[r := c.(errors := c.errors + 1)]);
      if c.errors + 1 > MAX_ERRORS then t.(completing := s.completing - {r}, retired := s.retired + {r})
      else t.(completing := s.completing[r := Counted(Failed)])
    case Succeeded =>
      s.(ctx := s.ctx[r := c.(errors := 0, resends := 0)], completing := s.completing[r := Counted(Succeeded)])
  }

  /** The spin-lock section of the completion routine. */
  function Added(s: State, r: nat, ok: bool): State
    requires r in s.completing
  {
    var st := s.completing[r].status;
    if ok then
      s.(completing := s.completing - {r}, collection := s.collection + [Item(r, st)], queued := true,
         delivered := if st.Succeeded? then s.delivered + [r] else s.delivered)
    else s.(completing := s.completing - {r}, stranded := s.stranded + {r})
  }

  function Taken(s: State): State
    requires s.worker.Looping?
  {
    if s.collection == [] then s.(worker := Leaving)
    else s.(collection := s.collection[1..], worker := Handling(s.collection[0]))
  }

  /** Only a success reaches a handler; a failure is just sent again. */
  function Handled(s: State): State
    requires s.worker.Handling?
  {
    var i := s.worker.item;
    s.(worker := Reusing(i), handled := if i.status.Succeeded? then s.handled + [i.req] else s.handled)
  }

  function Reused(s: State, ok: bool): State
    requires s.worker.Reusing?
  {
    if ok then s.(worker := Sending(s.worker.item))
    else s.(worker := Leaving, broke := true, stranded := s.stranded + {s.worker.item.req})
  }

  function Resent(s: State, ok: bool): State
    requires s.worker.Sending? && s.worker.item.req < |s.ctx|
  {
    var i := s.worker.item;
    var c := s.ctx[i.req];
    if ok then
      s.(worker := Looping, atTarget := s.atTarget + {i.req},
         ctx := s.ctx[i.req := c.(sent := c.sent + 1, resends := c.resends + if i.status.Succeeded? then 0 else 1)])
    else s.(worker := Leaving, broke := true, stranded := s.stranded + {i.req})
  }

  function Step(s: State, e: Event): State
    requires Enabled(s, e)
  {
    match e
    case StartSend(r, ok) => Started(s, r, ok)
    case TargetCompletes(r, st) => Completed(s, r, st)
    case CompletionCounts(r) => BudgetChecked(s, r)
    case CompletionAdds(r, ok) => Added(s, r, ok)
    case WorkerBegin => s.(queued := false, worker := Looping, broke := false)
    case WorkerTake => Taken(s)
    case WorkerHandle => Handled(s)
    case WorkerReuse(ok) => Reused(s, ok)
    case WorkerSend(ok) => Resent(s, ok)
    case WorkerReturn => s.(worker := Idle)
    case StopBegin => s.(stop := Purging)
    case PurgeDone => s.(stop := Flushing)
    case FlushDone => s.(stop := Stopped)
  }

  predicate Runs(s: State, es: seq<Event>)
    decreases |es|
  {
    es == [] || (Enabled(s, es[0]) && Runs(Step(s, es[0]), es[1..]))
  }

  function Exec(s: State, es: seq<Event>): State
    requires Runs(s, es)
    decreases |es|
  {
    if es == [] then s else Exec(Step(s, es[0]), es[1..])
  }

  /** Some run leads from s to t. */
  ghost predicate Reached(s: State, t: State) {
    exists es :: Runs(s, es) && Exec(s, es) == t
  }

  lemma {:induction false} RunsAppend(s: State, es: seq<Event>, e: Event)
    requires Runs(s, es) && Enabled(Exec(s, es), e)
    ensures Runs(s, es + [e]) && Exec(s, es + [e]) == Step(Exec(s, es), e)
    decreases |es|
  {
    if es == [] {
      assert (es + [e])[1..] == [];
    } else {
      assert (es + [e])[1..] == es[1..] + [e];
      RunsAppend(Step(s, es[0]), es[1..], e);
    }
  }

  /** A run without its last step. */
  lemma {:induction false} RunsLast(s: State, es: seq<Event>)
    requires Runs(s, es) && es != []
    ensures var init, last := es[..|es| - 1], es[|es| - 1];
      Runs(s, init) && Enabled(Exec(s, init), last) && Exec(s, es) == Step(Exec(s, init), last)
    decreases |es|
  {
    if |es| > 1 {
      assert es[1..][..|es| - 2] == es[..|es| - 1][1..];
      RunsLast(Step(s, es[0]), es[1..]);
    }
  }

  lemma {:induction false} RunsSplit(s: State, es: seq<Event>, more: seq<Event>)
    requires Runs(s, es + more)
    ensures Runs(s, es) && Runs(Exec(s, es), more) && Exec(s, es + more) == Exec(Exec(s, es), more)
    decreases |es|
  {
    if es == [] {
      assert es + more == more;
    } else {
      assert (es + more)[1..] == es[1..] + more;
      RunsSplit(Step(s, es[0]), es[1..], more);
    }
  }

  lemma {:induction false} ReachedSelf(s: State)
    ensures Reached(s, s)
  {
    assert Runs(s, []) && Exec(s, []) == s;
  }

  /** One more step of a run. */
  lemma {:induction false} Go(s: State, t: State, e: Event)
    requires Reached(s, t) && Enabled(t, e)
    ensures Reached(s, Step(t, e))
  {
    var es :| Runs(s, es) && Exec(s, es) == t;
    RunsAppend(s, es, e);
  }

  // ---------- where a request is ----------

  function B(b: bool): nat { if b then 1 else 0 }

  function InCollection(c: seq<Item>, r: nat): nat {
    if c == [] then 0 else B(c[0].req == r) + InCollection(c[1..], r)
  }

  predicate Holds(w: Worker, r: nat) {
    (w.Handling? || w.Reusing? || w.Sending?) && w.item.req == r
  }

  /** The number of places request r is in. */
  function Places(s: State, r: nat): nat {
    B(r in s.idle) + B(r in s.atTarget) + B(r in s.completing) + InCollection(s.collection, r)
    + B(Holds(s.worker, r)) + B(r in s.retired) + B(r in s.stranded)
  }

  /** The successes of a stretch of the collection, in order. */
  function Successes(c: seq<Item>): seq<nat> {
    if c == [] then [] else (if c[0].status.Succeeded? then [c[0].req] else []) + Successes(c[1..])
  }

  function Unhandled(w: Worker): seq<nat> {
    if w.Handling? && w.item.status.Succeeded? then [w.item.req] else []
  }

  // ---------- the invariant ----------

  /** How many resends the errors of a request account for, by where it is. */
  predicate Budget(c: Context, pending: bool) {
    c.errors <= MAX_ERRORS && c.errors == c.resends + B(pending)
  }

  predicate RequestInv(s: State, r: nat)
    requires r < |s.ctx|
  {
    var c := s.ctx[r];
    && Places(s, r) == 1
    && (r in s.idle ==> c == Context(0, 0, 0, false))
    && (r in s.atTarget ==> Budget(c, false) && !c.cancelled)
    && (r in s.completing && s.completing[r].Entered? ==> Budget(c, false))
    && (r in s.completing && s.completing[r].Counted? ==> Budget(c, s.completing[r].status.Failed?))
    && (r in s.completing ==> (c.cancelled <==> s.completing[r].status.Cancelled?))
    && (r in s.completing && s.completing[r].Counted? ==> !s.completing[r].status.Cancelled?)
    && (forall i :: i in s.collection && i.req == r ==>
          Budget(c, i.status.Failed?) && !c.cancelled && !i.status.Cancelled?)
    && (Holds(s.worker, r) ==>
          Budget(c, s.worker.item.status.Failed?) && !c.cancelled && !s.worker.item.status.Cancelled?)
    && (c.cancelled ==> c.errors <= MAX_ERRORS && (r in s.completing || r in s.retired))
    && c.resends <= MAX_ERRORS
    && (c.errors > MAX_ERRORS ==> r in s.retired && c.resends == MAX_ERRORS)
    && (r in s.retired && !c.cancelled ==> c.errors == MAX_ERRORS + 1)
  }

  predicate InvRequests(s: State) {
    forall r :: 0 <= r < |s.ctx| ==> RequestInv(s, r)
  }

  predicate InvNames(s: State) {
    && (forall r :: r in s.idle ==> r < |s.ctx|)
    && (forall r :: r in s.atTarget ==> r < |s.ctx|)
    && (forall r :: r in s.retired ==> r < |s.ctx|)
    && (forall r :: r in s.stranded ==> r < |s.ctx|)
    && (forall r :: r in s.completing ==> r < |s.ctx|)
    && (forall i :: i in s.collection ==> i.req < |s.ctx|)
    && (s.worker.Handling? || s.worker.Reusing? || s.worker.Sending? ==> s.worker.item.req < |s.ctx|)
  }

  predicate InvQueue(s: State) {
    && s.delivered == s.handled + Unhandled(s.worker) + Successes(s.collection)
    && (s.collection != [] ==> s.queued || s.broke || !(s.worker.Idle? || s.worker.Leaving?))
    && (s.broke ==> s.worker.Idle? || s.worker.Leaving?)
    && (s.stop.Flushing? || s.stop.Stopped? ==> s.atTarget == {} && s.completing == map[])
    && (s.stop.Stopped? ==> !s.queued && s.worker.Idle?)
  }

  predicate Inv(s: State) {
    InvNames(s) && InvRequests(s) && InvQueue(s)
  }

  // ---------- every step keeps the invariant ----------

  lemma {:induction false} InCollectionAppend(c: seq<Item>, i: Item, r: nat)
    ensures InCollection(c + [i], r) == InCollection(c, r) + B(i.req == r)
  {
    if c == [] {
    } else {
      assert (c + [i])[1..] == c[1..] + [i];
      InCollectionAppend(c[1..], i, r);
    }
  }

  lemma {:induction false} SuccessesAppend(c: seq<Item>, i: Item)
    ensures Successes(c + [i]) == Successes(c) + if i.status.Succeeded? then [i.req] else []
  {
    if c == [] {
      assert ([] + [i])[1..] == [];
    } else {
      var first := if c[0].status.Succeeded? then [c[0].req] else [];
      var last := if i.status.Succeeded? then [i.req] else [];
      assert (c + [i])[1..] == c[1..] + [i];
      SuccessesAppend(c[1..], i);
      assert first + (Successes(c[1..]) + last) == first + Successes(c[1..]) + last;
    }
  }

  lemma {:induction false} InCollectionIff(c: seq<Item>, r: nat)
    ensures InCollection(c, r) == 0 <==> forall i :: i in c ==> i.req != r
  {
    if c != [] {
      InCollectionIff(c[1..], r);
      assert c == [c[0]] + c[1..];
    }
  }

  /** Nothing about request x differs between s and t. */
  predicate SameRequest(s: State, t: State, x: nat) {
    && x < |s.ctx| && x < |t.ctx| && t.ctx[x] == s.ctx[x]
    && (x in t.idle <==> x in s.idle)
    && (x in t.atTarget <==> x in s.atTarget)
    && (x in t.retired <==> x in s.retired)
    && (x in t.stranded <==> x in s.stranded)
    && (x in t.completing <==> x in s.completing)
    && (x in t.completing ==> t.completing[x] == s.completing[x])
    && InCollection(t.collection, x) == InCollection(s.collection, x)
    && (forall i :: i in t.collection && i.req == x ==> i in s.collection)
    && (Holds(t.worker, x) <==> Holds(s.worker, x))
    && (Holds(t.worker, x) ==> t.worker == s.worker)
  }

  lemma {:induction false} SameRequestKeeps(s: State, t: State, except: nat)
    requires InvRequests(s) && |s.ctx| == |t.ctx|
    requires forall x :: 0 <= x < |t.ctx| && x != except ==> SameRequest(s, t, x)
    requires except < |t.ctx| ==> RequestInv(t, except)
    ensures InvRequests(t)
  {
    forall x | 0 <= x < |t.ctx| ensures RequestInv(t, x) {
      if x != except {
        assert RequestInv(s, x) && SameRequest(s, t, x);
      }
    }
  }

  lemma {:induction false} StartKeeps(s: State, r: nat, ok: bool)
    requires Inv(s) && Enabled(s, StartSend(r, ok))
    ensures Inv(Started(s, r, ok))
  {
    assert RequestInv(s, r);
    SameRequestKeeps(s, Started(s, r, ok), r);
  }

  lemma {:induction false} CompleteKeeps(s: State, r: nat, st: Status)
    requires Inv(s) && Enabled(s, TargetCompletes(r, st))
    ensures Inv(Completed(s, r, st))
  {
    assert RequestInv(s, r);
    InCollectionIff(s.collection, r);
    SameRequestKeeps(s, Completed(s, r, st), r);
  }

  /** What the error budget makes of the request itself. */
  lemma {:induction false} CountKeepsOwn(s: State, r: nat)
    requires r < |s.ctx| && RequestInv(s, r) && r in s.completing && s.completing[r].Entered?
    ensures RequestInv(BudgetChecked(s, r), r)
  {
    InCollectionIff(s.collection, r);
  }

  lemma {:induction false} CountTouchesOne(s: State, r: nat, x: nat)
    requires r < |s.ctx| && r in s.completing && x < |s.ctx| && x != r
    ensures SameRequest(s, BudgetChecked(s, r), x)
  {
  }

  lemma {:induction false} CountKeepsNames(s: State, r: nat)
    requires InvNames(s) && Enabled(s, CompletionCounts(r))
    ensures InvNames(BudgetChecked(s, r))
  {
  }

  lemma {:induction false} CountKeepsQueue(s: State, r: nat)
    requires InvQueue(s) && Enabled(s, CompletionCounts(r))
    ensures InvQueue(BudgetChecked(s, r))
  {
    assert s.completing != map[];
  }

  lemma {:induction false} CountKeeps(s: State, r: nat)
    requires Inv(s) && Enabled(s, CompletionCounts(r))
    ensures Inv(BudgetChecked(s, r))
  {
    var t := BudgetChecked(s, r);
    CountKeepsOwn(s, r);
    CountKeepsNames(s, r);
    CountKeepsQueue(s, r);
    forall x: nat | x < |s.ctx| && x != r ensures SameRequest(s, t, x) {
      CountTouchesOne(s, r, x);
    }
    SameRequestKeeps(s, t, r);
  }

  lemma {:induction false} AddKeeps(s: State, r: nat, ok: bool)
    requires Inv(s) && Enabled(s, CompletionAdds(r, ok))
    ensures Inv(Added(s, r, ok))
  {
    assert RequestInv(s, r);
    var t := Added(s, r, ok);
    if ok {
      var i := Item(r, s.completing[r].status);
      forall x ensures InCollection(t.collection, x) == InCollection(s.collection, x) + B(x == r) {
        InCollectionAppend(s.collection, i, x);
      }
      SuccessesAppend(s.collection, i);
      InCollectionIff(s.collection, r);
    }
    SameRequestKeeps(s, t, r);
  }

  lemma {:induction false} TakeKeepsOwn(s: State, r: nat)
    requires s.worker.Looping? && s.collection != [] && r == s.collection[0].req && r < |s.ctx| && RequestInv(s, r)
    ensures RequestInv(Taken(s), r)
  {
    assert s.collection == [s.collection[0]] + Taken(s).collection;
    InCollectionIff(Taken(s).collection, r);
  }

  lemma {:induction false} TakeTouchesOne(s: State, x: nat)
    requires s.worker.Looping? && s.collection != [] && x < |s.ctx| && x != s.collection[0].req
    ensures SameRequest(s, Taken(s), x)
  {
    assert s.collection == [s.collection[0]] + Taken(s).collection;
  }

  lemma {:induction false} TakeKeepsNames(s: State)
    requires InvNames(s) && InvQueue(s) && s.worker.Looping?
    ensures InvNames(Taken(s)) && InvQueue(Taken(s))
  {
    if s.collection != [] {
      var first := s.collection[0];
      assert s.collection == [first] + Taken(s).collection;
      var one, rest := if first.status.Succeeded? then [first.req] else [], Successes(Taken(s).collection);
      assert s.handled + [] + (one + rest) == s.handled + one + rest;
    }
  }

  lemma {:induction false} TakeKeeps(s: State)
    requires Inv(s) && s.worker.Looping?
    ensures Inv(Taken(s))
  {
    var t := Taken(s);
    TakeKeepsNames(s);
    if s.collection == [] {
      SameRequestKeeps(s, t, |s.ctx|);
    } else {
      var r := s.collection[0].req;
      assert s.collection[0] in s.collection;
      TakeKeepsOwn(s, r);
      forall x: nat | x < |s.ctx| && x != r ensures SameRequest(s, t, x) {
        TakeTouchesOne(s, x);
      }
      SameRequestKeeps(s, t, r);
    }
  }

  lemma {:induction false} HandleKeeps(s: State)
    requires Inv(s) && s.worker.Handling?
    ensures Inv(Handled(s))
  {
    var r := s.worker.item.req;
    assert RequestInv(s, r);
    SameRequestKeeps(s, Handled(s), r);
  }

  lemma {:induction false} ReuseKeeps(s: State, ok: bool)
    requires Inv(s) && s.worker.Reusing?
    ensures Inv(Reused(s, ok))
  {
    var r := s.worker.item.req;
    assert RequestInv(s, r);
    InCollectionIff(s.collection, r);
    SameRequestKeeps(s, Reused(s, ok), r);
  }

  lemma {:induction false} SendKeeps(s: State, ok: bool)
    requires Inv(s) && Enabled(s, WorkerSend(ok))
    ensures Inv(Resent(s, ok))
  {
    var r := s.worker.item.req;
    assert RequestInv(s, r);
    InCollectionIff(s.collection, r);
    SameRequestKeeps(s, Resent(s, ok), r);
  }

  lemma {:induction false} FlagKeeps(s: State, e: Event)
    requires Inv(s) && Enabled(s, e)
    requires e.WorkerBegin? || e.WorkerReturn? || e.StopBegin? || e.PurgeDone? || e.FlushDone?
    ensures Inv(Step(s, e))
  {
    SameRequestKeeps(s, Step(s, e), |s.ctx|);
  }

  lemma {:induction false} StepKeepsInv(s: State, e: Event)
    requires Inv(s) && Enabled(s, e)
    ensures Inv(Step(s, e))
  {
    match e
    case StartSend(r, ok) => StartKeeps(s, r, ok);
    case TargetCompletes(r, st) => CompleteKeeps(s, r, st);
    case CompletionCounts(r) => CountKeeps(s, r);
    case CompletionAdds(r, ok) => AddKeeps(s, r, ok);
    case WorkerTake => TakeKeeps(s);
    case WorkerHandle => HandleKeeps(s);
    case WorkerReuse(ok) => ReuseKeeps(s, ok);
    case WorkerSend(ok) => SendKeeps(s, ok);
    case WorkerBegin | WorkerReturn | StopBegin | PurgeDone | FlushDone => FlagKeeps(s, e);
  }

  // ---------- every run ----------

  lemma {:induction false} InitialInv(n: nat)
    ensures Inv(Initial(n))
  {
    var s := Initial(n);
    forall r | 0 <= r < n ensures RequestInv(s, r) {
    }
  }

  lemma {:induction false} RunsKeepInv(s: State, es: seq<Event>)
    requires Inv(s) && Runs(s, es)
    ensures Inv(Exec(s, es)) && |Exec(s, es).ctx| == |s.ctx|
    decreases |es|
  {
    if es == [] {
    } else {
      StepKeepsInv(s, es[0]);
      StepKeepsRequests(s, es[0]);
      RunsKeepInv(Step(s, es[0]), es[1..]);
    }
  }

  lemma {:induction false} StepKeepsRequests(s: State, e: Event)
    requires Enabled(s, e)
    ensures |Step(s, e).ctx| == |s.ctx|
  {
  }

  lemma {:induction false} ReachableInv(n: nat, es: seq<Event>)
    requires Runs(Initial(n), es)
    ensures Inv(Exec(Initial(n), es)) && |Exec(Initial(n), es).ctx| == n
  {
    InitialInv(n);
    RunsKeepInv(Initial(n), es);
  }

  /** In every reachable state a request is in exactly one place, whatever interleaves. */
  lemma {:induction false} OnePlace(n: nat, es: seq<Event>, r: nat)
    requires Runs(Initial(n), es) && r < n
    ensures Places(Exec(Initial(n), es), r) == 1
  {
    ReachableInv(n, es);
    assert RequestInv(Exec(Initial(n), es), r);
  }

  /**
    The error budget: since its last success a request was re-sent at most five times, each time after a
    failure, and once it has failed six times in a row it is retired.
  */
  lemma {:induction false} BudgetIsKept(n: nat, es: seq<Event>, r: nat)
    requires Runs(Initial(n), es) && r < |Exec(Initial(n), es).ctx|
    ensures var s := Exec(Initial(n), es); var c := s.ctx[r];
      && c.resends <= 5
      && (r in s.atTarget ==> c.resends == c.errors)
      && (c.errors > 5 ==> r in s.retired && c.resends == 5)
      && (r in s.retired ==> c.cancelled || c.errors == 6)
  {
    ReachableInv(n, es);
    var s := Exec(Initial(n), es);
    assert RequestInv(s, r);
    InCollectionIff(s.collection, r);
  }

  // ---------- the budget by the events of a run ----------

  /** How often request r was completed with a failure since its last success. */
  function InARow(es: seq<Event>, r: nat): nat {
    if es == [] then 0
    else
      var n, e := InARow(es[..|es| - 1], r), es[|es| - 1];
      if !e.TargetCompletes? || e.req != r then n
      else match e.status case Succeeded => 0 case Failed => n + 1 case Cancelled => n
  }

  /** The error count agrees with n, the failures in a row, but for a completion that was entered and is not counted yet. */
  predicate CountedUpTo(s: State, r: nat, n: nat)
    requires r < |s.ctx|
  {
    if r in s.completing && s.completing[r] == Entered(Failed) then n == s.ctx[r].errors + 1
    else if r in s.completing && s.completing[r] == Entered(Succeeded) then n == 0
    else n == s.ctx[r].errors
  }

  /** One step of that agreement, by the request's own events. */
  lemma {:induction false} StepCounts(s: State, e: Event, r: nat, n: nat)
    requires Enabled(s, e) && r < |s.ctx| && CountedUpTo(s, r, n)
    requires r in s.atTarget ==> r !in s.completing
    ensures |Step(s, e).ctx| == |s.ctx|
    ensures CountedUpTo(Step(s, e), r,
              if !e.TargetCompletes? || e.req != r then n
              else match e.status case Succeeded => 0 case Failed => n + 1 case Cancelled => n)
  {
    match e
    case TargetCompletes(x, st) => CompleteCounts(s, x, st, r, n);
    case CompletionCounts(x) => BudgetCounts(s, x, r, n);
    case CompletionAdds(x, ok) => assert x == r ==> s.completing[r] != Entered(Failed) && s.completing[r] != Entered(Succeeded);
    case _ => SameErrors(s, e, r);
  }

  lemma {:induction false} CompleteCounts(s: State, x: nat, st: Status, r: nat, n: nat)
    requires x in s.atTarget && x < |s.ctx| && r < |s.ctx| && CountedUpTo(s, r, n)
    requires r in s.atTarget ==> r !in s.completing
    ensures CountedUpTo(Completed(s, x, st), r,
              if x != r then n else match st case Succeeded => 0 case Failed => n + 1 case Cancelled => n)
  {
  }

  lemma {:induction false} BudgetCounts(s: State, x: nat, r: nat, n: nat)
    requires x < |s.ctx| && x in s.completing && s.completing[x].Entered? && r < |s.ctx| && CountedUpTo(s, r, n)
    ensures CountedUpTo(BudgetChecked(s, x), r, n)
  {
  }

  lemma {:induction false} SameErrors(s: State, e: Event, r: nat)
    requires Enabled(s, e) && !e.TargetCompletes? && !e.CompletionCounts? && !e.CompletionAdds? && r < |s.ctx|
    ensures Step(s, e).completing == s.completing && |Step(s, e).ctx| == |s.ctx|
    ensures Step(s, e).ctx[r].errors == s.ctx[r].errors
  {
  }

  /** In every run the error count is the number of failures in a row: a success resets it. */
  lemma {:induction false} ErrorsAreFailuresInARow(n: nat, es: seq<Event>, r: nat)
    requires Runs(Initial(n), es) && r < n
    ensures |Exec(Initial(n), es).ctx| == n && CountedUpTo(Exec(Initial(n), es), r, InARow(es, r))
  {
    ReachableInv(n, es);
    if es != [] {
      var init, last := es[..|es| - 1], es[|es| - 1];
      RunsLast(Initial(n), es);
      ErrorsAreFailuresInARow(n, init, r);
      ReachableInv(n, init);
      assert RequestInv(Exec(Initial(n), init), r);
      StepCounts(Exec(Initial(n), init), last, r, InARow(init, r));
    }
  }

  /**
    A request at the target has failed at most five times in a row, none fails more than six times in a row, and one
    whose completion was counted is retired without a cancel exactly if it has failed six times in a row.
  */
  lemma {:induction false} SixInARowRetire(n: nat, es: seq<Event>, r: nat)
    requires Runs(Initial(n), es) && r < n
    ensures var s := Exec(Initial(n), es);
      && |s.ctx| == n && InARow(es, r) <= 6
      && (r in s.atTarget ==> InARow(es, r) <= 5)
      && (!(r in s.completing && s.completing[r].Entered?) ==>
            (r in s.retired && !s.ctx[r].cancelled <==> InARow(es, r) == 6))
  {
    ReachableInv(n, es);
    ErrorsAreFailuresInARow(n, es, r);
    var s := Exec(Initial(n), es);
    assert RequestInv(s, r);
    InCollectionIff(s.collection, r);
  }

  /** Cancelled, or failed six times in a row, and counted or about to be. */
  predicate Spent(s: State, r: nat) {
    && r < |s.ctx|
    && (|| s.ctx[r].cancelled
        || (r in s.retired && s.ctx[r].errors > MAX_ERRORS)
        || (r in s.completing && s.completing[r] == Entered(Failed) && s.ctx[r].errors == MAX_ERRORS))
  }

  lemma {:induction false} SpentStays(s: State, e: Event, r: nat)
    requires Inv(s) && Enabled(s, e) && Spent(s, r)
    ensures Spent(Step(s, e), r)
  {
    assert RequestInv(s, r);
    InCollectionIff(s.collection, r);
    match e
    case TargetCompletes(x, st) => SpentOutlivesCompletion(s, x, st, r);
    case CompletionCounts(x) => SpentOutlivesCount(s, x, r);
    case CompletionAdds(_, _) =>
    case _ =>
      SameErrors(s, e, r);
      StepCancels(s, e, r);
      RetiredStay(s, e);
  }

  lemma {:induction false} SpentOutlivesCompletion(s: State, x: nat, st: Status, r: nat)
    requires x in s.atTarget && x < |s.ctx| && Spent(s, r) && (r in s.completing ==> r !in s.atTarget)
    ensures Spent(Completed(s, x, st), r)
  {
  }

  lemma {:induction false} SpentOutlivesCount(s: State, x: nat, r: nat)
    requires x < |s.ctx| && x in s.completing && Spent(s, r) && (r in s.retired ==> r !in s.completing)
    ensures Spent(BudgetChecked(s, x), r)
  {
  }

  lemma {:induction false} RetiredStay(s: State, e: Event)
    requires Enabled(s, e)
    ensures s.retired <= Step(s, e).retired
  {
  }

  lemma {:induction false} SpentIsNotSent(s: State, es: seq<Event>, r: nat)
    requires Inv(s) && Runs(s, es) && Spent(s, r)
    ensures r !in Exec(s, es).atTarget
    decreases |es|
  {
    if es == [] {
      assert RequestInv(s, r);
    } else {
      SpentStays(s, es[0], r);
      StepKeepsInv(s, es[0]);
      SpentIsNotSent(Step(s, es[0]), es[1..], r);
    }
  }

  /** A request is on record as cancelled exactly if the target completed it so. */
  lemma {:induction false} CancelledByTheTarget(n: nat, es: seq<Event>, r: nat)
    requires Runs(Initial(n), es) && r < n
    ensures |Exec(Initial(n), es).ctx| == n
    ensures Exec(Initial(n), es).ctx[r].cancelled <==> TargetCompletes(r, Cancelled) in es
  {
    ReachableInv(n, es);
    if es != [] {
      var init, last := es[..|es| - 1], es[|es| - 1];
      RunsLast(Initial(n), es);
      CancelledByTheTarget(n, init, r);
      StepCancels(Exec(Initial(n), init), last, r);
      assert es == init + [last];
    }
  }

  lemma {:induction false} StepCancels(s: State, e: Event, r: nat)
    requires Enabled(s, e) && r < |s.ctx|
    ensures |Step(s, e).ctx| == |s.ctx|
    ensures Step(s, e).ctx[r].cancelled <==> s.ctx[r].cancelled || e == TargetCompletes(r, Cancelled)
  {
  }

  /** However a run goes on, a request that was cancelled or has failed six times in a row is never at the target again. */
  lemma {:induction false} NeverSentAgain(n: nat, es: seq<Event>, more: seq<Event>, r: nat)
    requires Runs(Initial(n), es + more) && r < n
    requires TargetCompletes(r, Cancelled) in es || InARow(es, r) == 6
    ensures r !in Exec(Initial(n), es + more).atTarget
  {
    RunsSplit(Initial(n), es, more);
    ReachableInv(n, es);
    var s := Exec(Initial(n), es);
    CancelledByTheTarget(n, es, r);
    ErrorsAreFailuresInARow(n, es, r);
    assert RequestInv(s, r);
    SpentIsNotSent(s, more, r);
  }

  // ---------- what is handled, by the events of a run ----------

  /** How often the target completed request r with success. */
  function SuccessesOf(es: seq<Event>, r: nat): nat {
    if es == [] then 0
    else SuccessesOf(es[..|es| - 1], r) + B(es[|es| - 1] == TargetCompletes(r, Succeeded))
  }

  /** A success that the completion routine has not yet added to the collection. */
  function ToAdd(s: State, r: nat): nat {
    B(r in s.completing && s.completing[r].status.Succeeded?)
  }

  lemma {:induction false} StepDelivers(s: State, e: Event, r: nat)
    requires Enabled(s, e) && r < |s.ctx| && (r in s.atTarget ==> r !in s.completing)
    ensures var t, x := Step(s, e), B(e == TargetCompletes(r, Succeeded));
      && R.Occurrences(t.delivered, r) + ToAdd(t, r) <= R.Occurrences(s.delivered, r) + ToAdd(s, r) + x
      && (r !in t.stranded ==> R.Occurrences(t.delivered, r) + ToAdd(t, r) == R.Occurrences(s.delivered, r) + ToAdd(s, r) + x)
      && (r in s.stranded ==> r in t.stranded)
  {
    match e
    case TargetCompletes(_, _) =>
    case CompletionCounts(_) =>
    case CompletionAdds(x, ok) => AddDelivers(s, x, ok, r);
    case _ => SameDeliveries(s, e);
  }

  lemma {:induction false} AddDelivers(s: State, x: nat, ok: bool, r: nat)
    requires x in s.completing && s.completing[x].Counted? && r < |s.ctx|
    ensures var t := Added(s, x, ok);
      && R.Occurrences(t.delivered, r) + ToAdd(t, r) <= R.Occurrences(s.delivered, r) + ToAdd(s, r)
      && (r !in t.stranded ==> R.Occurrences(t.delivered, r) + ToAdd(t, r) == R.Occurrences(s.delivered, r) + ToAdd(s, r))
  {
    R.OccurrencesAppend(s.delivered, [x], r);
    R.OccurrencesAppend([], [x], r);
  }

  lemma {:induction false} SameDeliveries(s: State, e: Event)
    requires Enabled(s, e) && !e.TargetCompletes? && !e.CompletionCounts? && !e.CompletionAdds?
    ensures Step(s, e).completing == s.completing && Step(s, e).delivered == s.delivered && s.stranded <= Step(s, e).stranded
  {
  }

  lemma {:induction false} DeliveredBySuccess(n: nat, es: seq<Event>, r: nat)
    requires Runs(Initial(n), es) && r < n
    ensures var s := Exec(Initial(n), es);
      && R.Occurrences(s.delivered, r) + ToAdd(s, r) <= SuccessesOf(es, r)
      && (r !in s.stranded ==> R.Occurrences(s.delivered, r) + ToAdd(s, r) == SuccessesOf(es, r))
  {
    if es != [] {
      var init, last := es[..|es| - 1], es[|es| - 1];
      RunsLast(Initial(n), es);
      DeliveredBySuccess(n, init, r);
      ReachableInv(n, init);
      assert RequestInv(Exec(Initial(n), init), r);
      StepDelivers(Exec(Initial(n), init), last, r);
    }
  }

  /** A request is handled at most once for each of its successes, and exactly so once nothing of it is left waiting or was lost. */
  lemma {:induction false} HandledBySuccess(n: nat, es: seq<Event>, r: nat)
    requires Runs(Initial(n), es) && r < n
    ensures var s := Exec(Initial(n), es);
      && R.Occurrences(s.handled, r) <= SuccessesOf(es, r)
      && (s.collection == [] && !s.worker.Handling? && r !in s.completing && r !in s.stranded ==>
            R.Occurrences(s.handled, r) == SuccessesOf(es, r))
  {
    HandledInOrder(n, es);
    DeliveredBySuccess(n, es, r);
    var s := Exec(Initial(n), es);
    assert s.delivered == s.handled + s.delivered[|s.handled|..];
    R.OccurrencesAppend(s.handled, s.delivered[|s.handled|..], r);
  }

  /** What the target completed as cancelled is at its completion routine or retired, never waiting to be sent again. */
  lemma {:induction false} CancelledIsNotResent(n: nat, es: seq<Event>, r: nat)
    requires Runs(Initial(n), es) && r < |Exec(Initial(n), es).ctx| && Exec(Initial(n), es).ctx[r].cancelled
    ensures var s := Exec(Initial(n), es);
      && (r in s.retired || (r in s.completing && s.completing[r] == Entered(Cancelled)))
      && !Holds(s.worker, r) && InCollection(s.collection, r) == 0 && r !in s.atTarget
  {
    ReachableInv(n, es);
    var s := Exec(Initial(n), es);
    assert RequestInv(s, r);
  }

  /** A cancelled request is never sent again, however the run goes on. */
  lemma {:induction false} CancelledIsNeverSentAgain(s: State, es: seq<Event>, r: nat)
    requires Inv(s) && Runs(s, es) && r < |s.ctx| && s.ctx[r].cancelled
    ensures r < |Exec(s, es).ctx| && Exec(s, es).ctx[r].cancelled && Exec(s, es).ctx[r].sent == s.ctx[r].sent
    decreases |es|
  {
    if es == [] {
    } else {
      CancelledStep(s, es[0], r);
      StepKeepsInv(s, es[0]);
      CancelledIsNeverSentAgain(Step(s, es[0]), es[1..], r);
    }
  }

  lemma {:induction false} CancelledStep(s: State, e: Event, r: nat)
    requires Inv(s) && Enabled(s, e) && r < |s.ctx| && s.ctx[r].cancelled
    ensures r < |Step(s, e).ctx| && Step(s, e).ctx[r].cancelled && Step(s, e).ctx[r].sent == s.ctx[r].sent
  {
    assert RequestInv(s, r);
  }

  /** Successes are handled once each, in the order in which they were added, unless the worker broke off. */
  lemma {:induction false} HandledInOrder(n: nat, es: seq<Event>)
    requires Runs(Initial(n), es)
    ensures var s := Exec(Initial(n), es);
      && s.handled <= s.delivered
      && (s.collection == [] && !s.worker.Handling? ==> s.handled == s.delivered)
      // No lost wakeup: what waits is left waiting only by a worker that broke off.
      && (s.collection != [] && !s.broke ==> s.queued || !(s.worker.Idle? || s.worker.Leaving?))
  {
    ReachableInv(n, es);
    var s := Exec(Initial(n), es);
    assert s.handled <= s.handled + Unhandled(s.worker) + Successes(s.collection);
  }

  // ---------- stopping ----------

  /** Once Stop has returned no request is out, the work item is idle, and nothing can ever happen again. */
  lemma {:induction false} StoppedIsQuiet(n: nat, es: seq<Event>)
    requires Runs(Initial(n), es) && Exec(Initial(n), es).stop.Stopped?
    ensures var s := Exec(Initial(n), es);
      && s.atTarget == {} && s.completing == map[] && !s.queued && s.worker.Idle?
      && forall e :: !Enabled(s, e)
  {
    ReachableInv(n, es);
  }

  /** The request a step is about; the number of requests stands for none. */
  function Subject(s: State, e: Event): nat
    requires Enabled(s, e)
  {
    match e
    case StartSend(r, _) => r
    case TargetCompletes(r, _) => r
    case CompletionCounts(r) => r
    case CompletionAdds(r, _) => r
    case WorkerTake => if s.collection == [] then |s.ctx| else s.collection[0].req
    case WorkerHandle => s.worker.item.req
    case WorkerReuse(_) => s.worker.item.req
    case WorkerSend(_) => s.worker.item.req
    case _ => |s.ctx|
  }

  lemma {:induction false} AddTouchesOne(s: State, r: nat, ok: bool, x: nat)
    requires Enabled(s, CompletionAdds(r, ok)) && x < |s.ctx| && x != r
    ensures SameRequest(s, Added(s, r, ok), x)
  {
    InCollectionAppend(s.collection, Item(r, s.completing[r].status), x);
  }

  lemma {:induction false} StepTouchesOne(s: State, e: Event, x: nat)
    requires Enabled(s, e) && x < |s.ctx| && x != Subject(s, e)
    ensures SameRequest(s, Step(s, e), x)
  {
    match e
    case StartSend(r, ok) => StartTouchesOne(s, r, ok, x);
    case TargetCompletes(r, st) => CompleteTouchesOne(s, r, st, x);
    case CompletionCounts(r) => CountTouchesOne(s, r, x);
    case CompletionAdds(r, ok) => AddTouchesOne(s, r, ok, x);
    case WorkerTake =>
      if s.collection != [] {
        TakeTouchesOne(s, x);
      }
    case WorkerHandle => HandleTouchesOne(s, x);
    case WorkerReuse(ok) => ReuseTouchesOne(s, ok, x);
    case WorkerSend(ok) => SendTouchesOne(s, ok, x);
    case _ =>
  }

  lemma {:induction false} StartTouchesOne(s: State, r: nat, ok: bool, x: nat)
    requires r < |s.ctx| && x < |s.ctx| && x != r
    ensures SameRequest(s, Started(s, r, ok), x)
  {
  }

  lemma {:induction false} CompleteTouchesOne(s: State, r: nat, st: Status, x: nat)
    requires r < |s.ctx| && x < |s.ctx| && x != r
    ensures SameRequest(s, Completed(s, r, st), x)
  {
  }

  lemma {:induction false} HandleTouchesOne(s: State, x: nat)
    requires s.worker.Handling? && x < |s.ctx| && x != s.worker.item.req
    ensures SameRequest(s, Handled(s), x)
  {
  }

  lemma {:induction false} ReuseTouchesOne(s: State, ok: bool, x: nat)
    requires s.worker.Reusing? && x < |s.ctx| && x != s.worker.item.req
    ensures SameRequest(s, Reused(s, ok), x)
  {
  }

  lemma {:induction false} SendTouchesOne(s: State, ok: bool, x: nat)
    requires s.worker.Sending? && s.worker.item.req < |s.ctx| && x < |s.ctx| && x != s.worker.item.req
    ensures SameRequest(s, Resent(s, ok), x)
  {
  }

  // ---------- every run comes to an end ----------

  function LoopWeight(w: Worker): nat {
    match w
    case Looping => 2
    case Leaving => 1
    case _ => 0
  }

  function StopWeight(p: Stop): nat {
    match p
    case NotStopping => 3
    case Purging => 2
    case Flushing => 1
    case Stopped => 0
  }

  function Sum(f: nat -> nat, n: nat): nat {
    if n == 0 then 0 else Sum(f, n - 1) + f(n - 1)
  }

  lemma {:induction false} SumChange(f: nat -> nat, g: nat -> nat, n: nat, k: nat)
    requires forall x: nat :: x < n && x != k ==> f(x) == g(x)
    ensures Sum(f, n) - Sum(g, n) == if k < n then f(k) - g(k) else 0
  {
    if n != 0 {
      SumChange(f, g, n - 1, k);
    }
  }

  /** What the worker, its queue entry and Stop can still do on their own. */
  function Rest(s: State): nat {
    LoopWeight(s.worker) + (if s.queued then 3 else 0) + StopWeight(s.stop)
  }

  /** How far a request can still go when nothing is re-sent. */
  function Distance(s: State, r: nat): nat {
    if r in s.atTarget then 11
    else if r in s.completing then (if s.completing[r].Entered? then 10 else 9)
    else if InCollection(s.collection, r) > 0 then 4
    else if Holds(s.worker, r) then (if s.worker.Handling? then 5 else if s.worker.Reusing? then 4 else 3)
    else 0
  }

  function StopMeasure(s: State): nat {
    Sum(r => Distance(s, r), |s.ctx|) + Rest(s)
  }

  /** While the device is stopping, each step brings its request, or the rest, closer to the end. */
  lemma {:induction false} StopStepCloser(s: State, e: Event)
    requires Inv(s) && !s.stop.NotStopping? && Enabled(s, e)
    ensures var t := Step(s, e); var r := Subject(s, e);
      && !t.stop.NotStopping?
      && (if r < |s.ctx| then Distance(t, r) + Rest(t) < Distance(s, r) + Rest(s) else Rest(t) < Rest(s))
  {
    var r := Subject(s, e);
    if r < |s.ctx| {
      assert RequestInv(s, r);
      InCollectionIff(s.collection, r);
    }
    if e.CompletionAdds? && e.ok {
      InCollectionAppend(s.collection, Item(r, s.completing[r].status), r);
    }
  }

  lemma {:induction false} StopStepDecreases(s: State, e: Event)
    requires Inv(s) && !s.stop.NotStopping? && Enabled(s, e)
    ensures !Step(s, e).stop.NotStopping? && StopMeasure(Step(s, e)) < StopMeasure(s)
  {
    var t := Step(s, e);
    forall x: nat | x < |s.ctx| && x != Subject(s, e) ensures Distance(t, x) == Distance(s, x) {
      StepTouchesOne(s, e, x);
    }
    SumChange(r => Distance(t, r), r => Distance(s, r), |s.ctx|, Subject(s, e));
    StopStepCloser(s, e);
  }

  /** Only a stopped device is stuck once Stop was called. */
  lemma {:induction false} StopProgress(s: State)
    requires Inv(s) && !s.stop.NotStopping?
    ensures s.stop.Stopped? <==> forall e :: !Enabled(s, e)
  {
    match s.stop
    case Stopped =>
    case Flushing =>
      assert s.worker.Idle? ==> Enabled(s, if s.queued then WorkerBegin else FlushDone);
      assert !s.worker.Idle? ==>
        Enabled(s, WorkerTake) || Enabled(s, WorkerHandle) || Enabled(s, WorkerReuse(true))
        || Enabled(s, WorkerSend(false)) || Enabled(s, WorkerReturn);
    case Purging =>
      if r :| r in s.atTarget {
        assert Enabled(s, TargetCompletes(r, Cancelled));
      } else if s.completing != map[] {
        var r :| r in s.completing;
        assert Enabled(s, CompletionCounts(r)) || Enabled(s, CompletionAdds(r, true));
      } else {
        assert Enabled(s, PurgeDone);
      }
  }

  /** Stop returns: no interleaving takes more steps than the measure, and none ends before Stop has returned. */
  lemma {:induction false} StopTerminates(s: State, es: seq<Event>)
    requires Inv(s) && !s.stop.NotStopping? && Runs(s, es)
    ensures |es| <= StopMeasure(s)
    ensures Exec(s, es).stop.Stopped? <==> forall e :: !Enabled(Exec(s, es), e)
    decreases |es|
  {
    if es == [] {
      StopProgress(s);
    } else {
      StopStepDecreases(s, es[0]);
      StepKeepsInv(s, es[0]);
      StopTerminates(Step(s, es[0]), es[1..]);
    }
  }

  /** The resends a request has left, as if a success at its completion routine were already counted. */
  function Left(s: State, r: nat): nat
    requires r < |s.ctx|
  {
    if r in s.completing && s.completing[r] == Entered(Succeeded) then MAX_ERRORS + 1
    else if s.ctx[r].errors <= MAX_ERRORS then MAX_ERRORS + 1 - s.ctx[r].errors else 0
  }

  function Place(s: State, r: nat): nat {
    if r in s.idle then 2
    else if r in s.atTarget then 1
    else if r in s.completing then
      (match s.completing[r] case Entered(Succeeded) => 10 case Entered(_) => 0 case Counted(_) => 9)
    else if InCollection(s.collection, r) > 0 then 5
    else if s.worker.Handling? then 6
    else if s.worker.Reusing? then 5
    else 4
  }

  /** How far a request can still go when the target never succeeds: ten steps for each resend left. */
  function Patience(s: State, r: nat): nat {
    if r >= |s.ctx| || r in s.retired || r in s.stranded then 0 else 10 * Left(s, r) + Place(s, r)
  }

  function FailingMeasure(s: State): nat {
    Sum(r => Patience(s, r), |s.ctx|) + Rest(s)
  }

  predicate Succeeds(e: Event) { e.TargetCompletes? && e.status.Succeeded? }

  /** The step brings its request, or the rest, closer to the end. */
  ghost predicate Closer(s: State, e: Event)
    requires Enabled(s, e)
  {
    var t := Step(s, e);
    var r := Subject(s, e);
    if r < |s.ctx| then Patience(t, r) + Rest(t) < Patience(s, r) + Rest(s) else Rest(t) < Rest(s)
  }

  lemma {:induction false} FailingRequestCloser(s: State, e: Event)
    requires Inv(s) && Enabled(s, e) && !Succeeds(e)
    requires e.StartSend? || e.TargetCompletes? || e.CompletionCounts? || e.CompletionAdds?
    ensures Closer(s, e)
  {
    var r := Subject(s, e);
    assert RequestInv(s, r);
    InCollectionIff(s.collection, r);
    if e.CompletionAdds? && e.ok {
      InCollectionAppend(s.collection, Item(r, s.completing[r].status), r);
    }
  }

  lemma {:induction false} FailingWorkerCloser(s: State, e: Event)
    requires Inv(s) && Enabled(s, e)
    requires e.WorkerTake? || e.WorkerHandle? || e.WorkerReuse? || e.WorkerSend?
    ensures Closer(s, e)
  {
    var r := Subject(s, e);
    if r < |s.ctx| {
      assert RequestInv(s, r);
      InCollectionIff(s.collection, r);
    }
  }

  lemma {:induction false} FailingStepCloser(s: State, e: Event)
    requires Inv(s) && Enabled(s, e) && !Succeeds(e)
    ensures Closer(s, e)
  {
    match e
    case StartSend(_, _) | TargetCompletes(_, _) | CompletionCounts(_) | CompletionAdds(_, _) => FailingRequestCloser(s, e);
    case WorkerTake | WorkerHandle | WorkerReuse(_) | WorkerSend(_) => FailingWorkerCloser(s, e);
    case _ =>
  }

  lemma {:induction false} SamePatience(s: State, e: Event, x: nat)
    requires Inv(s) && Enabled(s, e) && x < |s.ctx| && x != Subject(s, e)
    ensures Patience(Step(s, e), x) == Patience(s, x)
  {
    StepTouchesOne(s, e, x);
    assert RequestInv(s, x);
  }

  lemma {:induction false} FailingStepDecreases(s: State, e: Event)
    requires Inv(s) && Enabled(s, e) && !Succeeds(e)
    ensures FailingMeasure(Step(s, e)) < FailingMeasure(s)
  {
    var t := Step(s, e);
    forall x: nat | x < |s.ctx| && x != Subject(s, e) ensures Patience(t, x) == Patience(s, x) {
      SamePatience(s, e, x);
    }
    SumChange(r => Patience(t, r), r => Patience(s, r), |s.ctx|, Subject(s, e));
    FailingStepCloser(s, e);
  }

  /** A target that only fails cannot keep the pump running: every run without a success is bounded. */
  lemma {:induction false} FailingTargetIsBounded(s: State, es: seq<Event>)
    requires Inv(s) && Runs(s, es) && forall e :: e in es ==> !Succeeds(e)
    ensures |es| <= FailingMeasure(s)
    decreases |es|
  {
    if es == [] {
    } else {
      assert es[0] in es;
      FailingStepDecreases(s, es[0]);
      StepKeepsInv(s, es[0]);
      FailingTargetIsBounded(Step(s, es[0]), es[1..]);
    }
  }
}
