/**
  The notification pump in the form of the code: one object whose callbacks update the collection, the error
  counts and the work item. Each callback, run without interference, is a run of the machine in
  NotificationPump, and its contract says where the requests are afterwards.
*/
module HandsFreePump {
  import opened NotificationPump

  /** One more step of a run, from a state that satisfies the invariant. */
  lemma {:induction false} GoOn(s: State, t: State, e: Event)
    requires Reached(s, t) && Inv(t) && Enabled(t, e)
    ensures Reached(s, Step(t, e)) && Inv(Step(t, e))
  {
    Go(s, t, e);
    StepKeepsInv(t, e);
  }

  // ---------- what the callbacks leave ----------

  /** A completion: the request is retired, lost to a failed insertion, or at the end of the collection with the work item queued. */
  function AfterCompletion(s: State, r: nat, st: Status, addOk: bool): State
    requires r < |s.ctx|
  {
    var c := s.ctx[r];
    var t := s.(atTarget := s.atTarget - {r});
    match st
    case Cancelled => t.(ctx := s.ctx[r := c.(cancelled := true)], retired := s.retired + {r})
    case Failed =>
      var u := t.(ctx := s.ctx[r := c.(errors := c.errors + 1)]);
      if c.errors + 1 > MAX_ERRORS then u.(retired := s.retired + {r})
      else if addOk then u.(collection := s.collection + [Item(r, Failed)], queued := true)
      else u.(stranded := s.stranded + {r})
    case Succeeded =>
      var u := t.(ctx := s.ctx[r := c.(errors := 0, resends := 0)]);
      if addOk then
        u.(collection := s.collection + [Item(r, Succeeded)], queued := true, delivered := s.delivered + [r])
      else u.(stranded := s.stranded + {r})
  }

  /** A completion up to the point where the completion routine takes the spin lock, if it gets there. */
  function Counting(s: State, r: nat, st: Status): State
    requires r < |s.ctx|
  {
    var c := s.ctx[r];
    var t := s.(atTarget := s.atTarget - {r});
    match st
    case Cancelled => t.(ctx := s.ctx[r := c.(cancelled := true)], retired := s.retired + {r})
    case Failed =>
      var u := t.(ctx := s.ctx[r := c.(errors := c.errors + 1)]);
      if c.errors + 1 > MAX_ERRORS then u.(retired := s.retired + {r})
      else u.(completing := s.completing[r := Counted(Failed)])
    case Succeeded =>
      t.(ctx := s.ctx[r := c.(errors := 0, resends := 0)], completing := s.completing[r := Counted(Succeeded)])
  }

  lemma {:induction false} CountingIsARun(s: State, r: nat, st: Status)
    requires Inv(s) && r in s.atTarget && r < |s.ctx| && r !in s.completing
    ensures Reached(s, Counting(s, r, st)) && Inv(Counting(s, r, st))
  {
    ReachedSelf(s);
    GoOn(s, s, TargetCompletes(r, st));
    GoOn(s, Completed(s, r, st), CompletionCounts(r));
    SameCounting(s, r, st);
  }

  lemma {:induction false} SameCounting(s: State, r: nat, st: Status)
    requires r < |s.ctx| && r !in s.completing
    ensures BudgetChecked(Completed(s, r, st), r) == Counting(s, r, st)
  {
    var t := Completed(s, r, st);
    assert t.completing - {r} == s.completing;
    assert forall c :: t.completing[r := Counted(c)] == s.completing[r := Counted(c)];
    assert !st.Cancelled? ==> t.ctx == s.ctx;
  }

  lemma {:induction false} CompletionIs(s: State, r: nat, st: Status, addOk: bool)
    requires r < |s.ctx| && r !in s.completing
    ensures var u := Counting(s, r, st);
      AfterCompletion(s, r, st, addOk) == if r in u.completing then Added(u, r, addOk) else u
  {
    var u := Counting(s, r, st);
    assert r in u.completing ==> u.completing - {r} == s.completing;
  }

  lemma {:induction false} CompletionIsARun(s: State, r: nat, st: Status, addOk: bool)
    requires Inv(s) && r in s.atTarget && r < |s.ctx| && r !in s.completing
    ensures Reached(s, AfterCompletion(s, r, st, addOk)) && Inv(AfterCompletion(s, r, st, addOk))
  {
    CountingIsARun(s, r, st);
    var u := Counting(s, r, st);
    if r in u.completing {
      GoOn(s, u, CompletionAdds(r, addOk));
    }
    CompletionIs(s, r, st, addOk);
  }

  /** One round of the worker's loop: the first request of the collection is handled and sent again, or the worker leaves. */
  function AfterRound(s: State, reuseOk: bool, sendOk: bool): State
    requires s.collection != []
  {
    var i := s.collection[0];
    var t := s.(collection := s.collection[1..], handled := if i.status.Succeeded? then s.handled + [i.req] else s.handled);
    if reuseOk && sendOk && i.req < |s.ctx| then
      var c := s.ctx[i.req];
      t.(atTarget := s.atTarget + {i.req},
         ctx := s.ctx[i.req := c.(sent := c.sent + 1, resends := c.resends + if i.status.Succeeded? then 0 else 1)])
    else t.(worker := Leaving, broke := true, stranded := s.stranded + {i.req})
  }

  function Halfway(s: State): State
    requires s.collection != []
  {
    var i := s.collection[0];
    s.(collection := s.collection[1..], handled := if i.status.Succeeded? then s.handled + [i.req] else s.handled,
       worker := Reusing(i))
  }

  lemma {:induction false} HalfwayIsARun(s: State, t: State)
    requires Reached(s, t) && Inv(t) && t.worker.Looping? && t.collection != []
    ensures Reached(s, Halfway(t)) && Inv(Halfway(t))
  {
    GoOn(s, t, WorkerTake);
    GoOn(s, Taken(t), WorkerHandle);
  }

  lemma {:induction false} ReuseIsARun(s: State, v: State, reuseOk: bool)
    requires Reached(s, v) && Inv(v) && v.worker.Reusing?
    ensures Reached(s, Reused(v, reuseOk)) && Inv(Reused(v, reuseOk))
  {
    GoOn(s, v, WorkerReuse(reuseOk));
  }

  lemma {:induction false} SendIsARun(s: State, v: State, sendOk: bool)
    requires Reached(s, v) && Inv(v) && v.worker.Sending? && (sendOk ==> v.stop.NotStopping?)
    ensures v.worker.item.req < |v.ctx| && Reached(s, Resent(v, sendOk)) && Inv(Resent(v, sendOk))
  {
    GoOn(s, v, WorkerSend(sendOk));
  }

  lemma {:induction false} FirstIsNamed(s: State)
    requires InvNames(s) && s.collection != []
    ensures s.collection[0].req < |s.ctx|
  {
    assert s.collection[0] in s.collection;
  }

  lemma {:induction false} RoundIsARun(s: State, t: State, reuseOk: bool, sendOk: bool)
    requires Reached(s, t) && Inv(t) && t.worker.Looping? && t.collection != []
    requires sendOk ==> t.stop.NotStopping?
    ensures t.collection[0].req < |t.ctx|
    ensures Reached(s, AfterRound(t, reuseOk, sendOk)) && Inv(AfterRound(t, reuseOk, sendOk))
  {
    FirstIsNamed(t);
    HalfwayIsARun(s, t);
    ReuseIsARun(s, Halfway(t), reuseOk);
    if reuseOk {
      SendIsARun(s, Reused(Halfway(t), true), sendOk);
    }
    RoundIs(t, reuseOk, sendOk);
  }

  lemma {:induction false} RoundIs(t: State, reuseOk: bool, sendOk: bool)
    requires t.worker.Looping? && t.collection != [] && t.collection[0].req < |t.ctx|
    ensures AfterRound(t, reuseOk, sendOk) ==
            if reuseOk then Resent(Reused(Halfway(t), true), sendOk) else Reused(Halfway(t), false)
  {
  }

  /** Whether the k-th request that the worker takes is sent again. */
  predicate SentAgain(s: State, k: nat, reuse: nat -> bool, send: nat -> bool) {
    reuse(k) && send(k) && s.stop.NotStopping?
  }

  /** The worker's loop from its k-th round to its end, and its return. */
  function AfterLoop(s: State, k: nat, reuse: nat -> bool, send: nat -> bool): State
    decreases |s.collection|
  {
    if s.collection == [] then s.(worker := Idle)
    else
      var t := AfterRound(s, reuse(k), send(k) && s.stop.NotStopping?);
      if t.worker.Looping? then AfterLoop(t, k + 1, reuse, send) else t.(worker := Idle)
  }

  lemma {:induction false} LoopIsARun(s: State, t: State, k: nat, reuse: nat -> bool, send: nat -> bool)
    requires Reached(s, t) && Inv(t) && t.worker.Looping?
    ensures Reached(s, AfterLoop(t, k, reuse, send)) && Inv(AfterLoop(t, k, reuse, send))
    decreases |t.collection|
  {
    if t.collection == [] {
      GoOn(s, t, WorkerTake);
      GoOn(s, Taken(t), WorkerReturn);
    } else {
      var sendOk := send(k) && t.stop.NotStopping?;
      RoundIsARun(s, t, reuse(k), sendOk);
      var u := AfterRound(t, reuse(k), sendOk);
      if u.worker.Looping? {
        LoopIsARun(s, u, k + 1, reuse, send);
      } else {
        GoOn(s, u, WorkerReturn);
      }
    }
  }

  /** The requests of a stretch of the collection. */
  function Requests(c: seq<Item>): set<nat> {
    if c == [] then {} else {c[0].req} + Requests(c[1..])
  }

  lemma {:induction false} RoundKeepsNames(s: State, reuseOk: bool, sendOk: bool)
    requires InvNames(s) && s.worker.Looping? && s.collection != []
    ensures InvNames(AfterRound(s, reuseOk, sendOk))
  {
    assert s.collection == [s.collection[0]] + s.collection[1..];
  }

  lemma {:induction false} RoundHandles(s: State, reuseOk: bool, sendOk: bool)
    requires s.collection != []
    ensures var t := AfterRound(s, reuseOk, sendOk);
      t.handled + Successes(t.collection) == s.handled + Successes(s.collection)
  {
    var first := s.collection[0];
    var one, rest := if first.status.Succeeded? then [first.req] else [], Successes(s.collection[1..]);
    assert s.handled + (one + rest) == s.handled + one + rest;
  }

  lemma {:induction false} RoundMoves(s: State, reuseOk: bool, sendOk: bool)
    requires s.worker.Looping? && s.collection != [] && s.collection[0].req < |s.ctx|
    ensures var t := AfterRound(s, reuseOk, sendOk);
      && t.collection == s.collection[1..] && t.stop == s.stop
      && (t.worker.Looping? <==> reuseOk && sendOk) && (!t.worker.Looping? ==> t.broke)
      && (t.worker.Looping? ==> t.broke == s.broke && t.atTarget == s.atTarget + {s.collection[0].req})
  {
  }

  /** The worker breaks off exactly if one of the waiting requests cannot be sent again. */
  lemma {:induction false} LoopBreaksIff(s: State, k: nat, reuse: nat -> bool, send: nat -> bool)
    requires InvNames(s) && s.worker.Looping? && !s.broke
    ensures AfterLoop(s, k, reuse, send).broke <==> exists j :: k <= j < k + |s.collection| && !SentAgain(s, j, reuse, send)
    decreases |s.collection|
  {
    if s.collection != [] {
      var sendOk := send(k) && s.stop.NotStopping?;
      var t := AfterRound(s, reuse(k), sendOk);
      FirstIsNamed(s);
      RoundMoves(s, reuse(k), sendOk);
      RoundKeepsNames(s, reuse(k), sendOk);
      if t.worker.Looping? {
        LoopBreaksIff(t, k + 1, reuse, send);
        OneRoundFewer(s, t, k, reuse, send);
      } else {
        assert !SentAgain(s, k, reuse, send);
      }
    }
  }

  lemma {:induction false} OneRoundFewer(s: State, t: State, k: nat, reuse: nat -> bool, send: nat -> bool)
    requires s.collection != [] && t.collection == s.collection[1..] && t.stop == s.stop && SentAgain(s, k, reuse, send)
    ensures (exists j :: k <= j < k + |s.collection| && !SentAgain(s, j, reuse, send)) <==>
            (exists j :: k + 1 <= j < k + 1 + |t.collection| && !SentAgain(t, j, reuse, send))
  {
    assert forall j :: SentAgain(t, j, reuse, send) == SentAgain(s, j, reuse, send);
  }

  /** A worker that does not break off leaves no request waiting: all are back at the target. */
  lemma {:induction false} LoopSendsAll(s: State, k: nat, reuse: nat -> bool, send: nat -> bool)
    requires InvNames(s) && s.worker.Looping? && !AfterLoop(s, k, reuse, send).broke
    ensures AfterLoop(s, k, reuse, send).collection == []
    ensures AfterLoop(s, k, reuse, send).atTarget == s.atTarget + Requests(s.collection)
    decreases |s.collection|
  {
    if s.collection != [] {
      var sendOk := send(k) && s.stop.NotStopping?;
      FirstIsNamed(s);
      RoundMoves(s, reuse(k), sendOk);
      RoundKeepsNames(s, reuse(k), sendOk);
      LoopSendsAll(AfterRound(s, reuse(k), sendOk), k + 1, reuse, send);
    }
  }

  /** Whether it breaks off or not, the successes it handled are the first of those waiting, in order. */
  lemma {:induction false} LoopHandlesInOrder(s: State, k: nat, reuse: nat -> bool, send: nat -> bool)
    ensures var t := AfterLoop(s, k, reuse, send);
      t.handled + Successes(t.collection) == s.handled + Successes(s.collection)
    decreases |s.collection|
  {
    if s.collection != [] {
      var sendOk := send(k) && s.stop.NotStopping?;
      RoundHandles(s, reuse(k), sendOk);
      var t := AfterRound(s, reuse(k), sendOk);
      if t.worker.Looping? {
        LoopHandlesInOrder(t, k + 1, reuse, send);
      }
    }
  }

  class BthHfpNotifications {
    var ctx: seq<Context>
    var collection: seq<Item>
    var queued: bool
    var worker: Worker
    var broke: bool
    var stop: Stop
    ghost var idle: set<nat>
    ghost var atTarget: set<nat>
    ghost var retired: set<nat>
    ghost var stranded: set<nat>
    ghost var delivered: seq<nat>
    ghost var handled: seq<nat>

    ghost function Now(): State
      reads this
    {
      State(ctx, idle, atTarget, map[], collection, worker, queued, retired, stranded, stop, delivered, handled, broke)
    }

    constructor (n: nat)
      ensures Now() == Initial(n) && Inv(Now())
    {
      ctx := seq(n, _ => Context(0, 0, 0, false));
      collection, queued, worker, broke, stop := [], false, Idle, false, NotStopping;
      idle, atTarget, retired, stranded := Below(n), {}, {}, {};
      delivered, handled := [], [];
      InitialInv(n);
    }

    /** Sends a request for the first time. */
    method SendFirst(r: nat, ok: bool)
      requires Inv(Now()) && r in idle && r < |ctx| && stop.NotStopping?
      modifies this`ctx, this`idle, this`atTarget, this`stranded
      ensures Now() == Started(old(Now()), r, ok) && Reached(old(Now()), Now()) && Inv(Now())
    {
      ReachedSelf(Now());
      GoOn(Now(), Now(), StartSend(r, ok));
      idle := idle - {r};
      if ok {
        ctx := ctx[r := ctx[r].(sent := ctx[r].sent + 1)];
        atTarget := atTarget + {r};
      } else {
        stranded := stranded + {r};
      }
    }

    method EvtBthHfpDeviceNotificationStatusCompletion(r: nat, status: Status, addOk: bool)
      requires Inv(Now()) && r in atTarget && r < |ctx|
      modifies this`ctx, this`collection, this`queued, this`atTarget, this`retired, this`stranded, this`delivered
      ensures Now() == AfterCompletion(old(Now()), r, status, addOk) && Reached(old(Now()), Now()) && Inv(Now())
      ensures |ctx| == |old(ctx)|
      ensures ctx[r].errors ==
              if status == Succeeded then 0 else if status == Failed then old(ctx)[r].errors + 1 else old(ctx)[r].errors
      ensures retired ==
              if status == Cancelled || (status == Failed && old(ctx)[r].errors >= 5) then old(retired) + {r} else old(retired)
    {
      CompletionIsARun(Now(), r, status, addOk);
      Complete(r, status, addOk);
    }

    method Complete(r: nat, status: Status, addOk: bool)
      requires r < |ctx|
      modifies this`ctx, this`collection, this`queued, this`atTarget, this`retired, this`stranded, this`delivered
      ensures Now() == AfterCompletion(old(Now()), r, status, addOk)
    {
      atTarget := atTarget - {r};
      if status.Cancelled? {
        ctx := ctx[r := ctx[r].(cancelled := true)];
        retired := retired + {r};
        return;
      }
      if status.Failed? {
        ctx := ctx[r := ctx[r].(errors := ctx[r].errors + 1)];
        if ctx[r].errors > MAX_ERRORS {
          retired := retired + {r};
          return;
        }
      } else {
        ctx := ctx[r := ctx[r].(errors := 0, resends := 0)];
      }
      AddRequest(r, status, addOk);
    }

    /** The spin-lock section. */
    method AddRequest(r: nat, status: Status, addOk: bool)
      modifies this`collection, this`queued, this`stranded, this`delivered
      ensures collection == (if addOk then old(collection) + [Item(r, status)] else old(collection))
      ensures queued == (addOk || old(queued)) && stranded == if addOk then old(stranded) else old(stranded) + {r}
      ensures delivered == if addOk && status.Succeeded? then old(delivered) + [r] else old(delivered)
    {
      if addOk {
        collection := collection + [Item(r, status)];
        queued := true;
        delivered := if status.Succeeded? then delivered + [r] else delivered;
      } else {
        stranded := stranded + {r};
      }
    }

    /** One round of the loop. */
    method HandleFirst(reuseOk: bool, sendOk: bool)
      requires collection != [] && collection[0].req < |ctx|
      modifies this`ctx, this`collection, this`worker, this`broke, this`atTarget, this`stranded, this`handled
      ensures Now() == AfterRound(old(Now()), reuseOk, sendOk)
    {
      var i := collection[0];
      collection := collection[1..];
      if i.status.Succeeded? {
        handled := handled + [i.req];
      }
      if reuseOk && sendOk {
        Resend(i);
      } else {
        worker, broke := Leaving, true;
        stranded := stranded + {i.req};
      }
    }

    method Resend(i: Item)
      requires i.req < |ctx|
      modifies this`ctx, this`atTarget
      ensures atTarget == old(atTarget) + {i.req}
      ensures var c := old(ctx)[i.req];
        ctx == old(ctx)[i.req := c.(sent := c.sent + 1, resends := c.resends + if i.status.Succeeded? then 0 else 1)]
    {
      var c := ctx[i.req];
      ctx := ctx[i.req := c.(sent := c.sent + 1, resends := c.resends + if i.status.Succeeded? then 0 else 1)];
      atTarget := atTarget + {i.req};
    }

    /**
      Takes requests until the collection is empty or one of them cannot be sent again. The k-th request is
      reused and sent as `reuse` and `send` say.
    */
    method EvtBthHfpDeviceNotificationStatusWorkItem(reuse: nat -> bool, send: nat -> bool)
      requires Inv(Now()) && queued && worker.Idle?
      modifies this`ctx, this`collection, this`queued, this`worker, this`broke, this`atTarget, this`stranded, this`handled
      ensures Now() == AfterLoop(old(Now()).(queued := false, worker := Looping, broke := false), 0, reuse, send)
      ensures Reached(old(Now()), Now()) && Inv(Now())
    {
      ghost var s := Now();
      ReachedSelf(s);
      GoOn(s, s, WorkerBegin);
      queued, worker, broke := false, Looping, false;
      ghost var end := AfterLoop(Now(), 0, reuse, send);
      LoopIsARun(s, Now(), 0, reuse, send);
      var k := 0;
      while worker.Looping? && collection != []
        invariant worker.Looping? ==> InvNames(Now()) && AfterLoop(Now(), k, reuse, send) == end
        invariant !worker.Looping? ==> Now().(worker := Idle) == end
        decreases |collection|
      {
        FirstIsNamed(Now());
        RoundKeepsNames(Now(), reuse(k), send(k) && stop.NotStopping?);
        HandleFirst(reuse(k), send(k) && stop.NotStopping?);
        k := k + 1;
      }
      worker := Idle;
    }
  }
}
