/**
  Starting and suspending the stream in the form of the code: one object whose methods update the start count,
  the event and the stream-status request. Each method, run without interference, is a run of the machine in
  StreamHandshake. Waiting for the event lets the target complete the cancelled request.
*/
module HandsFreeStream {

  import opened StreamHandshake

  // ---------- what each method leaves ----------

  function AfterStart(s: State, opensOk: bool, sendsOk: bool): State {
    if s.nStreams != 0 then s.(nStreams := s.nStreams + 1, granted := s.granted + 1)
    else if !opensOk then s.(streamStatus := false)
    else if sendsOk then
      s.(nStreams := 1, opens := s.opens + 1, streamStatus := true, event := false, request := AtTarget, granted := s.granted + 1)
    else s.(opens := s.opens + 1, closes := s.closes + 1, streamStatus := false, event := true, request := Unsent)
  }

  lemma {:induction false} StartIsARun(s: State, opensOk: bool, sendsOk: bool)
    requires s.call.NoCall?
    ensures Reached(s, AfterStart(s, opensOk, sendsOk))
  {
    ReachedSelf(s);
    Go(s, s, BeginStart);
    if s.nStreams == 0 {
      var t := s.(nStreams := 1, call := StartOpen);
      Go(s, t, Open(opensOk));
      if opensOk {
        var u := t.(opens := s.opens + 1, call := StartStatus);
        Go(s, u, Next);
        Go(s, u.(streamStatus := true, call := StartClear), Next);
        var v := u.(streamStatus := true, event := false, call := StartSend);
        Go(s, v, Send(sendsOk));
        if !sendsOk {
          UndoIsARun(s, v.(request := Unsent, call := StartSignal));
        }
      } else {
        Go(s, t.(call := StartUndo(false)), Next);
        Go(s, t.(nStreams := 0, call := StartMark), Next);
      }
    }
  }

  /** From the failed send to the end of the call. */
  lemma {:induction false} UndoIsARun(s: State, t: State)
    requires Reached(s, t) && t.call.StartSignal?
    ensures Reached(s, t.(event := true, nStreams := t.nStreams - 1, closes := t.closes + 1, streamStatus := false, call := NoCall))
  {
    Go(s, t, Next);
    var u := t.(event := true, call := StartUndo(true));
    Go(s, u, Next);
    Go(s, u.(nStreams := t.nStreams - 1, call := StartClose), Next);
    Go(s, u.(nStreams := t.nStreams - 1, closes := t.closes + 1, call := StartMark), Next);
  }

  function AfterCompletion(s: State, ok: bool): State {
    s.(streamStatus := ok, event := true, request := Done)
  }

  lemma {:induction false} CompletionIsARun(s: State, t: State, ok: bool)
    requires Reached(s, t) && t.request.AtTarget?
    ensures Reached(s, AfterCompletion(t, ok))
  {
    Go(s, t, TargetCompletes(ok));
    Go(s, t.(request := Completing(ok)), CompletionPublishes);
    Go(s, t.(streamStatus := ok, request := Signalling), CompletionSignals);
  }

  function AfterSuspend(s: State, reuseOk: bool): State {
    if s.nStreams != 1 then s.(nStreams := s.nStreams - 1, granted := s.granted - 1)
    else
      var t := s.(nStreams := 0, granted := s.granted - 1, closes := s.closes + 1, streamStatus := false);
      if reuseOk then t.(event := true, request := Ready)
      else t.(event := true, request := Done, reuseFailed := true)
  }

  /** From wherever a request that is out stands to the end of its completion routine. */
  lemma {:induction false} CompletionEnds(s: State, t: State, ok: bool)
    requires Reached(s, t) && InFlight(t.request)
    ensures exists status :: Reached(s, t.(streamStatus := status, event := true, request := Done))
  {
    if t.request.AtTarget? {
      CompletionIsARun(s, t, ok);
      assert AfterCompletion(t, ok) == t.(streamStatus := ok, event := true, request := Done);
    } else if t.request.Completing? {
      var u := t.(streamStatus := t.request.ok, request := Signalling);
      Go(s, t, CompletionPublishes);
      Go(s, u, CompletionSignals);
      assert Step(u, CompletionSignals) == t.(streamStatus := u.streamStatus, event := true, request := Done);
    } else {
      Go(s, t, CompletionSignals);
      assert Step(t, CompletionSignals) == t.(streamStatus := t.streamStatus, event := true, request := Done);
    }
  }

  /** `ok` is how a request that is still at the target completes when it is cancelled. */
  lemma {:induction false} SuspendIsARun(s: State, ok: bool, reuseOk: bool)
    requires Inv(s) && s.call.NoCall? && s.nStreams > 0
    ensures Reached(s, AfterSuspend(s, reuseOk))
  {
    ReachedSelf(s);
    Go(s, s, BeginSuspend);
    if s.nStreams == 1 {
      var t := s.(nStreams := 0, granted := s.granted - 1, call := SuspendClose);
      Go(s, t, Next);
      Go(s, t.(closes := s.closes + 1, call := SuspendCancel), Next);
      var u := t.(closes := s.closes + 1, call := SuspendWait);
      if InFlight(s.request) {
        CompletionEnds(s, u, ok);
        var status :| Reached(s, u.(streamStatus := status, event := true, request := Done));
        u := u.(streamStatus := status, event := true, request := Done);
      }
      WaitIsOver(s, u, reuseOk);
    }
  }

  /** From the end of the wait to the end of the call. */
  lemma {:induction false} WaitIsOver(s: State, t: State, reuseOk: bool)
    requires Reached(s, t) && t.call.SuspendWait? && t.event && t.request.Done?
    ensures Reached(s, t.(call := NoCall, streamStatus := false, request := if reuseOk then Ready else Done,
                          reuseFailed := t.reuseFailed || !reuseOk))
  {
    Go(s, t, Next);
    Go(s, t.(call := SuspendReuse), Reuse(reuseOk));
    Go(s, t.(call := SuspendMark, request := if reuseOk then Ready else Done, reuseFailed := t.reuseFailed || !reuseOk), Next);
  }

  class BthHfpStream {
    var nStreams: int
    var event: bool
    var request: Request
    var streamStatus: bool
    ghost var opens: nat
    ghost var closes: nat
    ghost var granted: int
    ghost var reuseFailed: bool

    ghost function Now(): State
      reads this
    {
      State(nStreams, event, request, streamStatus, NoCall, opens, closes, granted, reuseFailed)
    }

    constructor ()
      ensures Fresh(Now()) && Inv(Now())
    {
      nStreams, event, request, streamStatus := 0, true, Ready, false;
      opens, closes, granted, reuseFailed := 0, 0, 0, false;
    }

    /** A start succeeds if a stream runs already, or if the open and the status request are both accepted; otherwise it leaves no trace. */
    method StreamStart(opensOk: bool, sendsOk: bool) returns (ok: bool)
      requires Inv(Now())
      modifies this
      ensures Now() == AfterStart(old(Now()), opensOk, sendsOk) && Reached(old(Now()), Now()) && Inv(Now())
      ensures ok == (old(nStreams) > 0 || (opensOk && sendsOk))
      ensures nStreams == (if ok then old(nStreams) + 1 else old(nStreams))
      ensures opens == old(opens) + if old(nStreams) == 0 && opensOk then 1 else 0
      ensures closes == old(closes) + if old(nStreams) == 0 && opensOk && !sendsOk then 1 else 0
    {
      ghost var s := Now();
      StartIsARun(s, opensOk, sendsOk);
      ok := true;
      nStreams := nStreams + 1;
      if nStreams == 1 {
        ok := opensOk;
        if ok {
          opens := opens + 1;
          streamStatus := true;
          ok := EnableBthHfpStreamStatusNotification(sendsOk);
        }
        if !ok {
          nStreams := nStreams - 1;
          if opensOk {
            closes := closes + 1;
          }
          streamStatus := false;
        }
      }
      if ok {
        granted := granted + 1;
      }
      ReachedKeepsInv(s, Now());
    }

    method EnableBthHfpStreamStatusNotification(sendsOk: bool) returns (ok: bool)
      modifies this`event, this`request
      ensures ok == sendsOk && event == !ok && request == if ok then AtTarget else Unsent
    {
      event := false;
      ok := sendsOk;
      request := if ok then AtTarget else Unsent;
      if !ok {
        event := true;
      }
    }

    method EvtBthHfpDeviceStreamStatusCompletion(ok: bool)
      requires Inv(Now()) && request.AtTarget?
      modifies this`request, this`streamStatus, this`event
      ensures Now() == AfterCompletion(old(Now()), ok) && Reached(old(Now()), Now()) && Inv(Now())
      ensures streamStatus == ok && event && request == Done
    {
      ghost var s := Now();
      ReachedSelf(s);
      CompletionIsARun(s, s, ok);
      streamStatus := ok;
      event := true;
      request := Done;
      ReachedKeepsInv(s, Now());
    }

    /** Cancels the request, waits for the rest of its completion and readies it for the next start. */
    method StopBthHfpStreamStatusNotification(ok: bool, reuseOk: bool)
      requires if event then request.Done? else InFlight(request)
      modifies this`event, this`request, this`streamStatus, this`reuseFailed
      ensures event && request == (if reuseOk then Ready else Done)
      ensures reuseFailed == (old(reuseFailed) || !reuseOk)
    {
      if !event {
        if request.AtTarget? {
          streamStatus := ok;
        } else if request.Completing? {
          streamStatus := request.ok;
        }
        event := true;
      }
      request := Done;
      if reuseOk {
        request := Ready;
      }
      reuseFailed := reuseFailed || !reuseOk;
    }

    /** The last suspend closes the stream; the others only count down. */
    method StreamSuspend(ok: bool, reuseOk: bool)
      requires Inv(Now()) && nStreams > 0
      modifies this
      ensures Now() == AfterSuspend(old(Now()), reuseOk) && Reached(old(Now()), Now()) && Inv(Now())
      ensures nStreams == old(nStreams) - 1 && closes == old(closes) + if old(nStreams) == 1 then 1 else 0
      ensures old(nStreams) == 1 ==> event && !streamStatus
    {
      ghost var s := Now();
      SuspendIsARun(s, ok, reuseOk);
      nStreams := nStreams - 1;
      granted := granted - 1;
      if nStreams == 0 {
        closes := closes + 1;
        StopBthHfpStreamStatusNotification(ok, reuseOk);
        streamStatus := false;
      }
      ReachedKeepsInv(s, Now());
    }
  }
}
