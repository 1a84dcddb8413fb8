/**
  Starting and suspending a USB sideband stream, and the transport-resource buffers an endpoint
  holds while it is started. Buffers are numbered in the order in which the pool handed them out.
*/
module UsbTransport {

  import opened Basics

  /** How a GetSiop call goes; only the last three outcomes reach the pool and get a buffer. */
  datatype Outcome = RequestFailed | SizeQueryFailed | SizeRejected | OutOfMemory | ReuseFailed | QueryFailed | Ok

  predicate GetsBuffer(o: Outcome) { o.ReuseFailed? || o.QueryFailed? || o.Ok? }

  const SLOTS := 7
  const NO_RESOURCES: seq<Option<nat>> := [None, None, None, None, None, None, None]

  /** The buffers an endpoint needs: three more when it has a feedback endpoint. */
  function Needed(feedback: bool): nat { if feedback then 7 else 4 }

  /** What the driver told the device, and what it did with the pool. */
  datatype State = State(
    feedback: bool,
    nStart: int,                    // m_nSpeakerStreamsStart
    slots: seq<Option<nat>>,        // m_SpeakerTransportResources
    starts: nat,                    // STREAM_STARTs accepted
    suspends: nat,                  // STREAM_SUSPENDs issued
    freed: seq<nat>)                // for each buffer ever obtained, how often it was given back

  predicate Fresh(s: State) {
    s == State(s.feedback, 0, NO_RESOURCES, 0, 0, [])
  }

  /** How many of the slots hold buffer b. */
  function Held(slots: seq<Option<nat>>, b: nat): nat {
    if slots == [] then 0 else (if slots[0] == Some(b) then 1 else 0) + Held(slots[1..], b)
  }

  /** Giving back what a slot holds, if anything. */
  function Free(freed: seq<nat>, slot: Option<nat>): seq<nat> {
    if slot.Some? && slot.value < |freed| then freed[slot.value := freed[slot.value] + 1] else freed
  }

  function FreeAll(freed: seq<nat>, slots: seq<Option<nat>>): (r: seq<nat>)
    ensures |r| == |freed|
    decreases |slots|
  {
    if slots == [] then freed else FreeAll(Free(freed, slots[0]), slots[1..])
  }

  function Times(k: nat, n: nat): seq<nat> {
    seq(n, _ => k)
  }

  /** The slots once the first k buffers after `from` were stored. */
  function Filled(from: nat, k: nat): (r: seq<Option<nat>>)
    requires k <= SLOTS
    ensures |r| == SLOTS
  {
    seq(SLOTS, i => if 0 <= i < k then Some(from + i) else None)
  }

  /** How many of the first k calls succeed before one fails. */
  function Successes(o: seq<Outcome>, k: nat): (j: nat)
    requires k <= |o|
    ensures j <= k
    ensures forall i :: 0 <= i < j ==> o[i].Ok?
    ensures j < k ==> !o[j].Ok?
  {
    if k == 0 then 0
    else
      var j := Successes(o, k - 1);
      if j == k - 1 && o[k - 1].Ok? then k else j
  }

  /** What GetTransportResources does, with the answers of the target and the pool. */
  function Acquired(s: State, o: seq<Outcome>): State
    requires |o| == SLOTS
  {
    var k := Needed(s.feedback);
    var j := Successes(o, k);
    if j == k then s.(slots := Filled(|s.freed|, k), freed := s.freed + Times(0, k))
    else s.(slots := NO_RESOURCES, freed := s.freed + Times(1, j + if GetsBuffer(o[j]) then 1 else 0))
  }

  function Released(s: State): State {
    s.(slots := NO_RESOURCES, freed := FreeAll(s.freed, s.slots))
  }

  predicate StartSucceeds(s: State, setOk: bool, startOk: bool, o: seq<Outcome>)
    requires |o| == SLOTS
  {
    s.nStart != 0 || (setOk && startOk && Successes(o, Needed(s.feedback)) == Needed(s.feedback))
  }

  function AfterStart(s: State, setOk: bool, startOk: bool, o: seq<Outcome>): State
    requires |o| == SLOTS
  {
    if s.nStart + 1 != 1 then s.(nStart := s.nStart + 1)
    else if !setOk || !startOk then s
    else
      var t := Acquired(s, o).(starts := s.starts + 1);
      if StartSucceeds(s, setOk, startOk, o) then t.(nStart := 1) else t.(suspends := s.suspends + 1)
  }

  function AfterSuspend(s: State): State {
    if s.nStart - 1 != 0 then s.(nStart := s.nStart - 1)
    else Released(s).(nStart := 0, suspends := s.suspends + 1)
  }

  // ---------- every run of calls ----------

  datatype Call = Start(setOk: bool, startOk: bool, outcomes: seq<Outcome>) | Suspend

  predicate Allowed(s: State, c: Call) {
    // The caller suspends only what it started: ASSERT(m_nSpeakerStreamsStart > 0).
    if c.Start? then |c.outcomes| == SLOTS else s.nStart > 0
  }

  function After(s: State, c: Call): State
    requires Allowed(s, c)
  {
    if c.Start? then AfterStart(s, c.setOk, c.startOk, c.outcomes) else AfterSuspend(s)
  }

  predicate Runs(s: State, cs: seq<Call>)
    decreases |cs|
  {
    cs == [] || (Allowed(s, cs[0]) && Runs(After(s, cs[0]), cs[1..]))
  }

  function Exec(s: State, cs: seq<Call>): State
    requires Runs(s, cs)
    decreases |cs|
  {
    if cs == [] then s else Exec(After(s, cs[0]), cs[1..])
  }

  /**
    All or nothing, and conservation: the needed buffers are all held while started and none otherwise,
    the device is told to start once more than to suspend exactly while started, and the buffers
    given back and the buffers held are together the buffers obtained, each once.
  */
  predicate Inv(s: State) {
    var k := Needed(s.feedback);
    && s.nStart >= 0
    && s.starts == s.suspends + (if s.nStart > 0 then 1 else 0)
    && (if s.nStart > 0 then |s.freed| >= k && s.slots == Filled(|s.freed| - k, k) else s.slots == NO_RESOURCES)
    && forall b :: 0 <= b < |s.freed| ==> s.freed[b] + Held(s.slots, b) == 1
  }

  lemma {:induction false} HeldOf(slots: seq<Option<nat>>, from: nat, k: nat, b: nat)
    requires k <= |slots|
    requires forall i :: 0 <= i < |slots| ==> slots[i] == if i < k then Some(from + i) else None
    ensures Held(slots, b) == if from <= b < from + k then 1 else 0
  {
    if slots == [] {
    } else {
      HeldOf(slots[1..], from + 1, if k == 0 then 0 else k - 1, b);
    }
  }

  lemma {:induction false} FreeAllCounts(freed: seq<nat>, slots: seq<Option<nat>>, b: nat)
    requires b < |freed|
    ensures |FreeAll(freed, slots)| == |freed| && FreeAll(freed, slots)[b] == freed[b] + Held(slots, b)
    decreases |slots|
  {
    if slots == [] {
    } else {
      FreeAllCounts(Free(freed, slots[0]), slots[1..], b);
    }
  }

  lemma {:induction false} NothingHeld(b: nat)
    ensures Held(NO_RESOURCES, b) == 0
  {
    HeldOf(NO_RESOURCES, 0, 0, b);
  }

  lemma {:induction false} SuspendKeepsInv(s: State)
    requires Inv(s) && s.nStart > 0
    ensures Inv(AfterSuspend(s))
  {
    var t := AfterSuspend(s);
    forall b: nat | b < |s.freed| ensures |t.freed| == |s.freed| && t.freed[b] + Held(t.slots, b) == 1 {
      FreeAllCounts(s.freed, s.slots, b);
      NothingHeld(b);
    }
  }

  /** Whichever query fails, all buffers or none are held, and each buffer is held or was freed, once. */
  lemma {:induction false} AcquiredAllOrNothing(s: State, o: seq<Outcome>)
    requires |o| == SLOTS && s.slots == NO_RESOURCES
    requires forall b :: 0 <= b < |s.freed| ==> s.freed[b] == 1
    ensures var t := Acquired(s, o); var k := Needed(s.feedback);
      && (if Successes(o, k) == k then |t.freed| == |s.freed| + k && t.slots == Filled(|s.freed|, k) else t.slots == NO_RESOURCES)
      && forall b :: 0 <= b < |t.freed| ==> t.freed[b] + Held(t.slots, b) == 1
  {
    var t, k := Acquired(s, o), Needed(s.feedback);
    forall b: nat | b < |t.freed| ensures t.freed[b] + Held(t.slots, b) == 1 {
      NothingHeld(b);
      HeldOf(Filled(|s.freed|, k), |s.freed|, k, b);
    }
  }

  lemma {:induction false} StartKeepsInv(s: State, setOk: bool, startOk: bool, o: seq<Outcome>)
    requires Inv(s) && |o| == SLOTS
    ensures Inv(AfterStart(s, setOk, startOk, o))
  {
    if s.nStart == 0 {
      forall b | 0 <= b < |s.freed| ensures s.freed[b] == 1 {
        NothingHeld(b);
      }
      AcquiredAllOrNothing(s, o);
    }
  }

  lemma {:induction false} CallKeepsInv(s: State, c: Call)
    requires Inv(s) && Allowed(s, c)
    ensures Inv(After(s, c))
  {
    match c
    case Suspend => SuspendKeepsInv(s);
    case Start(setOk, startOk, o) => StartKeepsInv(s, setOk, startOk, o);
  }

  /** Every query that an endpoint needs succeeds: the four of every endpoint, and the three of a feedback endpoint. */
  predicate AllAnswered(feedback: bool, o: seq<Outcome>)
    requires |o| == SLOTS
  {
    o[0].Ok? && o[1].Ok? && o[2].Ok? && o[3].Ok? && (feedback ==> o[4].Ok? && o[5].Ok? && o[6].Ok?)
  }

  lemma {:induction false} AnsweredByName(s: State, o: seq<Outcome>)
    requires |o| == SLOTS
    ensures Successes(o, Needed(s.feedback)) == Needed(s.feedback) <==> AllAnswered(s.feedback, o)
    ensures var slots := Acquired(s, o).slots;
      && |slots| == 7
      && (forall i :: 0 <= i < 4 ==> slots[i].Some? == AllAnswered(s.feedback, o))
      && forall i :: 4 <= i < 7 ==> slots[i].Some? == (AllAnswered(s.feedback, o) && s.feedback)
  {
  }

  /** In every state between calls, a started endpoint holds its four buffers, and the other three exactly if it has feedback. */
  lemma {:induction false} BuffersByName(s: State, cs: seq<Call>)
    requires Fresh(s) && Runs(s, cs)
    ensures var t := Exec(s, cs);
      && |t.slots| == 7 && t.feedback == s.feedback
      && (forall i :: 0 <= i < 4 ==> (t.slots[i].Some? <==> t.nStart > 0))
      && forall i :: 4 <= i < 7 ==> (t.slots[i].Some? <==> t.nStart > 0 && s.feedback)
  {
    NothingHeldAtFirst(s);
    RunsKeepInv(s, cs);
    FeedbackStays(s, cs);
  }

  lemma {:induction false} NothingHeldAtFirst(s: State)
    requires Fresh(s)
    ensures Inv(s)
  {
  }

  lemma {:induction false} FeedbackStays(s: State, cs: seq<Call>)
    requires Runs(s, cs)
    ensures Exec(s, cs).feedback == s.feedback
    decreases |cs|
  {
    if cs != [] {
      FeedbackStays(After(s, cs[0]), cs[1..]);
    }
  }

  /** Whichever call fails, every run of starts and suspends keeps the resources all-or-nothing and loses no buffer. */
  lemma {:induction false} RunsKeepInv(s: State, cs: seq<Call>)
    requires Inv(s) && Runs(s, cs)
    ensures Inv(Exec(s, cs))
    decreases |cs|
  {
    if cs == [] {
    } else {
      CallKeepsInv(s, cs[0]);
      RunsKeepInv(After(s, cs[0]), cs[1..]);
    }
  }

  /** After a balanced run every buffer obtained was freed exactly once, and starts equal suspends. */
  lemma {:induction false} BalancedRunFreesEverything(s: State, cs: seq<Call>)
    requires Fresh(s) && Runs(s, cs) && Exec(s, cs).nStart == 0
    ensures var t := Exec(s, cs);
      && t.slots == NO_RESOURCES && t.starts == t.suspends
      && forall b :: 0 <= b < |t.freed| ==> t.freed[b] == 1
  {
    RunsKeepInv(s, cs);
    forall b: nat ensures Held(NO_RESOURCES, b) == 0 {
      NothingHeld(b);
    }
  }

  // ---------- the endpoint ----------

  class Endpoint {
    const feedback: bool
    var nStart: int
    var starts: nat
    var suspends: nat
    var freed: seq<nat>
    var usbInterfaceDescriptor: Option<nat>
    var usbEndpointDescriptor: Option<nat>
    var usbOffloadInformation: Option<nat>
    var usbAudioTransportResources: Option<nat>
    var syncUsbEndpointDescriptor: Option<nat>
    var syncUsbOffloadInformation: Option<nat>
    var syncUsbAudioTransportResources: Option<nat>

    ghost function Slots(): seq<Option<nat>>
      reads this
    {
      [usbInterfaceDescriptor, usbEndpointDescriptor, usbOffloadInformation, usbAudioTransportResources,
       syncUsbEndpointDescriptor, syncUsbOffloadInformation, syncUsbAudioTransportResources]
    }

    ghost function Now(): State
      reads this
    {
      State(feedback, nStart, Slots(), starts, suspends, freed)
    }

    constructor (feedback: bool)
      ensures Fresh(Now()) && this.feedback == feedback
    {
      this.feedback := feedback;
      nStart, starts, suspends, freed := 0, 0, 0, [];
      usbInterfaceDescriptor, usbEndpointDescriptor, usbOffloadInformation := None, None, None;
      usbAudioTransportResources, syncUsbEndpointDescriptor := None, None;
      syncUsbOffloadInformation, syncUsbAudioTransportResources := None, None;
    }

    /** Hands out a new buffer on success; a buffer obtained on the way to a failure is given back. */
    method GetSiop(o: Outcome) returns (ok: bool, buffer: Option<nat>)
      modifies this`freed
      ensures ok == o.Ok? && buffer == if ok then Some(|old(freed)|) else None
      ensures freed == old(freed) + if o.Ok? then [0] else if o.ReuseFailed? || o.QueryFailed? then [1] else []
    {
      buffer := None;
      ok := false;
      if o.RequestFailed? || o.SizeQueryFailed? || o.SizeRejected? || o.OutOfMemory? {
        return;
      }
      var output := |freed|;
      freed := freed + [0];
      if o.ReuseFailed? || o.QueryFailed? {
        freed := Free(freed, Some(output));
        return;
      }
      return true, Some(output);
    }

    method FreeTransportResources()
      modifies this
      ensures Now() == Released(old(Now()))
    {
      FreeAllSeven(freed, usbInterfaceDescriptor, usbEndpointDescriptor, usbOffloadInformation, usbAudioTransportResources,
        syncUsbEndpointDescriptor, syncUsbOffloadInformation, syncUsbAudioTransportResources);
      FreeFour();
      FreeThree();
    }

    method FreeFour()
      modifies this`freed, this`usbInterfaceDescriptor, this`usbEndpointDescriptor, this`usbOffloadInformation,
        this`usbAudioTransportResources
      ensures freed == Free(Free(Free(Free(old(freed), old(usbInterfaceDescriptor)), old(usbEndpointDescriptor)),
                                 old(usbOffloadInformation)), old(usbAudioTransportResources))
      ensures usbInterfaceDescriptor == usbEndpointDescriptor == usbOffloadInformation == usbAudioTransportResources == None
    {
      freed := Free(freed, usbInterfaceDescriptor);
      freed := Free(freed, usbEndpointDescriptor);
      freed := Free(freed, usbOffloadInformation);
      freed := Free(freed, usbAudioTransportResources);
      usbInterfaceDescriptor, usbEndpointDescriptor := None, None;
      usbOffloadInformation, usbAudioTransportResources := None, None;
    }

    method FreeThree()
      modifies this`freed, this`syncUsbEndpointDescriptor, this`syncUsbOffloadInformation, this`syncUsbAudioTransportResources
      ensures freed == Free(Free(Free(old(freed), old(syncUsbEndpointDescriptor)), old(syncUsbOffloadInformation)),
                            old(syncUsbAudioTransportResources))
      ensures syncUsbEndpointDescriptor == syncUsbOffloadInformation == syncUsbAudioTransportResources == None
    {
      freed := Free(freed, syncUsbEndpointDescriptor);
      freed := Free(freed, syncUsbOffloadInformation);
      freed := Free(freed, syncUsbAudioTransportResources);
      syncUsbEndpointDescriptor, syncUsbOffloadInformation, syncUsbAudioTransportResources := None, None, None;
    }

    method GetDescriptors(o: seq<Outcome>) returns (ok: bool)
      requires |o| == SLOTS && Slots() == NO_RESOURCES
      modifies this
      ensures Progress(old(Now()), Now(), o, 2) && ok == (Successes(o, 2) == 2)
    {
      ghost var s0 := Now();
      ok, usbInterfaceDescriptor := GetSiop(o[0]);
      ghost var s1 := Now();
      ProgressGoesOn(s0, s0, s1, o, 0);
      if ok {
        ok, usbEndpointDescriptor := GetSiop(o[1]);
      }
      ProgressGoesOn(s0, s1, Now(), o, 1);
    }

    /** The four SIOPs every endpoint needs. */
    method GetEndpointResources(o: seq<Outcome>) returns (ok: bool)
      requires |o| == SLOTS && Slots() == NO_RESOURCES
      modifies this
      ensures Progress(old(Now()), Now(), o, 4) && ok == (Successes(o, 4) == 4)
    {
      ghost var s0 := Now();
      ok := GetDescriptors(o);
      ghost var s2 := Now();
      if ok {
        ok, usbOffloadInformation := GetSiop(o[2]);
      }
      ghost var s3 := Now();
      ProgressGoesOn(s0, s2, s3, o, 2);
      if ok {
        ok, usbAudioTransportResources := GetSiop(o[3]);
      }
      ProgressGoesOn(s0, s3, Now(), o, 3);
    }

    /** The three SIOPs of a feedback endpoint. */
    method GetFeedbackResources(ghost s0: State, o: seq<Outcome>) returns (ok: bool)
      requires |o| == SLOTS && Successes(o, 4) == 4 && Progress(s0, Now(), o, 4)
      modifies this
      ensures Progress(s0, Now(), o, 7) && ok == (Successes(o, 7) == 7)
    {
      ok := GetSyncDescriptors(s0, o);
      ghost var s6 := Now();
      if ok {
        ok, syncUsbAudioTransportResources := GetSiop(o[6]);
      }
      ProgressGoesOn(s0, s6, Now(), o, 6);
    }

    method GetSyncDescriptors(ghost s0: State, o: seq<Outcome>) returns (ok: bool)
      requires |o| == SLOTS && Successes(o, 4) == 4 && Progress(s0, Now(), o, 4)
      modifies this
      ensures Progress(s0, Now(), o, 6) && ok == (Successes(o, 6) == 6)
    {
      ghost var s4 := Now();
      ok, syncUsbEndpointDescriptor := GetSiop(o[4]);
      ghost var s5 := Now();
      ProgressGoesOn(s0, s4, s5, o, 4);
      if ok {
        ok, syncUsbOffloadInformation := GetSiop(o[5]);
      }
      ProgressGoesOn(s0, s5, Now(), o, 5);
    }

    /** One SIOP after the other; the first failure gives every buffer back. */
    method GetTransportResources(o: seq<Outcome>) returns (ok: bool)
      requires |o| == SLOTS && Slots() == NO_RESOURCES
      modifies this
      ensures Now() == Acquired(old(Now()), o)
      ensures ok == AllAnswered(feedback, o)
      ensures usbInterfaceDescriptor.Some? == usbEndpointDescriptor.Some? == usbOffloadInformation.Some? == ok
      ensures usbAudioTransportResources.Some? == ok
      ensures syncUsbEndpointDescriptor.Some? == syncUsbOffloadInformation.Some? == (ok && feedback)
      ensures syncUsbAudioTransportResources.Some? == (ok && feedback)
    {
      AnsweredByName(Now(), o);
      ok := GetEndpointResources(o);
      if ok && feedback {
        ok := GetFeedbackResources(old(Now()), o);
      }
      AcquiredFromProgress(old(Now()), Now(), o);
      if !ok {
        FreeTransportResources();
      }
      ghost var slots := Acquired(old(Now()), o).slots;
      assert slots == Slots();
      assert slots[0] == usbInterfaceDescriptor && slots[1] == usbEndpointDescriptor && slots[2] == usbOffloadInformation;
      assert slots[3] == usbAudioTransportResources && slots[4] == syncUsbEndpointDescriptor;
      assert slots[5] == syncUsbOffloadInformation && slots[6] == syncUsbAudioTransportResources;
    }

    method SpeakerStreamStart(setOk: bool, startOk: bool, o: seq<Outcome>) returns (ok: bool)
      requires |o| == SLOTS && Inv(Now())
      modifies this
      ensures Now() == AfterStart(old(Now()), setOk, startOk, o) && Inv(Now())
      ensures ok == (old(nStart) > 0 || (setOk && startOk && AllAnswered(feedback, o)))
      ensures nStart == (if ok then old(nStart) + 1 else old(nStart))
      ensures starts == old(starts) + if old(nStart) == 0 && setOk && startOk then 1 else 0
      ensures suspends == old(suspends) + if old(nStart) == 0 && setOk && startOk && !ok then 1 else 0
    {
      AnsweredByName(Now(), o);
      StartKeepsInv(Now(), setOk, startOk, o);
      ok := Start(setOk, startOk, o);
    }

    method Start(setOk: bool, startOk: bool, o: seq<Outcome>) returns (ok: bool)
      requires |o| == SLOTS && Inv(Now())
      modifies this
      ensures Now() == AfterStart(old(Now()), setOk, startOk, o)
      ensures ok == StartSucceeds(old(Now()), setOk, startOk, o)
    {
      AnsweredByName(Now(), o);
      nStart := nStart + 1;
      ok := true;
      if nStart == 1 {
        var streamStart := false;
        ok := setOk;
        if ok {
          ok := startOk;
        }
        if ok {
          starts := starts + 1;
          streamStart := true;
          ok := GetTransportResources(o);
        }
        if !ok {
          nStart := nStart - 1;
          if streamStart {
            suspends := suspends + 1;
          }
        }
      }
    }

    method SpeakerStreamSuspend()
      requires nStart > 0 && Inv(Now())
      modifies this
      ensures Now() == AfterSuspend(old(Now())) && Inv(Now())
      ensures nStart == old(nStart) - 1 && starts == old(starts)
      ensures suspends == old(suspends) + if old(nStart) == 1 then 1 else 0
    {
      SuspendKeepsInv(Now());
      nStart := nStart - 1;
      if nStart == 0 {
        suspends := suspends + 1;
        FreeTransportResources();
      }
    }
  }

  /** The buffer the failing call gave back itself, if it had got one. */
  function Extra(o: seq<Outcome>, k: nat): (r: seq<nat>)
    requires k <= |o|
    ensures r == [] || r == [1]
  {
    var j := Successes(o, k);
    if j < k && GetsBuffer(o[j]) then [1] else []
  }

  /** Between s and t the first k calls were made, up to the first failure. */
  predicate Progress(s: State, t: State, o: seq<Outcome>, k: nat)
    requires k <= |o| == SLOTS
  {
    var j := Successes(o, k);
    t == s.(slots := Filled(|s.freed|, j), freed := s.freed + Times(0, j) + Extra(o, k))
  }

  /** One more call, unless an earlier one failed. */
  lemma {:induction false} ProgressGoesOn(s: State, t: State, u: State, o: seq<Outcome>, k: nat)
    requires k < |o| == SLOTS && Progress(s, t, o, k)
    requires if Successes(o, k) < k then u == t
             else u == t.(slots := t.slots[k := if o[k].Ok? then Some(|t.freed|) else None],
                          freed := t.freed + if o[k].Ok? then [0] else if GetsBuffer(o[k]) then [1] else [])
    ensures Progress(s, u, o, k + 1)
  {
    if Successes(o, k) == k {
      var j := Successes(o, k + 1);
      assert u.slots == Filled(|s.freed|, j);
      assert u.freed == s.freed + Times(0, j) + Extra(o, k + 1);
    }
  }

  predicate FilledUpTo(slots: seq<Option<nat>>, from: nat, j: nat) {
    j <= |slots| && forall i :: 0 <= i < |slots| ==> slots[i] == if i < j then Some(from + i) else None
  }

  /** Freeing what the first j calls stored marks those buffers and no others. */
  lemma {:induction false} FreeFilled(freed: seq<nat>, slots: seq<Option<nat>>, from: nat, j: nat)
    requires FilledUpTo(slots, from, j) && from + j <= |freed|
    ensures forall b :: 0 <= b < |freed| ==>
      FreeAll(freed, slots)[b] == freed[b] + if from <= b < from + j then 1 else 0
  {
    forall b: nat | b < |freed|
      ensures FreeAll(freed, slots)[b] == freed[b] + if from <= b < from + j then 1 else 0
    {
      FreeAllCounts(freed, slots, b);
      HeldOf(slots, from, j, b);
    }
  }

  lemma {:induction false} AcquiredFromProgress(s: State, t: State, o: seq<Outcome>)
    requires |o| == SLOTS && Progress(s, t, o, Needed(s.feedback))
    ensures Acquired(s, o) == if Successes(o, Needed(s.feedback)) == Needed(s.feedback) then t else Released(t)
  {
    var k := Needed(s.feedback);
    var j := Successes(o, k);
    if j < k {
      FreeFilled(t.freed, t.slots, |s.freed|, j);
      assert Released(t).freed == s.freed + Times(1, j) + Extra(o, k);
    } else {
      assert Extra(o, k) == [] && t.freed == s.freed + Times(0, k);
    }
  }

  lemma {:induction false} FreeFirst(freed: seq<nat>, a: Option<nat>, rest: seq<Option<nat>>)
    ensures FreeAll(freed, [a] + rest) == FreeAll(Free(freed, a), rest)
  {
    assert ([a] + rest)[1..] == rest;
  }

  lemma {:induction false} FreeAllThree(freed: seq<nat>, a: Option<nat>, b: Option<nat>, c: Option<nat>)
    ensures FreeAll(freed, [a, b, c]) == Free(Free(Free(freed, a), b), c)
  {
    var f1 := Free(freed, a);
    var f2 := Free(f1, b);
    FreeFirst(freed, a, [b, c]);
    FreeFirst(f1, b, [c]);
    FreeFirst(f2, c, []);
    assert [a] + [b, c] == [a, b, c] && [b] + [c] == [b, c] && [c] + [] == [c];
  }

  lemma {:induction false} FreeAllFive(freed: seq<nat>, a: Option<nat>, b: Option<nat>, c: Option<nat>, d: Option<nat>, e: Option<nat>)
    ensures FreeAll(freed, [a, b, c, d, e]) == Free(Free(Free(Free(Free(freed, a), b), c), d), e)
  {
    var f1 := Free(freed, a);
    FreeFirst(freed, a, [b, c, d, e]);
    FreeFirst(f1, b, [c, d, e]);
    FreeAllThree(Free(f1, b), c, d, e);
    assert [a] + [b, c, d, e] == [a, b, c, d, e] && [b] + [c, d, e] == [b, c, d, e];
  }

  lemma {:induction false} FreeAllSeven(freed: seq<nat>, a: Option<nat>, b: Option<nat>, c: Option<nat>, d: Option<nat>,
                                        e: Option<nat>, f: Option<nat>, g: Option<nat>)
    ensures FreeAll(freed, [a, b, c, d, e, f, g]) == Free(Free(Free(Free(Free(Free(Free(freed, a), b), c), d), e), f), g)
  {
    var f1 := Free(freed, a);
    FreeFirst(freed, a, [b, c, d, e, f, g]);
    FreeFirst(f1, b, [c, d, e, f, g]);
    FreeAllFive(Free(f1, b), c, d, e, f, g);
    assert [a] + [b, c, d, e, f, g] == [a, b, c, d, e, f, g] && [b] + [c, d, e, f, g] == [b, c, d, e, f, g];
  }
}
