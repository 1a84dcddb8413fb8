/**
  The adapter's side of the sideband protocol in the form of the code: one object whose
  methods update its lists and its devices. Each method, run without interference, is a run
  of the machine in SidebandLifecycle, and its contract says what the lists hold afterwards.
*/
module SidebandAdapter {

  import opened Basics
  import opened SidebandLifecycle

  datatype Status = Success | InsufficientResources | InitFailed

  /** What running and releasing the tasks one after the other does to the devices. */
  function RunTasks(heap: seq<Device>, tasks: seq<Task>): seq<Device>
    decreases |tasks|
  {
    if tasks == [] then heap
    else RunTasks(TaskDone(heap, tasks[0]), tasks[1..])
  }

  /** One task that is run and released. */
  function TaskDone(heap: seq<Device>, t: Task): seq<Device> {
    Release(Run(heap, t.device, t.action), t.device)
  }

  lemma {:induction false} TaskDoneEffect(heap: seq<Device>, t: Task, d: nat)
    requires d < |heap|
    ensures var h := TaskDone(heap, t); var first := if t.device == d then [t.action] else [];
      && |h| == |heap| && h[d].actions == heap[d].actions + first && h[d].refs == heap[d].refs - |first|
      && h[d].name == heap[d].name && h[d].inserted == heap[d].inserted
  {
  }

  /** Each device has run its own tasks in order and lost one reference for each. */
  lemma {:induction false} RunTasksEffect(heap: seq<Device>, tasks: seq<Task>, d: nat)
    requires d < |heap|
    ensures var h := RunTasks(heap, tasks);
      && |h| == |heap|
      && h[d].actions == heap[d].actions + PendingTasks(tasks, d)
      && h[d].refs == heap[d].refs - |PendingTasks(tasks, d)|
      && h[d].name == heap[d].name && h[d].inserted == heap[d].inserted
    decreases |tasks|
  {
    if tasks != [] {
      var first := if tasks[0].device == d then [tasks[0].action] else [];
      var was, rest := heap[d].actions, PendingTasks(tasks[1..], d);
      TaskDoneEffect(heap, tasks[0], d);
      RunTasksEffect(TaskDone(heap, tasks[0]), tasks[1..], d);
      assert was + first + rest == was + (first + rest);
    }
  }

  // ---------- what each method does to the state ----------

  function StatusOf(newOk: bool, initOk: bool, poolOk: bool): Status {
    if !newOk then InsufficientResources else if !initOk then InitFailed
    else if !poolOk then InsufficientResources else Success
  }

  function AfterInit(s: State, createOk: bool, registerOk: bool): State {
    s.(list := [], tasks := [], enableCleanup := true, workItem := createOk, registered := createOk && registerOk)
  }

  lemma {:induction false} InitIsARun(s: State, createOk: bool, registerOk: bool)
    requires s.cleanup.NotStarted? && !s.enableCleanup && !s.workItem && !s.registered && s.list == [] && s.tasks == []
    ensures Reached(s, AfterInit(s, createOk, registerOk))
  {
    ReachedSelf(s);
    Go(s, s, InitBasic);
    if createOk {
      var basic := s.(enableCleanup := true);
      Go(s, basic, InitWorkItem);
      if registerOk {
        Go(s, basic.(workItem := true), InitRegister);
      }
    }
  }

  /** BthHfpScoInterfaceArrival, with what its allocations and Init answer. */
  function AfterArrival(s: State, name: string, newOk: bool, initOk: bool, poolOk: bool): State {
    var looked := ArrivalLooked(s.(callback := ArrivalBegun(name)));
    if looked.callback.ArrivalFound? then CallbackDrops(looked) else AfterMiss(looked, newOk, initOk, poolOk)
  }

  /** The rest of an arrival for a name that is not listed. */
  function AfterMiss(s: State, newOk: bool, initOk: bool, poolOk: bool): State
    requires s.callback.ArrivalAbsent?
  {
    var created := Created(s, newOk);
    if !newOk then created
    else
      var ready := Initialized(created, initOk);
      if !initOk then CallbackDrops(ready)
      else
        var tasked := TaskAllocated(ready, poolOk);
        if poolOk then Arrived(tasked) else CallbackDrops(tasked)
  }

  function AfterRemoval(s: State, name: string, poolOk: bool): State {
    var looked := RemovalLooked(s.(callback := RemovalBegun(name)));
    if looked.callback.NoCallback? then looked
    else
      var tasked := TaskAllocated(looked, poolOk);
      if poolOk then Removed(tasked) else CallbackDrops(tasked)
  }

  lemma {:induction false} ArrivalIsARun(s: State, name: string, newOk: bool, initOk: bool, poolOk: bool)
    requires s.registered && s.callback.NoCallback?
    ensures Reached(s, AfterArrival(s, name, newOk, initOk, poolOk))
  {
    ReachedSelf(s);
    Go(s, s, BeginArrival(name));
    var begun := s.(callback := ArrivalBegun(name));
    Go(s, begun, ArrivalFind);
    var looked := ArrivalLooked(begun);
    if looked.callback.ArrivalFound? {
      Go(s, looked, ArrivalDrop);
    } else {
      MissIsARun(s, looked, newOk, initOk, poolOk);
    }
  }

  lemma {:induction false} MissIsARun(s: State, looked: State, newOk: bool, initOk: bool, poolOk: bool)
    requires Reached(s, looked) && looked.callback.ArrivalAbsent?
    ensures Reached(s, AfterMiss(looked, newOk, initOk, poolOk))
  {
    Go(s, looked, ArrivalCreate(newOk));
    if newOk {
      var created := Created(looked, newOk);
      Go(s, created, ArrivalInit(initOk));
      var ready := Initialized(created, initOk);
      if initOk {
        Go(s, ready, ArrivalAllocTask(poolOk));
        Go(s, TaskAllocated(ready, poolOk), if poolOk then ArrivalCommit else ArrivalFail);
      } else {
        Go(s, ready, ArrivalFail);
      }
    }
  }

  lemma {:induction false} RemovalIsARun(s: State, name: string, poolOk: bool)
    requires s.registered && s.callback.NoCallback?
    ensures Reached(s, AfterRemoval(s, name, poolOk))
  {
    ReachedSelf(s);
    Go(s, s, BeginRemoval(name));
    var begun := s.(callback := RemovalBegun(name));
    Go(s, begun, RemovalFind);
    var looked := RemovalLooked(begun);
    if looked.callback.RemovalFound? {
      Go(s, looked, RemovalAllocTask(poolOk));
      Go(s, TaskAllocated(looked, poolOk), if poolOk then RemovalCommit else RemovalFail);
    }
  }

  /** The worker's loop: take, run, release and free tasks until the list is empty. */
  function Drained(s: State): State
    requires s.worker.Looping?
    decreases |s.tasks|
  {
    if s.tasks == [] then Taken(s).(worker := Idle) else Drained(OneTask(s))
  }

  /** One round of the worker's loop. */
  function OneTask(s: State): State
    requires s.worker.Looping? && s.tasks != []
  {
    var done := TaskReleased(TaskRun(Taken(s)));
    done.(poolOut := done.poolOut - 1, worker := Looping)
  }

  lemma {:induction false} OneTaskIsARun(s: State)
    requires s.worker.Looping? && s.tasks != []
    ensures Reached(s, OneTask(s))
  {
    var t := Taken(s);
    ReachedSelf(s);
    Go(s, s, WorkerTake);
    Go(s, t, WorkerExecute);
    Go(s, TaskRun(t), WorkerRelease);
    Go(s, TaskReleased(TaskRun(t)), WorkerFree);
  }

  lemma {:induction false} OneTaskIs(s: State)
    requires s.worker.Looping? && s.tasks != []
    ensures OneTask(s) == s.(heap := TaskDone(s.heap, s.tasks[0]), tasks := s.tasks[1..], poolOut := s.poolOut - 1)
  {
  }

  lemma {:induction false} DrainedIsARun(s: State)
    requires s.worker.Looping?
    ensures Reached(s, Drained(s))
    decreases |s.tasks|
  {
    OneTaskLess(s);
    if s.tasks == [] {
      ReachedSelf(s);
      Go(s, s, WorkerTake);
      Go(s, Taken(s), WorkerReturn);
    } else {
      OneTaskIsARun(s);
      DrainedIsARun(OneTask(s));
      ReachedTransitive(s, OneTask(s), Drained(OneTask(s)));
    }
  }

  lemma {:induction false} OneTaskLess(s: State)
    requires s.worker.Looping?
    ensures s.tasks != [] ==> |OneTask(s).tasks| < |s.tasks| && OneTask(s).worker.Looping?
  {
  }

  /** Draining runs every task, first to last, and gives every task back to the pool. */
  lemma {:induction false} DrainedEffect(s: State)
    requires s.worker.Looping?
    ensures Drained(s) == s.(heap := RunTasks(s.heap, s.tasks), tasks := [], poolOut := s.poolOut - |s.tasks|, worker := Idle)
    decreases |s.tasks|
  {
    if s.tasks != [] {
      OneTaskIs(s);
      DrainedEffect(OneTask(s));
    }
  }

  /** The cleanup's loop: take, stop and release devices until the list is empty. */
  function Emptied(s: State): State
    requires s.cleanup.Draining?
    decreases |s.list|
  {
    var t := CleanupTaken(s);
    if s.list == [] then t else Emptied(CleanupReleased(CleanupStopped(t)))
  }

  lemma {:induction false} EmptiedIsARun(s: State)
    requires s.cleanup.Draining?
    ensures Reached(s, Emptied(s))
    decreases |s.list|
  {
    ReachedSelf(s);
    Go(s, s, CleanupTake);
    var t := CleanupTaken(s);
    if s.list != [] {
      Go(s, t, CleanupStop);
      Go(s, CleanupStopped(t), CleanupRelease);
      var next := CleanupReleased(CleanupStopped(t));
      EmptiedIsARun(next);
      ReachedTransitive(s, next, Emptied(next));
    }
  }

  /** The work item's callback from its start to its return. */
  function AfterWork(s: State): State {
    s.(heap := RunTasks(s.heap, s.tasks), tasks := [], poolOut := s.poolOut - |s.tasks|, queued := false)
  }

  lemma {:induction false} WorkIsARun(s: State)
    requires s.worker.Idle? && s.queued
    ensures Reached(s, AfterWork(s))
  {
    var looping := s.(queued := false, worker := Looping);
    ReachedSelf(s);
    Go(s, s, WorkerBegin);
    DrainedIsARun(looping);
    DrainedEffect(looping);
    ReachedTransitive(s, looping, Drained(looping));
  }

  /** CleanupBthScoBypass: unregister, let the work item finish, stop what is still listed. */
  function AfterCleanup(s: State): State {
    if !s.enableCleanup then s.(cleanup := Returned)
    else
      var quiet := s.(registered := false, cleanup := Flushing);
      var flushed := if s.workItem && s.queued then AfterWork(quiet) else quiet;
      Emptied(flushed.(workItem := false, cleanup := Draining))
  }

  lemma {:induction false} CleanupIsARun(s: State)
    requires s.worker.Idle? && s.callback.NoCallback? && s.cleanup.NotStarted?
    ensures Reached(s, AfterCleanup(s))
  {
    ReachedSelf(s);
    Go(s, s, CleanupBegin);
    if s.enableCleanup {
      Go(s, s.(cleanup := Unregistering), CleanupUnregister);
      var quiet := s.(registered := false, cleanup := Flushing);
      var flushed := quiet;
      if s.workItem && s.queued {
        WorkIsARun(quiet);
        flushed := AfterWork(quiet);
        ReachedTransitive(s, quiet, flushed);
      }
      Go(s, flushed, CleanupFlush);
      EmptiedIsARun(flushed.(workItem := false, cleanup := Draining));
      ReachedTransitive(s, flushed.(workItem := false, cleanup := Draining), AfterCleanup(s));
    }
  }

  /** The adapter that a cleanup has unregistered. */
  lemma {:induction false} UnregisterKeepsInv(s: State)
    requires Inv(s) && s.callback.NoCallback? && s.cleanup.NotStarted? && s.enableCleanup
    ensures Inv(s.(registered := false, cleanup := Flushing))
  {
    StepKeepsInv(s, CleanupBegin);
    StepKeepsInv(s.(cleanup := Unregistering), CleanupUnregister);
  }

  // ---------- what that means ----------

  /** A reference that is taken and dropped again leaves a device that has another one as it was. */
  lemma {:induction false} TransientReference(heap: seq<Device>, d: nat)
    requires d < |heap| && heap[d].refs > 0
    ensures Release(AddRef(heap, d), d) == heap
  {
    var n := AddRef(heap, d)[d];
    assert n == heap[d].(refs := heap[d].refs + 1);
  }

  /** A second notification for a listed name changes nothing, not even a count. */
  lemma {:induction false} RepeatedArrivalMeaning(s: State, name: string, newOk: bool, initOk: bool, poolOk: bool)
    requires Inv(s) && s.callback.NoCallback? && Find(s.heap, s.list, name).Some?
    ensures AfterArrival(s, name, newOk, initOk, poolOk) == s
  {
    var d := Find(s.heap, s.list, name).value;
    ListedIsReferenced(s, d);
    TransientReference(s.heap, d);
  }

  lemma {:induction false} ListedIsReferenced(s: State, d: nat)
    requires InvDevices(s) && d in s.list && d < |s.heap|
    ensures s.heap[d].refs > 0
  {
    assert RefsInv(s, d);
  }

  /**
    For a new name, success lists one new device, last, with two references and a pending start;
    a failure leaves at most one deleted device behind.
  */
  lemma {:induction false} ArrivalMeaning(s: State, name: string, newOk: bool, initOk: bool, poolOk: bool)
    requires s.callback.NoCallback? && Find(s.heap, s.list, name).None?
    ensures var t := AfterArrival(s, name, newOk, initOk, poolOk);
      && (newOk && initOk && poolOk ==>
            t == s.(heap := s.heap + [Device(name, 2, 0, true, [])], list := s.list + [|s.heap|],
                    tasks := s.tasks + [Task(|s.heap|, Start)], poolOut := s.poolOut + 1, queued := true))
      && (newOk && !(initOk && poolOk) ==> t == s.(heap := s.heap + [Device(name, 0, 1, false, [])]))
      && (!newOk ==> t == s)
  {
    MissMeaning(s, name, newOk, initOk, poolOk);
    assert s.heap + [] == s.heap;
  }

  function Added(s: State, name: string, newOk: bool, initOk: bool, poolOk: bool): State {
    if StatusOf(newOk, initOk, poolOk) == Success then
      s.(heap := s.heap + [Device(name, 2, 0, true, [])], list := s.list + [|s.heap|],
         tasks := s.tasks + [Task(|s.heap|, Start)], poolOut := s.poolOut + 1, queued := true)
    else s.(heap := s.heap + if newOk then [Device(name, 0, 1, false, [])] else [])
  }

  lemma {:induction false} MissMeaning(s: State, name: string, newOk: bool, initOk: bool, poolOk: bool)
    requires s.callback.NoCallback?
    ensures AfterMiss(s.(callback := ArrivalAbsent(name)), newOk, initOk, poolOk) == Added(s, name, newOk, initOk, poolOk)
  {
    var t := AfterMiss(s.(callback := ArrivalAbsent(name)), newOk, initOk, poolOk);
    if newOk {
      var dev := if StatusOf(newOk, initOk, poolOk) == Success then Device(name, 2, 0, true, []) else Device(name, 0, 1, false, []);
      assert t.heap == s.heap + [dev];
    } else {
      assert s.heap + [] == s.heap;
    }
  }

  /**
    A removal of an unknown name, or without memory, changes nothing; otherwise the device leaves the list, in which
    the others keep their order, its stop is pending, and no count moves.
  */
  lemma {:induction false} RemovalMeaning(s: State, name: string, poolOk: bool) returns (i: nat)
    requires Inv(s) && s.registered && s.callback.NoCallback?
    ensures var t := AfterRemoval(s, name, poolOk); var found := Find(s.heap, s.list, name);
      if found.None? || !poolOk then t == s
      else
        && i < |s.list| && s.list[i] == found.value
        && t == s.(list := s.list[..i] + s.list[i + 1..], tasks := s.tasks + [Task(found.value, Stop)],
                   poolOut := s.poolOut + 1, queued := true)
  {
    var found := Find(s.heap, s.list, name);
    i := 0;
    if found.Some? {
      ListedIsReferenced(s, found.value);
      TransientReference(s.heap, found.value);
      i := UnlinkAt(s.list, found.value);
    }
  }

  /** Unlinking takes one place out of the list. */
  lemma {:induction false} UnlinkAt(list: seq<nat>, d: nat) returns (i: nat)
    requires d in list
    ensures i < |list| && list[i] == d && d !in list[..i]
    ensures Unlink(list, d) == list[..i] + list[i + 1..]
  {
    i := 0;
    while list[i] != d
      invariant i < |list| && d !in list[..i] && d in list[i..]
      decreases |list| - i
    {
      assert list[i..] == [list[i]] + list[i + 1..] && list[..i + 1] == list[..i] + [list[i]];
      i := i + 1;
    }
    assert list == list[..i] + [d] + list[i + 1..];
    UnlinkKeepsOrder(list[..i], d, list[i + 1..]);
  }

  /** The adapter between two callbacks. Only the cleanup's progress is bookkeeping; the other fields are the code's. */
  class Adapter {
    var heap: seq<Device>
    var devices: seq<nat>
    var tasks: seq<Task>
    var poolOut: int
    var enableCleanup: bool
    var workItem: bool
    var registered: bool
    var queued: bool
    ghost var cleanup: Cleanup

    ghost function Now(): State
      reads this
    {
      State(heap, devices, tasks, poolOut, enableCleanup, workItem, registered, queued, Idle, NoCallback, cleanup)
    }

    constructor ()
      ensures IsInitial(Now()) && Inv(Now())
    {
      heap, devices, tasks, poolOut := [], [], [], 0;
      enableCleanup, workItem, registered, queued := false, false, false, false;
      cleanup := NotStarted;
    }

    /** InitBthScoBypass: the lists and the pool, the work item, the registration. */
    method InitBthScoBypass(createOk: bool, registerOk: bool) returns (ok: bool)
      requires Inv(Now()) && cleanup.NotStarted? && !enableCleanup
      modifies this`devices, this`tasks, this`enableCleanup, this`workItem, this`registered
      ensures ok == (createOk && registerOk) && registered == ok && workItem == createOk && enableCleanup
      ensures devices == [] && tasks == []
      ensures Now() == AfterInit(old(Now()), createOk, registerOk) && Reached(old(Now()), Now()) && Inv(Now())
    {
      ghost var s := Now();
      InitIsARun(s, createOk, registerOk);
      ReachedKeepsInv(s, AfterInit(s, createOk, registerOk));
      workItem := false;
      registered := false;
      tasks := [];
      devices := [];
      enableCleanup := true;
      if !createOk {
        return false;
      }
      workItem := true;
      if !registerOk {
        return false;
      }
      registered := true;
      return true;
    }

    method BthHfpDeviceFind(name: string) returns (r: Option<nat>)
      modifies this`heap
      ensures r == Find(old(heap), devices, name)
      ensures heap == if r.Some? then AddRef(old(heap), r.value) else old(heap)
    {
      var le := 0;
      while le < |devices|
        invariant 0 <= le <= |devices|
        invariant heap == old(heap)
        invariant Find(heap, devices, name) == Find(heap, devices[le..], name)
      {
        var d := devices[le];
        if d < |heap| && heap[d].name == name {
          heap := AddRef(heap, d);
          return Some(d);
        }
        le := le + 1;
      }
      return None;
    }

    method BthHfpScoInterfaceArrival(name: string, newOk: bool, initOk: bool, poolOk: bool) returns (status: Status)
      requires Inv(Now()) && registered
      modifies this`heap, this`devices, this`tasks, this`poolOut, this`queued
      ensures Now() == AfterArrival(old(Now()), name, newOk, initOk, poolOk)
      ensures Reached(old(Now()), Now()) && Inv(Now())
      ensures status ==
              if Find(old(heap), old(devices), name).Some? then Success else if !newOk then InsufficientResources
              else if !initOk then InitFailed else if !poolOk then InsufficientResources else Success
      ensures Find(old(heap), old(devices), name).None? && newOk && initOk && poolOk ==>
                && heap == old(heap) + [Device(name, 2, 0, true, [])] && devices == old(devices) + [|old(heap)|]
                && tasks == old(tasks) + [Task(|old(heap)|, Start)] && queued
    {
      ghost var s := Now();
      if Find(heap, devices, name).None? {
        ArrivalMeaning(s, name, newOk, initOk, poolOk);
      }
      ArrivalIsARun(s, name, newOk, initOk, poolOk);
      ReachedKeepsInv(s, AfterArrival(s, name, newOk, initOk, poolOk));
      status := Arrive(name, newOk, initOk, poolOk);
    }

    method Arrive(name: string, newOk: bool, initOk: bool, poolOk: bool) returns (status: Status)
      modifies this`heap, this`devices, this`tasks, this`poolOut, this`queued
      ensures Now() == AfterArrival(old(Now()), name, newOk, initOk, poolOk)
      ensures status == if Find(old(heap), old(devices), name).Some? then Success else StatusOf(newOk, initOk, poolOk)
    {
      var found := BthHfpDeviceFind(name);
      if found.Some? {
        heap := Release(heap, found.value);
        return Success;
      }
      status := AddDevice(name, newOk, initOk, poolOk);
    }

    method AddDevice(name: string, newOk: bool, initOk: bool, poolOk: bool) returns (status: Status)
      modifies this`heap, this`devices, this`tasks, this`poolOut, this`queued
      ensures Now() == AfterMiss(old(Now()).(callback := ArrivalAbsent(name)), newOk, initOk, poolOk)
      ensures status == StatusOf(newOk, initOk, poolOk)
    {
      MissMeaning(Now(), name, newOk, initOk, poolOk);
      if !newOk {
        return InsufficientResources;
      }
      var d := CreateDevice(name);
      if !initOk || !poolOk {
        DropDevice(d);
        return if initOk then InsufficientResources else InitFailed;
      }
      ListDevice(d);
      return Success;
    }

    /** A new device, with the reference that Init takes. */
    method CreateDevice(name: string) returns (d: nat)
      modifies this`heap
      ensures d == |old(heap)| && heap == old(heap) + [Device(name, 1, 0, false, [])]
    {
      d := |heap|;
      heap := heap + [Device(name, 0, 0, false, [])];
      heap := AddRef(heap, d);
    }

    /** Drops the only reference to the newest device. */
    method DropDevice(d: nat)
      requires d + 1 == |heap| && heap[d].refs == 1
      modifies this`heap
      ensures heap == old(heap[..d]) + [old(heap[d]).(refs := 0, deletions := old(heap[d]).deletions + 1)]
    {
      heap := Release(heap, d);
    }

    /** The mutex section: the newest device goes to the end of the list and its start to the end of the tasks. */
    method ListDevice(d: nat)
      requires d + 1 == |heap|
      modifies this`heap, this`devices, this`tasks, this`poolOut, this`queued
      ensures heap == old(heap[..d]) + [old(heap[d]).(refs := old(heap[d]).refs + 1, inserted := true)]
      ensures devices == old(devices) + [d] && tasks == old(tasks) + [Task(d, Start)]
      ensures poolOut == old(poolOut) + 1 && queued
    {
      poolOut := poolOut + 1;
      devices := devices + [d];
      tasks := tasks + [Task(d, Start)];
      heap := Insert(AddRef(heap, d), d);
      queued := true;
    }

    method BthHfpScoInterfaceRemoval(name: string, poolOk: bool) returns (status: Status)
      requires Inv(Now()) && registered
      modifies this`heap, this`devices, this`tasks, this`poolOut, this`queued
      ensures Now() == AfterRemoval(old(Now()), name, poolOk) && Reached(old(Now()), Now()) && Inv(Now())
      ensures var found := Find(old(heap), old(devices), name);
        if found.None? || !poolOk then Now() == old(Now())
        else
          && heap == old(heap) && queued && tasks == old(tasks) + [Task(found.value, Stop)]
          && exists i :: 0 <= i < |old(devices)| && old(devices)[i] == found.value
                      && devices == old(devices)[..i] + old(devices)[i + 1..]
      ensures status == if Find(old(heap), old(devices), name).Some? && !poolOk then InsufficientResources else Success
    {
      ghost var s := Now();
      ghost var _ := RemovalMeaning(s, name, poolOk);
      RemovalIsARun(s, name, poolOk);
      ReachedKeepsInv(s, AfterRemoval(s, name, poolOk));
      status := Remove(name, poolOk);
    }

    method Remove(name: string, poolOk: bool) returns (status: Status)
      modifies this`heap, this`devices, this`tasks, this`poolOut, this`queued
      ensures Now() == AfterRemoval(old(Now()), name, poolOk)
      ensures status == if Find(old(heap), old(devices), name).Some? && !poolOk then InsufficientResources else Success
    {
      var found := BthHfpDeviceFind(name);
      if found.None? {
        return Success;
      }
      var d := found.value;
      if !poolOk {
        heap := Release(heap, d);
        return InsufficientResources;
      }
      UnlistDevice(d);
      return Success;
    }

    /** The mutex section: the device leaves the list and its stop goes to the end of the tasks. */
    method UnlistDevice(d: nat)
      modifies this`heap, this`devices, this`tasks, this`poolOut, this`queued
      ensures heap == Release(old(heap), d) && devices == Unlink(old(devices), d)
      ensures tasks == old(tasks) + [Task(d, Stop)] && poolOut == old(poolOut) + 1 && queued
    {
      poolOut := poolOut + 1;
      devices := Unlink(devices, d);
      heap := Release(heap, d);
      tasks := tasks + [Task(d, Stop)];
      queued := true;
    }

    /** The work-item callback. */
    method EvtBthHfpScoBypassInterfaceWorkItem()
      requires Inv(Now()) && queued
      modifies this`heap, this`tasks, this`poolOut, this`queued
      ensures tasks == [] && !queued && poolOut == old(poolOut) - |old(tasks)|
      ensures heap == RunTasks(old(heap), old(tasks))
      ensures Now() == AfterWork(old(Now())) && Reached(old(Now()), Now()) && Inv(Now())
    {
      ghost var s := Now();
      WorkIsARun(s);
      ReachedKeepsInv(s, AfterWork(s));
      queued := false;
      while tasks != []
        invariant !queued && poolOut == old(poolOut) - (|old(tasks)| - |tasks|)
        invariant RunTasks(heap, tasks) == RunTasks(old(heap), old(tasks))
        decreases |tasks|
      {
        var task := tasks[0];
        tasks := tasks[1..];
        heap := Run(heap, task.device, task.action);
        heap := Release(heap, task.device);
        poolOut := poolOut - 1;
      }
    }

    /** WdfWorkItemFlush: returns once the work item is neither queued nor running. */
    method FlushWorkItem()
      requires Inv(Now())
      modifies this`heap, this`tasks, this`poolOut, this`queued
      ensures Now() == (if old(queued) then AfterWork(old(Now())) else old(Now())) && Inv(Now())
    {
      if queued {
        EvtBthHfpScoBypassInterfaceWorkItem();
      }
    }

    /** The loop that stops and releases every device still listed. */
    method StopDevices()
      requires cleanup.Draining?
      modifies this`heap, this`devices, this`cleanup
      ensures Now() == Emptied(old(Now())) && cleanup.Returned?
    {
      while devices != []
        invariant cleanup.Draining? && Emptied(Now()) == Emptied(old(Now()))
        decreases |devices|
      {
        var d := devices[0];
        devices := devices[1..];
        heap := Run(heap, d, Stop);
        heap := Release(heap, d);
      }
      cleanup := Returned;
    }

    /** Afterwards nothing is left: each device that was inserted was started and stopped, and each one was deleted, once. */
    method CleanupBthScoBypass()
      requires Inv(Now()) && cleanup.NotStarted?
      modifies this
      ensures Now() == AfterCleanup(old(Now())) && Reached(old(Now()), Now()) && Inv(Now())
      ensures cleanup.Returned? && devices == [] && tasks == [] && poolOut == 0
      ensures forall d :: 0 <= d < |heap| ==>
                heap[d].deletions == 1 && heap[d].actions == if heap[d].inserted then [Start, Stop] else []
    {
      ghost var s := Now();
      CleanupIsARun(s);
      ReachedKeepsInv(s, AfterCleanup(s));
      Cleanup();
      NothingIsLeft(Now());
    }

    method Cleanup()
      requires Inv(Now()) && cleanup.NotStarted?
      modifies this
      ensures Now() == AfterCleanup(old(Now())) && cleanup.Returned?
    {
      if !enableCleanup {
        cleanup := Returned;
        return;
      }
      UnregisterKeepsInv(Now());
      registered, cleanup := false, Flushing;
      if workItem {
        FlushWorkItem();
        workItem := false;
      }
      cleanup := Draining;
      StopDevices();
    }
  }
}
