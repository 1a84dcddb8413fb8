/**
  The life of the Bluetooth hands-free sideband devices in the audio adapter:
  arrival and removal callbacks, the work item that starts and stops devices,
  and the cleanup of the adapter, as one state machine over all interleavings.

  A step is one mutex section, one interlocked or framework call, or one call
  into a device. Callbacks of one registration are serialized, one work-item
  callback runs at a time, and enqueueing a queued work item does nothing.
*/
module SidebandLifecycle {

  import opened Basics

  datatype Action = Start | Stop

  /** A task of the worker: an action and the device it owns a reference to. */
  datatype Task = Task(device: nat, action: Action)

  /** A device object. `deletions` and `actions` record its history. */
  datatype Device = Device(name: string, refs: int, deletions: nat, inserted: bool, actions: seq<Action>)

  /** Where the arrival or removal callback in progress is. */
  datatype Callback =
    | NoCallback
    | ArrivalBegun(name: string)
    | ArrivalFound(device: nat)      // found: a transient reference is to be dropped
    | ArrivalAbsent(name: string)    // not found: a device is to be created
    | ArrivalNew(device: nat)        // created, Init has not taken the first reference
    | ArrivalReady(device: nat)      // initialized, the task is to be allocated
    | ArrivalTask(device: nat)       // task allocated
    | ArrivalFailed(device: nat)     // the only reference is to be dropped
    | RemovalBegun(name: string)
    | RemovalFound(device: nat)
    | RemovalTask(device: nat)
    | RemovalFailed(device: nat)

  /** Where the work-item callback is. */
  datatype Worker =
    | Idle
    | Looping                        // about to look at the task list
    | Holding(task: Task)            // task taken off the list, not run
    | Executed(task: Task)           // task run, its reference still held
    | Released(task: Task)           // reference dropped, task not yet freed
    | Leaving                        // saw an empty list, has not returned

  /** Where CleanupBthScoBypass is. */
  datatype Cleanup =
    | NotStarted
    | Unregistering
    | Flushing
    | Draining
    | Stopping(device: nat)          // off the list, Stop not yet called
    | Releasing(device: nat)         // stopped, last reference still held
    | Returned

  datatype State = State(
    heap: seq<Device>,               // every device ever created
    list: seq<nat>,                  // m_BthHfpDevices
    tasks: seq<Task>,                // m_BthHfpWorkTasks
    poolOut: int,                    // tasks allocated from the pool and not given back
    enableCleanup: bool,
    workItem: bool,                  // m_BthHfpWorkItem != NULL
    registered: bool,                // m_BthHfpScoNotificationHandle != NULL
    queued: bool,                    // the work item is in the framework's queue
    worker: Worker,
    callback: Callback,
    cleanup: Cleanup)

  /** An adapter before InitBthScoBypass. */
  predicate IsInitial(s: State) {
    s == State([], [], [], 0, false, false, false, false, Idle, NoCallback, NotStarted)
  }

  datatype Event =
    | InitBasic | InitWorkItem | InitRegister
    | BeginArrival(name: string) | ArrivalFind | ArrivalDrop | ArrivalCreate(ok: bool) | ArrivalInit(ok: bool)
    | ArrivalAllocTask(ok: bool) | ArrivalCommit | ArrivalFail
    | BeginRemoval(name: string) | RemovalFind | RemovalAllocTask(ok: bool) | RemovalCommit | RemovalFail
    | WorkerBegin | WorkerTake | WorkerExecute | WorkerRelease | WorkerFree | WorkerReturn
    | CleanupBegin | CleanupUnregister | CleanupFlush | CleanupTake | CleanupStop | CleanupRelease

  function AddRef(heap: seq<Device>, d: nat): seq<Device> {
    if d < |heap| then heap[d := heap[d].(refs := heap[d].refs + 1)] else heap
  }

  /** Release deletes the object when its count reaches zero. */
  function Release(heap: seq<Device>, d: nat): seq<Device> {
    if d < |heap| then
      var n := heap[d].refs - 1;
      heap[d := heap[d].(refs := n, deletions := heap[d].deletions + (if n == 0 then 1 else 0))]
    else heap
  }

  function Run(heap: seq<Device>, d: nat, a: Action): seq<Device> {
    if d < |heap| then heap[d := heap[d].(actions := heap[d].actions + [a])] else heap
  }

  function Insert(heap: seq<Device>, d: nat): seq<Device> {
    if d < |heap| then heap[d := heap[d].(inserted := true)] else heap
  }

  /** The first device of the list with the given name. */
  function Find(heap: seq<Device>, list: seq<nat>, name: string): (r: Option<nat>)
    ensures r.Some? ==> r.value in list && r.value < |heap| && heap[r.value].name == name
    ensures r.None? ==> forall d :: d in list && d < |heap| ==> heap[d].name != name
  {
    if list == [] then None
    else if list[0] < |heap| && heap[list[0]].name == name then Some(list[0])
    else Find(heap, list[1..], name)
  }

  /** RemoveEntryList: unlinks a device, the others keep their order. */
  function Unlink(list: seq<nat>, d: nat): (r: seq<nat>)
  {
    if list == [] then [] else if list[0] == d then list[1..] else [list[0]] + Unlink(list[1..], d)
  }

  predicate Enabled(s: State, e: Event) {
    match e
    case InitBasic => s.cleanup.NotStarted? && !s.enableCleanup
    case InitWorkItem => s.cleanup.NotStarted? && s.enableCleanup && !s.workItem
    case InitRegister => s.cleanup.NotStarted? && s.workItem && !s.registered
    case BeginArrival(_) => s.registered && s.callback.NoCallback?
    case ArrivalFind => s.callback.ArrivalBegun?
    case ArrivalDrop => s.callback.ArrivalFound?
    case ArrivalCreate(_) => s.callback.ArrivalAbsent?
    case ArrivalInit(_) => s.callback.ArrivalNew?
    case ArrivalAllocTask(_) => s.callback.ArrivalReady?
    case ArrivalCommit => s.callback.ArrivalTask?
    case ArrivalFail => s.callback.ArrivalFailed?
    case BeginRemoval(_) => s.registered && s.callback.NoCallback?
    case RemovalFind => s.callback.RemovalBegun?
    case RemovalAllocTask(_) => s.callback.RemovalFound?
    case RemovalCommit => s.callback.RemovalTask?
    case RemovalFail => s.callback.RemovalFailed?
    case WorkerBegin => s.queued && s.worker.Idle?
    case WorkerTake => s.worker.Looping?
    case WorkerExecute => s.worker.Holding?
    case WorkerRelease => s.worker.Executed?
    case WorkerFree => s.worker.Released?
    case WorkerReturn => s.worker.Leaving?
    case CleanupBegin => s.cleanup.NotStarted?
    // Unregistering waits for the callback in progress.
    case CleanupUnregister => s.cleanup.Unregistering? && (s.registered ==> s.callback.NoCallback?)
    // Flushing waits until the work item is neither queued nor running.
    case CleanupFlush => s.cleanup.Flushing? && (s.workItem ==> !s.queued && s.worker.Idle?)
    case CleanupTake => s.cleanup.Draining?
    case CleanupStop => s.cleanup.Stopping?
    case CleanupRelease => s.cleanup.Releasing?
  }

  // ---------- the steps ----------

  /** BthHfpDeviceFind inside an arrival: a hit takes a transient reference. */
  function ArrivalLooked(s: State): State
    requires s.callback.ArrivalBegun?
  {
    match Find(s.heap, s.list, s.callback.name)
    case Some(d) => s.(heap := AddRef(s.heap, d), callback := ArrivalFound(d))
    case None => s.(callback := ArrivalAbsent(s.callback.name))
  }

  /** BthHfpDeviceFind inside a removal: a miss ends the callback. */
  function RemovalLooked(s: State): State
    requires s.callback.RemovalBegun?
  {
    match Find(s.heap, s.list, s.callback.name)
    case Some(d) => s.(heap := AddRef(s.heap, d), callback := RemovalFound(d))
    case None => s.(callback := NoCallback)
  }

  /** The callback drops the reference it holds and ends. */
  function CallbackDrops(s: State): State
    requires s.callback.ArrivalFound? || s.callback.ArrivalFailed? || s.callback.RemovalFailed?
  {
    s.(heap := Release(s.heap, s.callback.device), callback := NoCallback)
  }

  function Created(s: State, ok: bool): State
    requires s.callback.ArrivalAbsent?
  {
    if ok then s.(heap := s.heap + [Device(s.callback.name, 0, 0, false, [])], callback := ArrivalNew(|s.heap|))
    else s.(callback := NoCallback)
  }

  /** Init takes the first reference before anything in it can fail. */
  function Initialized(s: State, ok: bool): State
    requires s.callback.ArrivalNew?
  {
    var d := s.callback.device;
    s.(heap := AddRef(s.heap, d), callback := if ok then ArrivalReady(d) else ArrivalFailed(d))
  }

  function TaskAllocated(s: State, ok: bool): State
    requires s.callback.ArrivalReady? || s.callback.RemovalFound?
  {
    var d := s.callback.device;
    if s.callback.ArrivalReady? then
      if ok then s.(poolOut := s.poolOut + 1, callback := ArrivalTask(d)) else s.(callback := ArrivalFailed(d))
    else
      if ok then s.(poolOut := s.poolOut + 1, callback := RemovalTask(d)) else s.(callback := RemovalFailed(d))
  }

  /** The mutex section that ends an arrival: the creator's reference goes to the list, the task gets its own. */
  function Arrived(s: State): State
    requires s.callback.ArrivalTask?
  {
    var d := s.callback.device;
    s.(list := s.list + [d], tasks := s.tasks + [Task(d, Start)],
       heap := Insert(AddRef(s.heap, d), d), queued := true, callback := NoCallback)
  }

  /** The mutex section that ends a removal: the list's reference is dropped, the transient one goes to the task. */
  function Removed(s: State): State
    requires s.callback.RemovalTask?
  {
    var d := s.callback.device;
    s.(list := Unlink(s.list, d), tasks := s.tasks + [Task(d, Stop)],
       heap := Release(s.heap, d), queued := true, callback := NoCallback)
  }

  /** The worker's mutex section: take the first task, or see an empty list. */
  function Taken(s: State): State
    requires s.worker.Looping?
  {
    if s.tasks == [] then s.(worker := Leaving)
    else s.(tasks := s.tasks[1..], worker := Holding(s.tasks[0]))
  }

  function TaskRun(s: State): State
    requires s.worker.Holding?
  {
    var t := s.worker.task;
    s.(heap := Run(s.heap, t.device, t.action), worker := Executed(t))
  }

  function TaskReleased(s: State): State
    requires s.worker.Executed?
  {
    var t := s.worker.task;
    s.(heap := Release(s.heap, t.device), worker := Released(t))
  }

  function CleanupTaken(s: State): State
    requires s.cleanup.Draining?
  {
    if s.list == [] then s.(cleanup := Returned)
    else s.(list := s.list[1..], cleanup := Stopping(s.list[0]))
  }

  function CleanupStopped(s: State): State
    requires s.cleanup.Stopping?
  {
    var d := s.cleanup.device;
    s.(heap := Run(s.heap, d, Stop), cleanup := Releasing(d))
  }

  function CleanupReleased(s: State): State
    requires s.cleanup.Releasing?
  {
    s.(heap := Release(s.heap, s.cleanup.device), cleanup := Draining)
  }

  function Step(s: State, e: Event): State
    requires Enabled(s, e)
  {
    match e
    case InitBasic => s.(enableCleanup := true)
    case InitWorkItem => s.(workItem := true)
    case InitRegister => s.(registered := true)
    case BeginArrival(name) => s.(callback := ArrivalBegun(name))
    case ArrivalFind => ArrivalLooked(s)
    case ArrivalDrop => CallbackDrops(s)
    case ArrivalCreate(ok) => Created(s, ok)
    case ArrivalInit(ok) => Initialized(s, ok)
    case ArrivalAllocTask(ok) => TaskAllocated(s, ok)
    case ArrivalCommit => Arrived(s)
    case ArrivalFail => CallbackDrops(s)
    case BeginRemoval(name) => s.(callback := RemovalBegun(name))
    case RemovalFind => RemovalLooked(s)
    case RemovalAllocTask(ok) => TaskAllocated(s, ok)
    case RemovalCommit => Removed(s)
    case RemovalFail => CallbackDrops(s)
    case WorkerBegin => s.(queued := false, worker := Looping)
    case WorkerTake => Taken(s)
    case WorkerExecute => TaskRun(s)
    case WorkerRelease => TaskReleased(s)
    case WorkerFree => s.(poolOut := s.poolOut - 1, worker := Looping)
    case WorkerReturn => s.(worker := Idle)
    case CleanupBegin => s.(cleanup := if s.enableCleanup then Unregistering else Returned)
    case CleanupUnregister => s.(registered := false, cleanup := Flushing)
    case CleanupFlush => s.(workItem := false, cleanup := Draining)
    case CleanupTake => CleanupTaken(s)
    case CleanupStop => CleanupStopped(s)
    case CleanupRelease => CleanupReleased(s)
  }

  /** The events can be taken one after the other from s. */
  predicate Runs(s: State, es: seq<Event>)
    decreases |es|
  {
    es == [] || (Enabled(s, es[0]) && Runs(Step(s, es[0]), es[1..]))
  }

  function Exec(s: State, es: seq<Event>): State
    requires Runs(s, es)
    decreases |es|
  {
    if es == [] then s else Exec(Step(s, es[0]), es[1..])
  }

  /** Some run leads from s to t. */
  ghost predicate Reached(s: State, t: State) {
    exists es :: Runs(s, es) && Exec(s, es) == t
  }

  lemma {:induction false} RunsAppend(s: State, es: seq<Event>, e: Event)
    requires Runs(s, es) && Enabled(Exec(s, es), e)
    ensures Runs(s, es + [e]) && Exec(s, es + [e]) == Step(Exec(s, es), e)
    decreases |es|
  {
    if es == [] {
      assert (es + [e])[1..] == [];
    } else {
      assert (es + [e])[1..] == es[1..] + [e];
      RunsAppend(Step(s, es[0]), es[1..], e);
    }
  }

  lemma {:induction false} ReachedSelf(s: State)
    ensures Reached(s, s)
  {
    assert Runs(s, []) && Exec(s, []) == s;
  }

  /** One more step of a run. */
  lemma {:induction false} Go(s: State, t: State, e: Event)
    requires Reached(s, t) && Enabled(t, e)
    ensures Reached(s, Step(t, e))
  {
    var es :| Runs(s, es) && Exec(s, es) == t;
    RunsAppend(s, es, e);
  }

  lemma {:induction false} ReachedThrough(s: State, t: State, es: seq<Event>)
    requires Reached(s, t) && Runs(t, es)
    ensures Reached(s, Exec(t, es))
    decreases |es|
  {
    if es == [] {
    } else {
      Go(s, t, es[0]);
      ReachedThrough(s, Step(t, es[0]), es[1..]);
    }
  }

  lemma {:induction false} ReachedTransitive(s: State, t: State, u: State)
    requires Reached(s, t) && Reached(t, u)
    ensures Reached(s, u)
  {
    var es :| Runs(t, es) && Exec(t, es) == u;
    ReachedThrough(s, t, es);
  }

  // ---------- who holds a reference ----------

  /** The actions that queued tasks will run on a device, in order. */
  function PendingTasks(tasks: seq<Task>, d: nat): seq<Action> {
    if tasks == [] then []
    else (if tasks[0].device == d then [tasks[0].action] else []) + PendingTasks(tasks[1..], d)
  }

  function WorkerRef(w: Worker, d: nat): nat {
    if (w.Holding? || w.Executed?) && w.task.device == d then 1 else 0
  }

  function CallbackRef(c: Callback, d: nat): nat {
    if (c.ArrivalFound? || c.ArrivalReady? || c.ArrivalTask? || c.ArrivalFailed?
        || c.RemovalFound? || c.RemovalTask? || c.RemovalFailed?) && c.device == d then 1 else 0
  }

  function CleanupRef(c: Cleanup, d: nat): nat {
    if (c.Stopping? || c.Releasing?) && c.device == d then 1 else 0
  }

  /** The references to d that are held: by the list, by tasks, and by the code in progress. */
  function Holders(s: State, d: nat): nat {
    (if d in s.list then 1 else 0) + |PendingTasks(s.tasks, d)|
    + WorkerRef(s.worker, d) + CallbackRef(s.callback, d) + CleanupRef(s.cleanup, d)
  }

  /** The actions still to be run on d by tasks already handed to the worker. */
  function Pending(s: State, d: nat): seq<Action> {
    (if s.worker.Holding? && s.worker.task.device == d then [s.worker.task.action] else [])
    + PendingTasks(s.tasks, d)
  }

  function TasksHeld(s: State): nat {
    |s.tasks|
    + (if s.worker.Holding? || s.worker.Executed? || s.worker.Released? then 1 else 0)
    + (if s.callback.ArrivalTask? || s.callback.RemovalTask? then 1 else 0)
  }

  // ---------- the invariant ----------

  predicate DistinctNames(heap: seq<Device>, list: seq<nat>) {
    forall i, j :: 0 <= i < j < |list| && list[i] < |heap| && list[j] < |heap| ==>
      heap[list[i]].name != heap[list[j]].name
  }

  predicate Fresh(s: State, name: string) {
    forall d :: d in s.list && d < |s.heap| ==> s.heap[d].name != name
  }

  predicate InvShape(s: State) {
    && (forall d :: d in s.list ==> d < |s.heap|)
    && (forall t :: t in s.tasks ==> t.device < |s.heap|)
    && (s.worker.Holding? || s.worker.Executed? || s.worker.Released? ==> s.worker.task.device < |s.heap|)
    && DistinctNames(s.heap, s.list)
    && (match s.callback
        case NoCallback | ArrivalBegun(_) | RemovalBegun(_) => true
        case ArrivalAbsent(name) => Fresh(s, name)
        case ArrivalNew(d) => d < |s.heap| && Fresh(s, s.heap[d].name) && !s.heap[d].inserted && s.heap[d].refs == 0
        case ArrivalReady(d) => d < |s.heap| && Fresh(s, s.heap[d].name) && !s.heap[d].inserted
        case ArrivalTask(d) => d < |s.heap| && Fresh(s, s.heap[d].name) && !s.heap[d].inserted
        case ArrivalFailed(d) => d < |s.heap| && !s.heap[d].inserted
        case ArrivalFound(d) => d in s.list
        case RemovalFound(d) => d in s.list
        case RemovalTask(d) => d in s.list
        case RemovalFailed(d) => d in s.list)
    && (s.cleanup.Stopping? || s.cleanup.Releasing? ==>
        s.cleanup.device < |s.heap| && s.cleanup.device !in s.list && s.heap[s.cleanup.device].inserted)
  }

  /** Device d is referenced once by each holder, and is deleted once no holder is left. */
  predicate RefsInv(s: State, d: nat)
    requires d < |s.heap|
  {
    && s.heap[d].refs == Holders(s, d)
    && s.heap[d].deletions == (if Holders(s, d) == 0 && s.callback != ArrivalNew(d) then 1 else 0)
  }

  /** What has run on d and what is pending make up the plan for d. */
  predicate ActionsInv(s: State, d: nat)
    requires d < |s.heap|
  {
    && (d in s.list ==> s.heap[d].inserted)
    && s.heap[d].actions + Pending(s, d)
       == if !s.heap[d].inserted then []
          else if d in s.list || s.cleanup == Stopping(d) then [Start]
          else [Start, Stop]
  }

  predicate InvDevices(s: State) {
    forall d :: 0 <= d < |s.heap| ==> RefsInv(s, d) && ActionsInv(s, d)
  }

  predicate InvQueue(s: State) {
    && s.poolOut == TasksHeld(s)
    // No lost wakeup.
    && (s.tasks != [] ==> s.queued || !(s.worker.Idle? || s.worker.Leaving?))
    && (s.queued || !s.worker.Idle? ==> s.workItem)
    && (s.registered ==> s.workItem)
    && (s.workItem ==> s.enableCleanup)
    && (!s.callback.NoCallback? ==> s.registered)
    && (s.cleanup.Flushing? || s.cleanup.Draining? || s.cleanup.Stopping? || s.cleanup.Releasing? || s.cleanup.Returned?
        ==> !s.registered)
    && (s.cleanup.Draining? || s.cleanup.Stopping? || s.cleanup.Releasing? || s.cleanup.Returned?
        ==> !s.workItem)
    && (s.cleanup.Returned? ==> s.list == [])
    && (!s.enableCleanup ==> s.list == [])
  }

  predicate Inv(s: State) {
    InvShape(s) && InvDevices(s) && InvQueue(s)
  }

  // ---------- every step keeps the invariant ----------

  lemma {:induction false} PendingTasksAppend(tasks: seq<Task>, t: Task, d: nat)
    ensures PendingTasks(tasks + [t], d) == PendingTasks(tasks, d) + (if t.device == d then [t.action] else [])
  {
    if tasks == [] {
      assert ([] + [t])[1..] == [];
    } else {
      var first := if tasks[0].device == d then [tasks[0].action] else [];
      var last := if t.device == d then [t.action] else [];
      assert (tasks + [t])[1..] == tasks[1..] + [t];
      PendingTasksAppend(tasks[1..], t, d);
      assert first + (PendingTasks(tasks[1..], d) + last) == first + PendingTasks(tasks[1..], d) + last;
    }
  }

  /** The devices before and after the one that is unlinked keep their order. */
  lemma {:induction false} UnlinkKeepsOrder(a: seq<nat>, d: nat, b: seq<nat>)
    requires d !in a
    ensures Unlink(a + [d] + b, d) == a + b
  {
    if a != [] {
      assert (a + [d] + b)[1..] == a[1..] + [d] + b;
      UnlinkKeepsOrder(a[1..], d, b);
    }
  }

  lemma {:induction false} PendingNone(tasks: seq<Task>, d: nat)
    requires forall t :: t in tasks ==> t.device != d
    ensures PendingTasks(tasks, d) == []
  {
    if tasks != [] {
      assert tasks[0] in tasks;
      PendingNone(tasks[1..], d);
    }
  }

  lemma {:induction false} UnlinkMembers(heap: seq<Device>, list: seq<nat>, d: nat)
    requires (forall x :: x in list ==> x < |heap|) && DistinctNames(heap, list) && d in list
    ensures forall x :: x in Unlink(list, d) <==> x in list && x != d
    ensures DistinctNames(heap, Unlink(list, d))
  {
    var rest := list[1..];
    assert list[0] in list;
    forall x | x in rest ensures x < |heap| && heap[x].name != heap[list[0]].name {
      var k :| 0 <= k < |rest| && rest[k] == x;
      assert list[k + 1] == x && x in list;
    }
    assert DistinctNames(heap, rest);
    if list[0] != d {
      assert d in rest;
      UnlinkMembers(heap, rest, d);
    }
  }

  /** Nothing about device x differs between s and t. */
  predicate SameView(s: State, t: State, x: nat) {
    && x < |s.heap| && x < |t.heap| && t.heap[x] == s.heap[x]
    && (x in t.list <==> x in s.list)
    && PendingTasks(t.tasks, x) == PendingTasks(s.tasks, x)
    && WorkerRef(t.worker, x) == WorkerRef(s.worker, x)
    && CallbackRef(t.callback, x) == CallbackRef(s.callback, x)
    && CleanupRef(t.cleanup, x) == CleanupRef(s.cleanup, x)
    && (t.callback == ArrivalNew(x) <==> s.callback == ArrivalNew(x))
    && (t.cleanup == Stopping(x) <==> s.cleanup == Stopping(x))
    && Pending(t, x) == Pending(s, x)
  }

  lemma {:induction false} SameViewKeeps(s: State, t: State, except: set<nat>)
    requires InvDevices(s) && |s.heap| <= |t.heap|
    requires forall x :: 0 <= x < |t.heap| && x !in except ==> SameView(s, t, x)
    requires forall x :: x in except && x < |t.heap| ==> RefsInv(t, x) && ActionsInv(t, x)
    ensures InvDevices(t)
  {
    forall x | 0 <= x < |t.heap| ensures RefsInv(t, x) && ActionsInv(t, x) {
      if x !in except {
        assert RefsInv(s, x) && ActionsInv(s, x) && SameView(s, t, x);
      }
    }
  }

  /** A lookup that hits device d. */
  lemma {:induction false} HitKeepsDevices(s: State, d: nat, c: Callback)
    requires InvDevices(s) && d < |s.heap| && d in s.list
    requires (s.callback.ArrivalBegun? && c == ArrivalFound(d)) || (s.callback.RemovalBegun? && c == RemovalFound(d))
    ensures InvDevices(s.(heap := AddRef(s.heap, d), callback := c))
  {
    assert RefsInv(s, d) && ActionsInv(s, d);
    SameViewKeeps(s, s.(heap := AddRef(s.heap, d), callback := c), {d});
  }

  lemma {:induction false} ArrivalLookKeeps(s: State)
    requires Inv(s) && s.callback.ArrivalBegun?
    ensures Inv(ArrivalLooked(s))
  {
    match Find(s.heap, s.list, s.callback.name)
    case Some(d) => HitKeepsDevices(s, d, ArrivalFound(d));
    case None => SameViewKeeps(s, ArrivalLooked(s), {});
  }

  lemma {:induction false} RemovalLookKeeps(s: State)
    requires Inv(s) && s.callback.RemovalBegun?
    ensures Inv(RemovalLooked(s))
  {
    match Find(s.heap, s.list, s.callback.name)
    case Some(d) => HitKeepsDevices(s, d, RemovalFound(d));
    case None => SameViewKeeps(s, RemovalLooked(s), {});
  }

  lemma {:induction false} DropKeepsOwn(s: State)
    requires InvDevices(s)
    requires (s.callback.ArrivalFound? || s.callback.ArrivalFailed? || s.callback.RemovalFailed?) && s.callback.device < |s.heap|
    ensures RefsInv(CallbackDrops(s), s.callback.device) && ActionsInv(CallbackDrops(s), s.callback.device)
  {
    var d := s.callback.device;
    assert RefsInv(s, d) && ActionsInv(s, d);
  }

  lemma {:induction false} DropKeepsDevices(s: State)
    requires InvDevices(s)
    requires (s.callback.ArrivalFound? || s.callback.ArrivalFailed? || s.callback.RemovalFailed?) && s.callback.device < |s.heap|
    ensures InvDevices(CallbackDrops(s))
  {
    DropKeepsOwn(s);
    SameViewKeeps(s, CallbackDrops(s), {s.callback.device});
  }

  lemma {:induction false} DropKeeps(s: State, e: Event)
    requires Inv(s) && Enabled(s, e) && (e.ArrivalDrop? || e.ArrivalFail? || e.RemovalFail?)
    ensures Inv(Step(s, e))
  {
    DropKeepsDevices(s);
  }

  lemma {:induction false} CreateKeeps(s: State, ok: bool)
    requires Inv(s) && s.callback.ArrivalAbsent?
    ensures Inv(Created(s, ok))
  {
    var t := Created(s, ok);
    if ok {
      var d := |s.heap|;
      PendingNone(s.tasks, d);
      SameViewKeeps(s, t, {d});
    } else {
      SameViewKeeps(s, t, {});
    }
  }

  lemma {:induction false} InitKeepsDevices(s: State, ok: bool)
    requires InvDevices(s) && s.callback.ArrivalNew?
    requires s.callback.device < |s.heap|
    ensures InvDevices(Initialized(s, ok))
  {
    var d := s.callback.device;
    assert RefsInv(s, d) && ActionsInv(s, d);
    SameViewKeeps(s, Initialized(s, ok), {d});
  }

  lemma {:induction false} InitKeeps(s: State, ok: bool)
    requires Inv(s) && s.callback.ArrivalNew?
    ensures Inv(Initialized(s, ok))
  {
    InitKeepsDevices(s, ok);
  }

  lemma {:induction false} AllocTaskKeeps(s: State, ok: bool)
    requires Inv(s) && (s.callback.ArrivalReady? || s.callback.RemovalFound?)
    ensures Inv(TaskAllocated(s, ok))
  {
    SameViewKeeps(s, TaskAllocated(s, ok), {});
  }

  lemma {:induction false} ArriveKeepsDevices(s: State)
    requires InvDevices(s) && s.callback.ArrivalTask?
    requires s.callback.device < |s.heap| && s.callback.device !in s.list && !s.heap[s.callback.device].inserted
    ensures InvDevices(Arrived(s))
  {
    var d := s.callback.device;
    var t := Arrived(s);
    assert RefsInv(s, d) && ActionsInv(s, d);
    forall x: nat
      ensures PendingTasks(t.tasks, x) == PendingTasks(s.tasks, x) + (if x == d then [Start] else [])
    {
      PendingTasksAppend(s.tasks, Task(d, Start), x);
    }
    assert d !in s.list && Pending(t, d) == Pending(s, d) + [Start];
    assert s.heap[d].actions == [] && Pending(s, d) == [];
    SameViewKeeps(s, t, {d});
    assert InvDevices(t);
  }

  lemma {:induction false} ArriveKeeps(s: State)
    requires Inv(s) && s.callback.ArrivalTask?
    ensures Inv(Arrived(s))
  {
    var d := s.callback.device;
    assert RefsInv(s, d) && ActionsInv(s, d);
    ArriveKeepsDevices(s);
    NewNameIsDistinct(s.heap, Arrived(s).heap, s.list, d);
  }

  lemma {:induction false} NewNameIsDistinct(heap: seq<Device>, heap': seq<Device>, list: seq<nat>, d: nat)
    requires DistinctNames(heap, list) && d < |heap| == |heap'| && forall x :: x in list ==> x < |heap| && heap[x].name != heap[d].name
    requires forall x :: 0 <= x < |heap| ==> heap'[x].name == heap[x].name
    ensures DistinctNames(heap', list + [d])
  {
  }

  lemma {:induction false} RemoveKeepsDevices(s: State)
    requires InvDevices(s) && s.callback.RemovalTask?
    requires s.callback.device < |s.heap| && s.callback.device in s.list && s.cleanup != Stopping(s.callback.device)
    requires forall x :: x in Unlink(s.list, s.callback.device) <==> x in s.list && x != s.callback.device
    ensures InvDevices(Removed(s))
  {
    var d := s.callback.device;
    var t := Removed(s);
    assert RefsInv(s, d) && ActionsInv(s, d);
    forall x: nat
      ensures PendingTasks(t.tasks, x) == PendingTasks(s.tasks, x) + (if x == d then [Stop] else [])
    {
      PendingTasksAppend(s.tasks, Task(d, Stop), x);
    }
    SameViewKeeps(s, t, {d});
  }

  lemma {:induction false} RemoveKeeps(s: State)
    requires Inv(s) && s.callback.RemovalTask?
    ensures Inv(Removed(s))
  {
    UnlinkMembers(s.heap, s.list, s.callback.device);
    RemoveKeepsDevices(s);
  }

  lemma {:induction false} TakeKeepsDevices(s: State)
    requires InvDevices(s) && s.worker.Looping?
    requires s.tasks != [] ==> s.tasks[0].device < |s.heap|
    ensures InvDevices(Taken(s))
  {
    var t := Taken(s);
    if s.tasks == [] {
      SameViewKeeps(s, t, {});
    } else {
      var d := s.tasks[0].device;
      assert s.tasks[0] in s.tasks;
      assert RefsInv(s, d) && ActionsInv(s, d);
      SameViewKeeps(s, t, {d});
    }
  }

  lemma {:induction false} TakeKeeps(s: State)
    requires Inv(s) && s.worker.Looping?
    ensures Inv(Taken(s))
  {
    assert s.tasks != [] ==> s.tasks[0] in s.tasks;
    TakeKeepsDevices(s);
  }

  /** A step of the worker that only touches the device of its task, which has a reference. */
  lemma {:induction false} ShapeStays(s: State, t: State)
    requires InvShape(s) && t.list == s.list && t.tasks == s.tasks && t.callback == s.callback && t.cleanup == s.cleanup
    requires |t.heap| == |s.heap|
    requires forall d :: 0 <= d < |s.heap| ==>
               && t.heap[d].name == s.heap[d].name && t.heap[d].inserted == s.heap[d].inserted
               && (s.callback == ArrivalNew(d) ==> t.heap[d].refs == s.heap[d].refs)
    requires t.worker.Holding? || t.worker.Executed? || t.worker.Released? ==> t.worker.task.device < |t.heap|
    ensures InvShape(t)
  {
  }

  lemma {:induction false} TaskRunKeepsOwn(s: State)
    requires InvDevices(s) && s.worker.Holding?
    requires s.worker.task.device < |s.heap|
    ensures RefsInv(TaskRun(s), s.worker.task.device) && ActionsInv(TaskRun(s), s.worker.task.device)
  {
    var d := s.worker.task.device;
    var t := TaskRun(s);
    assert RefsInv(s, d) && ActionsInv(s, d);
    assert s.heap[d].actions + Pending(s, d) == t.heap[d].actions + Pending(t, d);
  }

  lemma {:induction false} TaskRunKeepsDevices(s: State)
    requires InvDevices(s) && s.worker.Holding?
    requires s.worker.task.device < |s.heap|
    ensures InvDevices(TaskRun(s))
  {
    TaskRunKeepsOwn(s);
    SameViewKeeps(s, TaskRun(s), {s.worker.task.device});
  }

  lemma {:induction false} TaskRunKeeps(s: State)
    requires Inv(s) && s.worker.Holding?
    ensures Inv(TaskRun(s))
  {
    TaskRunKeepsDevices(s);
    ShapeStays(s, TaskRun(s));
  }

  lemma {:induction false} TaskReleaseKeepsOwn(s: State)
    requires InvDevices(s) && s.worker.Executed?
    requires s.worker.task.device < |s.heap| && s.callback != ArrivalNew(s.worker.task.device)
    ensures RefsInv(TaskReleased(s), s.worker.task.device) && ActionsInv(TaskReleased(s), s.worker.task.device)
  {
    var d := s.worker.task.device;
    assert RefsInv(s, d) && ActionsInv(s, d);
  }

  lemma {:induction false} TaskReleaseKeepsDevices(s: State)
    requires InvDevices(s) && s.worker.Executed?
    requires s.worker.task.device < |s.heap| && s.callback != ArrivalNew(s.worker.task.device)
    ensures InvDevices(TaskReleased(s))
  {
    TaskReleaseKeepsOwn(s);
    SameViewKeeps(s, TaskReleased(s), {s.worker.task.device});
  }

  lemma {:induction false} TaskReleaseKeeps(s: State)
    requires Inv(s) && s.worker.Executed?
    ensures Inv(TaskReleased(s))
  {
    assert RefsInv(s, s.worker.task.device);
    TaskReleaseKeepsDevices(s);
    ShapeStays(s, TaskReleased(s));
  }

  lemma {:induction false} CleanupTakeKeepsDevices(s: State)
    requires InvDevices(s) && s.cleanup.Draining?
    requires s.list != [] ==> s.list[0] < |s.heap| && forall x :: x in s.list[1..] <==> x in s.list && x != s.list[0]
    ensures InvDevices(CleanupTaken(s))
  {
    var t := CleanupTaken(s);
    if s.list == [] {
      SameViewKeeps(s, t, {});
    } else {
      var d := s.list[0];
      assert d in s.list;
      assert RefsInv(s, d) && ActionsInv(s, d);
      SameViewKeeps(s, t, {d});
    }
  }

  lemma {:induction false} CleanupTakeKeeps(s: State)
    requires Inv(s) && s.cleanup.Draining?
    ensures Inv(CleanupTaken(s))
  {
    if s.list != [] {
      assert s.list[0] in s.list && Unlink(s.list, s.list[0]) == s.list[1..];
      assert RefsInv(s, s.list[0]) && ActionsInv(s, s.list[0]);
      UnlinkMembers(s.heap, s.list, s.list[0]);
    }
    CleanupTakeKeepsDevices(s);
  }

  lemma {:induction false} CleanupStopKeepsOwn(s: State)
    requires InvDevices(s) && s.cleanup.Stopping?
    requires s.cleanup.device < |s.heap| && s.cleanup.device !in s.list && s.heap[s.cleanup.device].inserted
    requires s.tasks == [] && s.worker.Idle?
    ensures RefsInv(CleanupStopped(s), s.cleanup.device) && ActionsInv(CleanupStopped(s), s.cleanup.device)
  {
    var d := s.cleanup.device;
    var t := CleanupStopped(s);
    assert RefsInv(s, d) && ActionsInv(s, d);
    assert s.tasks == [] && s.worker.Idle? && Pending(s, d) == [];
    assert t.heap[d].actions + Pending(t, d) == s.heap[d].actions + [Stop];
    assert s.heap[d].actions + Pending(s, d) == s.heap[d].actions;
  }

  lemma {:induction false} CleanupStopKeepsDevices(s: State)
    requires InvDevices(s) && s.cleanup.Stopping?
    requires s.cleanup.device < |s.heap| && s.cleanup.device !in s.list && s.heap[s.cleanup.device].inserted
    requires s.tasks == [] && s.worker.Idle?
    ensures InvDevices(CleanupStopped(s))
  {
    CleanupStopKeepsOwn(s);
    SameViewKeeps(s, CleanupStopped(s), {s.cleanup.device});
  }

  lemma {:induction false} CleanupStopKeeps(s: State)
    requires Inv(s) && s.cleanup.Stopping?
    ensures Inv(CleanupStopped(s))
  {
    CleanupStopKeepsDevices(s);
  }

  lemma {:induction false} CleanupReleaseKeepsOwn(s: State)
    requires InvDevices(s) && s.cleanup.Releasing?
    requires s.cleanup.device < |s.heap| && s.cleanup.device !in s.list && s.callback != ArrivalNew(s.cleanup.device)
    ensures RefsInv(CleanupReleased(s), s.cleanup.device) && ActionsInv(CleanupReleased(s), s.cleanup.device)
  {
    var d := s.cleanup.device;
    assert RefsInv(s, d) && ActionsInv(s, d);
  }

  lemma {:induction false} CleanupReleaseKeepsDevices(s: State)
    requires InvDevices(s) && s.cleanup.Releasing?
    requires s.cleanup.device < |s.heap| && s.cleanup.device !in s.list && s.callback != ArrivalNew(s.cleanup.device)
    ensures InvDevices(CleanupReleased(s))
  {
    CleanupReleaseKeepsOwn(s);
    SameViewKeeps(s, CleanupReleased(s), {s.cleanup.device});
  }

  lemma {:induction false} CleanupReleaseKeeps(s: State)
    requires Inv(s) && s.cleanup.Releasing?
    ensures Inv(CleanupReleased(s))
  {
    CleanupReleaseKeepsDevices(s);
  }

  lemma {:induction false} SetupKeeps(s: State, e: Event)
    requires Inv(s) && Enabled(s, e)
    requires e.InitBasic? || e.InitWorkItem? || e.InitRegister? || e.BeginArrival? || e.BeginRemoval?
    ensures Inv(Step(s, e))
  {
    SameViewKeeps(s, Step(s, e), {});
  }

  lemma {:induction false} WorkerKeeps(s: State, e: Event)
    requires Inv(s) && Enabled(s, e)
    requires e.WorkerBegin? || e.WorkerFree? || e.WorkerReturn?
    ensures Inv(Step(s, e))
  {
    SameViewKeeps(s, Step(s, e), {});
  }

  lemma {:induction false} CleanupKeeps(s: State, e: Event)
    requires Inv(s) && Enabled(s, e)
    requires e.CleanupBegin? || e.CleanupUnregister? || e.CleanupFlush?
    ensures Inv(Step(s, e))
  {
    SameViewKeeps(s, Step(s, e), {});
  }

  lemma {:induction false} StepKeepsInv(s: State, e: Event)
    requires Inv(s) && Enabled(s, e)
    ensures Inv(Step(s, e))
  {
    match e
    case InitBasic | InitWorkItem | InitRegister | BeginArrival(_) | BeginRemoval(_) => SetupKeeps(s, e);
    case WorkerBegin | WorkerFree | WorkerReturn => WorkerKeeps(s, e);
    case CleanupBegin | CleanupUnregister | CleanupFlush => CleanupKeeps(s, e);
    case ArrivalFind => ArrivalLookKeeps(s);
    case RemovalFind => RemovalLookKeeps(s);
    case ArrivalDrop | ArrivalFail | RemovalFail => DropKeeps(s, e);
    case ArrivalCreate(ok) => CreateKeeps(s, ok);
    case ArrivalInit(ok) => InitKeeps(s, ok);
    case ArrivalAllocTask(ok) => AllocTaskKeeps(s, ok);
    case RemovalAllocTask(ok) => AllocTaskKeeps(s, ok);
    case ArrivalCommit => ArriveKeeps(s);
    case RemovalCommit => RemoveKeeps(s);
    case WorkerTake => TakeKeeps(s);
    case WorkerExecute => TaskRunKeeps(s);
    case WorkerRelease => TaskReleaseKeeps(s);
    case CleanupTake => CleanupTakeKeeps(s);
    case CleanupStop => CleanupStopKeeps(s);
    case CleanupRelease => CleanupReleaseKeeps(s);
  }

  // ---------- every run ----------

  lemma {:induction false} RunsKeepInv(s: State, es: seq<Event>)
    requires Inv(s) && Runs(s, es)
    ensures Inv(Exec(s, es))
    decreases |es|
  {
    if es == [] {
    } else {
      StepKeepsInv(s, es[0]);
      RunsKeepInv(Step(s, es[0]), es[1..]);
    }
  }

  lemma {:induction false} ReachedKeepsInv(s: State, t: State)
    requires Inv(s) && Reached(s, t)
    ensures Inv(t)
  {
    var es :| Runs(s, es) && Exec(s, es) == t;
    RunsKeepInv(s, es);
  }

  /** The invariant holds in every reachable state. */
  lemma {:induction false} ReachableInv(s0: State, es: seq<Event>)
    requires IsInitial(s0) && Runs(s0, es)
    ensures Inv(Exec(s0, es))
  {
    RunsKeepInv(s0, es);
  }

  lemma {:induction false} PendingSome(tasks: seq<Task>, t: Task)
    requires t in tasks
    ensures t.action in PendingTasks(tasks, t.device)
  {
    if tasks[0] != t {
      assert t in tasks[1..];
      PendingSome(tasks[1..], t);
    }
  }

  /** A device that anything in progress will still touch: the list, a task, the worker, a callback, the cleanup. */
  predicate Reaches(s: State, d: nat) {
    || d in s.list
    || (exists t :: t in s.tasks && t.device == d)
    || WorkerRef(s.worker, d) > 0 || CallbackRef(s.callback, d) > 0 || CleanupRef(s.cleanup, d) > 0
  }

  /**
    In every reachable state a device's reference count is the number of its holders,
    no device is deleted twice, and one that can still be reached is not deleted.
  */
  lemma {:induction false} ReferencesAreExact(s0: State, es: seq<Event>, d: nat)
    requires IsInitial(s0) && Runs(s0, es) && d < |Exec(s0, es).heap|
    ensures var s := Exec(s0, es);
      && s.heap[d].refs == Holders(s, d)
      && s.heap[d].deletions <= 1
      && (Reaches(s, d) ==> s.heap[d].refs > 0 && s.heap[d].deletions == 0)
  {
    ReachableInv(s0, es);
    var s := Exec(s0, es);
    assert RefsInv(s, d);
    if t :| t in s.tasks && t.device == d {
      PendingSome(s.tasks, t);
    }
  }

  /** What a device was told, in order, is a prefix of Start, Stop; listed names are distinct. */
  lemma {:induction false} ActionsAreOrdered(s0: State, es: seq<Event>, d: nat)
    requires IsInitial(s0) && Runs(s0, es) && d < |Exec(s0, es).heap|
    ensures var s := Exec(s0, es);
      && s.heap[d].actions <= [Start, Stop]
      && (s.heap[d].actions != [] ==> s.heap[d].inserted)
      && DistinctNames(s.heap, s.list)
  {
    ReachableInv(s0, es);
    var s := Exec(s0, es);
    assert ActionsInv(s, d);
    assert s.heap[d].actions <= s.heap[d].actions + Pending(s, d) <= [Start, Stop];
  }

  /** A waiting task always has a queued work item, or a worker that has not yet seen an empty list. */
  lemma {:induction false} NoLostWakeup(s0: State, es: seq<Event>)
    requires IsInitial(s0) && Runs(s0, es)
    ensures var s := Exec(s0, es);
      s.tasks != [] ==> s.queued || !(s.worker.Idle? || s.worker.Leaving?)
  {
    ReachableInv(s0, es);
  }

  /** What the invariant says of an adapter whose cleanup has returned. */
  lemma {:induction false} NothingIsLeft(s: State)
    requires Inv(s) && s.cleanup.Returned?
    ensures s.list == [] && s.tasks == [] && s.poolOut == 0
    ensures !s.queued && s.worker.Idle? && s.callback.NoCallback?
    ensures forall d :: 0 <= d < |s.heap| ==>
              s.heap[d].deletions == 1 && s.heap[d].actions == if s.heap[d].inserted then [Start, Stop] else []
  {
    forall d | 0 <= d < |s.heap|
      ensures s.heap[d].deletions == 1
      ensures s.heap[d].actions == if s.heap[d].inserted then [Start, Stop] else []
    {
      assert RefsInv(s, d) && ActionsInv(s, d);
      assert s.heap[d].actions + Pending(s, d) == s.heap[d].actions;
    }
  }

  /** When cleanup has returned nothing is left: every device was deleted exactly once, after Start and Stop. */
  lemma {:induction false} CleanupLeavesNothing(s0: State, es: seq<Event>)
    requires IsInitial(s0) && Runs(s0, es) && Exec(s0, es).cleanup.Returned?
    ensures var s := Exec(s0, es);
      && s.list == [] && s.tasks == [] && s.poolOut == 0
      && !s.queued && s.worker.Idle? && s.callback.NoCallback?
      && forall d :: 0 <= d < |s.heap| ==>
           s.heap[d].deletions == 1 && s.heap[d].actions == if s.heap[d].inserted then [Start, Stop] else []
  {
    ReachableInv(s0, es);
    NothingIsLeft(Exec(s0, es));
  }

  // ---------- the order of tasks and of stops, by the events of a run ----------

  function RunBy(s: State, e: Event): seq<Task>
    requires Enabled(s, e)
  {
    if e.WorkerExecute? then [s.worker.task] else []
  }

  function AskedBy(s: State, e: Event): seq<Task>
    requires Enabled(s, e)
  {
    if e.ArrivalCommit? then [Task(s.callback.device, Start)]
    else if e.RemovalCommit? then [Task(s.callback.device, Stop)]
    else []
  }

  /** The tasks that the worker has run, in order. */
  function Ran(s: State, es: seq<Event>): seq<Task>
    requires Runs(s, es)
    decreases |es|
  {
    if es == [] then [] else RunBy(s, es[0]) + Ran(Step(s, es[0]), es[1..])
  }

  /** What arrivals and removals have asked for, in order: a start for each device listed, a stop for each one unlisted. */
  function Asked(s: State, es: seq<Event>): seq<Task>
    requires Runs(s, es)
    decreases |es|
  {
    if es == [] then [] else AskedBy(s, es[0]) + Asked(Step(s, es[0]), es[1..])
  }

  /** The tasks that were not run yet. */
  function Todo(s: State): seq<Task> {
    (if s.worker.Holding? then [s.worker.task] else []) + s.tasks
  }

  lemma {:induction false} CommitInTurn(s: State)
    ensures s.callback.ArrivalTask? ==> Todo(Arrived(s)) == Todo(s) + [Task(s.callback.device, Start)]
    ensures s.callback.RemovalTask? ==> Todo(Removed(s)) == Todo(s) + [Task(s.callback.device, Stop)]
  {
  }

  lemma {:induction false} WorkInTurn(s: State)
    ensures s.worker.Looping? ==> Todo(Taken(s)) == Todo(s)
    ensures s.worker.Holding? ==> Todo(s) == [s.worker.task] + Todo(TaskRun(s))
    ensures s.worker.Executed? ==> Todo(TaskReleased(s)) == Todo(s)
  {
    if s.worker.Looping? && s.tasks != [] {
      assert s.tasks == [s.tasks[0]] + s.tasks[1..];
    }
  }

  lemma {:induction false} OtherInTurn(s: State, e: Event)
    requires Enabled(s, e) && !e.ArrivalCommit? && !e.RemovalCommit?
    requires !e.WorkerTake? && !e.WorkerExecute? && !e.WorkerRelease?
    ensures Todo(Step(s, e)) == Todo(s)
  {
    assert Step(s, e).tasks == s.tasks;
  }

  lemma {:induction false} StepInTurn(s: State, e: Event)
    requires Enabled(s, e)
    ensures Todo(s) + AskedBy(s, e) == RunBy(s, e) + Todo(Step(s, e))
  {
    match e
    case ArrivalCommit | RemovalCommit => CommitInTurn(s);
    case WorkerTake | WorkerExecute | WorkerRelease => WorkInTurn(s);
    case _ => OtherInTurn(s, e);
  }

  /** In every interleaving the tasks are run in the order in which they were asked for, and none is left out. */
  lemma {:induction false} TasksRunInTurn(s: State, es: seq<Event>)
    requires Runs(s, es)
    ensures Todo(s) + Asked(s, es) == Ran(s, es) + Todo(Exec(s, es))
    decreases |es|
  {
    if es != [] {
      var t := Step(s, es[0]);
      StepInTurn(s, es[0]);
      TasksRunInTurn(t, es[1..]);
      InTurn(Todo(s), AskedBy(s, es[0]), Asked(t, es[1..]), RunBy(s, es[0]), Todo(t), Ran(t, es[1..]), Todo(Exec(s, es)));
    }
  }

  lemma {:induction false} InTurn(a: seq<Task>, b: seq<Task>, c: seq<Task>, d: seq<Task>, e: seq<Task>, f: seq<Task>, g: seq<Task>)
    requires a + b == d + e && e + c == f + g
    ensures a + (b + c) == d + f + g
  {
    assert a + (b + c) == a + b + c == d + (e + c) == d + (f + g);
  }

  /** The devices that the cleanup has stopped, in order. */
  function Stops(s: State, es: seq<Event>): seq<nat>
    requires Runs(s, es)
    decreases |es|
  {
    if es == [] then []
    else (if es[0].CleanupStop? then [s.cleanup.device] else []) + Stops(Step(s, es[0]), es[1..])
  }

  /** The cleanup has come to its loop over the devices. */
  predicate Emptying(s: State) {
    s.cleanup.Draining? || s.cleanup.Stopping? || s.cleanup.Releasing? || s.cleanup.Returned?
  }

  function ToStop(s: State): seq<nat> {
    (if s.cleanup.Stopping? then [s.cleanup.device] else []) + s.list
  }

  lemma {:induction false} StepStopsInOrder(s: State, e: Event)
    requires Inv(s) && Enabled(s, e) && Emptying(s)
    ensures Emptying(Step(s, e))
    ensures ToStop(s) == (if e.CleanupStop? then [s.cleanup.device] else []) + ToStop(Step(s, e))
  {
  }

  lemma {:induction false} StopsSoFar(s: State, es: seq<Event>)
    requires Inv(s) && Emptying(s) && Runs(s, es)
    ensures ToStop(s) == Stops(s, es) + ToStop(Exec(s, es))
    decreases |es|
  {
    if es != [] {
      var stop := if es[0].CleanupStop? then [s.cleanup.device] else [];
      var t := Step(s, es[0]);
      StepStopsInOrder(s, es[0]);
      StepKeepsInv(s, es[0]);
      StopsSoFar(t, es[1..]);
      assert stop + (Stops(t, es[1..]) + ToStop(Exec(s, es))) == stop + Stops(t, es[1..]) + ToStop(Exec(s, es));
    }
  }

  /**
    In every interleaving the cleanup stops the listed devices from first to last, and when it has returned it has
    stopped them all.
  */
  lemma {:induction false} DevicesStopInOrder(s: State, es: seq<Event>)
    requires Inv(s) && s.cleanup.Draining? && Runs(s, es)
    ensures Stops(s, es) <= s.list
    ensures Exec(s, es).cleanup.Returned? ==> Stops(s, es) == s.list
  {
    StopsSoFar(s, es);
    assert ToStop(s) == s.list;
    RunsKeepInv(s, es);
    ReturnedHasNone(Exec(s, es));
  }

  lemma {:induction false} ReturnedHasNone(s: State)
    requires Inv(s)
    ensures s.cleanup.Returned? ==> ToStop(s) == []
  {
  }

  /** The release inside the removal's mutex section is never the last one. */
  lemma {:induction false} RemovalReleaseIsNotLast(s0: State, es: seq<Event>)
    requires IsInitial(s0) && Runs(s0, es) && Exec(s0, es).callback.RemovalTask?
    ensures var s := Exec(s0, es); var d := s.callback.device;
      d < |s.heap| && Removed(s).heap[d].refs >= 1 && Removed(s).heap[d].deletions == 0
  {
    ReachableInv(s0, es);
    var s := Exec(s0, es);
    assert RefsInv(s, s.callback.device);
  }

  /** The release in the cleanup loop is always the last one. */
  lemma {:induction false} CleanupReleaseIsLast(s0: State, es: seq<Event>)
    requires IsInitial(s0) && Runs(s0, es) && Exec(s0, es).cleanup.Releasing?
    ensures var s := Exec(s0, es); var d := s.cleanup.device;
      d < |s.heap| && s.heap[d].refs == 1 && CleanupReleased(s).heap[d].deletions == 1
  {
    ReachableInv(s0, es);
    var s := Exec(s0, es);
    var d := s.cleanup.device;
    assert RefsInv(s, d);
    assert s.tasks == [];
  }

  predicate Extends(s: State, t: State, d: nat) {
    && d < |s.heap| && d < |t.heap| && t.heap[d].name == s.heap[d].name
    && s.heap[d].actions <= t.heap[d].actions && s.heap[d].deletions <= t.heap[d].deletions
  }

  lemma {:induction false} LookupsExtend(s: State, d: nat)
    requires d < |s.heap|
    ensures s.callback.ArrivalBegun? ==> Extends(s, ArrivalLooked(s), d)
    ensures s.callback.RemovalBegun? ==> Extends(s, RemovalLooked(s), d)
  {
  }

  lemma {:induction false} CreationExtends(s: State, ok: bool, d: nat)
    requires d < |s.heap|
    ensures s.callback.ArrivalAbsent? ==> Extends(s, Created(s, ok), d)
    ensures s.callback.ArrivalNew? ==> Extends(s, Initialized(s, ok), d)
  {
  }

  lemma {:induction false} DropExtends(s: State, d: nat)
    requires d < |s.heap| && (s.callback.ArrivalFound? || s.callback.ArrivalFailed? || s.callback.RemovalFailed?)
    ensures Extends(s, CallbackDrops(s), d)
  {
  }

  lemma {:induction false} CommitExtends(s: State, d: nat)
    requires d < |s.heap|
    ensures s.callback.ArrivalTask? ==> Extends(s, Arrived(s), d)
    ensures s.callback.RemovalTask? ==> Extends(s, Removed(s), d)
  {
  }

  lemma {:induction false} WorkerExtends(s: State, d: nat)
    requires d < |s.heap|
    ensures s.worker.Holding? ==> Extends(s, TaskRun(s), d)
    ensures s.worker.Executed? ==> Extends(s, TaskReleased(s), d)
  {
  }

  lemma {:induction false} CleanupExtends(s: State, d: nat)
    requires d < |s.heap|
    ensures s.cleanup.Stopping? ==> Extends(s, CleanupStopped(s), d)
    ensures s.cleanup.Releasing? ==> Extends(s, CleanupReleased(s), d)
  {
  }

  lemma {:induction false} StepExtends(s: State, e: Event, d: nat)
    requires Enabled(s, e) && d < |s.heap|
    ensures Extends(s, Step(s, e), d)
  {
    match e
    case ArrivalFind | RemovalFind => LookupsExtend(s, d);
    case ArrivalCreate(ok) => CreationExtends(s, ok, d);
    case ArrivalInit(ok) => CreationExtends(s, ok, d);
    case ArrivalDrop | ArrivalFail | RemovalFail => DropExtends(s, d);
    case ArrivalCommit | RemovalCommit => CommitExtends(s, d);
    case WorkerExecute | WorkerRelease => WorkerExtends(s, d);
    case CleanupStop | CleanupRelease => CleanupExtends(s, d);
    case _ => assert Step(s, e).heap == s.heap;
  }

  /** The record of a device only grows: what was run stays run, what was deleted stays deleted. */
  lemma {:induction false} HistoryGrows(s: State, es: seq<Event>, d: nat)
    requires Runs(s, es) && d < |s.heap|
    ensures Extends(s, Exec(s, es), d)
    decreases |es|
  {
    if es == [] {
    } else {
      StepExtends(s, es[0], d);
      HistoryGrows(Step(s, es[0]), es[1..], d);
    }
  }

  // ---------- cleanup returns ----------

  /** No callback is left and none can begin. */
  predicate Unregistered(s: State) {
    !s.cleanup.NotStarted? && !s.cleanup.Unregistering?
  }

  function WorkerWeight(w: Worker): nat {
    match w
    case Idle => 0
    case Leaving => 1
    case Looping => 2
    case Released(_) => 3
    case Executed(_) => 4
    case Holding(_) => 5
  }

  function CleanupWeight(c: Cleanup): nat {
    match c
    case Returned => 0
    case Draining => 1
    case Releasing(_) => 2
    case Stopping(_) => 3
    case _ => 2
  }

  function Measure(s: State): nat {
    4 * |s.tasks| + WorkerWeight(s.worker) + (if s.queued then 3 else 0)
    + 3 * |s.list| + CleanupWeight(s.cleanup)
  }

  lemma {:induction false} StepDecreases(s: State, e: Event)
    requires Inv(s) && Unregistered(s) && Enabled(s, e)
    ensures Unregistered(Step(s, e)) && Measure(Step(s, e)) < Measure(s)
  {
  }

  lemma {:induction false} ReturnedIsStuck(s: State, e: Event)
    requires Inv(s) && s.cleanup.Returned?
    ensures !Enabled(s, e)
  {
  }

  lemma {:induction false} FlushingGoesOn(s: State)
    requires s.cleanup.Flushing?
    ensures exists e :: Enabled(s, e)
  {
    match s.worker
    case Idle => assert Enabled(s, if s.queued then WorkerBegin else CleanupFlush);
    case Looping => assert Enabled(s, WorkerTake);
    case Holding(_) => assert Enabled(s, WorkerExecute);
    case Executed(_) => assert Enabled(s, WorkerRelease);
    case Released(_) => assert Enabled(s, WorkerFree);
    case Leaving => assert Enabled(s, WorkerReturn);
  }

  /** The only stuck state is the one in which cleanup has returned. */
  lemma {:induction false} CleanupProgress(s: State)
    requires Inv(s) && Unregistered(s)
    ensures s.cleanup.Returned? <==> forall e :: !Enabled(s, e)
  {
    match s.cleanup
    case Returned => forall e ensures !Enabled(s, e) { ReturnedIsStuck(s, e); }
    case Flushing => FlushingGoesOn(s);
    case Draining => assert Enabled(s, CleanupTake);
    case Stopping(_) => assert Enabled(s, CleanupStop);
    case Releasing(_) => assert Enabled(s, CleanupRelease);
  }

  /** Once unregistered, no interleaving takes more steps than the measure, and none stops before cleanup returns. */
  lemma {:induction false} CleanupTerminates(s: State, es: seq<Event>)
    requires Inv(s) && Unregistered(s) && Runs(s, es)
    ensures |es| <= Measure(s)
    ensures Exec(s, es).cleanup.Returned? <==> forall e :: !Enabled(Exec(s, es), e)
    decreases |es|
  {
    if es == [] {
      CleanupProgress(s);
    } else {
      StepDecreases(s, es[0]);
      StepKeepsInv(s, es[0]);
      CleanupTerminates(Step(s, es[0]), es[1..]);
    }
  }
}
