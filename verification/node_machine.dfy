/**
 The pod mounter's goroutines as one machine: any number of Mount, Unmount,
 rebind, cleanup, late-adoption and recovery runs interleave over the binds
 map, the kernel mount table, the workload lists of the HFMount objects and
 the per-source locks. A step is one section under the mounter's own mutex,
 one system call, one API call or one lock operation.
 */
module NodeMachine {
  import opened GoStrings
  import opened MountTable
  import L = SourceLock

  type Tid = L.Tid

  const MOUNT_BASE := "/var/lib/hf-csi-driver/mnt"
  const MOUNT_POD_PREFIX := "hf-mount-"
  const CRD_PREFIX := "hfm-"

  /** Source mount of a target: `id` stands for the hash that names its volume, and need not be injective. */
  function Source(id: Path -> string, target: Path): Path {
    MOUNT_BASE + "/" + id(target)
  }

  predicate IsSource(p: Path) {
    HasPrefix(p, MOUNT_BASE + "/")
  }

  /** A publish target: any path outside the driver's own mount directory. */
  predicate IsTarget(p: Path) {
    !IsSource(p)
  }

  predicate For(id: Path -> string, target: Path, source: Path) {
    IsTarget(target) && Source(id, target) == source
  }

  // ----- Goroutines

  datatype MountPc = MBody | MBound | MEnd

  /**
   `source` is the key Unmount acquired; `relKey` the variable its deferred release reads;
   `pop` the source mount it may detach.
   */
  datatype UnmountPc =
    | URead
    | UBody(source: Path)
    | UClean(source: Path, relKey: string, pop: Option<Path>)
    | UEnd(source: Path, relKey: string)

  /** `layers` and `top` are what the probe saw: the target's stack and the source's top mount. */
  datatype RebindPc =
    | RStart
    | RLoop(todo: set<Path>)
    | RProbe(x: Path, todo: set<Path>)
    | RBind(x: Path, layers: seq<Backing>, top: Option<Backing>, todo: set<Path>)
    | RDetached(x: Path, todo: set<Path>)
    | REnd

  datatype CleanupPc = CStart | CDrop(refs: set<Path>) | CPop | CStale(stale: set<Path>) | CEnd

  datatype AdoptPc = AStart | AFound(refs: set<Path>) | ARestored(refs: set<Path>)

  datatype Task =
    | Mount(target: Path, mpc: MountPc)
    | Unmount(target: Path, upc: UnmountPc)
    | Rebind(source: Path, rpc: RebindPc)
    | Cleanup(source: Path, cpc: CleanupPc)
    | Adopt(source: Path, recover: bool, apc: AdoptPc)

  /**
   `owner` names the source whose daemon created a backing; `crds` the targets listed in
   each source's HFMount object.
   */
  datatype State = State(locks: L.LockSys, binds: map<Path, Path>, rows: Table, owner: map<Backing, Path>,
                         crds: map<Path, set<Path>>, tasks: map<Tid, Task>)

  const INIT := State(L.EMPTY_SYS, map[], [], map[], map[], map[])

  datatype Step =
    // the world: a daemon mounts or remounts its source, a detach without the lock, list entries
    // vanish, the plugin restarts
    | DaemonMounts(source: Path, b: Backing)
    | UnlockedPop(source: Path)
    | CrdShrinks(crds: map<Path, set<Path>>)
    | Restart
    | Spawn(t: Tid, task: Task)
    // the lock around a run
    | DoAcquire(t: Tid)
    | DoLock(t: Tid)
    | DoUnlock(t: Tid)
    | DoRelease(t: Tid)
    // Mount
    | AddWorkload(t: Tid)
    | MountDetach(t: Tid)
    | MountBind(t: Tid, b: Backing)
    | MountRecord(t: Tid)
    | MountFail(t: Tid)
    // Unmount
    | ReadSource(t: Tid)
    | UnmountPop(t: Tid)
    | UnmountFail(t: Tid)
    | UnmountCommit(t: Tid)
    | UnmountPopSource(t: Tid)
    | UnmountDone(t: Tid)
    // rebindTargets
    | Snapshot(t: Tid)
    | Recheck(t: Tid, x: Path)
    | Probe(t: Tid)
    | RebindDetach(t: Tid)
    | RebindBind(t: Tid, b: Backing)
    | RebindSkip(t: Tid)
    | RebindDone(t: Tid)
    // cleanupSource
    | ListRefs(t: Tid, refs: set<Path>)
    | PopRef(t: Tid, x: Path)
    | DropRef(t: Tid, x: Path)
    | RefsGone(t: Tid)
    | PopSource(t: Tid)
    | Untrack(t: Tid)
    | PopStale(t: Tid, x: Path)
    | CleanupDone(t: Tid)
    // lateAdopt and recoverPod
    | FindRefs(t: Tid, refs: set<Path>)
    | ReadCrd(t: Tid, extra: set<Path>)
    | RecordRefs(t: Tid)
    | SyncCrd(t: Tid, x: Path)
    | AdoptDone(t: Tid)

  // ----- What a step needs

  predicate Starting(task: Task) {
    match task
    case Mount(target, pc) => pc == MBody && IsTarget(target)
    case Unmount(target, pc) => pc == URead && IsTarget(target)
    case Rebind(source, pc) => pc == RStart && IsSource(source)
    case Cleanup(source, pc) => pc == CStart && IsSource(source)
    case Adopt(source, _, pc) => pc == AStart && IsSource(source)
  }

  predicate BeforeLock(task: Task) {
    match task
    case Mount(_, pc) => pc.MBody?
    case Unmount(_, pc) => pc.UBody?
    case Rebind(_, pc) => pc.RStart?
    case Cleanup(_, pc) => pc.CStart?
    case Adopt(_, _, _) => false
  }

  predicate AtEnd(task: Task) {
    match task
    case Mount(_, pc) => pc.MEnd?
    case Unmount(_, pc) => pc.UEnd?
    case Rebind(_, pc) => pc.REnd?
    case Cleanup(_, pc) => pc.CEnd?
    case Adopt(_, _, _) => false
  }

  predicate Locks(task: Task) {
    !task.Adopt? && !(task.Unmount? && task.upc.URead?)
  }

  function LockKey(id: Path -> string, task: Task): Path
    requires Locks(task)
  {
    match task
    case Mount(target, _) => Source(id, target)
    case Unmount(_, pc) => pc.source
    case Rebind(source, _) => source
    case Cleanup(source, _) => source
  }

  /** The key the deferred release runs with. */
  function ReleaseKey(id: Path -> string, task: Task): Path
    requires Locks(task)
  {
    if task.Unmount? && task.upc.UEnd? then task.upc.relKey else LockKey(id, task)
  }

  predicate Runs(s: State, t: Tid) {
    t in s.tasks && t in s.locks.pcs && s.locks.pcs[t].Holding?
  }

  /** What a bind of `source` shows: its top mount, or the plain directory if nothing is mounted there. */
  predicate ShownAt(s: State, source: Path, b: Backing) {
    if Mounted(s.rows, source) then Top(s.rows, source) == Some(b) else b !in s.owner
  }

  /** A mount reference of `source`: some mount there is backed by one of its superblocks. */
  predicate RefOf(s: State, source: Path, x: Path) {
    exists i | 0 <= i < |s.rows| :: s.rows[i].path == x && s.rows[i].backing in s.owner
        && s.owner[s.rows[i].backing] == source
  }

  ghost predicate Can(id: Path -> string, s: State, step: Step) {
    match step
    case DaemonMounts(source, b) =>
      IsSource(source) && forall i :: 0 <= i < |s.rows| ==> s.rows[i].backing != b
    case UnlockedPop(source) => IsSource(source)
    case CrdShrinks(crds) => forall k :: k in crds ==> k in s.crds && crds[k] <= s.crds[k]
    case Restart => true
    case Spawn(t, task) => t !in s.tasks && t !in s.locks.pcs && Starting(task)
    case DoAcquire(t) => t in s.tasks && t !in s.locks.pcs && BeforeLock(s.tasks[t])
    case DoLock(t) => L.Enabled(s.locks, L.Lock(t))
    case DoUnlock(t) => Runs(s, t) && AtEnd(s.tasks[t])
    case DoRelease(t) => t in s.tasks && t in s.locks.pcs && s.locks.pcs[t].Releasing? && Locks(s.tasks[t])
    case AddWorkload(t) => Runs(s, t) && s.tasks[t].Mount? && s.tasks[t].mpc.MBody?
    case MountDetach(t) => Runs(s, t) && s.tasks[t].Mount? && s.tasks[t].mpc.MBody?
    case MountBind(t, b) =>
      Runs(s, t) && s.tasks[t].Mount? && s.tasks[t].mpc.MBody? && ShownAt(s, Source(id, s.tasks[t].target), b)
    case MountRecord(t) => Runs(s, t) && s.tasks[t].Mount? && s.tasks[t].mpc.MBound?
    case MountFail(t) => Runs(s, t) && s.tasks[t].Mount? && s.tasks[t].mpc.MBody?
    case ReadSource(t) => t in s.tasks && s.tasks[t].Unmount? && s.tasks[t].upc.URead?
    case UnmountPop(t) => Runs(s, t) && s.tasks[t].Unmount? && s.tasks[t].upc.UBody?
    case UnmountFail(t) => Runs(s, t) && s.tasks[t].Unmount? && s.tasks[t].upc.UBody?
    case UnmountCommit(t) =>
      Runs(s, t) && s.tasks[t].Unmount? && s.tasks[t].upc.UBody? && !Mounted(s.rows, s.tasks[t].target)
    case UnmountPopSource(t) => Runs(s, t) && s.tasks[t].Unmount? && s.tasks[t].upc.UClean? && s.tasks[t].upc.pop.Some?
    case UnmountDone(t) => Runs(s, t) && s.tasks[t].Unmount? && s.tasks[t].upc.UClean?
    case Snapshot(t) => Runs(s, t) && s.tasks[t].Rebind? && s.tasks[t].rpc.RStart?
    case Recheck(t, x) => Runs(s, t) && s.tasks[t].Rebind? && s.tasks[t].rpc.RLoop? && x in s.tasks[t].rpc.todo
    case Probe(t) => Runs(s, t) && s.tasks[t].Rebind? && s.tasks[t].rpc.RProbe?
    case RebindDetach(t) => Runs(s, t) && s.tasks[t].Rebind? && (s.tasks[t].rpc.RBind? || s.tasks[t].rpc.RDetached?)
    case RebindBind(t, b) =>
      Runs(s, t) && s.tasks[t].Rebind? && (s.tasks[t].rpc.RBind? || s.tasks[t].rpc.RDetached?)
      && ShownAt(s, s.tasks[t].source, b)
    case RebindSkip(t) => Runs(s, t) && s.tasks[t].Rebind? && (s.tasks[t].rpc.RBind? || s.tasks[t].rpc.RDetached?)
    case RebindDone(t) => Runs(s, t) && s.tasks[t].Rebind? && (s.tasks[t].rpc.RStart? || s.tasks[t].rpc.RLoop?)
    case ListRefs(t, refs) =>
      Runs(s, t) && s.tasks[t].Cleanup? && s.tasks[t].cpc.CStart?
      && forall x :: x in refs ==> RefOf(s, s.tasks[t].source, x)
    case PopRef(t, x) =>
      Runs(s, t) && s.tasks[t].Cleanup? && s.tasks[t].cpc.CDrop? && x in s.tasks[t].cpc.refs && PodUID(x) != ""
    case DropRef(t, x) =>
      Runs(s, t) && s.tasks[t].Cleanup? && s.tasks[t].cpc.CDrop? && x in s.tasks[t].cpc.refs && PodUID(x) != ""
      && !Mounted(s.rows, x)
    case RefsGone(t) => Runs(s, t) && s.tasks[t].Cleanup? && s.tasks[t].cpc == CDrop({})
    case PopSource(t) => Runs(s, t) && s.tasks[t].Cleanup? && s.tasks[t].cpc.CPop?
    case Untrack(t) => Runs(s, t) && s.tasks[t].Cleanup? && s.tasks[t].cpc.CPop?
    case PopStale(t, x) => Runs(s, t) && s.tasks[t].Cleanup? && s.tasks[t].cpc.CStale? && x in s.tasks[t].cpc.stale
    case CleanupDone(t) =>
      Runs(s, t) && s.tasks[t].Cleanup? && (s.tasks[t].cpc.CStart? || s.tasks[t].cpc.CStale?
      || (s.tasks[t].cpc.CDrop? && s.tasks[t].cpc.refs != {}))
    case FindRefs(t, refs) =>
      t in s.tasks && s.tasks[t].Adopt? && s.tasks[t].apc.AStart?
      && forall x :: x in refs ==> RefOf(s, s.tasks[t].source, x)
    case ReadCrd(t, extra) =>
      t in s.tasks && s.tasks[t].Adopt? && s.tasks[t].recover && s.tasks[t].apc.AFound? && s.tasks[t].source in s.crds
      && extra <= s.crds[s.tasks[t].source]
    case RecordRefs(t) => t in s.tasks && s.tasks[t].Adopt? && s.tasks[t].apc.AFound?
    case SyncCrd(t, x) =>
      t in s.tasks && s.tasks[t].Adopt? && !s.tasks[t].recover && s.tasks[t].apc.ARestored? && x in s.tasks[t].apc.refs
    case AdoptDone(t) => t in s.tasks && s.tasks[t].Adopt?
  }

  /** Pod UID of a kubelet target path, "" if the path has another layout. */
  function PodUID(target: Path): string {
    var prefix := "/var/lib/kubelet/pods/";
    if !HasPrefix(target, prefix) then ""
    else
      var rest := target[|prefix|..];
      var end := IndexByte(rest, '/');
      if end == |rest| then "" else rest[..end]
  }

  /** The UID is the path element behind the kubelet's pods directory; other paths have none. */
  lemma PodUIDMeans(target: Path, uid: string, rest: string)
    requires '/' !in uid
    ensures PodUID("/var/lib/kubelet/pods/" + uid + "/" + rest) == uid
    ensures !("/var/lib/kubelet/pods/" <= target) ==> PodUID(target) == ""
  {
    var prefix := "/var/lib/kubelet/pods/";
    assert (prefix + uid + "/" + rest)[|prefix|..] == uid + ['/'] + rest;
    IndexByteFirst(uid, '/', rest);
  }

  // ----- What a step does to each part of the state

  datatype RowOp = NoRow | PushRow(path: Path, b: Backing) | PopRow(path: Path)

  function RowOpOf(id: Path -> string, s: State, step: Step): RowOp
    requires Can(id, s, step)
  {
    match step
    case DaemonMounts(source, b) => PushRow(source, b)
    case UnlockedPop(source) => PopRow(source)
    case MountDetach(t) => PopRow(s.tasks[t].target)
    case MountBind(t, b) => PushRow(s.tasks[t].target, b)
    case UnmountPop(t) => PopRow(s.tasks[t].target)
    case UnmountPopSource(t) => PopRow(s.tasks[t].upc.pop.value)
    case RebindDetach(t) => PopRow(s.tasks[t].rpc.x)
    case RebindBind(t, b) => PushRow(s.tasks[t].rpc.x, b)
    case PopRef(_, x) => PopRow(x)
    case PopSource(t) => PopRow(s.tasks[t].source)
    case PopStale(_, x) => PopRow(x)
    case _ => NoRow
  }

  function ApplyRow(rows: Table, op: RowOp): Table {
    match op
    case NoRow => rows
    case PushRow(p, b) => Push(rows, p, b)
    case PopRow(p) => Pop(rows, p)
  }

  function NextBinds(id: Path -> string, s: State, step: Step): map<Path, Path>
    requires Can(id, s, step)
  {
    match step
    case Restart => map[]
    case MountRecord(t) => s.binds[s.tasks[t].target := Source(id, s.tasks[t].target)]
    case UnmountCommit(t) => s.binds - {s.tasks[t].target}
    case DropRef(_, x) => s.binds - {x}
    case Untrack(t) => s.binds - Tracked(s.binds, s.tasks[t].source)
    case RecordRefs(t) =>
      var found := s.tasks[t].apc.refs - {s.tasks[t].source};
      if s.tasks[t].recover then s.binds + (map x | x in found :: s.tasks[t].source)
      else (map x | x in found :: s.tasks[t].source) + s.binds
    case _ => s.binds
  }

  function Tracked(binds: map<Path, Path>, source: Path): set<Path> {
    set x | x in binds && binds[x] == source
  }

  function Listed(crds: map<Path, set<Path>>, source: Path): set<Path> {
    if source in crds then crds[source] else {}
  }

  function NextCrds(id: Path -> string, s: State, step: Step): map<Path, set<Path>>
    requires Can(id, s, step)
  {
    match step
    case CrdShrinks(crds) => crds
    case AddWorkload(t) =>
      var source := Source(id, s.tasks[t].target);
      s.crds[source := Listed(s.crds, source) + {s.tasks[t].target}]
    case SyncCrd(t, x) => s.crds[s.tasks[t].source := Listed(s.crds, s.tasks[t].source) + {x}]
    case _ => s.crds
  }

  function NextOwner(s: State, step: Step): map<Backing, Path> {
    if step.DaemonMounts? then s.owner[step.b := step.source] else s.owner
  }

  ghost function LockStepOf(id: Path -> string, s: State, step: Step): Option<L.LockStep>
    requires Can(id, s, step)
  {
    match step
    case DoAcquire(t) => Some(L.Acquire(t, LockKey(id, s.tasks[t])))
    case DoLock(t) => Some(L.Lock(t))
    case DoUnlock(t) => Some(L.Unlock(t))
    case DoRelease(t) => Some(L.Release(t, ReleaseKey(id, s.tasks[t])))
    case _ => None
  }

  /** The task of thread t after its step. */
  function NextTask(id: Path -> string, s: State, step: Step): Task
    requires Can(id, s, step)
    requires OwnStep(step) && step.t in s.tasks
  {
    var task := s.tasks[step.t];
    match step
    case MountBind(_, _) => task.(mpc := MBound)
    case MountRecord(_) => task.(mpc := MEnd)
    case MountFail(_) => task.(mpc := MEnd)
    case ReadSource(_) =>
      task.(upc := UBody(if task.target in s.binds then s.binds[task.target] else Source(id, task.target)))
    case UnmountFail(_) => task.(upc := UEnd(task.upc.source, task.upc.source))
    case UnmountCommit(_) =>
      if task.target in s.binds then
        var source := s.binds[task.target];
        var inUse := Tracked(s.binds - {task.target}, source) != {};
        task.(upc := UClean(task.upc.source, source, if inUse then None else Some(source)))
      else
        task.(upc := UClean(task.upc.source, "", Some(Source(id, task.target))))
    case UnmountDone(_) => task.(upc := UEnd(task.upc.source, task.upc.relKey))
    case Snapshot(_) => task.(rpc := RLoop(Tracked(s.binds, task.source)))
    case Recheck(_, x) =>
      var todo := task.rpc.todo - {x};
      task.(rpc := if x in s.binds && s.binds[x] == task.source then RProbe(x, todo) else RLoop(todo))
    case Probe(_) =>
      task.(rpc := if BoundTo(s.rows, task.rpc.x, task.source) then RLoop(task.rpc.todo)
                   else RBind(task.rpc.x, Layers(s.rows, task.rpc.x), Top(s.rows, task.source), task.rpc.todo))
    case RebindDetach(_) => task.(rpc := RDetached(task.rpc.x, task.rpc.todo))
    case RebindBind(_, _) => task.(rpc := RLoop(task.rpc.todo))
    case RebindSkip(_) => task.(rpc := RLoop(task.rpc.todo))
    case RebindDone(_) => task.(rpc := REnd)
    case ListRefs(_, refs) => task.(cpc := CDrop(refs))
    case DropRef(_, x) => task.(cpc := CDrop(task.cpc.refs - {x}))
    case RefsGone(_) => task.(cpc := CPop)
    case Untrack(_) => task.(cpc := CStale(Tracked(s.binds, task.source)))
    case CleanupDone(_) => task.(cpc := CEnd)
    case FindRefs(_, refs) => task.(apc := AFound(refs))
    case ReadCrd(_, extra) => task.(apc := AFound(task.apc.refs + extra))
    case RecordRefs(_) => task.(apc := ARestored(set x | x in task.apc.refs && x != task.source && x !in s.binds))
    case _ => task
  }

  ghost function NextTasks(id: Path -> string, s: State, step: Step): map<Tid, Task>
    requires Can(id, s, step)
  {
    match step
    case DaemonMounts(_, _) => s.tasks
    case UnlockedPop(_) => s.tasks
    case CrdShrinks(_) => s.tasks
    case Restart => map[]
    case Spawn(t, task) => s.tasks[t := task]
    case DoRelease(t) => s.tasks - {t}
    case AdoptDone(t) => s.tasks - {t}
    case _ => if step.t in s.tasks then s.tasks[step.t := NextTask(id, s, step)] else s.tasks
  }

  /** The lock step that goes with this step, if any, is one the lock protocol allows. */
  ghost predicate Disciplined(id: Path -> string, s: State, step: Step)
    requires Can(id, s, step)
  {
    match LockStepOf(id, s, step)
    case Some(l) => L.Counted(s.locks) && L.Enabled(s.locks, l)
    case None => true
  }

  ghost function NextLocks(id: Path -> string, s: State, step: Step): L.LockSys
    requires Can(id, s, step) && Disciplined(id, s, step)
  {
    if step.Restart? then L.EMPTY_SYS
    else match LockStepOf(id, s, step)
      case Some(l) => L.Apply(s.locks, l)
      case None => s.locks
  }

  ghost function Next(id: Path -> string, s: State, step: Step): State
    requires Can(id, s, step) && Disciplined(id, s, step)
  {
    State(NextLocks(id, s, step), NextBinds(id, s, step), ApplyRow(s.rows, RowOpOf(id, s, step)), NextOwner(s, step),
          NextCrds(id, s, step), NextTasks(id, s, step))
  }

  // ----- The invariant

  ghost predicate BindsBelong(id: Path -> string, binds: map<Path, Path>) {
    forall x :: x in binds ==> For(id, x, binds[x])
  }

  /** A path may show a superblock of `source` only if it is the source mount or a target of that source. */
  predicate MayShow(id: Path -> string, p: Path, source: Path) {
    p == source || For(id, p, source)
  }

  ghost predicate RowBelongs(id: Path -> string, row: Row, owner: map<Backing, Path>) {
    row.backing in owner ==> MayShow(id, row.path, owner[row.backing])
  }

  ghost predicate RowsBelong(id: Path -> string, rows: Table, owner: map<Backing, Path>) {
    forall i :: 0 <= i < |rows| ==> RowBelongs(id, rows[i], owner)
  }

  ghost predicate CrdsBelong(id: Path -> string, crds: map<Path, set<Path>>) {
    forall k :: k in crds ==> AllFor(id, crds[k], k)
  }

  ghost predicate AllFor(id: Path -> string, xs: set<Path>, source: Path) {
    forall x :: x in xs ==> For(id, x, source)
  }

  ghost predicate AllMayShow(id: Path -> string, xs: set<Path>, source: Path) {
    forall x :: x in xs ==> MayShow(id, x, source)
  }

  /** What a goroutine remembers between its steps stays true. */
  ghost predicate TaskBelongs(id: Path -> string, task: Task) {
    match task
    case Mount(target, _) => IsTarget(target)
    case Unmount(target, pc) =>
      && IsTarget(target)
      && (!pc.URead? ==> pc.source == Source(id, target))
      && (pc.UClean? || pc.UEnd? ==> pc.relKey == pc.source || pc.relKey == "")
      && (pc.UClean? && pc.pop.Some? ==> pc.pop.value == Source(id, target))
    case Rebind(source, pc) =>
      && IsSource(source)
      && (!pc.RStart? && !pc.REnd? ==> AllFor(id, pc.todo, source))
      && (pc.RProbe? || pc.RBind? || pc.RDetached? ==> For(id, pc.x, source))
    case Cleanup(source, pc) =>
      && IsSource(source)
      && (pc.CDrop? ==> AllMayShow(id, pc.refs, source))
      && (pc.CStale? ==> AllFor(id, pc.stale, source))
    case Adopt(source, _, pc) =>
      && IsSource(source)
      && (pc.AFound? ==> AllMayShow(id, pc.refs, source))
      && (pc.ARestored? ==> AllFor(id, pc.refs, source))
  }

  ghost predicate TasksBelong(id: Path -> string, tasks: map<Tid, Task>) {
    forall t :: t in tasks ==> TaskBelongs(id, tasks[t])
  }

  /** Everything the state says about targets and sources agrees with the naming of volumes. */
  ghost predicate Belongs(id: Path -> string, s: State) {
    && BindsBelong(id, s.binds) && RowsBelong(id, s.rows, s.owner) && CrdsBelong(id, s.crds) && TasksBelong(id, s.tasks)
    && (forall b :: b in s.owner ==> IsSource(s.owner[b]))
  }

  /** A goroutine between acquire and release is on its own key, and is done with its work before it unlocks. */
  ghost predicate OnItsLock(id: Path -> string, task: Task, pc: L.LockPc) {
    && Locks(task) && pc.key == LockKey(id, task)
    && (pc.Releasing? ==> AtEnd(task))
  }

  ghost predicate Envelope(id: Path -> string, pcs: map<Tid, L.LockPc>, tasks: map<Tid, Task>) {
    forall t :: t in pcs ==> t in tasks && OnItsLock(id, tasks[t], pcs[t])
  }

  predicate ProbedBound(pc: RebindPc)
    requires pc.RBind?
  {
    pc.layers != [] && pc.top == Some(pc.layers[|pc.layers| - 1])
  }

  predicate Probed(task: Task) {
    task.Rebind? && task.rpc.RBind?
  }

  ghost predicate ProbeHeld(s: State, t: Tid, pc: RebindPc)
    requires pc.RBind?
  {
    Runs(s, t) && Layers(s.rows, pc.x) == pc.layers && !ProbedBound(pc)
  }

  /** The stack a rebind probed, and found not bound, is still the target's stack when it comes to bind. */
  ghost predicate ProbeHolds(s: State) {
    forall t :: t in s.tasks && Probed(s.tasks[t]) ==> ProbeHeld(s, t, s.tasks[t].rpc)
  }

  ghost predicate Inv(id: Path -> string, s: State) {
    Belongs(id, s) && L.LockInv(s.locks) && Envelope(id, s.locks.pcs, s.tasks) && ProbeHolds(s)
  }

  lemma AcquireDisciplined(id: Path -> string, s: State, t: Tid)
    requires TasksBelong(id, s.tasks) && L.LockInv(s.locks) && Can(id, s, DoAcquire(t))
    ensures Disciplined(id, s, DoAcquire(t))
  {
  }

  /** The release key is the acquired one, or "" where Unmount re-read an untracked target. */
  lemma ReleaseDisciplined(id: Path -> string, s: State, t: Tid)
    requires TasksBelong(id, s.tasks) && L.LockInv(s.locks) && Envelope(id, s.locks.pcs, s.tasks)
             && Can(id, s, DoRelease(t))
    ensures Disciplined(id, s, DoRelease(t))
    ensures ReleaseKey(id, s.tasks[t]) == s.locks.pcs[t].key || ReleaseKey(id, s.tasks[t]) == ""
  {
    assert TaskBelongs(id, s.tasks[t]) && OnItsLock(id, s.tasks[t], s.locks.pcs[t]);
  }

  /** Whatever the goroutines do, their lock steps are ones the lock protocol allows. */
  lemma DisciplineHolds(id: Path -> string, s: State, step: Step)
    requires TasksBelong(id, s.tasks) && L.LockInv(s.locks) && Envelope(id, s.locks.pcs, s.tasks) && Can(id, s, step)
    ensures Disciplined(id, s, step)
  {
    if step.DoAcquire? {
      AcquireDisciplined(id, s, step.t);
    } else if step.DoRelease? {
      ReleaseDisciplined(id, s, step.t);
    }
  }

  // ----- Each step keeps each part

  lemma KeepsBinds(id: Path -> string, s: State, step: Step)
    requires Belongs(id, s) && Can(id, s, step)
    ensures BindsBelong(id, NextBinds(id, s, step))
  {
  }

  lemma KeepsCrds(id: Path -> string, s: State, step: Step)
    requires Belongs(id, s) && Can(id, s, step)
    ensures CrdsBelong(id, NextCrds(id, s, step))
  {
  }

  lemma {:induction false} TopIsRow(rows: Table, p: Path)
    requires Mounted(rows, p)
    ensures exists i :: 0 <= i < |rows| && rows[i].path == p && Some(rows[i].backing) == Top(rows, p)
  {
    var n := |rows| - 1;
    if rows[n].path != p {
      TopIsRow(rows[..n], p);
      var i :| 0 <= i < n && rows[..n][i].path == p && Some(rows[..n][i].backing) == Top(rows[..n], p);
      assert rows[i] == rows[..n][i];
    }
  }

  /** A bind of a source shows a superblock of that source or none of the driver's. */
  lemma ShownBelongs(id: Path -> string, s: State, source: Path, b: Backing)
    requires RowsBelong(id, s.rows, s.owner) && IsSource(source) && ShownAt(s, source, b) && b in s.owner
    ensures s.owner[b] == source
  {
    TopIsRow(s.rows, source);
    var i :| 0 <= i < |s.rows| && s.rows[i].path == source && Some(s.rows[i].backing) == Top(s.rows, source);
    assert RowBelongs(id, s.rows[i], s.owner);
  }

  lemma {:induction false} PopKeepsBelonging(id: Path -> string, rows: Table, owner: map<Backing, Path>, p: Path)
    requires RowsBelong(id, rows, owner)
    ensures RowsBelong(id, Pop(rows, p), owner)
  {
    if rows != [] {
      var n := |rows| - 1;
      assert RowsBelong(id, rows[..n], owner);
      PopKeepsBelonging(id, rows[..n], owner, p);
      assert RowBelongs(id, rows[n], owner);
    }
  }

  lemma SourceIsSource(id: Path -> string, target: Path)
    ensures IsSource(Source(id, target))
  {
  }

  /** Every mount a step pushes belongs where it is pushed. */
  lemma PushBelongs(id: Path -> string, s: State, step: Step)
    requires Belongs(id, s) && Can(id, s, step) && RowOpOf(id, s, step).PushRow?
    ensures var op := RowOpOf(id, s, step); RowBelongs(id, Row(op.path, op.b), NextOwner(s, step))
  {
    match step
    case DaemonMounts(_, _) =>
    case MountBind(t, b) =>
      assert TaskBelongs(id, s.tasks[t]);
      SourceIsSource(id, s.tasks[t].target);
      if b in s.owner { ShownBelongs(id, s, Source(id, s.tasks[t].target), b); }
    case RebindBind(t, b) =>
      assert TaskBelongs(id, s.tasks[t]);
      if b in s.owner { ShownBelongs(id, s, s.tasks[t].source, b); }
  }

  lemma FreshOwner(id: Path -> string, s: State, source: Path, b: Backing)
    requires RowsBelong(id, s.rows, s.owner) && Can(id, s, DaemonMounts(source, b))
    ensures RowsBelong(id, s.rows, s.owner[b := source])
  {
  }

  lemma KeepsRows(id: Path -> string, s: State, step: Step)
    requires Belongs(id, s) && Can(id, s, step)
    ensures RowsBelong(id, ApplyRow(s.rows, RowOpOf(id, s, step)), NextOwner(s, step))
  {
    var op := RowOpOf(id, s, step);
    if step.DaemonMounts? {
      FreshOwner(id, s, step.source, step.b);
    }
    match op
    case NoRow =>
    case PushRow(_, _) => PushBelongs(id, s, step);
    case PopRow(p) => PopKeepsBelonging(id, s.rows, s.owner, p);
  }

  lemma RefsBelong(id: Path -> string, s: State, source: Path, refs: set<Path>)
    requires RowsBelong(id, s.rows, s.owner) && forall x :: x in refs ==> RefOf(s, source, x)
    ensures AllMayShow(id, refs, source)
  {
    forall x | x in refs ensures MayShow(id, x, source) {
      var i :| 0 <= i < |s.rows| && s.rows[i].path == x && s.rows[i].backing in s.owner
          && s.owner[s.rows[i].backing] == source;
      assert RowBelongs(id, s.rows[i], s.owner);
    }
  }

  predicate OwnStep(step: Step) {
    !(step.DaemonMounts? || step.UnlockedPop? || step.CrdShrinks? || step.Restart? || step.Spawn?)
  }

  lemma KeepsMountTask(id: Path -> string, s: State, step: Step)
    requires Belongs(id, s) && Can(id, s, step) && OwnStep(step) && step.t in s.tasks
    requires s.tasks[step.t].Mount? || s.tasks[step.t].Unmount?
    ensures TaskBelongs(id, NextTask(id, s, step))
  {
  }

  lemma KeepsRebindTask(id: Path -> string, s: State, step: Step)
    requires Belongs(id, s) && Can(id, s, step) && OwnStep(step) && step.t in s.tasks && s.tasks[step.t].Rebind?
    ensures TaskBelongs(id, NextTask(id, s, step))
  {
  }

  lemma KeepsOtherTask(id: Path -> string, s: State, step: Step)
    requires Belongs(id, s) && Can(id, s, step) && OwnStep(step) && step.t in s.tasks
    requires s.tasks[step.t].Cleanup? || s.tasks[step.t].Adopt?
    ensures TaskBelongs(id, NextTask(id, s, step))
  {
    assert TaskBelongs(id, s.tasks[step.t]);
    match step
    case ListRefs(t, refs) => RefsBelong(id, s, s.tasks[t].source, refs);
    case FindRefs(t, refs) => RefsBelong(id, s, s.tasks[t].source, refs);
    case ReadCrd(t, extra) => assert AllFor(id, s.crds[s.tasks[t].source], s.tasks[t].source);
    case _ =>
  }

  lemma KeepsOwnTask(id: Path -> string, s: State, step: Step)
    requires Belongs(id, s) && Can(id, s, step) && OwnStep(step) && step.t in s.tasks
    ensures TaskBelongs(id, NextTask(id, s, step))
  {
    if s.tasks[step.t].Mount? || s.tasks[step.t].Unmount? {
      KeepsMountTask(id, s, step);
    } else if s.tasks[step.t].Rebind? {
      KeepsRebindTask(id, s, step);
    } else {
      KeepsOtherTask(id, s, step);
    }
  }

  lemma KeepsTasks(id: Path -> string, s: State, step: Step)
    requires Belongs(id, s) && Can(id, s, step)
    ensures TasksBelong(id, NextTasks(id, s, step))
  {
    if OwnStep(step) && step.t in s.tasks {
      KeepsOwnTask(id, s, step);
    }
    var tasks' := NextTasks(id, s, step);
    forall t | t in tasks' ensures TaskBelongs(id, tasks'[t]) {
      assert t in s.tasks ==> TaskBelongs(id, s.tasks[t]);
    }
  }

  lemma KeepsBelonging(id: Path -> string, s: State, step: Step)
    requires Belongs(id, s) && Can(id, s, step) && Disciplined(id, s, step)
    ensures Belongs(id, Next(id, s, step))
  {
    KeepsBinds(id, s, step);
    KeepsCrds(id, s, step);
    KeepsRows(id, s, step);
    KeepsTasks(id, s, step);
  }

  // ----- The lock around each run

  lemma KeepsLocks(id: Path -> string, s: State, step: Step)
    requires L.LockInv(s.locks) && Can(id, s, step) && Disciplined(id, s, step)
    ensures L.LockInv(NextLocks(id, s, step))
  {
    if LockStepOf(id, s, step).Some? {
      L.StepKeepsInv(s.locks, LockStepOf(id, s, step).value);
    }
  }

  /** A goroutine's own steps never change the key it holds. */
  lemma KeyStable(id: Path -> string, s: State, step: Step)
    requires Can(id, s, step) && OwnStep(step) && Runs(s, step.t) && Locks(s.tasks[step.t])
    ensures Locks(NextTask(id, s, step)) && LockKey(id, NextTask(id, s, step)) == LockKey(id, s.tasks[step.t])
  {
  }

  lemma KeepsEnvelopeOwn(id: Path -> string, s: State, step: Step)
    requires Envelope(id, s.locks.pcs, s.tasks) && Can(id, s, step) && OwnStep(step) && LockStepOf(id, s, step).None?
    ensures Envelope(id, s.locks.pcs, NextTasks(id, s, step))
  {
    var tasks' := NextTasks(id, s, step);
    forall t | t in s.locks.pcs ensures t in tasks' && OnItsLock(id, tasks'[t], s.locks.pcs[t]) {
      assert OnItsLock(id, s.tasks[t], s.locks.pcs[t]);
      if t == step.t {
        KeyStable(id, s, step);
      }
    }
  }

  lemma KeepsEnvelopeLock(id: Path -> string, s: State, step: Step)
    requires Envelope(id, s.locks.pcs, s.tasks) && Can(id, s, step) && Disciplined(id, s, step)
             && LockStepOf(id, s, step).Some?
    ensures Envelope(id, NextLocks(id, s, step).pcs, NextTasks(id, s, step))
  {
    var pcs', tasks' := NextLocks(id, s, step).pcs, NextTasks(id, s, step);
    forall t | t in pcs' ensures t in tasks' && OnItsLock(id, tasks'[t], pcs'[t]) {
      if t in s.locks.pcs {
        assert OnItsLock(id, s.tasks[t], s.locks.pcs[t]);
      }
    }
  }

  lemma KeepsEnvelope(id: Path -> string, s: State, step: Step)
    requires Envelope(id, s.locks.pcs, s.tasks) && Can(id, s, step) && Disciplined(id, s, step)
    ensures Envelope(id, NextLocks(id, s, step).pcs, NextTasks(id, s, step))
  {
    if LockStepOf(id, s, step).Some? {
      KeepsEnvelopeLock(id, s, step);
    } else if OwnStep(step) {
      KeepsEnvelopeOwn(id, s, step);
    } else {
      forall t | t in s.locks.pcs && !step.Restart? ensures OnItsLock(id, NextTasks(id, s, step)[t], s.locks.pcs[t]) {
        assert OnItsLock(id, s.tasks[t], s.locks.pcs[t]);
      }
    }
  }

  // ----- Who changes a target's stack

  lemma OneHolder(id: Path -> string, s: State, t: Tid, u: Tid)
    requires L.LockInv(s.locks) && Runs(s, t) && Runs(s, u) && s.locks.pcs[t].key == s.locks.pcs[u].key
    ensures t == u
  {
  }

  function Touched(op: RowOp): Option<Path> {
    match op
    case NoRow => None
    case PushRow(p, _) => Some(p)
    case PopRow(p) => Some(p)
  }

  /** Mounts on a target are only made or detached by the goroutine that holds the lock of its source. */
  lemma OnlyHolderTouches(id: Path -> string, s: State, step: Step, p: Path)
    requires TasksBelong(id, s.tasks) && Envelope(id, s.locks.pcs, s.tasks) && Can(id, s, step)
    requires IsTarget(p) && Touched(RowOpOf(id, s, step)) == Some(p)
    ensures OwnStep(step) && Runs(s, step.t) && s.locks.pcs[step.t].key == Source(id, p)
  {
    if OwnStep(step) && step.t in s.tasks {
      assert TaskBelongs(id, s.tasks[step.t]);
      if step.UnmountPopSource? {
        SourceIsSource(id, s.tasks[step.t].target);
      }
    }
  }

  lemma UntouchedLayers(rows: Table, op: RowOp, p: Path)
    requires Touched(op) != Some(p)
    ensures Layers(ApplyRow(rows, op), p) == Layers(rows, p)
  {
    match op
    case NoRow =>
    case PushRow(q, b) => LayersOfPush(rows, q, b, p);
    case PopRow(q) => LayersOfPop(rows, q, p);
  }

  lemma ProbeStarts(id: Path -> string, s: State, t: Tid)
    requires TasksBelong(id, s.tasks) && Can(id, s, Probe(t)) && NextTask(id, s, Probe(t)).rpc.RBind?
    ensures var pc := NextTask(id, s, Probe(t)).rpc;
            Layers(s.rows, pc.x) == pc.layers && !ProbedBound(pc)
  {
  }

  /** A rebind that has probed is unaffected by every step but its own. */
  lemma ProbeStays(id: Path -> string, s: State, step: Step, u: Tid)
    requires Inv(id, s) && Can(id, s, step) && Disciplined(id, s, step)
    requires u in s.tasks && Probed(s.tasks[u]) && !step.Restart? && (OwnStep(step) ==> step.t != u)
    ensures ProbeHeld(Next(id, s, step), u, s.tasks[u].rpc)
  {
    var pc := s.tasks[u].rpc;
    assert ProbeHeld(s, u, pc);
    assert TaskBelongs(id, s.tasks[u]) && OnItsLock(id, s.tasks[u], s.locks.pcs[u]);
    var op := RowOpOf(id, s, step);
    if Touched(op) == Some(pc.x) {
      OnlyHolderTouches(id, s, step, pc.x);
      OneHolder(id, s, step.t, u);
    }
    UntouchedLayers(s.rows, op, pc.x);
  }

  /** Its own steps, but for the probe, end it. */
  lemma OnlyProbeProbes(id: Path -> string, s: State, step: Step)
    requires Can(id, s, step) && OwnStep(step) && step.t in s.tasks
    requires Probed(s.tasks[step.t]) ==> Runs(s, step.t)
    ensures Probed(NextTask(id, s, step)) ==> step.Probe?
  {
  }

  lemma OwnProbe(id: Path -> string, s: State, step: Step)
    requires Inv(id, s) && Can(id, s, step) && Disciplined(id, s, step) && OwnStep(step)
             && step.t in NextTasks(id, s, step)
    requires Probed(NextTasks(id, s, step)[step.t])
    ensures ProbeHeld(Next(id, s, step), step.t, NextTasks(id, s, step)[step.t].rpc)
  {
    OnlyProbeProbes(id, s, step);
    ProbeStarts(id, s, step.t);
  }

  lemma KeepsProbes(id: Path -> string, s: State, step: Step)
    requires Inv(id, s) && Can(id, s, step) && Disciplined(id, s, step)
    ensures ProbeHolds(Next(id, s, step))
  {
    var tasks' := NextTasks(id, s, step);
    forall u | u in tasks' && Probed(tasks'[u]) ensures ProbeHeld(Next(id, s, step), u, tasks'[u].rpc) {
      if OwnStep(step) && step.t == u {
        OwnProbe(id, s, step);
      } else {
        ProbeStays(id, s, step, u);
      }
    }
  }

  lemma StepKeepsInv(id: Path -> string, s: State, step: Step)
    requires Inv(id, s) && Can(id, s, step) && Disciplined(id, s, step)
    ensures Inv(id, Next(id, s, step))
  {
    KeepsBelonging(id, s, step);
    KeepsLocks(id, s, step);
    KeepsEnvelope(id, s, step);
    KeepsProbes(id, s, step);
  }

  // ----- Whole runs

  ghost predicate IsRun(id: Path -> string, s: State, steps: seq<Step>)
    decreases |steps|
  {
    steps == [] || (Can(id, s, steps[0]) && Disciplined(id, s, steps[0])
        && IsRun(id, Next(id, s, steps[0]), steps[1..]))
  }

  ghost function After(id: Path -> string, s: State, steps: seq<Step>): State
    requires IsRun(id, s, steps)
    decreases |steps|
  {
    if steps == [] then s else After(id, Next(id, s, steps[0]), steps[1..])
  }

  lemma {:induction false} RunKeepsInv(id: Path -> string, s: State, steps: seq<Step>)
    requires Inv(id, s) && IsRun(id, s, steps)
    ensures Inv(id, After(id, s, steps))
    decreases |steps|
  {
    if steps != [] {
      StepKeepsInv(id, s, steps[0]);
      RunKeepsInv(id, Next(id, s, steps[0]), steps[1..]);
    }
  }

  lemma Reachable(id: Path -> string, steps: seq<Step>)
    requires IsRun(id, INIT, steps)
    ensures Inv(id, After(id, INIT, steps))
  {
    RunKeepsInv(id, INIT, steps);
  }

  /**
   In every reachable state of any interleaving: a tracked target is tracked
   under its own source, a mount of a source's superblock is on that source's
   path or on one of its targets, and the targets listed in an HFMount object
   are its source's.
   */
  lemma BindsAndLayersBelong(id: Path -> string, steps: seq<Step>, x: Path)
    requires IsRun(id, INIT, steps)
    ensures var s := After(id, INIT, steps);
            && (x in s.binds ==> IsTarget(x) && s.binds[x] == Source(id, x))
            && (forall i :: 0 <= i < |s.rows| && s.rows[i].path == x && s.rows[i].backing in s.owner && IsTarget(x)
                  ==> s.owner[s.rows[i].backing] == Source(id, x))
            && (forall k :: k in s.crds && x in s.crds[k] ==> k == Source(id, x))
  {
    Reachable(id, steps);
    var s := After(id, INIT, steps);
    forall i | 0 <= i < |s.rows| && s.rows[i].path == x && s.rows[i].backing in s.owner && IsTarget(x)
      ensures s.owner[s.rows[i].backing] == Source(id, x)
    {
      assert RowBelongs(id, s.rows[i], s.owner);
    }
    forall k | k in s.crds && x in s.crds[k] ensures k == Source(id, x) {
      assert AllFor(id, s.crds[k], k);
    }
  }

  /** At any time at most one goroutine works on a source, and the next step cannot go against the lock protocol. */
  lemma RunsAreExclusive(id: Path -> string, steps: seq<Step>, t: Tid, u: Tid)
    requires IsRun(id, INIT, steps)
    ensures var s := After(id, INIT, steps);
            && (Runs(s, t) ==> Locks(s.tasks[t]) && s.locks.pcs[t].key == LockKey(id, s.tasks[t]))
            && (Runs(s, t) && Runs(s, u) && s.locks.pcs[t].key == s.locks.pcs[u].key ==> t == u)
    ensures forall step :: Can(id, After(id, INIT, steps), step) ==> Disciplined(id, After(id, INIT, steps), step)
  {
    Reachable(id, steps);
    var s := After(id, INIT, steps);
    if Runs(s, t) {
      assert OnItsLock(id, s.tasks[t], s.locks.pcs[t]);
      if Runs(s, u) && s.locks.pcs[t].key == s.locks.pcs[u].key {
        OneHolder(id, s, t, u);
      }
    }
    forall step | Can(id, s, step) ensures Disciplined(id, s, step) {
      DisciplineHolds(id, s, step);
    }
  }

  /**
   In a reachable state, a step that changes a target's stack is a step of the goroutine
   holding that target's source.
   */
  lemma TargetStackIsHolders(id: Path -> string, steps: seq<Step>, step: Step, x: Path)
    requires IsRun(id, INIT, steps) && Can(id, After(id, INIT, steps), step) && IsTarget(x)
    ensures var s := After(id, INIT, steps);
            && Disciplined(id, s, step)
            && (Layers(Next(id, s, step).rows, x) != Layers(s.rows, x) ==>
                  OwnStep(step) && Runs(s, step.t) && s.locks.pcs[step.t].key == Source(id, x))
  {
    Reachable(id, steps);
    var s := After(id, INIT, steps);
    DisciplineHolds(id, s, step);
    if Touched(RowOpOf(id, s, step)) == Some(x) {
      OnlyHolderTouches(id, s, step, x);
    } else {
      UntouchedLayers(s.rows, RowOpOf(id, s, step), x);
    }
  }

  /**
   Check then act: when a rebind binds right after its probe, the target's
   stack is the one it probed, and unless the source's own top mount changed
   in between, the mount it adds differs from the one below. So the many
   callers of one recovery event add at most one mount for it.
   */
  lemma RebindAddsNewMount(id: Path -> string, steps: seq<Step>, t: Tid, b: Backing)
    requires IsRun(id, INIT, steps)
    requires Can(id, After(id, INIT, steps), RebindBind(t, b)) && After(id, INIT, steps).tasks[t].rpc.RBind?
    ensures var s := After(id, INIT, steps);
            var task := s.tasks[t];
            var below := task.rpc.layers;
            && Layers(s.rows, task.rpc.x) == below
            && Layers(Next(id, s, RebindBind(t, b)).rows, task.rpc.x) == below + [b]
            && (Mounted(s.rows, task.source) && Top(s.rows, task.source) == task.rpc.top ==>
                below == [] || b != below[|below| - 1])
  {
    Reachable(id, steps);
    var s := After(id, INIT, steps);
    assert ProbeHeld(s, t, s.tasks[t].rpc);
    LayersOfPush(s.rows, s.tasks[t].rpc.x, b, s.tasks[t].rpc.x);
  }

  // ----- What a step does to the stack of a path, and to the lists

  /** A stack without its newest mount; a bare one stays bare. */
  function Popped(layers: seq<Backing>): seq<Backing> {
    if layers == [] then [] else layers[..|layers| - 1]
  }

  lemma RowOpLayers(rows: Table, op: RowOp, p: Path)
    ensures Layers(ApplyRow(rows, op), p) ==
            if op.NoRow? || op.path != p then Layers(rows, p)
            else if op.PushRow? then Layers(rows, p) + [op.b]
            else Popped(Layers(rows, p))
  {
    if op.PushRow? {
      LayersOfPush(rows, op.path, op.b, p);
    } else if op.PopRow? {
      LayersOfPop(rows, op.path, p);
    }
  }

  /** A mount adds its layer on top of one path, a detach takes the top of one path, no other step touches a stack. */
  lemma StacksAfterStep(id: Path -> string, s: State, step: Step, p: Path)
    requires Can(id, s, step) && Disciplined(id, s, step)
    ensures var before, after := Layers(s.rows, p), Layers(Next(id, s, step).rows, p);
            && (step.DaemonMounts? ==> after == if p == step.source then before + [step.b] else before)
            && (step.MountBind? ==> after == if p == s.tasks[step.t].target then before + [step.b] else before)
            && (step.RebindBind? ==> after == if p == s.tasks[step.t].rpc.x then before + [step.b] else before)
            && (step.UnlockedPop? ==> after == if p == step.source then Popped(before) else before)
            && (step.MountDetach? || step.UnmountPop? ==>
                  after == if p == s.tasks[step.t].target then Popped(before) else before)
            && (step.UnmountPopSource? ==>
                  after == if s.tasks[step.t].upc.pop == Some(p) then Popped(before) else before)
            && (step.RebindDetach? ==> after == if p == s.tasks[step.t].rpc.x then Popped(before) else before)
            && (step.PopRef? || step.PopStale? ==> after == if p == step.x then Popped(before) else before)
            && (step.PopSource? ==> after == if p == s.tasks[step.t].source then Popped(before) else before)
            && (after != before ==>
                  step.DaemonMounts? || step.MountBind? || step.RebindBind? || step.UnlockedPop? || step.MountDetach?
                  || step.UnmountPop? || step.UnmountPopSource? || step.RebindDetach? || step.PopRef? || step.PopSource?
                  || step.PopStale?)
  {
    RowOpLayers(s.rows, RowOpOf(id, s, step), p);
  }

  /** The step lists x in the object of the source. */
  predicate Lists(id: Path -> string, s: State, step: Step, x: Path, source: Path) {
    || (step.AddWorkload? && step.t in s.tasks && s.tasks[step.t].Mount? && s.tasks[step.t].target == x
        && Source(id, x) == source)
    || (step.SyncCrd? && step.t in s.tasks && s.tasks[step.t].Adopt? && s.tasks[step.t].source == source && step.x == x)
  }

  lemma {:induction false} ListedStays(id: Path -> string, s: State, steps: seq<Step>, x: Path, source: Path)
    requires IsRun(id, s, steps) && x in Listed(s.crds, source) && forall step :: step in steps ==> !step.CrdShrinks?
    ensures x in Listed(After(id, s, steps).crds, source)
    decreases |steps|
  {
    if steps != [] {
      ListedStays(id, Next(id, s, steps[0]), steps[1..], x, source);
    }
  }

  /** What a Mount or an adoption lists stays listed, over restarts too, until an entry is taken from the lists. */
  lemma ListedUntilShrunk(id: Path -> string, s: State, step: Step, later: seq<Step>, x: Path, source: Path)
    requires Can(id, s, step) && Disciplined(id, s, step) && Lists(id, s, step, x, source)
    requires IsRun(id, Next(id, s, step), later) && forall l :: l in later ==> !l.CrdShrinks?
    ensures var crds := After(id, Next(id, s, step), later).crds; source in crds && x in crds[source]
  {
    ListedStays(id, Next(id, s, step), later, x, source);
  }

  // ----- The machine runs the lock protocol

  /** The lock steps of a run, in order. */
  ghost function LockSteps(id: Path -> string, s: State, steps: seq<Step>): seq<L.LockStep>
    requires IsRun(id, s, steps)
    decreases |steps|
  {
    if steps == [] then []
    else
        (match LockStepOf(id, s, steps[0]) case Some(l) => [l] case None => [])
        + LockSteps(id, Next(id, s, steps[0]), steps[1..])
  }

  /** Between restarts, the locks go through a run of the lock protocol, so all that is proved of it holds here. */
  lemma {:induction false} RefinesLockProtocol(id: Path -> string, s: State, steps: seq<Step>)
    requires IsRun(id, s, steps) && Restart !in steps
    ensures L.IsRun(s.locks, LockSteps(id, s, steps))
    ensures L.After(s.locks, LockSteps(id, s, steps)) == After(id, s, steps).locks
    decreases |steps|
  {
    if steps != [] {
      var s' := Next(id, s, steps[0]);
      var rest := LockSteps(id, s', steps[1..]);
      RefinesLockProtocol(id, s', steps[1..]);
      match LockStepOf(id, s, steps[0])
      case Some(l) => assert ([l] + rest)[1..] == rest;
      case None => assert [] + rest == rest;
    }
  }
}
