/**
 A run in which an Unmount detaches a source that has a tracked target again:
 the target is mounted; an adoption finds its mount; an Unmount pops it, forgets
 it and decides to detach the source; the adoption records what it found.
 */
module UnmountPopRun {
  import opened GoStrings
  import opened MountTable
  import opened NodeMachine
  import opened UnmountPop

  // ----- Runs grow by a step

  lemma {:induction false} Append(id: Path -> string, s: State, before: set<Tid>, steps: seq<Step>, step: Step)
    requires IsRun(id, s, steps) && Can(id, After(id, s, steps), step) && Disciplined(id, After(id, s, steps), step)
    ensures IsRun(id, s, steps + [step])
    ensures After(id, s, steps + [step]) == Next(id, After(id, s, steps), step)
    ensures RecordedAfter(id, s, before, steps + [step]) ==
              RecordedSince(After(id, s, steps), RecordedAfter(id, s, before, steps), step)
    decreases |steps|
  {
    if steps == [] {
      var one := [] + [step];
      assert one == [step] && one[1..] == [];
      assert IsRun(id, Next(id, s, step), one[1..]);
    } else {
      var s', all := Next(id, s, steps[0]), steps + [step];
      Append(id, s', RecordedSince(s, before, steps[0]), steps[1..], step);
      assert all[0] == steps[0] && all[1..] == steps[1..] + [step];
    }
  }

  lemma Go(id: Path -> string, steps: seq<Step>, step: Step) returns (steps': seq<Step>)
    requires IsRun(id, INIT, steps) && Can(id, After(id, INIT, steps), step)
    ensures Disciplined(id, After(id, INIT, steps), step) && IsRun(id, INIT, steps')
    ensures After(id, INIT, steps') == Next(id, After(id, INIT, steps), step)
    ensures RecordedAfter(id, INIT, {}, steps') ==
              RecordedSince(After(id, INIT, steps), RecordedAfter(id, INIT, {}, steps), step)
  {
    Reachable(id, steps);
    DisciplineHolds(id, After(id, INIT, steps), step);
    Append(id, INIT, {}, steps, step);
    steps' := steps + [step];
  }

  // ----- States along the run

  datatype Stage = Unlocked | Waits | Holds | Lets

  /** Thread t has this task, if any, and is at this stage of its lock; nobody else is. */
  ghost predicate Works(s: State, t: Tid, task: Option<Task>, stage: Stage) {
    && (if task.None? then t !in s.tasks else t in s.tasks && s.tasks[t] == task.value)
    && (forall u :: u in s.locks.pcs ==> u == t)
    && (stage.Unlocked? <==> t !in s.locks.pcs)
    && (stage.Waits? ==> s.locks.pcs[t].Waiting?)
    && (stage.Holds? ==> s.locks.pcs[t].Holding?)
    && (stage.Lets? ==> s.locks.pcs[t].Releasing?)
    && (!stage.Holds? ==> s.locks.locked == {})
    && (stage.Holds? ==> s.locks.locked == {s.locks.pcs[t].obj})
  }

  /** x has these mounts of its source's superblock b below it, and is the only target that can be tracked. */
  ghost predicate Shows(id: Path -> string, s: State, x: Path, b: Backing, rows: Table, tracked: bool) {
    && s.rows == rows && b in s.owner && s.owner[b] == Source(id, x)
    && (forall y :: y in s.binds <==> y == x && tracked) && (tracked ==> s.binds[x] == Source(id, x))
  }

  function SourceRow(id: Path -> string, x: Path, b: Backing): Row {
    Row(Source(id, x), b)
  }

  lemma Starts(id: Path -> string, x: Path, b: Backing)
    ensures Can(id, INIT, DaemonMounts(Source(id, x), b))
    ensures var s' := Next(id, INIT, DaemonMounts(Source(id, x), b));
            Shows(id, s', x, b, [SourceRow(id, x, b)], false) && Works(s', 0, None, Unlocked) && s'.tasks == map[]
  {
    SourceIsSource(id, x);
  }

  lemma Spawns(id: Path -> string, s: State, t: Tid, task: Task)
    requires Works(s, t, None, Unlocked) && Starting(task)
    ensures Can(id, s, Spawn(t, task)) && Works(Next(id, s, Spawn(t, task)), t, Some(task), Unlocked)
    ensures forall u :: u != t ==> (u in Next(id, s, Spawn(t, task)).tasks <==> u in s.tasks)
    ensures forall u :: u != t && u in s.tasks ==> Next(id, s, Spawn(t, task)).tasks[u] == s.tasks[u]
    ensures Next(id, s, Spawn(t, task)).(tasks := s.tasks) == s
  {
  }

  lemma Acquires(id: Path -> string, s: State, t: Tid, task: Task)
    requires Works(s, t, Some(task), Unlocked) && BeforeLock(task) && Locks(task) && Inv(id, s)
    ensures Can(id, s, DoAcquire(t)) && Disciplined(id, s, DoAcquire(t))
    ensures var s' := Next(id, s, DoAcquire(t)); Works(s', t, Some(task), Waits) && s'.(locks := s.locks) == s
  {
    AcquireDisciplined(id, s, t);
  }

  lemma TakesLock(id: Path -> string, s: State, t: Tid, task: Task)
    requires Works(s, t, Some(task), Waits) && Inv(id, s)
    ensures Can(id, s, DoLock(t)) && Disciplined(id, s, DoLock(t))
    ensures var s' := Next(id, s, DoLock(t)); Works(s', t, Some(task), Holds) && s'.(locks := s.locks) == s
  {
  }

  lemma Unlocks(id: Path -> string, s: State, t: Tid, task: Task)
    requires Works(s, t, Some(task), Holds) && AtEnd(task) && Inv(id, s)
    ensures Can(id, s, DoUnlock(t)) && Disciplined(id, s, DoUnlock(t))
    ensures var s' := Next(id, s, DoUnlock(t)); Works(s', t, Some(task), Lets) && s'.(locks := s.locks) == s
  {
  }

  lemma Releases(id: Path -> string, s: State, t: Tid, task: Task)
    requires Works(s, t, Some(task), Lets) && Locks(task) && Inv(id, s)
    ensures Can(id, s, DoRelease(t)) && Disciplined(id, s, DoRelease(t))
    ensures var s' := Next(id, s, DoRelease(t));
            Works(s', t, None, Unlocked) && s'.(locks := s.locks, tasks := s.tasks) == s && s'.tasks == s.tasks - {t}
  {
    ReleaseDisciplined(id, s, t);
  }

  /** The other threads' tasks are the same. */
  ghost predicate OthersKeep(s: State, s': State, t: Tid) {
    forall u :: u != t ==> (u in s'.tasks <==> u in s.tasks) && (u in s.tasks ==> s'.tasks[u] == s.tasks[u])
  }

  function BothRows(id: Path -> string, x: Path, b: Backing): Table {
    [SourceRow(id, x, b), Row(x, b)]
  }

  lemma TopOfSource(id: Path -> string, x: Path, b: Backing)
    ensures Layers([SourceRow(id, x, b)], Source(id, x)) == [b]
  {
    LayersOfPush([], Source(id, x), b, Source(id, x));
  }

  lemma TargetIsBare(id: Path -> string, x: Path, b: Backing)
    requires IsTarget(x)
    ensures !Mounted([SourceRow(id, x, b)], x) && Pop(BothRows(id, x, b), x) == [SourceRow(id, x, b)]
  {
    SourceIsSource(id, x);
    LayersOfPush([], Source(id, x), b, x);
    assert BothRows(id, x, b)[..1] == [SourceRow(id, x, b)];
  }

  lemma Binds(id: Path -> string, s: State, t: Tid, x: Path, b: Backing)
    requires Works(s, t, Some(Mount(x, MBody)), Holds) && Shows(id, s, x, b, [SourceRow(id, x, b)], false)
    ensures Can(id, s, MountBind(t, b))
    ensures var s' := Next(id, s, MountBind(t, b));
            Works(s', t, Some(Mount(x, MBound)), Holds) && Shows(id, s', x, b, BothRows(id, x, b), false)
            && OthersKeep(s, s', t)
  {
    TopOfSource(id, x, b);
  }

  lemma RecordsMount(id: Path -> string, s: State, t: Tid, x: Path, b: Backing)
    requires Works(s, t, Some(Mount(x, MBound)), Holds) && Shows(id, s, x, b, BothRows(id, x, b), false)
    ensures Can(id, s, MountRecord(t))
    ensures var s' := Next(id, s, MountRecord(t));
            Works(s', t, Some(Mount(x, MEnd)), Holds) && Shows(id, s', x, b, BothRows(id, x, b), true)
            && OthersKeep(s, s', t)
  {
  }

  lemma Finds(id: Path -> string, s: State, t: Tid, x: Path, b: Backing)
    requires Works(s, t, Some(Adopt(Source(id, x), false, AStart)), Unlocked)
             && Shows(id, s, x, b, BothRows(id, x, b), true)
    ensures Can(id, s, FindRefs(t, {x}))
    ensures var s' := Next(id, s, FindRefs(t, {x}));
            Works(s', t, Some(Adopt(Source(id, x), false, AFound({x}))), Unlocked)
            && Shows(id, s', x, b, BothRows(id, x, b), true) && OthersKeep(s, s', t)
  {
    assert s.rows[1].path == x && s.rows[1].backing == b;
  }

  lemma Reads(id: Path -> string, s: State, t: Tid, x: Path, b: Backing)
    requires Works(s, t, Some(Unmount(x, URead)), Unlocked) && Shows(id, s, x, b, BothRows(id, x, b), true)
    ensures Can(id, s, ReadSource(t))
    ensures var s' := Next(id, s, ReadSource(t));
            Works(s', t, Some(Unmount(x, UBody(Source(id, x)))), Unlocked)
            && Shows(id, s', x, b, BothRows(id, x, b), true) && OthersKeep(s, s', t)
  {
  }

  lemma Pops(id: Path -> string, s: State, t: Tid, x: Path, b: Backing)
    requires IsTarget(x) && Works(s, t, Some(Unmount(x, UBody(Source(id, x)))), Holds)
             && Shows(id, s, x, b, BothRows(id, x, b), true)
    ensures Can(id, s, UnmountPop(t))
    ensures var s' := Next(id, s, UnmountPop(t));
            Works(s', t, Some(Unmount(x, UBody(Source(id, x)))), Holds)
            && Shows(id, s', x, b, [SourceRow(id, x, b)], true) && OthersKeep(s, s', t)
  {
    TargetIsBare(id, x, b);
  }

  lemma Commits(id: Path -> string, s: State, t: Tid, x: Path, b: Backing)
    requires IsTarget(x) && Works(s, t, Some(Unmount(x, UBody(Source(id, x)))), Holds)
             && Shows(id, s, x, b, [SourceRow(id, x, b)], true)
    ensures Can(id, s, UnmountCommit(t))
    ensures var s' := Next(id, s, UnmountCommit(t));
            var source := Source(id, x);
            Works(s', t, Some(Unmount(x, UClean(source, source, Some(source)))), Holds)
            && Shows(id, s', x, b, [SourceRow(id, x, b)], false) && OthersKeep(s, s', t)
  {
    TargetIsBare(id, x, b);
    assert forall y :: y !in Tracked(s.binds - {x}, Source(id, x));
    assert Tracked(s.binds - {x}, Source(id, x)) == {};
  }

  /** Thread u records x while thread t is about to detach the source. */
  lemma RecordsAgain(id: Path -> string, s: State, t: Tid, u: Tid, x: Path, b: Backing)
    requires IsTarget(x) && t != u && u in s.tasks && s.tasks[u] == Adopt(Source(id, x), false, AFound({x}))
    requires Works(s, t, Some(Unmount(x, UClean(Source(id, x), Source(id, x), Some(Source(id, x))))), Holds)
    requires Shows(id, s, x, b, [SourceRow(id, x, b)], false)
    ensures Can(id, s, RecordRefs(u)) && t in RecordedSince(s, {}, RecordRefs(u))
    ensures var s' := Next(id, s, RecordRefs(u));
            Works(s', t, Some(s.tasks[t]), Holds) && Shows(id, s', x, b, [SourceRow(id, x, b)], true)
  {
    SourceIsSource(id, x);
    assert x in s.tasks[u].apc.refs - {Source(id, x)};
  }

  // ----- The run

  lemma LockRun(id: Path -> string, steps: seq<Step>, t: Tid, task: Task) returns (steps': seq<Step>)
    requires IsRun(id, INIT, steps) && Works(After(id, INIT, steps), t, Some(task), Unlocked)
    requires BeforeLock(task) && Locks(task)
    ensures IsRun(id, INIT, steps') && Works(After(id, INIT, steps'), t, Some(task), Holds)
    ensures var s, s' := After(id, INIT, steps), After(id, INIT, steps'); s'.(locks := s.locks) == s
  {
    Reachable(id, steps);
    Acquires(id, After(id, INIT, steps), t, task);
    steps' := Go(id, steps, DoAcquire(t));
    Reachable(id, steps');
    TakesLock(id, After(id, INIT, steps'), t, task);
    steps' := Go(id, steps', DoLock(t));
  }

  lemma UnlockRun(id: Path -> string, steps: seq<Step>, t: Tid, task: Task) returns (steps': seq<Step>)
    requires IsRun(id, INIT, steps) && Works(After(id, INIT, steps), t, Some(task), Holds)
    requires AtEnd(task) && Locks(task)
    ensures IsRun(id, INIT, steps') && Works(After(id, INIT, steps'), t, None, Unlocked)
    ensures var s, s' := After(id, INIT, steps), After(id, INIT, steps');
            s'.(locks := s.locks, tasks := s.tasks) == s && s'.tasks == s.tasks - {t}
  {
    Reachable(id, steps);
    Unlocks(id, After(id, INIT, steps), t, task);
    steps' := Go(id, steps, DoUnlock(t));
    Reachable(id, steps');
    Releases(id, After(id, INIT, steps'), t, task);
    steps' := Go(id, steps', DoRelease(t));
  }

  /** A daemon mounts the source of x, and thread 0 begins a Mount of x. */
  lemma BegunRun(id: Path -> string, x: Path, b: Backing) returns (steps: seq<Step>)
    requires IsTarget(x)
    ensures IsRun(id, INIT, steps)
    ensures var s := After(id, INIT, steps);
            && Works(s, 0, Some(Mount(x, MBody)), Holds) && Shows(id, s, x, b, [SourceRow(id, x, b)], false)
            && forall u :: u in s.tasks ==> u == 0
  {
    steps := [];
    Starts(id, x, b);
    steps := Go(id, steps, DaemonMounts(Source(id, x), b));
    Spawns(id, After(id, INIT, steps), 0, Mount(x, MBody));
    steps := Go(id, steps, Spawn(0, Mount(x, MBody)));
    steps := LockRun(id, steps, 0, Mount(x, MBody));
  }

  /** It goes through. */
  lemma MountedRun(id: Path -> string, x: Path, b: Backing) returns (steps: seq<Step>)
    requires IsTarget(x)
    ensures IsRun(id, INIT, steps)
    ensures var s := After(id, INIT, steps);
            Works(s, 0, None, Unlocked) && Shows(id, s, x, b, BothRows(id, x, b), true) && forall u :: u !in s.tasks
  {
    steps := BegunRun(id, x, b);
    Binds(id, After(id, INIT, steps), 0, x, b);
    steps := Go(id, steps, MountBind(0, b));
    RecordsMount(id, After(id, INIT, steps), 0, x, b);
    steps := Go(id, steps, MountRecord(0));
    steps := UnlockRun(id, steps, 0, Mount(x, MEnd));
  }

  /** Then an adoption by thread 2 finds the mount. */
  lemma FoundRun(id: Path -> string, x: Path, b: Backing) returns (steps: seq<Step>)
    requires IsTarget(x)
    ensures IsRun(id, INIT, steps)
    ensures var s := After(id, INIT, steps);
            && Works(s, 1, None, Unlocked) && Shows(id, s, x, b, BothRows(id, x, b), true)
            && 2 in s.tasks && s.tasks[2] == Adopt(Source(id, x), false, AFound({x}))
  {
    var adopt := Adopt(Source(id, x), false, AStart);
    SourceIsSource(id, x);
    steps := MountedRun(id, x, b);
    Spawns(id, After(id, INIT, steps), 2, adopt);
    steps := Go(id, steps, Spawn(2, adopt));
    Finds(id, After(id, INIT, steps), 2, x, b);
    steps := Go(id, steps, FindRefs(2, {x}));
  }

  /** Then an Unmount by thread 1 forgets x and decides to detach its source. */
  lemma DecidedRun(id: Path -> string, x: Path, b: Backing) returns (steps: seq<Step>)
    requires IsTarget(x)
    ensures IsRun(id, INIT, steps)
    ensures var s := After(id, INIT, steps);
            var source := Source(id, x);
            && Works(s, 1, Some(Unmount(x, UClean(source, source, Some(source)))), Holds)
            && Shows(id, s, x, b, [SourceRow(id, x, b)], false)
            && 2 in s.tasks && s.tasks[2] == Adopt(source, false, AFound({x}))
  {
    steps := FoundRun(id, x, b);
    Spawns(id, After(id, INIT, steps), 1, Unmount(x, URead));
    steps := Go(id, steps, Spawn(1, Unmount(x, URead)));
    Reads(id, After(id, INIT, steps), 1, x, b);
    steps := Go(id, steps, ReadSource(1));
    steps := LockRun(id, steps, 1, Unmount(x, UBody(Source(id, x))));
    Pops(id, After(id, INIT, steps), 1, x, b);
    steps := Go(id, steps, UnmountPop(1));
    Commits(id, After(id, INIT, steps), 1, x, b);
    steps := Go(id, steps, UnmountCommit(1));
  }

  /**
   For every target x there is a run at whose end an Unmount of x can detach
   the source while x is tracked under it again: with nothing mounted on it,
   and because the adoption recorded what it had found before.
   */
  lemma PopCanHitTracked(id: Path -> string, x: Path) returns (steps: seq<Step>)
    requires IsTarget(x)
    ensures IsRun(id, INIT, steps) && Can(id, After(id, INIT, steps), UnmountPopSource(1))
    ensures var s := After(id, INIT, steps);
            && s.tasks[1].Unmount? && s.tasks[1].target == x && s.tasks[1].upc.relKey != ""
            && s.tasks[1].upc.pop == Some(Source(id, x)) && x in Tracked(s.binds, Source(id, x))
            && !Mounted(s.rows, x) && 1 in RecordedAfter(id, INIT, {}, steps)
  {
    var b := Backing("", "");
    steps := DecidedRun(id, x, b);
    RecordsAgain(id, After(id, INIT, steps), 1, 2, x, b);
    steps := Go(id, steps, RecordRefs(2));
    TargetIsBare(id, x, b);
  }

  // ----- An Unmount that leaves its source's lock behind

  /** Nothing is tracked and nothing is mounted. */
  ghost predicate Empty(s: State) {
    s.binds == map[] && s.rows == []
  }

  lemma UntrackedSteps(id: Path -> string, s: State, t: Tid, x: Path)
    requires Empty(s) && IsTarget(x)
    ensures Works(s, t, Some(Unmount(x, URead)), Unlocked) ==>
              && Can(id, s, ReadSource(t)) && Empty(Next(id, s, ReadSource(t)))
              && Works(Next(id, s, ReadSource(t)), t, Some(Unmount(x, UBody(Source(id, x)))), Unlocked)
    ensures Works(s, t, Some(Unmount(x, UBody(Source(id, x)))), Holds) ==>
              && Can(id, s, UnmountCommit(t)) && Empty(Next(id, s, UnmountCommit(t)))
              && Works(Next(id, s, UnmountCommit(t)), t,
                       Some(Unmount(x, UClean(Source(id, x), "", Some(Source(id, x))))), Holds)
    ensures Works(s, t, Some(Unmount(x, UClean(Source(id, x), "", Some(Source(id, x))))), Holds) ==>
              && Can(id, s, UnmountDone(t)) && Empty(Next(id, s, UnmountDone(t)))
              && Works(Next(id, s, UnmountDone(t)), t, Some(Unmount(x, UEnd(Source(id, x), ""))), Holds)
  {
  }

  lemma ReleasesNothing(id: Path -> string, s: State, t: Tid, x: Path)
    requires Works(s, t, Some(Unmount(x, UEnd(Source(id, x), ""))), Lets) && Inv(id, s)
    ensures Can(id, s, DoRelease(t)) && Disciplined(id, s, DoRelease(t))
    ensures var s' := Next(id, s, DoRelease(t));
            s'.locks.pcs == map[] && Source(id, x) in s'.locks.locks.entries && t !in s'.tasks
  {
    ReleaseDisciplined(id, s, t);
    assert OnItsLock(id, s.tasks[t], s.locks.pcs[t]);
    assert forall u :: u !in Next(id, s, DoRelease(t)).locks.pcs;
  }

  /** An Unmount of x on an empty node, up to its unlock. */
  lemma UntrackedRun(id: Path -> string, x: Path) returns (steps: seq<Step>)
    requires IsTarget(x)
    ensures IsRun(id, INIT, steps)
    ensures Works(After(id, INIT, steps), 0, Some(Unmount(x, UEnd(Source(id, x), ""))), Holds)
  {
    steps := [];
    Spawns(id, INIT, 0, Unmount(x, URead));
    steps := Go(id, steps, Spawn(0, Unmount(x, URead)));
    UntrackedSteps(id, After(id, INIT, steps), 0, x);
    steps := Go(id, steps, ReadSource(0));
    steps := LockRun(id, steps, 0, Unmount(x, UBody(Source(id, x))));
    UntrackedSteps(id, After(id, INIT, steps), 0, x);
    steps := Go(id, steps, UnmountCommit(0));
    UntrackedSteps(id, After(id, INIT, steps), 0, x);
    steps := Go(id, steps, UnmountDone(0));
  }

  /**
   For every target that is not tracked, a whole Unmount of it, alone on the
   node, leaves an entry of its source in the lock table when nobody is left to
   remove it: the deferred release runs with the key that the re-read emptied.
   */
  lemma UntrackedUnmountLeavesLock(id: Path -> string, x: Path) returns (steps: seq<Step>)
    requires IsTarget(x)
    ensures IsRun(id, INIT, steps)
    ensures var s := After(id, INIT, steps);
            s.locks.pcs == map[] && Source(id, x) in s.locks.locks.entries && 0 !in s.tasks
  {
    var source := Source(id, x);
    steps := UntrackedRun(id, x);
    Reachable(id, steps);
    Unlocks(id, After(id, INIT, steps), 0, Unmount(x, UEnd(source, "")));
    steps := Go(id, steps, DoUnlock(0));
    Reachable(id, steps);
    ReleasesNothing(id, After(id, INIT, steps), 0, x);
    steps := Go(id, steps, DoRelease(0));
  }
}
