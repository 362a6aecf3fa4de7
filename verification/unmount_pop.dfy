/**
 Whether an Unmount can detach a source mount that another target is tracked
 under. It decides under the mounter's mutex that no target is, and detaches
 later; an adoption or a recovery records targets without the source's lock.
 */
module UnmountPop {
  import opened GoStrings
  import opened MountTable
  import opened NodeMachine
  import L = SourceLock

  /** An Unmount of a tracked target that has decided to detach the source. */
  predicate Popping(task: Task) {
    task.Unmount? && task.upc.UClean? && task.upc.relKey != "" && task.upc.pop.Some?
  }

  /** The step records at least one mount reference of the source as a target. */
  predicate Records(s: State, step: Step, source: Path) {
    && step.RecordRefs? && step.t in s.tasks && s.tasks[step.t].Adopt? && s.tasks[step.t].apc.AFound?
    && s.tasks[step.t].source == source && s.tasks[step.t].apc.refs - {source} != {}
  }

  /** The threads during whose wait, since they decided, references of their source were recorded. */
  ghost function RecordedSince(s: State, before: set<Tid>, step: Step): set<Tid> {
    match step
    case Restart => {}
    case UnmountCommit(t) => before - {t}
    case RecordRefs(_) =>
      before + set t | t in s.tasks && Popping(s.tasks[t]) && Records(s, step, s.tasks[t].upc.pop.value)
    case _ => before
  }

  ghost predicate PopsRight(s: State, recorded: set<Tid>) {
    forall t :: t in s.tasks && Popping(s.tasks[t]) ==> PopRight(s, recorded, t, s.tasks[t].upc.pop.value)
  }

  /** Thread t holds its source's lock, and targets are tracked under the source exactly if references were recorded. */
  ghost predicate PopRight(s: State, recorded: set<Tid>, t: Tid, source: Path) {
    Runs(s, t) && (Tracked(s.binds, source) != {} <==> t in recorded)
  }

  lemma HoldsOwnKey(id: Path -> string, s: State, t: Tid)
    requires Inv(id, s) && Runs(s, t)
    ensures Locks(s.tasks[t]) && s.locks.pcs[t].key == LockKey(id, s.tasks[t]) && TaskBelongs(id, s.tasks[t])
  {
    assert OnItsLock(id, s.tasks[t], s.locks.pcs[t]);
  }

  lemma PoppingHoldsSource(id: Path -> string, s: State, t: Tid)
    requires Inv(id, s) && Runs(s, t) && Popping(s.tasks[t])
    ensures s.tasks[t].upc.pop.value == s.tasks[t].upc.source == s.locks.pcs[t].key
  {
    HoldsOwnKey(id, s, t);
  }

  /** Two different holders hold different sources. */
  lemma OtherHolder(id: Path -> string, s: State, t: Tid, u: Tid)
    requires Inv(id, s) && Runs(s, t) && Runs(s, u) && t != u
    ensures s.locks.pcs[t].key != s.locks.pcs[u].key
  {
    if s.locks.pcs[t].key == s.locks.pcs[u].key {
      OneHolder(id, s, t, u);
    }
  }

  // ----- Changes of the binds that leave a source's targets alone

  lemma ForgetOther(binds: map<Path, Path>, xs: set<Path>, source: Path)
    requires forall x :: x in xs && x in binds ==> binds[x] != source
    ensures Tracked(binds - xs, source) == Tracked(binds, source)
  {
    assert forall y :: y in Tracked(binds - xs, source) <==> y in Tracked(binds, source);
  }

  lemma RecordOther(binds: map<Path, Path>, x: Path, other: Path, source: Path)
    requires other != source && (x in binds ==> binds[x] != source)
    ensures Tracked(binds[x := other], source) == Tracked(binds, source)
  {
    assert forall y :: y in Tracked(binds[x := other], source) <==> y in Tracked(binds, source);
  }

  /** A target belongs to one source. */
  lemma OneSource(id: Path -> string, binds: map<Path, Path>, x: Path, other: Path)
    requires BindsBelong(id, binds) && MayShow(id, x, other) && IsSource(other)
    ensures x in binds ==> binds[x] == other
  {
    assert x in binds ==> For(id, x, binds[x]);
  }

  lemma DropLeavesOthers(id: Path -> string, s: State, t: Tid, x: Path, source: Path)
    requires BindsBelong(id, s.binds) && Can(id, s, DropRef(t, x)) && TaskBelongs(id, s.tasks[t])
             && s.tasks[t].source != source
    ensures Tracked(NextBinds(id, s, DropRef(t, x)), source) == Tracked(s.binds, source)
  {
    OneSource(id, s.binds, x, s.tasks[t].source);
    ForgetOther(s.binds, {x}, source);
  }

  lemma UntrackLeavesOthers(id: Path -> string, s: State, t: Tid, source: Path)
    requires Can(id, s, Untrack(t)) && s.tasks[t].source != source
    ensures Tracked(NextBinds(id, s, Untrack(t)), source) == Tracked(s.binds, source)
  {
    ForgetOther(s.binds, Tracked(s.binds, s.tasks[t].source), source);
  }

  lemma MountLeavesOthers(id: Path -> string, s: State, t: Tid, source: Path)
    requires BindsBelong(id, s.binds) && Can(id, s, MountRecord(t)) && Source(id, s.tasks[t].target) != source
    ensures Tracked(NextBinds(id, s, MountRecord(t)), source) == Tracked(s.binds, source)
  {
    var x := s.tasks[t].target;
    assert x in s.binds ==> For(id, x, s.binds[x]);
    RecordOther(s.binds, x, Source(id, x), source);
  }

  lemma UnmountLeavesOthers(id: Path -> string, s: State, t: Tid, source: Path)
    requires BindsBelong(id, s.binds) && Can(id, s, UnmountCommit(t)) && Source(id, s.tasks[t].target) != source
    ensures Tracked(NextBinds(id, s, UnmountCommit(t)), source) == Tracked(s.binds, source)
  {
    var x := s.tasks[t].target;
    assert x in s.binds ==> For(id, x, s.binds[x]);
    ForgetOther(s.binds, {x}, source);
  }

  lemma RecordLeavesOthers(id: Path -> string, s: State, step: Step, source: Path)
    requires Inv(id, s) && Can(id, s, step) && step.RecordRefs? && !Records(s, step, source)
    ensures Tracked(NextBinds(id, s, step), source) == Tracked(s.binds, source)
  {
    var task, binds' := s.tasks[step.t], NextBinds(id, s, step);
    assert TaskBelongs(id, task);
    forall x ensures x in Tracked(binds', source) <==> x in Tracked(s.binds, source) {
      if x in task.apc.refs - {task.source} {
        assert MayShow(id, x, task.source) && For(id, x, task.source);
        assert x in s.binds ==> For(id, x, s.binds[x]);
      }
    }
  }

  lemma RecordAdds(id: Path -> string, s: State, step: Step, source: Path)
    requires Inv(id, s) && Can(id, s, step) && Records(s, step, source)
    ensures Tracked(NextBinds(id, s, step), source) != {}
  {
    var task, binds' := s.tasks[step.t], NextBinds(id, s, step);
    assert TaskBelongs(id, task);
    var x :| x in task.apc.refs - {source};
    assert MayShow(id, x, source) && For(id, x, source);
    assert x in s.binds ==> For(id, x, s.binds[x]);
    assert x in Tracked(binds', source);
  }

  /** The steps that change the binds other than by recording references. */
  predicate Rebinds(step: Step) {
    step.MountRecord? || step.UnmountCommit? || step.DropRef? || step.Untrack?
  }

  lemma RebinderHolds(id: Path -> string, s: State, step: Step)
    requires Can(id, s, step) && Rebinds(step)
    ensures Runs(s, step.t) && Locks(s.tasks[step.t])
  {
  }

  lemma HoldersLeaveOthers(id: Path -> string, s: State, step: Step, source: Path)
    requires BindsBelong(id, s.binds) && Can(id, s, step) && Rebinds(step)
    requires step.t in s.tasks && TaskBelongs(id, s.tasks[step.t]) && Locks(s.tasks[step.t])
             && LockKey(id, s.tasks[step.t]) != source
    ensures Tracked(NextBinds(id, s, step), source) == Tracked(s.binds, source)
  {
    if step.MountRecord? {
      MountLeavesOthers(id, s, step.t, source);
    } else if step.UnmountCommit? {
      UnmountLeavesOthers(id, s, step.t, source);
    } else if step.DropRef? {
      DropLeavesOthers(id, s, step.t, step.x, source);
    } else {
      UntrackLeavesOthers(id, s, step.t, source);
    }
  }

  lemma OthersRebind(id: Path -> string, s: State, step: Step, t: Tid)
    requires Inv(id, s) && Can(id, s, step) && Runs(s, t) && Rebinds(step) && step.t != t
    ensures Tracked(NextBinds(id, s, step), s.locks.pcs[t].key) == Tracked(s.binds, s.locks.pcs[t].key)
  {
    RebinderHolds(id, s, step);
    OtherHolder(id, s, t, step.t);
    HoldsOwnKey(id, s, step.t);
    HoldersLeaveOthers(id, s, step, s.locks.pcs[t].key);
  }

  lemma NobodyRebinds(id: Path -> string, s: State, step: Step)
    requires Can(id, s, step) && !Rebinds(step) && !step.RecordRefs? && !step.Restart?
    ensures NextBinds(id, s, step) == s.binds
  {
  }

  /** A step of somebody else changes a held source's targets only by recording references. */
  lemma OthersLeaveTracked(id: Path -> string, s: State, step: Step, t: Tid)
    requires Inv(id, s) && Can(id, s, step) && Runs(s, t) && !step.Restart? && (Rebinds(step) ==> step.t != t)
    requires !Records(s, step, s.locks.pcs[t].key)
    ensures Tracked(NextBinds(id, s, step), s.locks.pcs[t].key) == Tracked(s.binds, s.locks.pcs[t].key)
  {
    if Rebinds(step) {
      OthersRebind(id, s, step, t);
    } else if step.RecordRefs? {
      RecordLeavesOthers(id, s, step, s.locks.pcs[t].key);
    } else {
      NobodyRebinds(id, s, step);
    }
  }

  /** A thread that runs goes on running until its own unlock or a restart. */
  lemma StaysRunning(id: Path -> string, s: State, step: Step, t: Tid)
    requires Inv(id, s) && Can(id, s, step) && Disciplined(id, s, step) && Runs(s, t)
    requires !step.Restart? && (OwnStep(step) ==> step.t != t || (!step.DoUnlock? && !step.DoRelease?))
    requires t in NextTasks(id, s, step)
    ensures Runs(Next(id, s, step), t)
  {
  }

  /** The decision itself: no target is tracked under the source, and nothing was recorded yet. */
  lemma DecidesRight(id: Path -> string, s: State, t: Tid, recorded: set<Tid>)
    requires Can(id, s, UnmountCommit(t)) && Popping(NextTask(id, s, UnmountCommit(t)))
    ensures Tracked(NextBinds(id, s, UnmountCommit(t)), NextTask(id, s, UnmountCommit(t)).upc.pop.value) == {}
    ensures t !in RecordedSince(s, recorded, UnmountCommit(t))
  {
  }

  /** Deciding apart, a thread that pops was popping before, with the same task. */
  lemma OwnTaskStays(id: Path -> string, s: State, step: Step)
    requires Can(id, s, step) && OwnStep(step) && !step.UnmountCommit? && step.t in s.tasks
             && Popping(NextTask(id, s, step))
    ensures NextTask(id, s, step) == s.tasks[step.t]
  {
  }

  lemma OwnBindsStay(id: Path -> string, s: State, step: Step)
    requires Can(id, s, step) && OwnStep(step) && !step.UnmountCommit? && step.t in s.tasks && Popping(s.tasks[step.t])
             && Runs(s, step.t)
    ensures NextBinds(id, s, step) == s.binds && !step.RecordRefs? && !step.DoUnlock? && !step.DoRelease?
  {
  }

  lemma OwnPop(id: Path -> string, s: State, step: Step, recorded: set<Tid>)
    requires Inv(id, s) && PopsRight(s, recorded) && Can(id, s, step) && Disciplined(id, s, step) && OwnStep(step)
    requires step.t in s.tasks && step.t in NextTasks(id, s, step) && Popping(NextTask(id, s, step))
    ensures PopRight(Next(id, s, step), RecordedSince(s, recorded, step), step.t, NextTask(id, s, step).upc.pop.value)
  {
    var t := step.t;
    if step.UnmountCommit? {
      DecidesRight(id, s, t, recorded);
    } else {
      OwnTaskStays(id, s, step);
      assert PopRight(s, recorded, t, s.tasks[t].upc.pop.value);
      OwnBindsStay(id, s, step);
    }
    StaysRunning(id, s, step, t);
  }

  lemma OtherTaskStays(id: Path -> string, s: State, step: Step, t: Tid)
    requires Can(id, s, step) && !step.Restart? && (OwnStep(step) ==> step.t != t)
    requires t in NextTasks(id, s, step) && Popping(NextTasks(id, s, step)[t])
    ensures t in s.tasks && NextTasks(id, s, step)[t] == s.tasks[t]
  {
  }

  /** What others do to the targets of a source a thread is about to detach. */
  lemma OthersTracked(id: Path -> string, s: State, step: Step, recorded: set<Tid>, t: Tid, source: Path)
    requires Inv(id, s) && Can(id, s, step) && !step.Restart? && (OwnStep(step) ==> step.t != t)
    requires t in s.tasks && Popping(s.tasks[t]) && source == s.tasks[t].upc.pop.value
    requires PopRight(s, recorded, t, source)
    ensures Tracked(NextBinds(id, s, step), source) != {} <==> t in RecordedSince(s, recorded, step)
  {
    PoppingHoldsSource(id, s, t);
    if Records(s, step, source) {
      RecordAdds(id, s, step, source);
    } else {
      OthersLeaveTracked(id, s, step, t);
    }
  }

  lemma OthersPop(id: Path -> string, s: State, step: Step, recorded: set<Tid>, t: Tid)
    requires Inv(id, s) && PopsRight(s, recorded) && Can(id, s, step) && Disciplined(id, s, step)
    requires !step.Restart? && (OwnStep(step) ==> step.t != t) && t in NextTasks(id, s, step)
             && Popping(NextTasks(id, s, step)[t])
    ensures PopRight(Next(id, s, step), RecordedSince(s, recorded, step), t, NextTasks(id, s, step)[t].upc.pop.value)
  {
    OtherTaskStays(id, s, step, t);
    var source := s.tasks[t].upc.pop.value;
    assert PopRight(s, recorded, t, source);
    StaysRunning(id, s, step, t);
    OthersTracked(id, s, step, recorded, t, source);
  }

  lemma StepKeepsPops(id: Path -> string, s: State, step: Step, recorded: set<Tid>)
    requires Inv(id, s) && PopsRight(s, recorded) && Can(id, s, step) && Disciplined(id, s, step)
    ensures PopsRight(Next(id, s, step), RecordedSince(s, recorded, step))
  {
    var tasks' := NextTasks(id, s, step);
    forall t | t in tasks' && Popping(tasks'[t])
      ensures PopRight(Next(id, s, step), RecordedSince(s, recorded, step), t, tasks'[t].upc.pop.value)
    {
      if OwnStep(step) && step.t == t {
        assert tasks'[t] == NextTask(id, s, step);
        OwnPop(id, s, step, recorded);
      } else {
        OthersPop(id, s, step, recorded, t);
      }
    }
  }

  /** The threads whose source had references recorded since they decided, after a run. */
  ghost function RecordedAfter(id: Path -> string, s: State, before: set<Tid>, steps: seq<Step>): set<Tid>
    requires IsRun(id, s, steps)
    decreases |steps|
  {
    if steps == [] then before
    else RecordedAfter(id, Next(id, s, steps[0]), RecordedSince(s, before, steps[0]), steps[1..])
  }

  lemma {:induction false} RunKeepsPops(id: Path -> string, s: State, before: set<Tid>, steps: seq<Step>)
    requires Inv(id, s) && PopsRight(s, before) && IsRun(id, s, steps)
    ensures PopsRight(After(id, s, steps), RecordedAfter(id, s, before, steps))
    decreases |steps|
  {
    if steps != [] {
      StepKeepsInv(id, s, steps[0]);
      StepKeepsPops(id, s, steps[0], before);
      RunKeepsPops(id, Next(id, s, steps[0]), RecordedSince(s, before, steps[0]), steps[1..]);
    }
  }

  /**
   In every run: when an Unmount of a tracked target detaches the source, some
   target is tracked under that source if and only if an adoption or a recovery
   recorded references of it since the Unmount decided. Nothing else can.
   */
  lemma PopHitsTracked(id: Path -> string, steps: seq<Step>, t: Tid)
    requires IsRun(id, INIT, steps) && Can(id, After(id, INIT, steps), UnmountPopSource(t))
    requires After(id, INIT, steps).tasks[t].upc.relKey != ""
    ensures var s := After(id, INIT, steps);
            Tracked(s.binds, s.tasks[t].upc.pop.value) != {} <==> t in RecordedAfter(id, INIT, {}, steps)
  {
    RunKeepsPops(id, INIT, {}, steps);
    var s := After(id, INIT, steps);
    assert PopRight(s, RecordedAfter(id, INIT, {}, steps), t, s.tasks[t].upc.pop.value);
  }

  // ----- What is left of a target after its Unmount

  /** A Mount of x records it. */
  predicate MountRecords(s: State, step: Step, x: Path) {
    step.MountRecord? && step.t in s.tasks && s.tasks[step.t].Mount? && s.tasks[step.t].target == x
  }

  /** An adoption or a recovery records x as one of the mount references it found. */
  predicate AdoptRecords(s: State, step: Step, x: Path) {
    && step.RecordRefs? && step.t in s.tasks && s.tasks[step.t].Adopt? && s.tasks[step.t].apc.AFound?
    && x in s.tasks[step.t].apc.refs && x != s.tasks[step.t].source
  }

  /** The step forgets x if it is tracked: its Unmount, a cleanup of its mount or its source, a restart. */
  predicate Forgets(id: Path -> string, s: State, step: Step, x: Path) {
    match step
    case Restart => true
    case UnmountCommit(t) => t in s.tasks && s.tasks[t].Unmount? && s.tasks[t].target == x
    case DropRef(_, y) => y == x
    case Untrack(t) => t in s.tasks && s.tasks[t].Cleanup? && s.tasks[t].source == Source(id, x)
    case _ => false
  }

  ghost predicate MountedIn(id: Path -> string, s: State, x: Path, steps: seq<Step>)
    requires IsRun(id, s, steps)
    decreases |steps|
  {
    steps != [] && (MountRecords(s, steps[0], x) || MountedIn(id, Next(id, s, steps[0]), x, steps[1..]))
  }

  /** Whether x was recorded by an adoption or a recovery (or `before`) and not forgotten since. */
  ghost predicate AdoptedSince(id: Path -> string, s: State, x: Path, before: bool, steps: seq<Step>)
    requires IsRun(id, s, steps)
    decreases |steps|
  {
    if steps == [] then before
    else
      var adopted := AdoptRecords(s, steps[0], x) || (before && !Forgets(id, s, steps[0], x));
      AdoptedSince(id, Next(id, s, steps[0]), x, adopted, steps[1..])
  }

  lemma TrackedStep(id: Path -> string, s: State, step: Step, x: Path)
    requires BindsBelong(id, s.binds) && Can(id, s, step) && !MountRecords(s, step, x)
    ensures x in NextBinds(id, s, step) <==> AdoptRecords(s, step, x) || (x in s.binds && !Forgets(id, s, step, x))
  {
    assert x in s.binds ==> For(id, x, s.binds[x]);
  }

  lemma {:induction false} TrackedRun(id: Path -> string, s: State, x: Path, steps: seq<Step>)
    requires Inv(id, s) && IsRun(id, s, steps) && !MountedIn(id, s, x, steps)
    ensures x in After(id, s, steps).binds <==> AdoptedSince(id, s, x, x in s.binds, steps)
    decreases |steps|
  {
    if steps != [] {
      TrackedStep(id, s, steps[0], x);
      StepKeepsInv(id, s, steps[0]);
      TrackedRun(id, Next(id, s, steps[0]), x, steps[1..]);
    }
  }

  /**
   In every run: after an Unmount of x committed, and until a Mount of x records
   it again, x is tracked if and only if an adoption or a recovery recorded it
   since and nothing has forgotten it again.
   */
  lemma TrackedAgain(id: Path -> string, steps: seq<Step>, t: Tid, later: seq<Step>)
    requires IsRun(id, INIT, steps) && Can(id, After(id, INIT, steps), UnmountCommit(t))
    requires Disciplined(id, After(id, INIT, steps), UnmountCommit(t))
    requires IsRun(id, Next(id, After(id, INIT, steps), UnmountCommit(t)), later)
    requires var s := After(id, INIT, steps);
             !MountedIn(id, Next(id, s, UnmountCommit(t)), s.tasks[t].target, later)
    ensures var s := After(id, INIT, steps);
            var x, s' := s.tasks[t].target, Next(id, s, UnmountCommit(t));
            x in After(id, s', later).binds <==> AdoptedSince(id, s', x, false, later)
  {
    Reachable(id, steps);
    var s := After(id, INIT, steps);
    StepKeepsInv(id, s, UnmountCommit(t));
    TrackedRun(id, Next(id, s, UnmountCommit(t)), s.tasks[t].target, later);
  }
}
