/**
 Whether a rebind can touch a path that is no longer tracked. It takes its list
 of targets once and looks each one up again before it works on it; whoever
 forgets a target needs the lock that the rebind holds.
 */
module RebindTracked {
  import opened GoStrings
  import opened MountTable
  import opened NodeMachine
  import opened UnmountPop

  /** A rebind at work on one target. */
  predicate AtTarget(task: Task) {
    task.Rebind? && (task.rpc.RProbe? || task.rpc.RBind? || task.rpc.RDetached?)
  }

  ghost predicate TracksIt(s: State, t: Tid, task: Task)
    requires AtTarget(task)
  {
    Runs(s, t) && task.rpc.x in s.binds && s.binds[task.rpc.x] == task.source
  }

  ghost predicate TargetsTracked(s: State) {
    forall t :: t in s.tasks && AtTarget(s.tasks[t]) ==> TracksIt(s, t, s.tasks[t])
  }

  lemma RecheckFinds(id: Path -> string, s: State, t: Tid, x: Path)
    requires Can(id, s, Recheck(t, x)) && AtTarget(NextTask(id, s, Recheck(t, x)))
    ensures var task' := NextTask(id, s, Recheck(t, x));
            task'.rpc.x in s.binds && s.binds[task'.rpc.x] == task'.source && NextBinds(id, s, Recheck(t, x)) == s.binds
  {
  }

  /** Its other steps leave a rebind at the target it was at. */
  lemma StaysAtTarget(id: Path -> string, s: State, step: Step)
    requires Can(id, s, step) && OwnStep(step) && step.t in s.tasks && AtTarget(NextTask(id, s, step))
    requires !step.Recheck?
    ensures AtTarget(s.tasks[step.t]) && NextTask(id, s, step).rpc.x == s.tasks[step.t].rpc.x
    ensures NextTask(id, s, step).source == s.tasks[step.t].source
  {
  }

  lemma ForgetsNothing(id: Path -> string, s: State, step: Step)
    requires Can(id, s, step) && OwnStep(step) && step.t in s.tasks && AtTarget(s.tasks[step.t]) && Runs(s, step.t)
    ensures NextBinds(id, s, step) == s.binds && !step.DoUnlock? && !step.DoRelease?
  {
  }

  /** A rebind comes to a target by finding it tracked, and its own steps forget nothing. */
  lemma OwnTarget(id: Path -> string, s: State, step: Step)
    requires Can(id, s, step) && OwnStep(step) && step.t in s.tasks && AtTarget(NextTask(id, s, step))
    requires AtTarget(s.tasks[step.t]) ==> TracksIt(s, step.t, s.tasks[step.t])
    ensures var task' := NextTask(id, s, step);
            && Runs(s, step.t) && NextBinds(id, s, step) == s.binds && !step.DoUnlock? && !step.DoRelease?
            && task'.rpc.x in s.binds && s.binds[task'.rpc.x] == task'.source
  {
    if step.Recheck? {
      RecheckFinds(id, s, step.t, step.x);
    } else {
      StaysAtTarget(id, s, step);
      ForgetsNothing(id, s, step);
    }
  }

  /** Recording references keeps what is tracked where it is. */
  lemma RecordingKeeps(id: Path -> string, s: State, step: Step, x: Path)
    requires Inv(id, s) && Can(id, s, step) && step.RecordRefs? && x in s.binds
    ensures x in NextBinds(id, s, step) && NextBinds(id, s, step)[x] == s.binds[x]
  {
    var task := s.tasks[step.t];
    assert TaskBelongs(id, task) && For(id, x, s.binds[x]);
    if x in task.apc.refs - {task.source} {
      assert MayShow(id, x, task.source);
    }
  }

  lemma OthersKeepTarget(id: Path -> string, s: State, step: Step, u: Tid)
    requires Inv(id, s) && Can(id, s, step) && !step.Restart? && (OwnStep(step) ==> step.t != u)
    requires u in s.tasks && AtTarget(s.tasks[u]) && TracksIt(s, u, s.tasks[u])
    ensures var x := s.tasks[u].rpc.x;
            x in NextBinds(id, s, step) && NextBinds(id, s, step)[x] == s.tasks[u].source
  {
    var x, source := s.tasks[u].rpc.x, s.tasks[u].source;
    HoldsOwnKey(id, s, u);
    if step.RecordRefs? {
      RecordingKeeps(id, s, step, x);
    } else {
      OthersLeaveTracked(id, s, step, u);
      assert x in Tracked(s.binds, source);
    }
  }

  lemma OtherRebindStays(id: Path -> string, s: State, step: Step, u: Tid)
    requires Can(id, s, step) && !step.Restart? && (OwnStep(step) ==> step.t != u)
    requires u in NextTasks(id, s, step) && AtTarget(NextTasks(id, s, step)[u])
    ensures u in s.tasks && NextTasks(id, s, step)[u] == s.tasks[u]
  {
  }

  lemma StepKeepsTargets(id: Path -> string, s: State, step: Step)
    requires Inv(id, s) && TargetsTracked(s) && Can(id, s, step) && Disciplined(id, s, step)
    ensures TargetsTracked(Next(id, s, step))
  {
    var tasks' := NextTasks(id, s, step);
    forall u | u in tasks' && AtTarget(tasks'[u]) ensures TracksIt(Next(id, s, step), u, tasks'[u]) {
      if OwnStep(step) && step.t == u {
        assert tasks'[u] == NextTask(id, s, step);
        OwnTarget(id, s, step);
      } else {
        OtherRebindStays(id, s, step, u);
        OthersKeepTarget(id, s, step, u);
      }
      StaysRunning(id, s, step, u);
    }
  }

  lemma {:induction false} RunKeepsTargets(id: Path -> string, s: State, steps: seq<Step>)
    requires Inv(id, s) && TargetsTracked(s) && IsRun(id, s, steps)
    ensures TargetsTracked(After(id, s, steps))
    decreases |steps|
  {
    if steps != [] {
      StepKeepsInv(id, s, steps[0]);
      StepKeepsTargets(id, s, steps[0]);
      RunKeepsTargets(id, Next(id, s, steps[0]), steps[1..]);
    }
  }

  /**
   In every run: a path whose stack a rebind changes, by a detach or a bind, is
   tracked at that very moment under the source being rebound, whatever
   unmounts, cleanups and recoveries went on since the rebind took its list.
   */
  lemma RebindTouchesTracked(id: Path -> string, steps: seq<Step>, step: Step, p: Path)
    requires IsRun(id, INIT, steps) && Can(id, After(id, INIT, steps), step)
    requires step.RebindDetach? || step.RebindBind?
    ensures var s := After(id, INIT, steps);
            && Disciplined(id, s, step)
            && (Layers(Next(id, s, step).rows, p) != Layers(s.rows, p) ==>
                  IsTarget(p) && p in s.binds && s.binds[p] == s.tasks[step.t].source == Source(id, p))
  {
    Reachable(id, steps);
    RunKeepsTargets(id, INIT, steps);
    var s := After(id, INIT, steps);
    RowOpLayers(s.rows, RowOpOf(id, s, step), p);
    AtItsTarget(id, s, step.t, s.tasks[step.t]);
  }

  lemma AtItsTarget(id: Path -> string, s: State, t: Tid, task: Task)
    requires BindsBelong(id, s.binds) && TargetsTracked(s) && t in s.tasks && s.tasks[t] == task && AtTarget(task)
    ensures var x := task.rpc.x; IsTarget(x) && x in s.binds && s.binds[x] == task.source == Source(id, x)
  {
    assert TracksIt(s, t, task) && For(id, task.rpc.x, s.binds[task.rpc.x]);
  }
}
