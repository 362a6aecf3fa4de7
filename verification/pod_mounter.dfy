/**
 The pod mounter's operations on the mount table, one at a time: rebinding
 after a daemon restart, unmounting a target, cleaning up a source. Each method
 is proved against what it does to the stack of every path when it runs to
 completion with nothing in between. How they interleave, with each other and
 with the steps that take no lock, is the subject of NodeMachine.
 */
module MountOps {
  import opened GoStrings
  import opened MountTable
  import opened NodeMachine

  /** How many mounts one unmountAll call detaches at most. */
  const MAX_POPS: nat := 32

  /** What stays of a stack after unmountAll: all but the 32 newest mounts. */
  function Detached(layers: seq<Backing>): seq<Backing> {
    layers[..if MAX_POPS <= |layers| then |layers| - MAX_POPS else 0]
  }

  /** What a bind of `source` shows: its top mount, or the bare directory. */
  function Shown(rows: Table, source: Path): Backing {
    match Top(rows, source)
    case Some(b) => b
    case None => Backing("", source)
  }

  /** Which of the system calls of one stackBind fail. */
  datatype BindFaults = BindFaults(bind: bool, mkdir: bool, rebind: bool) {
    predicate Fails() {
      bind && (mkdir || rebind)
    }
  }

  /** A target's stack after a rebind whose source shows `top`; `readable` says whether mountinfo could be read. */
  function Rebound(layers: seq<Backing>, top: Backing, readable: bool, faults: BindFaults): seq<Backing> {
    if readable && layers != [] && layers[|layers| - 1] == top then layers
    else if !faults.bind then layers + [top]
    else if faults.Fails() then Detached(layers)
    else Detached(layers) + [top]
  }

  function Max(a: int, b: int): int {
    if a < b then b else a
  }

  function CeilDiv32(d: nat): nat {
    (d + 31) / 32
  }

  /** The kernel's mount table and the API server's mount pods and HFMount objects (their listed targets), by name. */
  class Host {
    var rows: Table
    var pods: set<string>
    var crds: map<string, set<Path>>

    constructor (rows: Table, pods: set<string>, crds: map<string, set<Path>>)
      ensures this.rows == rows && this.pods == pods && this.crds == crds
    {
      this.rows, this.pods, this.crds := rows, pods, crds;
    }

    /** Detach every mount stacked at p, at most 32 of them. */
    method UnmountAll(p: Path)
      modifies this`rows
      ensures rows == PopN(old(rows), p, MAX_POPS)
    {
      var i := 0;
      while i < MAX_POPS
        invariant i <= MAX_POPS
        invariant PopN(rows, p, MAX_POPS - i) == PopN(old(rows), p, MAX_POPS)
      {
        if !Mounted(rows, p) {
          PopNBare(rows, p, MAX_POPS - i);
          return;
        }
        rows := Pop(rows, p);
        i := i + 1;
      }
    }

    method UnmountEach(paths: set<Path>)
      modifies this`rows
      ensures forall x :: Layers(rows, x) == if x in paths then Detached(old(Layers(rows, x))) else old(Layers(rows, x))
    {
      ghost var before := rows;
      var done := {};
      while done != paths
        invariant done <= paths
        invariant forall x :: Layers(rows, x) == if x in done then Detached(Layers(before, x)) else Layers(before, x)
        decreases paths - done
      {
        assert paths - done != {};
        var x :| x in paths - done;
        ghost var mid := rows;
        UnmountAll(x);
        LayersAfterPopN(mid, x);
        done := done + {x};
      }
    }

    method BindMount(source: Path, target: Path, fails: bool) returns (ok: bool)
      modifies this`rows
      ensures ok == !fails
      ensures rows == if ok then Push(old(rows), target, Shown(old(rows), source)) else old(rows)
    {
      if !fails {
        rows := Push(rows, target, Shown(rows, source));
      }
      return !fails;
    }

    /** Bind over whatever is at the target; if that fails, detach it all and bind on the bare directory. */
    method StackBind(source: Path, target: Path, faults: BindFaults) returns (ok: bool)
      requires source != target
      modifies this`rows
      ensures ok == !faults.Fails()
      ensures Layers(rows, target) == Rebound(old(Layers(rows, target)), old(Shown(rows, source)), false, faults)
      // a bind that works stacks the source's top on what is there; else what is there goes, 32 mounts at most,
      // and one more bind is made on the rest
      ensures !faults.bind ==> Layers(rows, target) == old(Layers(rows, target)) + [old(Shown(rows, source))]
      ensures faults.bind && |old(Layers(rows, target))| <= 32 ==>
                Layers(rows, target) == if faults.mkdir || faults.rebind then [] else [old(Shown(rows, source))]
      ensures faults.bind && |old(Layers(rows, target))| > 32 ==>
                Layers(rows, target) == old(Layers(rows, target))[..|old(Layers(rows, target))| - 32]
                                        + if faults.mkdir || faults.rebind then [] else [old(Shown(rows, source))]
      ensures forall q :: q != target ==> Layers(rows, q) == old(Layers(rows, q))
    {
      ok := BindMount(source, target, faults.bind);
      if !ok {
        UnmountAll(target);
        PopNLeaves(old(rows), target, MAX_POPS);
        forall q | q != target ensures Layers(rows, q) == old(Layers(rows, q)) {
          LayersOfPopN(old(rows), target, MAX_POPS, q);
        }
        if faults.mkdir {
          return false;
        }
        ghost var bare := rows;
        ok := BindMount(source, target, faults.rebind);
        if ok {
          LayersAfterPush(bare, target, Shown(bare, source));
        }
      } else {
        LayersAfterPush(old(rows), target, old(Shown(rows, source)));
      }
    }
  }

  lemma LayersAfterPush(rows: Table, p: Path, b: Backing)
    ensures Layers(Push(rows, p, b), p) == Layers(rows, p) + [b]
    ensures forall q :: q != p ==> Layers(Push(rows, p, b), q) == Layers(rows, q)
  {
  }

  lemma LayersAfterPopN(rows: Table, p: Path)
    ensures Layers(PopN(rows, p, MAX_POPS), p) == Detached(Layers(rows, p))
    ensures forall q :: q != p ==> Layers(PopN(rows, p, MAX_POPS), q) == Layers(rows, q)
  {
    PopNLeaves(rows, p, MAX_POPS);
    forall q | q != p ensures Layers(PopN(rows, p, MAX_POPS), q) == Layers(rows, q) {
      LayersOfPopN(rows, p, MAX_POPS, q);
    }
  }

  /**
   A rebind leaves the target showing the source's top mount unless both its binds failed,
   and adds at most one mount.
   */
  lemma ReboundOutcome(layers: seq<Backing>, top: Backing, readable: bool, faults: BindFaults)
    ensures var after := Rebound(layers, top, readable, faults);
            && |after| <= |layers| + 1
            && ((after != [] && after[|after| - 1] == top) || faults.Fails())
            && (!faults.bind ==> layers <= after)
            && (readable && layers != [] && layers[|layers| - 1] == top ==> after == layers)
            && (!readable || layers == [] || layers[|layers| - 1] != top ==>
                if !faults.bind then after == layers + [top]
                else after == layers[..if |layers| <= 32 then 0 else |layers| - 32]
                              + if faults.mkdir || faults.rebind then [] else [top])
            && (readable && !faults.Fails() ==>
                forall f: BindFaults {:trigger Rebound(after, top, true, f)} :: Rebound(after, top, true, f) == after)
  {
  }

  lemma NowBound(rows: Table, rows': Table, x: Path, source: Path, faults: BindFaults)
    requires Layers(rows', x) == Rebound(Layers(rows, x), Shown(rows, source), true, faults) && !faults.Fails()
    requires x != source && Mounted(rows, source) && Layers(rows', source) == Layers(rows, source)
    ensures BoundTo(rows', x, source)
  {
    ReboundOutcome(Layers(rows, x), Shown(rows, source), true, faults);
  }

  lemma BoundStays(rows: Table, x: Path, source: Path, faults: BindFaults)
    requires BoundTo(rows, x, source)
    ensures Rebound(Layers(rows, x), Shown(rows, source), true, faults) == Layers(rows, x)
  {
  }

  class PodMounter {
    const host: Host
    const id: Path -> string
    var binds: map<Path, Path>

    ghost predicate Valid()
      reads this
    {
      BindsBelong(id, binds)
    }

    constructor (host: Host, id: Path -> string)
      ensures Valid() && this.host == host && this.id == id && binds == map[]
    {
      this.host, this.id, binds := host, id, map[];
    }

    // ----- rebindTargets

    /** Bind one target again unless it already shows the source's top mount. */
    method RebindTarget(source: Path, x: Path, readable: bool, faults: BindFaults)
      requires x != source && Mounted(host.rows, source)
      modifies host`rows
      ensures Layers(host.rows, x) ==
                Rebound(old(Layers(host.rows, x)), old(Shown(host.rows, source)), readable, faults)
      ensures forall q :: q != x ==> Layers(host.rows, q) == old(Layers(host.rows, q))
    {
      if !(readable && BoundTo(host.rows, x, source)) {
        var _ := host.StackBind(source, x, faults);
      }
    }

    /**
     Every tracked target of the source, in any order; with a source that is not
     mounted, or whose checks all fail, nothing is done.
     */
    method RebindTargets(source: Path, checkFails: bool, readable: Path -> bool, faults: Path -> BindFaults)
      requires Valid() && IsSource(source)
      modifies host`rows
      ensures forall x :: Layers(host.rows, x) ==
                if x in Tracked(binds, source) && old(Mounted(host.rows, source)) && !checkFails
                then Rebound(old(Layers(host.rows, x)), old(Shown(host.rows, source)), readable(x), faults(x))
                else old(Layers(host.rows, x))
    {
      if Mounted(host.rows, source) && !checkFails {
        TrackedAreTargets(source);
        RebindEach(source, Tracked(binds, source), readable, faults);
      }
    }

    method RebindEach(source: Path, targets: set<Path>, readable: Path -> bool, faults: Path -> BindFaults)
      requires source !in targets && Mounted(host.rows, source)
      modifies host`rows
      ensures forall x :: x in targets ==>
                Layers(host.rows, x) ==
                  Rebound(old(Layers(host.rows, x)), old(Shown(host.rows, source)), readable(x), faults(x))
      ensures forall x :: x !in targets ==> Layers(host.rows, x) == old(Layers(host.rows, x))
    {
      ghost var before, top := host.rows, Shown(host.rows, source);
      var todo := targets;
      while todo != {}
        invariant todo <= targets
        invariant forall x :: x in targets && x !in todo ==>
                    Layers(host.rows, x) == Rebound(Layers(before, x), top, readable(x), faults(x))
        invariant forall x :: x !in targets || x in todo ==> Layers(host.rows, x) == Layers(before, x)
        decreases todo
      {
        var x :| x in todo;
        todo := todo - {x};
        RebindTarget(source, x, readable(x), faults(x));
      }
    }

    lemma TrackedAreTargets(source: Path)
      requires Valid() && IsSource(source)
      ensures source !in Tracked(binds, source)
      ensures forall x :: x in Tracked(binds, source) ==> For(id, x, source)
    {
    }

    /**
     After a run in which some bind of each target succeeded, every target is bound and a
     second run changes no stack.
     */
    method RebindTwice(source: Path, faults: Path -> BindFaults, later: Path -> BindFaults)
        returns (ghost between: Table)
      requires Valid() && IsSource(source) && Mounted(host.rows, source)
      requires forall x :: x in Tracked(binds, source) ==> !faults(x).Fails()
      modifies host`rows
      ensures forall x :: x in Tracked(binds, source) ==> BoundTo(between, x, source)
      ensures forall x :: Layers(host.rows, x) == Layers(between, x)
    {
      ghost var before := host.rows;
      TrackedAreTargets(source);
      RebindTargets(source, false, _ => true, faults);
      between := host.rows;
      forall x | x in Tracked(binds, source) ensures BoundTo(between, x, source) {
        NowBound(before, between, x, source, faults(x));
      }
      RebindTargets(source, false, _ => true, later);
      forall x ensures Layers(host.rows, x) == Layers(between, x) {
        if x in Tracked(binds, source) {
          BoundStays(between, x, source, later(x));
        }
      }
    }

    // ----- Unmount

    /**
     Which calls fail: removing the target directory for a reason other than a
     remaining mount, the mount check of an untracked target's source, and the
     API calls.
     */
    method Unmount(target: Path, removeFails: bool, checkFails: bool, podFails: bool, crdFails: bool) returns (ok: bool)
      requires Valid() && IsTarget(target)
      modifies this, host
      ensures Valid()
      ensures ok <==> |old(Layers(host.rows, target))| <= MAX_POPS && !removeFails
      ensures Layers(host.rows, target) == Detached(old(Layers(host.rows, target)))
      ensures forall q :: q != target && q != Source(id, target) ==> Layers(host.rows, q) == old(Layers(host.rows, q))
      ensures !ok ==> binds == old(binds) && host.pods == old(host.pods) && host.crds == old(host.crds)
                      && Layers(host.rows, Source(id, target)) == old(Layers(host.rows, Source(id, target)))
      ensures ok ==> binds == old(binds) - {target}
      ensures ok ==> var source := Source(id, target);
                     var pod, crd := "hf-mount-" + id(target), "hfm-" + id(target);
                     var inUse := Tracked(old(binds) - {target}, source) != {};
                     if target in old(binds) && inUse then
                       && host.pods == old(host.pods)
                       && Layers(host.rows, source) == old(Layers(host.rows, source))
                       && host.crds == (if crd in old(host.crds) && !crdFails
                                        then old(host.crds)[crd := old(host.crds)[crd] - {target}] else old(host.crds))
                     else if target in old(binds) || (old(Mounted(host.rows, source)) && !checkFails) then
                       && host.pods == (if podFails then old(host.pods) else old(host.pods) - {pod})
                       && Layers(host.rows, source) == Detached(old(Layers(host.rows, source)))
                       && host.crds == (if crdFails then old(host.crds) else old(host.crds) - {crd})
                     else
                       && host.pods == old(host.pods) && host.crds == old(host.crds)
                       && Layers(host.rows, source) == old(Layers(host.rows, source))
    {
      ghost var before := host.rows;
      SourceIsSource(id, target);
      host.UnmountAll(target);
      LayersAfterPopN(before, target);
      if Mounted(host.rows, target) || removeFails {
        return false;
      }
      var tracked := target in binds;
      var source := Source(id, target);
      if tracked {
        assert For(id, target, binds[target]);
        source := binds[target];
      }
      binds := binds - {target};
      var inUse := tracked && Tracked(binds, source) != {};
      var crd := CRD_PREFIX + id(target);
      if !tracked && (checkFails || !Mounted(host.rows, source)) {
        return true;
      }
      if inUse {
        if crd in host.crds && !crdFails {
          host.crds := host.crds[crd := host.crds[crd] - {target}];
        }
        return true;
      }
      ghost var mid := host.rows;
      host.UnmountAll(source);
      LayersAfterPopN(mid, source);
      if !podFails {
        host.pods := host.pods - {MOUNT_POD_PREFIX + id(target)};
      }
      if !crdFails {
        host.crds := host.crds - {crd};
      }
      return true;
    }

    /**
     kubelet's retries: with d mounts stacked on the target it takes exactly max(1,
     ceil(d/32)) calls to leave it bare and untracked.
     */
    method UnmountUntilDone(target: Path) returns (calls: nat)
      requires Valid() && IsTarget(target)
      modifies this, host
      ensures Valid()
      ensures calls == Max(1, CeilDiv32(|old(Layers(host.rows, target))|))
      ensures !Mounted(host.rows, target) && target !in binds
      ensures forall q :: q != target && q != Source(id, target) ==> Layers(host.rows, q) == old(Layers(host.rows, q))
    {
      calls := 0;
      var done := false;
      ghost var d := |Layers(host.rows, target)|;
      while !done
        invariant Valid()
        invariant !done ==> binds == old(binds) && (calls > 0 ==> 32 * calls < d)
        invariant |Layers(host.rows, target)| == Max(0, d - 32 * calls)
        invariant done ==> calls == Max(1, CeilDiv32(d)) && target !in binds && !Mounted(host.rows, target)
        invariant forall q :: q != target && q != Source(id, target) ==>
                    Layers(host.rows, q) == old(Layers(host.rows, q))
        decreases !done, |Layers(host.rows, target)|
      {
        done := Unmount(target, false, false, false, false);
        calls := calls + 1;
      }
    }

    // ----- cleanupSource

    /**
     One reference: kept if its pod is live or unidentifiable, otherwise detached and, if
     its path is then known to be bare, forgotten.
     */
    method VisitRef(ref: Path, live: set<string>, unchecked: set<Path>) returns (keep: bool)
      requires Valid()
      modifies this`binds, host`rows
      ensures Valid()
      ensures keep <==> !Dead(ref, Some(live)) || |old(Layers(host.rows, ref))| > MAX_POPS || ref in unchecked
      ensures VisitedRef(ref, live, old(host.rows), old(binds), keep, host.rows, binds)
    {
      var uid := PodUID(ref);
      if uid == "" || uid in live {
        return true;
      }
      host.UnmountAll(ref);
      LayersAfterPopN(old(host.rows), ref);
      keep := Mounted(host.rows, ref) || ref in unchecked;
      if !keep {
        binds := binds - {ref};
      }
    }

    /**
     Detach and forget the references whose pod is gone; `live` is the listing of live pod
     UIDs, `unchecked` the paths whose mount check fails.
     */
    method DropDeadPodRefs(refs: seq<Path>, live: Option<set<string>>, unchecked: set<Path>) returns (alive: seq<Path>)
      requires Valid()
      modifies this`binds, host`rows
      ensures Valid()
      ensures live.None? ==> alive == refs && host.rows == old(host.rows) && binds == old(binds)
      ensures forall x :: x in alive ==> x in refs
      ensures forall x :: x in refs && !Dead(x, live) ==> x in alive
      ensures forall x :: x in refs && x !in alive ==> !Mounted(host.rows, x) && x !in binds
      ensures AllDroppable(refs, live, unchecked, old(host.rows)) ==> alive == []
      ensures binds.Keys <= old(binds).Keys && forall x :: x in binds ==> binds[x] == old(binds)[x]
      ensures forall x :: !(x in refs && Dead(x, live)) ==>
                Layers(host.rows, x) == old(Layers(host.rows, x)) && (x in binds <==> x in old(binds))
      // a reference is kept as it is if its path names a live pod or none
      ensures live.Some? ==> forall x :: x in refs && (PodUID(x) == "" || PodUID(x) in live.value) ==>
                x in alive && Layers(host.rows, x) == old(Layers(host.rows, x)) && (x in binds <==> x in old(binds))
      // it is dropped if its path names another pod, can be checked and carries at most 32 mounts
      ensures live.Some? ==> forall x ::
                x in refs && PodUID(x) != "" && PodUID(x) !in live.value && x !in unchecked
                && |old(Layers(host.rows, x))| <= 32 ==>
                  x !in alive
    {
      if refs == [] || live.None? {
        assert refs != [] ==> refs[0] in refs && !Dead(refs[0], live);
        return refs;
      }
      alive := [];
      ghost var rows, was := host.rows, binds;
      for i := 0 to |refs|
        invariant Valid()
        invariant Sorted(refs[..i], alive, live.value, host.rows, binds)
        invariant OnlyDeadLose(refs, live.value, rows, was, host.rows, binds)
        invariant KeptForReason(alive, live, unchecked, rows)
      {
        assert refs[..i + 1] == refs[..i] + [refs[i]];
        ghost var rows', was', alive' := host.rows, binds, alive;
        var keep := VisitRef(refs[i], live.value, unchecked);
        if keep {
          alive := alive + [refs[i]];
        }
        StaysSorted(refs[..i], alive', live.value, rows', was', refs[i], keep, host.rows, binds);
        LosesOnlyDead(refs, live.value, rows, was, rows', was', refs[i], keep, host.rows, binds);
      }
      assert refs[..|refs|] == refs;
      SomeKept(refs, alive, live, unchecked, rows);
    }

    /** Detach the source, forget its targets and detach those too. */
    method ReleaseSource(source: Path)
      requires Valid() && IsSource(source)
      modifies this`binds, host`rows
      ensures Valid()
      ensures binds == old(binds) - Tracked(old(binds), source)
      ensures Layers(host.rows, source) == Detached(old(Layers(host.rows, source)))
      ensures forall x :: x in Tracked(old(binds), source) ==>
                Layers(host.rows, x) == Detached(old(Layers(host.rows, x)))
      ensures forall x :: x != source && x !in Tracked(old(binds), source) ==>
                Layers(host.rows, x) == old(Layers(host.rows, x))
    {
      TrackedAreTargets(source);
      var stale := Tracked(binds, source);
      host.UnmountAll(source);
      LayersAfterPopN(old(host.rows), source);
      binds := binds - stale;
      host.UnmountEach(stale);
    }

    /** What is left of the binds once the dropped references and then the source's targets are gone. */
    lemma DroppedThenReleased(was: map<Path, Path>, mid: map<Path, Path>, refs: seq<Path>, source: Path)
      requires BindsBelong(id, was) && IsSource(source)
      requires mid.Keys <= was.Keys && forall x :: x in mid ==> mid[x] == was[x]
      requires forall x :: x in refs ==> MayShow(id, x, source)
      requires forall x :: x in was && x !in refs ==> x in mid
      ensures mid - Tracked(mid, source) == was - Tracked(was, source)
    {
    }

    /**
     Clean up a source whose mount pod is gone: `refs` is the enumeration of its
     mount references. With a reference left, ask for a heal instead.
     */
    method CleanupSource(source: Path, refs: Option<seq<Path>>, live: Option<set<string>>, unchecked: set<Path>)
        returns (heal: bool)
      requires Valid() && IsSource(source)
      requires refs.Some? ==> forall x :: x in refs.value ==> MayShow(id, x, source)
      modifies this`binds, host`rows
      ensures Valid()
      // the references, or the pods behind them, could not be listed: hands off
      ensures refs.None? ==> !heal && host.rows == old(host.rows) && binds == old(binds)
      ensures refs.Some? && refs.value != [] && live.None? ==>
                heal && host.rows == old(host.rows) && binds == old(binds)
      // a live or unidentifiable reference is left: heal; all are dead and can be detached: clean up
      ensures refs.Some? && (exists x :: x in refs.value && !Dead(x, live)) ==> heal
      ensures refs.Some? && AllDroppable(refs.value, live, unchecked, old(host.rows)) ==> !heal
      ensures refs.Some? && live.Some?
              && (exists x :: x in refs.value && (PodUID(x) == "" || PodUID(x) in live.value)) ==>
                heal
      ensures refs.Some? && live.Some? && heal ==>
                forall x :: x in refs.value && (PodUID(x) == "" || PodUID(x) in live.value) ==>
                  Layers(host.rows, x) == old(Layers(host.rows, x)) && (x in binds <==> x in old(binds))
      // healing: only dead references lose mounts or their entry
      ensures refs.Some? && heal ==> forall x :: !(x in refs.value && Dead(x, live)) ==>
                Layers(host.rows, x) == old(Layers(host.rows, x)) && (x in binds <==> x in old(binds))
      // cleaning up: the source is detached and no longer tracked
      ensures refs.Some? && !heal ==> binds == old(binds) - Tracked(old(binds), source)
      ensures refs.Some? && !heal ==> Layers(host.rows, source) == Detached(old(Layers(host.rows, source)))
      // nothing of another source changes
      ensures forall x :: x in binds ==> x in old(binds) && binds[x] == old(binds)[x]
      ensures forall x :: !MayShow(id, x, source) ==>
                Layers(host.rows, x) == old(Layers(host.rows, x)) && (x in binds <==> x in old(binds))
    {
      if refs.None? {
        return false;
      }
      SourceHasNoPod(source);
      var alive := DropDeadPodRefs(refs.value, live, unchecked);
      if |alive| > 0 {
        assert alive[0] in alive;
        return true;
      }
      TrackedAreTargets(source);
      DroppedThenReleased(old(binds), binds, refs.value, source);
      ReleaseSource(source);
      return false;
    }
  }

  /** Of the visited references, the live or unidentifiable ones are kept, and the others are bare and forgotten. */
  ghost predicate Sorted(visited: seq<Path>, alive: seq<Path>, live: set<string>, rows: Table, binds: map<Path, Path>) {
    && (forall x :: x in alive ==> x in visited)
    && (forall x :: x in visited && !Dead(x, Some(live)) ==> x in alive)
    && (forall x :: x in visited && x !in alive ==> !Mounted(rows, x) && x !in binds)
  }

  /** From one state to another, stacks shrink, entries go, and only at dead references. */
  ghost predicate OnlyDeadLose(refs: seq<Path>, live: set<string>, rows: Table, binds: map<Path, Path>, rows': Table,
                               binds': map<Path, Path>) {
    && (forall x :: |Layers(rows', x)| <= |Layers(rows, x)|)
    && (binds'.Keys <= binds.Keys && forall x :: x in binds' ==> binds'[x] == binds[x])
    && (forall x :: !(x in refs && Dead(x, Some(live))) ==>
        Layers(rows', x) == Layers(rows, x) && (x in binds' <==> x in binds))
  }

  /** What a visit of `ref` does. */
  ghost predicate VisitedRef(ref: Path, live: set<string>, rows: Table, binds: map<Path, Path>, keep: bool,
                             rows': Table, binds': map<Path, Path>) {
    && (!keep ==> Dead(ref, Some(live)) && !Mounted(rows', ref))
    && Layers(rows', ref) == (if Dead(ref, Some(live)) then Detached(Layers(rows, ref)) else Layers(rows, ref))
    && (forall q :: q != ref ==> Layers(rows', q) == Layers(rows, q))
    && binds' == if keep then binds else binds - {ref}
  }

  lemma StaysSorted(visited: seq<Path>, alive: seq<Path>, live: set<string>, rows: Table, binds: map<Path, Path>,
                    ref: Path, keep: bool, rows': Table, binds': map<Path, Path>)
    requires Sorted(visited, alive, live, rows, binds) && VisitedRef(ref, live, rows, binds, keep, rows', binds')
    ensures Sorted(visited + [ref], if keep then alive + [ref] else alive, live, rows', binds')
  {
    var alive' := if keep then alive + [ref] else alive;
    forall x | x in visited + [ref] && x !in alive' ensures !Mounted(rows', x) && x !in binds' {
      assert x != ref ==> x in visited && x !in alive;
    }
  }

  lemma LosesOnlyDead(refs: seq<Path>, live: set<string>, rows: Table, binds: map<Path, Path>, rows': Table,
                      binds': map<Path, Path>, ref: Path, keep: bool, rows'': Table, binds'': map<Path, Path>)
    requires OnlyDeadLose(refs, live, rows, binds, rows', binds')
             && VisitedRef(ref, live, rows', binds', keep, rows'', binds'') && ref in refs
    ensures OnlyDeadLose(refs, live, rows, binds, rows'', binds'')
  {
    forall x ensures |Layers(rows'', x)| <= |Layers(rows, x)| {
      assert x != ref ==> Layers(rows'', x) == Layers(rows', x);
    }
  }

  /** A reference is kept only if it is not dead, cannot be checked or carries too many mounts. */
  ghost predicate KeptForReason(alive: seq<Path>, live: Option<set<string>>, unchecked: set<Path>, rows: Table) {
    forall x :: x in alive ==> !Dead(x, live) || x in unchecked || |Layers(rows, x)| > MAX_POPS
  }

  lemma SomeKept(refs: seq<Path>, alive: seq<Path>, live: Option<set<string>>, unchecked: set<Path>, rows: Table)
    requires KeptForReason(alive, live, unchecked, rows) && forall x :: x in alive ==> x in refs
    ensures alive != [] ==> !AllDroppable(refs, live, unchecked, rows)
  {
    if alive != [] {
      assert alive[0] in alive;
    }
  }

  ghost predicate AllDroppable(refs: seq<Path>, live: Option<set<string>>, unchecked: set<Path>, rows: Table) {
    forall x :: x in refs ==> Dead(x, live) && x !in unchecked && |Layers(rows, x)| <= MAX_POPS
  }

  /** The reference names a pod that the listing does not contain. */
  predicate Dead(ref: Path, live: Option<set<string>>) {
    live.Some? && PodUID(ref) != "" && PodUID(ref) !in live.value
  }

  lemma SourceHasNoPod(source: Path)
    requires IsSource(source)
    ensures PodUID(source) == ""
  {
  }
}
