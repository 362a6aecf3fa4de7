/**
 The per-source, reference-counted lock of the pod mounter.

 The first half is the table itself: the two operations as the code performs
 them on shared objects, proved against a specification on values. The second
 half lets any number of goroutines interleave acquire, lock, unlock and
 release as separate steps and shows that the table still gives mutual
 exclusion per source.
 */
module SourceLock {

  /** The table as a value: the entry of each source, and every lock object's count. */
  datatype LockTable<O> = LockTable(entries: map<string, O>, refs: map<O, int>)

  /** Look the source up, create its entry from `spare` if there is none, count one more user. */
  function AcquireSpec<O(==)>(s: LockTable<O>, source: string, spare: O): LockTable<O>
    requires forall k :: k in s.entries ==> s.entries[k] in s.refs
  {
    if source in s.entries
    then s.(refs := s.refs[s.entries[source] := s.refs[s.entries[source]] + 1])
    else LockTable(s.entries[source := spare], s.refs[spare := 1])
  }

  /** Count one user less; at zero, delete whatever entry is stored under `source`. */
  function ReleaseSpec<O(==)>(s: LockTable<O>, source: string, lk: O): LockTable<O>
    requires lk in s.refs
  {
    LockTable(if s.refs[lk] - 1 == 0 then s.entries - {source} else s.entries, s.refs[lk := s.refs[lk] - 1])
  }

  class RefMutex {
    var refs: int

    constructor ()
      ensures refs == 0
    {
      refs := 0;
    }
  }

  class SourceLocks {
    var sourceLocks: map<string, RefMutex>
    ghost var objects: set<RefMutex>

    ghost predicate Valid()
      reads this
    {
      forall k :: k in sourceLocks ==> sourceLocks[k] in objects
    }

    ghost function View(): LockTable<RefMutex>
      reads this, objects
    {
      LockTable(sourceLocks, map o | o in objects :: o.refs)
    }

    constructor ()
      ensures Valid() && View() == LockTable(map[], map[])
    {
      sourceLocks, objects := map[], {};
    }

    method AcquireSourceLock(source: string) returns (lk: RefMutex)
      requires Valid()
      modifies this, objects
      ensures Valid() && fresh(objects - old(objects))
      ensures View() == AcquireSpec(old(View()), source, lk)
      ensures source in sourceLocks && sourceLocks[source] == lk && lk in objects
      ensures source in old(sourceLocks) ==> lk == old(sourceLocks[source])
      ensures source !in old(sourceLocks) ==> fresh(lk)
    {
      if source in sourceLocks {
        lk := sourceLocks[source];
      } else {
        lk := new RefMutex();
        sourceLocks := sourceLocks[source := lk];
        objects := objects + {lk};
      }
      lk.refs := lk.refs + 1;
    }

    method ReleaseSourceLock(source: string, lk: RefMutex)
      requires Valid() && lk in objects
      modifies this, lk
      ensures Valid() && objects == old(objects)
      ensures View() == ReleaseSpec(old(View()), source, lk)
    {
      lk.refs := lk.refs - 1;
      if lk.refs == 0 {
        sourceLocks := sourceLocks - {source};
      }
    }
  }

  // ----- Any number of goroutines, one atomic step at a time

  type Tid = nat

  /** Where a goroutine is between acquire and release; an idle one has no entry. */
  datatype LockPc =
    | Waiting(key: string, obj: nat)
    | Holding(key: string, obj: nat)
    | Releasing(key: string, obj: nat)

  /** `next` is the name of the next lock object, `locked` the objects whose mutex is held. */
  datatype LockSys = LockSys(locks: LockTable<nat>, next: nat, locked: set<nat>, pcs: map<Tid, LockPc>)

  datatype LockStep =
    | Acquire(t: Tid, key: string)
    | Lock(t: Tid)
    | Unlock(t: Tid)
    | Release(t: Tid, relKey: string)

  const EMPTY_SYS := LockSys(LockTable(map[], map[]), 0, {}, map[])

  ghost predicate Counted(s: LockSys) {
    && (forall k :: k in s.locks.entries ==> s.locks.entries[k] in s.locks.refs)
    && (forall t :: t in s.pcs ==> s.pcs[t].obj in s.locks.refs)
  }

  /** A release uses the acquired key, or "" (the key Unmount is left with on its untracked path). */
  ghost predicate Enabled(s: LockSys, step: LockStep) {
    match step
    case Acquire(t, key) => t !in s.pcs && key != ""
    case Lock(t) => t in s.pcs && s.pcs[t].Waiting? && s.pcs[t].obj !in s.locked
    case Unlock(t) => t in s.pcs && s.pcs[t].Holding?
    case Release(t, relKey) => t in s.pcs && s.pcs[t].Releasing? && (relKey == s.pcs[t].key || relKey == "")
  }

  ghost function Apply(s: LockSys, step: LockStep): LockSys
    requires Counted(s) && Enabled(s, step)
  {
    match step
    case Acquire(t, key) =>
      var locks := AcquireSpec(s.locks, key, s.next);
      LockSys(locks, if key in s.locks.entries then s.next else s.next + 1, s.locked,
              s.pcs[t := Waiting(key, locks.entries[key])])
    case Lock(t) =>
      s.(locked := s.locked + {s.pcs[t].obj}, pcs := s.pcs[t := Holding(s.pcs[t].key, s.pcs[t].obj)])
    case Unlock(t) =>
      s.(locked := s.locked - {s.pcs[t].obj}, pcs := s.pcs[t := Releasing(s.pcs[t].key, s.pcs[t].obj)])
    case Release(t, relKey) =>
      s.(locks := ReleaseSpec(s.locks, relKey, s.pcs[t].obj), pcs := s.pcs - {t})
  }

  /** The goroutines between acquire and release on source `key`. */
  ghost function Users(pcs: map<Tid, LockPc>, key: string): set<Tid> {
    set t | t in pcs && pcs[t].key == key
  }

  /** An active goroutine's source has its entry, and it names that goroutine's object. */
  ghost predicate Registered(s: LockSys) {
    forall t :: t in s.pcs ==>
      && s.pcs[t].key != "" && s.pcs[t].key in s.locks.entries
      && s.locks.entries[s.pcs[t].key] == s.pcs[t].obj
  }

  ghost predicate OwnObjects(s: LockSys) {
    && (forall k :: k in s.locks.entries ==> k != "" && s.locks.entries[k] < s.next)
    && (forall j, k :: j in s.locks.entries && k in s.locks.entries && j != k ==>
        s.locks.entries[j] != s.locks.entries[k])
  }

  ghost predicate Counts(s: LockSys)
    requires Counted(s)
  {
    forall k :: k in s.locks.entries ==> s.locks.refs[s.locks.entries[k]] == |Users(s.pcs, k)|
  }

  ghost predicate Exclusive(s: LockSys) {
    && (forall t :: t in s.pcs && s.pcs[t].Holding? ==> s.pcs[t].obj in s.locked)
    && (forall t, u :: t in s.pcs && u in s.pcs && s.pcs[t].Holding? && s.pcs[u].Holding? && t != u
          ==> s.pcs[t].obj != s.pcs[u].obj)
  }

  ghost predicate LockInv(s: LockSys) {
    Counted(s) && Registered(s) && OwnObjects(s) && Counts(s) && Exclusive(s)
  }

  lemma AcquireKeepsEntries(s: LockSys, t: Tid, key: string)
    requires LockInv(s) && Enabled(s, Acquire(t, key))
    ensures var s' := Apply(s, Acquire(t, key)); Counted(s') && Registered(s') && OwnObjects(s')
  {
  }

  lemma AcquireKeepsExclusive(s: LockSys, t: Tid, key: string)
    requires LockInv(s) && Enabled(s, Acquire(t, key))
    ensures Exclusive(Apply(s, Acquire(t, key)))
  {
  }

  lemma UsersWith(pcs: map<Tid, LockPc>, t: Tid, pc: LockPc, k: string)
    requires t !in pcs
    ensures |Users(pcs[t := pc], k)| == |Users(pcs, k)| + if k == pc.key then 1 else 0
  {
    assert Users(pcs[t := pc], k) == if k == pc.key then Users(pcs, k) + {t} else Users(pcs, k);
  }

  lemma AcquireKeepsCounts(s: LockSys, t: Tid, key: string)
    requires LockInv(s) && Enabled(s, Acquire(t, key)) && Counted(Apply(s, Acquire(t, key)))
    ensures Counts(Apply(s, Acquire(t, key)))
  {
    var s' := Apply(s, Acquire(t, key));
    if key !in s.locks.entries {
      assert Users(s.pcs, key) == {};
    }
    forall k | k in s'.locks.entries
      ensures s'.locks.refs[s'.locks.entries[k]] == |Users(s'.pcs, k)|
    {
      UsersWith(s.pcs, t, s'.pcs[t], k);
    }
  }

  lemma HolderStepKeepsExclusive(s: LockSys, step: LockStep)
    requires LockInv(s) && Enabled(s, step) && (step.Lock? || step.Unlock?)
    ensures Exclusive(Apply(s, step))
  {
  }

  lemma HolderStepKeepsEntries(s: LockSys, step: LockStep)
    requires LockInv(s) && Enabled(s, step) && (step.Lock? || step.Unlock?)
    ensures var s' := Apply(s, step); Counted(s') && Registered(s') && OwnObjects(s') && Counts(s')
  {
    var s' := Apply(s, step);
    forall k | k in s'.locks.entries
      ensures s'.locks.refs[s'.locks.entries[k]] == |Users(s'.pcs, k)|
    {
      assert Users(s'.pcs, k) == Users(s.pcs, k);
    }
  }

  lemma ReleaseKeepsEntries(s: LockSys, t: Tid, relKey: string)
    requires LockInv(s) && Enabled(s, Release(t, relKey))
    ensures var s' := Apply(s, Release(t, relKey)); Counted(s') && Registered(s') && OwnObjects(s') && Exclusive(s')
  {
    var s' := Apply(s, Release(t, relKey));
    var key := s.pcs[t].key;
    assert s.locks.refs[s.pcs[t].obj] == |Users(s.pcs, key)|;
    assert t in Users(s.pcs, key);
    LastUser(Users(s.pcs, key), t);
    forall u | u in s'.pcs
      ensures s'.pcs[u].key in s'.locks.entries && s'.locks.entries[s'.pcs[u].key] == s'.pcs[u].obj
    {
      assert s.pcs[u].key == key ==> u in Users(s.pcs, key);
    }
  }

  lemma ReleaseKeepsCounts(s: LockSys, t: Tid, relKey: string)
    requires LockInv(s) && Enabled(s, Release(t, relKey)) && Counted(Apply(s, Release(t, relKey)))
    ensures Counts(Apply(s, Release(t, relKey)))
  {
    var s' := Apply(s, Release(t, relKey));
    var key := s.pcs[t].key;
    assert Users(s'.pcs, key) == Users(s.pcs, key) - {t};
    forall k | k in s'.locks.entries
      ensures s'.locks.refs[s'.locks.entries[k]] == |Users(s'.pcs, k)|
    {
      if k != key {
        assert Users(s'.pcs, k) == Users(s.pcs, k);
      }
    }
  }

  lemma StepKeepsInv(s: LockSys, step: LockStep)
    requires LockInv(s) && Enabled(s, step)
    ensures LockInv(Apply(s, step))
  {
    match step
    case Acquire(t, key) =>
      AcquireKeepsEntries(s, t, key);
      AcquireKeepsExclusive(s, t, key);
      AcquireKeepsCounts(s, t, key);
    case Release(t, relKey) =>
      ReleaseKeepsEntries(s, t, relKey);
      ReleaseKeepsCounts(s, t, relKey);
    case _ =>
      HolderStepKeepsExclusive(s, step);
      HolderStepKeepsEntries(s, step);
  }

  ghost predicate IsRun(s: LockSys, steps: seq<LockStep>)
    decreases |steps|
  {
    steps == [] || (Counted(s) && Enabled(s, steps[0]) && IsRun(Apply(s, steps[0]), steps[1..]))
  }

  ghost function After(s: LockSys, steps: seq<LockStep>): LockSys
    requires IsRun(s, steps)
    decreases |steps|
  {
    if steps == [] then s else After(Apply(s, steps[0]), steps[1..])
  }

  lemma {:induction false} RunKeepsInv(s: LockSys, steps: seq<LockStep>)
    requires LockInv(s) && IsRun(s, steps)
    ensures LockInv(After(s, steps))
    decreases |steps|
  {
    if steps != [] {
      StepKeepsInv(s, steps[0]);
      RunKeepsInv(Apply(s, steps[0]), steps[1..]);
    }
  }

  /**
   In every interleaving: goroutines on the same source share one lock object,
   whose count is their number and whose entry is present while any of them is
   active, and at most one of them is in the critical section.
   */
  lemma LockIsExclusive(steps: seq<LockStep>, t: Tid, u: Tid)
    requires IsRun(EMPTY_SYS, steps)
    requires t in After(EMPTY_SYS, steps).pcs && u in After(EMPTY_SYS, steps).pcs
    requires After(EMPTY_SYS, steps).pcs[t].key == After(EMPTY_SYS, steps).pcs[u].key
    ensures var s := After(EMPTY_SYS, steps);
            && s.pcs[t].obj == s.pcs[u].obj
            && s.pcs[t].key in s.locks.entries && s.locks.entries[s.pcs[t].key] == s.pcs[t].obj
            && s.pcs[t].obj in s.locks.refs
            && s.locks.refs[s.pcs[t].obj] == |set v | v in s.pcs && s.pcs[v].key == s.pcs[t].key|
            && (s.pcs[t].Holding? && s.pcs[u].Holding? ==> t == u)
  {
    RunKeepsInv(EMPTY_SYS, steps);
    var s := After(EMPTY_SYS, steps);
    assert Users(s.pcs, s.pcs[t].key) == set v | v in s.pcs && s.pcs[v].key == s.pcs[t].key;
  }

  // ----- What the table still holds when nobody uses it

  ghost function ActiveKeys(s: LockSys): set<string> {
    set t | t in s.pcs :: s.pcs[t].key
  }

  /** The sources whose last release so far used the key "" and that nobody acquired since. */
  ghost function Leaked(s: LockSys, before: set<string>, steps: seq<LockStep>): set<string>
    requires IsRun(s, steps)
    decreases |steps|
  {
    if steps == [] then before else Leaked(Apply(s, steps[0]), LeakedBy(s, before, steps[0]), steps[1..])
  }

  ghost function LeakedBy(s: LockSys, before: set<string>, step: LockStep): set<string>
    requires Enabled(s, step)
  {
    match step
    case Acquire(_, key) => before - {key}
    case Release(t, relKey) =>
      if Users(s.pcs, s.pcs[t].key) == {t} && relKey != s.pcs[t].key then before + {s.pcs[t].key} else before
    case _ => before
  }

  ghost predicate Contents(s: LockSys, leaked: set<string>) {
    s.locks.entries.Keys == ActiveKeys(s) + leaked && ActiveKeys(s) !! leaked
  }

  lemma AcquireContents(s: LockSys, before: set<string>, t: Tid, key: string)
    requires LockInv(s) && Enabled(s, Acquire(t, key)) && Contents(s, before)
    ensures Contents(Apply(s, Acquire(t, key)), before - {key})
  {
    var s' := Apply(s, Acquire(t, key));
    assert s'.pcs[t].key == key;
    forall u | u in s.pcs ensures s.pcs[u].key in ActiveKeys(s') {
      assert s'.pcs[u] == s.pcs[u];
    }
    assert ActiveKeys(s') == ActiveKeys(s) + {key};
  }

  lemma HolderStepContents(s: LockSys, before: set<string>, step: LockStep)
    requires LockInv(s) && Enabled(s, step) && Contents(s, before) && (step.Lock? || step.Unlock?)
    ensures Contents(Apply(s, step), before)
  {
    SameKeys(s, Apply(s, step));
  }

  lemma ReleaseContents(s: LockSys, t: Tid, relKey: string)
    requires LockInv(s) && Enabled(s, Release(t, relKey))
    ensures ActiveKeys(Apply(s, Release(t, relKey)))
            == if Users(s.pcs, s.pcs[t].key) == {t} then ActiveKeys(s) - {s.pcs[t].key} else ActiveKeys(s)
  {
    var pcs' := Apply(s, Release(t, relKey)).pcs;
    var k := s.pcs[t].key;
    forall u | u in s.pcs && u != t ensures s.pcs[u].key in ActiveKeys(Apply(s, Release(t, relKey))) {
      assert pcs'[u] == s.pcs[u];
    }
    if Users(s.pcs, k) == {t} {
      forall u | u in pcs' ensures pcs'[u].key != k {
        assert pcs'[u].key == k ==> u in Users(s.pcs, k);
      }
    } else {
      assert t in Users(s.pcs, k);
      var u :| u in Users(s.pcs, k) && u != t;
      assert s.pcs[u].key == k;
    }
  }

  lemma ReleaseEntries(s: LockSys, t: Tid, relKey: string)
    requires LockInv(s) && Enabled(s, Release(t, relKey))
    ensures Apply(s, Release(t, relKey)).locks.entries.Keys
            == if Users(s.pcs, s.pcs[t].key) == {t} then s.locks.entries.Keys - {relKey} else s.locks.entries.Keys
  {
    var key := s.pcs[t].key;
    assert s.locks.refs[s.pcs[t].obj] == |Users(s.pcs, key)|;
    assert t in Users(s.pcs, key);
    LastUser(Users(s.pcs, key), t);
  }

  /** Deleting `relKey` on the last release: either the entry goes, or nothing goes and the key has leaked. */
  lemma LastReleaseSets(entries: set<string>, active: set<string>, before: set<string>, key: string, relKey: string)
    requires entries == active + before && active !! before && key in active
    requires relKey == key || relKey !in entries
    ensures var leaked := if relKey == key then before else before + {key};
            entries - {relKey} == (active - {key}) + leaked && (active - {key}) !! leaked
  {
  }

  lemma ReleaseStepContents(s: LockSys, before: set<string>, t: Tid, relKey: string)
    requires LockInv(s) && Enabled(s, Release(t, relKey)) && Contents(s, before)
    ensures Contents(Apply(s, Release(t, relKey)), LeakedBy(s, before, Release(t, relKey)))
  {
    ReleaseContents(s, t, relKey);
    ReleaseEntries(s, t, relKey);
    LastReleaseSets(s.locks.entries.Keys, ActiveKeys(s), before, s.pcs[t].key, relKey);
  }

  /** The entries are those of the active goroutines and the leaked ones, before and after every step. */
  lemma StepContents(s: LockSys, before: set<string>, step: LockStep)
    requires LockInv(s) && Enabled(s, step) && Contents(s, before)
    ensures Contents(Apply(s, step), LeakedBy(s, before, step))
  {
    match step
    case Acquire(t, key) => AcquireContents(s, before, t, key);
    case Release(t, relKey) => ReleaseStepContents(s, before, t, relKey);
    case _ => HolderStepContents(s, before, step);
  }

  lemma LastUser(users: set<Tid>, t: Tid)
    requires t in users
    ensures |users| == 1 <==> users == {t}
  {
    assert |users - {t}| == |users| - 1;
  }

  lemma SameKeys(s: LockSys, s': LockSys)
    requires s.pcs.Keys == s'.pcs.Keys && forall t :: t in s.pcs ==> s.pcs[t].key == s'.pcs[t].key
    ensures ActiveKeys(s) == ActiveKeys(s')
  {
  }

  lemma {:induction false} RunContents(s: LockSys, before: set<string>, steps: seq<LockStep>)
    requires LockInv(s) && IsRun(s, steps)
    requires Contents(s, before)
    ensures Contents(After(s, steps), Leaked(s, before, steps))
    decreases |steps|
  {
    if steps != [] {
      StepKeepsInv(s, steps[0]);
      StepContents(s, before, steps[0]);
      RunContents(Apply(s, steps[0]), LeakedBy(s, before, steps[0]), steps[1..]);
    }
  }

  /** Exactly the sources released last under "" outlive their users; without such a release the table drains. */
  lemma TableContents(steps: seq<LockStep>)
    requires IsRun(EMPTY_SYS, steps)
    ensures var s := After(EMPTY_SYS, steps);
            && s.locks.entries.Keys == ActiveKeys(s) + Leaked(EMPTY_SYS, {}, steps)
            && (s.pcs == map[] ==> (s.locks.entries == map[] <==> Leaked(EMPTY_SYS, {}, steps) == {}))
  {
    RunContents(EMPTY_SYS, {}, steps);
    var s := After(EMPTY_SYS, steps);
    if s.pcs == map[] {
      assert ActiveKeys(s) == {};
      assert s.locks.entries == map[] <==> s.locks.entries.Keys == {};
    }
  }

  /** One untracked Unmount leaves a zero-count entry behind: the table does not always drain. */
  lemma UntrackedUnmountLeaks(source: string)
    requires source != ""
    ensures var steps := [Acquire(0, source), Lock(0), Unlock(0), Release(0, "")];
            && IsRun(EMPTY_SYS, steps)
            && After(EMPTY_SYS, steps).pcs == map[]
            && After(EMPTY_SYS, steps).locks == LockTable(map[source := 0], map[0 := 0])
  {
    var s1 := Apply(EMPTY_SYS, Acquire(0, source));
    var s2 := Apply(s1, Lock(0));
    var s3 := Apply(s2, Unlock(0));
    var s4 := Apply(s3, Release(0, ""));
    assert IsRun(s4, []) && After(s4, []) == s4;
    assert IsRun(s3, [Release(0, "")]) && After(s3, [Release(0, "")]) == s4;
    assert [Unlock(0), Release(0, "")][1..] == [Release(0, "")];
    assert IsRun(s2, [Unlock(0), Release(0, "")]) && After(s2, [Unlock(0), Release(0, "")]) == s4;
    assert [Lock(0), Unlock(0), Release(0, "")][1..] == [Unlock(0), Release(0, "")];
    assert IsRun(s1, [Lock(0), Unlock(0), Release(0, "")]) && After(s1, [Lock(0), Unlock(0), Release(0, "")]) == s4;
    assert [Acquire(0, source), Lock(0), Unlock(0), Release(0, "")][1..] == [Lock(0), Unlock(0), Release(0, "")];
  }
}
