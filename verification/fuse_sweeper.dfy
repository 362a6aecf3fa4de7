/**
 The orphaned-connection sweeper: two maps updated in place sweep by sweep,
 proved to be functions of the whole observation history.
 */
module FuseSweeper {
  import opened GoStrings
  import opened MountTable
  import opened FuseLiveness
  import I = Mountinfo
  import T = MountinfoText
  import N = NodeMachine

  const CONFIRM_SWEEPS: nat := 2

  /**
   What one sweep observes: the connection minors, our mount points per minor
   and the live servers (None where listing failed), the waiting counters that
   could be read, the minors still being handed to a sidecar, and the minors
   whose abort would succeed.
   */
  datatype Observation = Observation(conns: Option<seq<int>>, mounts: Option<map<int, seq<Path>>>,
                                     servers: Option<seq<Server>>, waiting: map<int, int>, pending: set<int>,
                                     abortable: set<int>)

  predicate Completed(o: Observation) {
    o.conns.Some? && o.mounts.Some? && o.servers.Some?
  }

  /** A directory listing names each connection once. */
  ghost predicate Plausible(o: Observation) {
    o.conns.Some? ==> forall i, j :: 0 <= i < j < |o.conns.value| ==> o.conns.value[i] != o.conns.value[j]
  }

  function MountsOf(o: Observation, m: int): seq<Path>
    requires Completed(o)
  {
    if m in o.mounts.value then o.mounts.value[m] else []
  }

  /** One of our connections with requests waiting, not in handoff, and no process serving it. */
  predicate Orphaned(id: Path -> string, o: Observation, m: int) {
    && Completed(o) && m in o.conns.value && MountsOf(o, m) != []
    && m in o.waiting && o.waiting[m] > 0 && m !in o.pending
    && !HasLiveDaemon(id, MountsOf(o, m), o.servers.value)
  }

  // ----- One sweep as a function

  datatype Memory = Memory(streak: map<int, nat>, aborted: set<int>)

  function Streak(mem: Memory, m: int): nat {
    if m in mem.streak then mem.streak[m] else 0
  }

  function NextStreak(id: Path -> string, mem: Memory, o: Observation): map<int, nat>
    requires Completed(o)
  {
    map m | m in o.conns.value && Orphaned(id, o, m) :: Streak(mem, m) + 1
  }

  predicate AbortDue(id: Path -> string, mem: Memory, o: Observation, m: int) {
    Orphaned(id, o, m) && Streak(mem, m) + 1 >= CONFIRM_SWEEPS && m !in mem.aborted
  }

  function NextMemory(id: Path -> string, mem: Memory, o: Observation): Memory {
    if !Completed(o) then mem
    else Memory(NextStreak(id, mem, o),
                set m | m in o.conns.value && Orphaned(id, o, m)
                    && (m in mem.aborted || (AbortDue(id, mem, o, m) && m in o.abortable)))
  }

  /** What a completed sweep remembers of a minor and whether it aborts it, check by check. */
  lemma SweepMeans(id: Path -> string, mem: Memory, o: Observation, m: int)
    requires o.conns.Some? && o.mounts.Some? && o.servers.Some?
    ensures var next, due := NextMemory(id, mem, o), AbortDue(id, mem, o, m);
            if m !in o.conns.value || m !in o.mounts.value || o.mounts.value[m] == []
               || m !in o.waiting || o.waiting[m] <= 0 || m in o.pending
               || HasLiveDaemon(id, o.mounts.value[m], o.servers.value)
            then m !in next.streak && m !in next.aborted && !due
            else
              && m in next.streak && next.streak[m] == (if m in mem.streak then mem.streak[m] else 0) + 1
              && (due <==> next.streak[m] >= 2 && m !in mem.aborted)
              && (m in next.aborted <==> m in mem.aborted || (due && m in o.abortable))
  {
  }

  ghost predicate Untouched(before: Memory, now: Memory, m: int) {
    && (m in now.streak <==> m in before.streak) && Streak(now, m) == Streak(before, m)
    && (m in now.aborted <==> m in before.aborted)
  }

  ghost predicate VisitedRight(id: Path -> string, o: Observation, before: Memory, now: Memory, m: int) {
    && (m in now.streak <==> Orphaned(id, o, m))
    && (Orphaned(id, o, m) ==> Streak(now, m) == Streak(before, m) + 1)
    && (m in now.aborted <==>
        Orphaned(id, o, m)
        && (m in before.aborted || (AbortDue(id, before, o, m) && m in o.abortable)))
  }

  function Restricted(streak: map<int, nat>, seen: set<int>): map<int, nat> {
    map m | m in streak && m in seen :: streak[m]
  }

  lemma RestrictedIs(streak: map<int, nat>, seen: set<int>, result: map<int, nat>)
    requires forall m :: m in result <==> m in streak && m in seen
    requires forall m :: m in result ==> result[m] == streak[m]
    ensures result == Restricted(streak, seen)
  {
    var expected := Restricted(streak, seen);
    assert forall m :: m in result <==> m in expected;
    assert forall m :: m in result ==> result[m] == expected[m];
  }

  lemma SweptIsNext(id: Path -> string, o: Observation, before: Memory, now: Memory, seen: set<int>)
    requires Completed(o) && (forall m :: m in seen <==> m in o.conns.value && MountsOf(o, m) != [])
    requires forall m :: m in seen ==> VisitedRight(id, o, before, now, m)
    ensures Memory(Restricted(now.streak, seen), now.aborted * seen) == NextMemory(id, before, o)
  {
    var kept, next := Restricted(now.streak, seen), NextStreak(id, before, o);
    forall m ensures m in kept <==> m in next {
    }
    forall m | m in kept ensures kept[m] == next[m] {
      assert VisitedRight(id, o, before, now, m);
    }
    assert kept == next;
    forall m ensures m in now.aborted * seen <==> m in NextMemory(id, before, o).aborted {
    }
  }

  // ----- The sweep as it runs

  class Sweeper {
    const id: Path -> string
    var orphanStreak: map<int, nat>
    var aborted: set<int>

    constructor (id: Path -> string)
      ensures this.id == id && View() == Memory(map[], {})
    {
      this.id, orphanStreak, aborted := id, map[], {};
    }

    ghost function View(): Memory
      reads this
    {
      Memory(orphanStreak, aborted)
    }

    /** One connection of ours: reset it or count it, and abort it when it is due. */
    method Visit(o: Observation, m: int) returns (abort: bool)
      requires Completed(o) && m in o.conns.value && MountsOf(o, m) != []
      modifies this
      ensures abort <==> AbortDue(id, old(View()), o, m)
      ensures orphanStreak == if Orphaned(id, o, m) then old(orphanStreak)[m := Streak(old(View()), m) + 1]
                else old(orphanStreak) - {m}
      ensures aborted == if !Orphaned(id, o, m) then old(aborted) - {m}
                         else if abort && m in o.abortable then old(aborted) + {m} else old(aborted)
      // unreadable, idle, in handoff or served: forgotten; otherwise counted, and aborted from the second time on
      ensures if m !in o.waiting || o.waiting[m] <= 0 || m in o.pending
                 || HasLiveDaemon(id, o.mounts.value[m], o.servers.value)
              then !abort && m !in orphanStreak && m !in aborted
              else m in orphanStreak && (abort <==> orphanStreak[m] >= 2 && m !in old(aborted))
    {
      var mps := MountsOf(o, m);
      if m !in o.waiting {
        orphanStreak, aborted := orphanStreak - {m}, aborted - {m};
        return false;
      }
      var pending := m in o.pending;
      var live := false;
      if o.waiting[m] > 0 && !pending {
        live := MountHasLiveDaemon(id, mps, o.servers.value);
      }
      if o.waiting[m] <= 0 || pending || live {
        orphanStreak, aborted := orphanStreak - {m}, aborted - {m};
        return false;
      }
      orphanStreak := orphanStreak[m := (if m in orphanStreak then orphanStreak[m] else 0) + 1];
      if orphanStreak[m] < CONFIRM_SWEEPS {
        return false;
      }
      if m in aborted {
        return false;
      }
      if m in o.abortable {
        aborted := aborted + {m};
      }
      return true;
    }

    /** What the visited connections leave behind; the others are untouched. */
    ghost predicate Visited(o: Observation, before: Memory, seen: set<int>)
      requires Completed(o)
      reads this
    {
      forall m :: if m in seen then VisitedRight(id, o, before, View(), m) else Untouched(before, View(), m)
    }

    /** The minors to abort, in the order of the connection list; a failed listing leaves everything as it was. */
    method Sweep(o: Observation) returns (aborts: seq<int>)
      requires Plausible(o)
      modifies this
      ensures View() == NextMemory(id, old(View()), o)
      ensures forall m :: m in aborts <==> AbortDue(id, old(View()), o, m)
      // what that is, check by check: nothing happens if a listing failed
      ensures o.conns.None? || o.mounts.None? || o.servers.None? ==> View() == old(View()) && aborts == []
      // a foreign connection, one that is unreadable, idle, in handoff or served is not aborted, and is forgotten
      ensures o.conns.Some? && o.mounts.Some? && o.servers.Some? ==> forall m ::
                m !in o.conns.value || m !in o.mounts.value || o.mounts.value[m] == []
                || m !in o.waiting || o.waiting[m] <= 0 || m in o.pending
                || HasLiveDaemon(id, o.mounts.value[m], o.servers.value)
                ==> m !in aborts && m !in orphanStreak && m !in aborted
      // any other is counted, and aborted from the second time on until an abort has succeeded
      ensures o.conns.Some? && o.mounts.Some? && o.servers.Some? ==> forall m ::
                m in o.conns.value && m in o.mounts.value && o.mounts.value[m] != []
                && m in o.waiting && o.waiting[m] > 0 && m !in o.pending
                && !HasLiveDaemon(id, o.mounts.value[m], o.servers.value)
                ==> && m in orphanStreak && orphanStreak[m] == old(if m in orphanStreak then orphanStreak[m] else 0) + 1
                    && (m in aborts <==> orphanStreak[m] >= 2 && m !in old(aborted))
                    && (m in aborted <==> m in old(aborted) || (m in aborts && m in o.abortable))
    {
      if !Completed(o) {
        return [];
      }
      ghost var before := View();
      aborts := VisitConnections(o);
      forall m {
        SweepMeans(id, before, o, m);
      }
    }

    /** The connections one after the other, and then what was not seen is forgotten. */
    method VisitConnections(o: Observation) returns (aborts: seq<int>)
      requires Plausible(o) && Completed(o)
      modifies this
      ensures View() == NextMemory(id, old(View()), o)
      ensures forall m :: m in aborts <==> AbortDue(id, old(View()), o, m)
    {
      aborts := [];
      ghost var before := View();
      var conns: seq<int>, seen: set<int> := o.conns.value, {};
      for i := 0 to |conns|
        invariant forall m :: m in seen <==> m in conns[..i] && MountsOf(o, m) != []
        invariant forall m :: m in aborts <==> m in conns[..i] && AbortDue(id, before, o, m)
        invariant Visited(o, before, seen)
      {
        var m := conns[i];
        assert conns[..i + 1] == conns[..i] + [m] && m !in conns[..i];
        if |MountsOf(o, m)| == 0 {
          continue;
        }
        assert m !in seen && Untouched(before, View(), m);
        var abort := Visit(o, m);
        seen := seen + {m};
        if abort {
          aborts := aborts + [m];
        }
      }
      assert conns[..|conns|] == conns;
      ghost var after := View();
      PruneStreaks(seen);
      PruneAborted(seen);
      SweptIsNext(id, o, before, after, seen);
    }

    /** One more sweep of a run. */
    method SweepAfter(ghost history: seq<Observation>, o: Observation) returns (aborts: seq<int>)
      requires View() == MemoryAfter(id, history) && Plausible(o)
      modifies this
      ensures View() == MemoryAfter(id, history + [o])
      ensures forall m :: m in aborts <==> AbortFromHistory(id, history, o, m)
    {
      forall m {
        AbortIsHistory(id, history, o, m);
      }
      assert (history + [o])[..|history|] == history;
      aborts := Sweep(o);
    }

    /** Forget the streaks of minors that were not seen, one key after the other. */
    method PruneStreaks(seen: set<int>)
      modifies this`orphanStreak
      ensures orphanStreak == Restricted(old(orphanStreak), seen)
    {
      var keys: set<int> := orphanStreak.Keys;
      while exists m :: m in keys
        invariant keys <= orphanStreak.Keys <= old(orphanStreak).Keys
        invariant forall m :: m in old(orphanStreak) ==> (m in orphanStreak <==> m in seen || m in keys)
        invariant forall m :: m in orphanStreak ==> orphanStreak[m] == old(orphanStreak)[m]
        decreases keys
      {
        var m: int :| m in keys;
        keys := keys - {m};
        if m !in seen {
          orphanStreak := orphanStreak - {m};
        }
      }
      RestrictedIs(old(orphanStreak), seen, orphanStreak);
    }

    method PruneAborted(seen: set<int>)
      modifies this`aborted
      ensures aborted == old(aborted) * seen
    {
      var keys: set<int> := aborted;
      while exists m :: m in keys
        invariant keys <= aborted <= old(aborted)
        invariant forall m :: m in old(aborted) ==> (m in aborted <==> m in seen || m in keys)
        decreases keys
      {
        var m: int :| m in keys;
        keys := keys - {m};
        if m !in seen {
          aborted := aborted - {m};
        }
      }
      assert forall m :: m in aborted <==> m in old(aborted) * seen;
    }

    /** A whole run: what is remembered and what is aborted when, as the history says. */
    method Run(history: seq<Observation>) returns (aborts: seq<seq<int>>)
      requires View() == Memory(map[], {}) && forall i :: 0 <= i < |history| ==> Plausible(history[i])
      modifies this
      ensures forall m :: Streak(View(), m) == EpisodeLength(id, Done(history), m)
      ensures |aborts| == |history|
      ensures forall i, m :: 0 <= i < |history| ==>
                (m in aborts[i] <==> AbortFromHistory(id, history[..i], history[i], m))
    {
      aborts := [];
      for i := 0 to |history|
        invariant View() == MemoryAfter(id, history[..i])
        invariant |aborts| == i
        invariant forall k, m :: 0 <= k < i ==> (m in aborts[k] <==> AbortFromHistory(id, history[..k], history[k], m))
      {
        assert history[..i + 1] == history[..i] + [history[i]];
        var a := SweepAfter(history[..i], history[i]);
        aborts := aborts + [a];
      }
      assert history[..|history|] == history;
      forall m {
        MemoryIsHistory(id, history, m);
      }
    }
  }

  // ----- The history

  /** The completed sweeps, oldest first. */
  function Done(history: seq<Observation>): seq<Observation> {
    if history == [] then []
    else Done(history[..|history| - 1]) + if Completed(history[|history| - 1]) then [history[|history| - 1]] else []
  }

  /** Length of the longest run of sweeps at the end in which m was orphaned. */
  function EpisodeLength(id: Path -> string, sweeps: seq<Observation>, m: int): (n: nat)
    ensures n <= |sweeps|
    ensures forall i :: |sweeps| - n <= i < |sweeps| ==> Orphaned(id, sweeps[i], m)
    ensures n < |sweeps| ==> !Orphaned(id, sweeps[|sweeps| - n - 1], m)
  {
    if sweeps == [] || !Orphaned(id, sweeps[|sweeps| - 1], m) then 0
        else 1 + EpisodeLength(id, sweeps[..|sweeps| - 1], m)
  }

  /** From its second orphaned sweep on, the current episode of m has had a sweep in which aborting m succeeds. */
  ghost predicate AbortedInEpisode(id: Path -> string, sweeps: seq<Observation>, m: int) {
    exists i :: |sweeps| - EpisodeLength(id, sweeps, m) + 1 <= i < |sweeps| && m in sweeps[i].abortable
  }

  /**
   m is aborted in the next sweep: it is orphaned for at least the second time in a row
   and no abort of this episode has succeeded.
   */
  ghost predicate AbortFromHistory(id: Path -> string, history: seq<Observation>, o: Observation, m: int) {
    && Completed(o)
    && EpisodeLength(id, Done(history) + [o], m) >= CONFIRM_SWEEPS
    && !AbortedInEpisode(id, Done(history), m)
  }

  function MemoryAfter(id: Path -> string, history: seq<Observation>): Memory {
    if history == [] then Memory(map[], {}) else NextMemory(id, MemoryAfter(id, history[..|history| - 1]),
        history[|history| - 1])
  }

  lemma EpisodeGrows(id: Path -> string, sweeps: seq<Observation>, o: Observation, m: int)
    ensures EpisodeLength(id, sweeps + [o], m) == if Orphaned(id, o, m) then EpisodeLength(id, sweeps, m) + 1 else 0
  {
    assert (sweeps + [o])[..|sweeps|] == sweeps;
  }

  lemma AbortedGrows(id: Path -> string, sweeps: seq<Observation>, o: Observation, m: int)
    ensures AbortedInEpisode(id, sweeps + [o], m) <==>
              Orphaned(id, o, m) && (AbortedInEpisode(id, sweeps, m)
                  || (EpisodeLength(id, sweeps, m) >= 1 && m in o.abortable))
  {
    var all, n := sweeps + [o], EpisodeLength(id, sweeps, m);
    EpisodeGrows(id, sweeps, o, m);
    assert all[|sweeps|] == o && forall i :: 0 <= i < |sweeps| ==> all[i] == sweeps[i];
    if AbortedInEpisode(id, all, m) {
      var i :| |all| - EpisodeLength(id, all, m) + 1 <= i < |all| && m in all[i].abortable;
      assert i < |sweeps| ==> m in sweeps[i].abortable;
    }
    if Orphaned(id, o, m) && AbortedInEpisode(id, sweeps, m) {
      var i :| |sweeps| - n + 1 <= i < |sweeps| && m in sweeps[i].abortable;
      assert m in all[i].abortable;
    }
    if Orphaned(id, o, m) && n >= 1 && m in o.abortable {
      assert m in all[|sweeps|].abortable;
    }
  }

  /** Skipped sweeps leave no trace; otherwise the two maps are exactly the episode length and the episode's abort. */
  lemma {:induction false} MemoryIsHistory(id: Path -> string, history: seq<Observation>, m: int)
    ensures var mem := MemoryAfter(id, history);
            && Streak(mem, m) == EpisodeLength(id, Done(history), m)
            && (m in mem.streak <==> EpisodeLength(id, Done(history), m) > 0)
            && (m in mem.aborted <==> AbortedInEpisode(id, Done(history), m))
  {
    if history != [] {
      var front, o := history[..|history| - 1], history[|history| - 1];
      MemoryIsHistory(id, front, m);
      if Completed(o) {
        EpisodeGrows(id, Done(front), o, m);
        AbortedGrows(id, Done(front), o, m);
      } else {
        assert Done(history) == Done(front);
      }
    }
  }

  lemma AbortIsHistory(id: Path -> string, history: seq<Observation>, o: Observation, m: int)
    ensures AbortDue(id, MemoryAfter(id, history), o, m) <==> AbortFromHistory(id, history, o, m)
  {
    MemoryIsHistory(id, history, m);
    EpisodeGrows(id, Done(history), o, m);
  }

  /** The last completed sweep of a history, if there is one. */
  lemma {:induction false} LastDone(history: seq<Observation>) returns (j: nat)
    requires Done(history) != []
    ensures j < |history| && Completed(history[j]) && Done(history)[|Done(history)| - 1] == history[j]
    ensures forall k :: j < k < |history| ==> !Completed(history[k])
  {
    var n := |history| - 1;
    if Completed(history[n]) {
      j := n;
    } else {
      assert Done(history) == Done(history[..n]);
      j := LastDone(history[..n]);
    }
  }

  /**
   An abort takes two completed sweeps in a row, this one and the last one
   before it, in both of which the connection was ours, had requests waiting,
   was in no handoff, and had no server at any of its mount points.
   */
  lemma AbortTakesTwoSweeps(id: Path -> string, history: seq<Observation>, o: Observation, m: int) returns (j: nat)
    requires AbortFromHistory(id, history, o, m)
    ensures j < |history| && forall k :: j < k < |history| ==> !Completed(history[k])
    ensures forall s :: s in [history[j], o] ==>
              && s.conns.Some? && s.mounts.Some? && s.servers.Some?
              && m in s.conns.value && m in s.mounts.value && s.mounts.value[m] != []
              && m in s.waiting && s.waiting[m] > 0 && m !in s.pending
              && !HasLiveDaemon(id, s.mounts.value[m], s.servers.value)
  {
    var done := Done(history);
    EpisodeGrows(id, done, o, m);
    j := LastDone(history);
    assert Orphaned(id, done[|done| - 1], m);
  }

  /** The order of the connection list does not matter to what is remembered or aborted. */
  lemma OrderIrrelevant(id: Path -> string, mem: Memory, o: Observation, conns: seq<int>)
    requires o.conns.Some? && multiset(conns) == multiset(o.conns.value)
    ensures NextMemory(id, mem, o.(conns := Some(conns))) == NextMemory(id, mem, o)
    ensures forall m :: AbortDue(id, mem, o.(conns := Some(conns)), m) <==> AbortDue(id, mem, o, m)
  {
    var o' := o.(conns := Some(conns));
    forall m ensures m in conns <==> m in o.conns.value {
      assert m in multiset(conns) <==> m in multiset(o.conns.value);
    }
    if Completed(o) {
      forall m ensures Orphaned(id, o', m) <==> Orphaned(id, o, m) {
      }
      assert NextStreak(id, mem, o') == NextStreak(id, mem, o);
    }
  }

  // ----- Which connections are ours

  const FUSE_MOUNT_SOURCE := "hf-mount"

  predicate IsOurFuseMount(fm: I.FuseMount) {
    HasPrefix(fm.fstype, "fuse") && (HasPrefix(fm.mountpoint, N.MOUNT_BASE + "/") || fm.source == FUSE_MOUNT_SOURCE)
  }

  /** Our mount points on the connection of a minor, in table order. */
  function OursAt(mounts: seq<I.FuseMount>, minor: int): seq<string> {
    if mounts == [] then []
    else
      var fm := mounts[|mounts| - 1];
      OursAt(mounts[..|mounts| - 1], minor) + if IsOurFuseMount(fm) && fm.minor == minor then [fm.mountpoint] else []
  }

  ghost predicate Grouped(out: map<int, seq<string>>, mounts: seq<I.FuseMount>) {
    forall m :: (if m in out then out[m] else []) == OursAt(mounts, m)
  }

  method ListOurFuseMounts(mounts: seq<I.FuseMount>) returns (out: map<int, seq<string>>)
    ensures Grouped(out, mounts)
    ensures ListsOurs(out, mounts)
  {
    out := map[];
    for i := 0 to |mounts|
      invariant Grouped(out, mounts[..i])
    {
      assert mounts[..i + 1][..i] == mounts[..i];
      var fm := mounts[i];
      if IsOurFuseMount(fm) {
        out := out[fm.minor := (if fm.minor in out then out[fm.minor] else []) + [fm.mountpoint]];
      }
    }
    assert mounts[..|mounts|] == mounts;
    GroupedLists(out, mounts);
  }

  /** Some FUSE mount of that minor at p is ours, by its place or by its source. */
  ghost predicate OurMountAt(mounts: seq<I.FuseMount>, m: int, p: string) {
    exists fm :: fm in mounts && fm.minor == m && fm.mountpoint == p && HasPrefix(fm.fstype, "fuse")
                 && (HasPrefix(p, "/var/lib/hf-csi-driver/mnt/") || fm.source == "hf-mount")
  }

  /** Exactly our mount points are listed. */
  ghost predicate ListsOurs(out: map<int, seq<string>>, mounts: seq<I.FuseMount>) {
    forall m, p :: m in out && p in out[m] <==> OurMountAt(mounts, m, p)
  }

  lemma GroupedLists(out: map<int, seq<string>>, mounts: seq<I.FuseMount>)
    requires Grouped(out, mounts)
    ensures ListsOurs(out, mounts)
  {
    forall m, p ensures m in out && p in out[m] <==> OurMountAt(mounts, m, p) {
      assert (if m in out then out[m] else []) == OursAt(mounts, m);
      OursListed(mounts, m, p);
    }
  }

  lemma {:induction false} OursListed(mounts: seq<I.FuseMount>, minor: int, p: string)
    ensures p in OursAt(mounts, minor) <==> OurMountAt(mounts, minor, p)
  {
    if mounts != [] {
      var n := |mounts| - 1;
      OursListed(mounts[..n], minor, p);
      assert mounts == mounts[..n] + [mounts[n]];
    }
  }

  lemma {:induction false} OursComeFrom(mounts: seq<I.FuseMount>, minor: int)
    requires OursAt(mounts, minor) != []
    ensures exists fm :: fm in mounts && IsOurFuseMount(fm) && fm.minor == minor
  {
    var fm := mounts[|mounts| - 1];
    if !(IsOurFuseMount(fm) && fm.minor == minor) {
      OursComeFrom(mounts[..|mounts| - 1], minor);
    }
  }

  lemma {:induction false} FuseRowIsRow(table: seq<I.MountRow>, fm: I.FuseMount)
    requires I.WellFormedTable(table) && fm in I.FuseRows(table)
    ensures exists row :: row in table && row.minor == fm.minor && row.fstype == fm.fstype && row.source == fm.source
                          && T.Escape(row.mountpoint, T.KERNEL_ESCAPES) == fm.mountpoint
  {
    var row := table[|table| - 1];
    if fm in I.FuseRows(table[..|table| - 1]) {
      FuseRowIsRow(table[..|table| - 1], fm);
    } else {
      assert row in table;
    }
  }

  /**
   From the printed mount table to the abort: a connection is aborted only if
   the kernel has a FUSE mount of it that is ours, by its place under the
   driver's directory or by its source name.
   */
  lemma AbortsAreOurs(id: Path -> string, mem: Memory, o: Observation, table: seq<I.MountRow>, m: int)
    requires I.WellFormedTable(table) && I.Fits(table, I.LARGE_BUFFER)
    requires o.mounts.Some? && Grouped(o.mounts.value, I.FuseOf(T.ScanLines(I.Render(table), I.LARGE_BUFFER).0))
    requires AbortDue(id, mem, o, m)
    ensures exists row :: row in table && row.minor == m && HasPrefix(row.fstype, "fuse")
                          && (row.source == FUSE_MOUNT_SOURCE
                              || HasPrefix(T.Escape(row.mountpoint, T.KERNEL_ESCAPES), N.MOUNT_BASE + "/"))
  {
    I.FuseScanRecoversTable(table);
    OursComeFrom(I.FuseRows(table), m);
    var fm :| fm in I.FuseRows(table) && IsOurFuseMount(fm) && fm.minor == m;
    FuseRowIsRow(table, fm);
  }
}
