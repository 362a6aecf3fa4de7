/**
 Removing the startup taint: wait until kubelet lists the driver, then take the
 taint off the node with a test-and-replace patch while others edit the node.
 */
module StartupTaint {
  import opened GoStrings
  import R = Resources

  datatype Taint = Taint(key: string, value: string, effect: string)

  /** The node's taints as a JSON member: an empty list is not stored at all. */
  function Member(taints: seq<Taint>): Option<seq<Taint>> {
    if taints == [] then None else Some(taints)
  }

  datatype PatchOp = Test(value: seq<Taint>) | Replace(value: seq<Taint>)

  /**
   JSON Patch on one member (RFC 6902, sections 4.6 and 4.3): a test needs an equal value,
   a replace an existing one; None if an operation fails.
   */
  function Apply(member: Option<seq<Taint>>, ops: seq<PatchOp>): Option<seq<Taint>>
    decreases |ops|
  {
    if ops == [] then Some(if member.Some? then member.value else [])
    else if member.None? then None
    else match ops[0]
      case Test(value) => if member.value == value then Apply(member, ops[1..]) else None
      case Replace(value) => Apply(Some(value), ops[1..])
  }

  /** The taints without those of a key, in order. */
  function Without(taints: seq<Taint>, key: string): seq<Taint> {
    if taints == [] then []
    else Without(taints[..|taints| - 1], key) + if taints[|taints| - 1].key == key then [] else [taints[|taints| - 1]]
  }

  lemma {:induction false} WithoutConcat(a: seq<Taint>, b: seq<Taint>, key: string)
    ensures Without(a + b, key) == Without(a, key) + Without(b, key)
  {
    if b == [] {
      assert a + b == a;
    } else {
      assert (a + b)[..|a + b| - 1] == a + b[..|b| - 1];
      WithoutConcat(a, b[..|b| - 1], key);
    }
  }

  /** Exactly the taints of that key go. */
  lemma {:induction false} WithoutKeepsOthers(taints: seq<Taint>, key: string, x: Taint)
    ensures multiset(Without(taints, key))[x] == if x.key == key then 0 else multiset(taints)[x]
  {
    if taints != [] {
      var n := |taints| - 1;
      var last := taints[n];
      WithoutKeepsOthers(taints[..n], key, x);
      assert multiset(taints) == multiset(taints[..n]) + multiset{last} by {
        assert taints == taints[..n] + [last];
      }
      if last.key == key {
        assert Without(taints, key) == Without(taints[..n], key);
      } else {
        assert multiset(Without(taints, key)) == multiset(Without(taints[..n], key)) + multiset{last};
      }
    }
  }

  /** The list gets shorter exactly if there was such a taint. */
  lemma {:induction false} WithoutLength(taints: seq<Taint>, key: string)
    ensures |Without(taints, key)| <= |taints|
    ensures |Without(taints, key)| == |taints| <==> Gone(taints, key)
  {
    if taints != [] {
      var n := |taints| - 1;
      WithoutLength(taints[..n], key);
      assert taints == taints[..n] + [taints[n]];
    }
  }

  // ----- The cluster

  /** What reading this node's CSINode gives. */
  datatype CsiNode = Drivers(names: seq<string>) | NotFound | Unreadable

  predicate ListsDriver(c: CsiNode) {
    c.Drivers? && R.DRIVER_NAME in c.names
  }

  /**
   What happens to the node's taints, the driver's own registration as it is seen, and
   patches sent: taken or refused.
   */
  datatype Event = DriverSeen | Edited(edit: seq<Taint> -> seq<Taint>) | Removed | Refused

  /** The taints after a history in which every edit, and the removal, acts on what it finds. */
  function Replay(taints: seq<Taint>, key: string, es: seq<Event>): seq<Taint> {
    if es == [] then taints
    else
      var before := Replay(taints, key, es[..|es| - 1]);
      match es[|es| - 1]
      case DriverSeen => before
      case Refused => before
      case Edited(edit) => edit(before)
      case Removed => Without(before, key)
  }

  lemma {:induction false} ReplayConcat(taints: seq<Taint>, key: string, a: seq<Event>, b: seq<Event>)
    ensures Replay(taints, key, a + b) == Replay(Replay(taints, key, a), key, b)
  {
    if b == [] {
      assert a + b == a;
    } else {
      assert (a + b)[..|a + b| - 1] == a + b[..|b| - 1];
      ReplayConcat(taints, key, a, b[..|b| - 1]);
    }
  }

  /** How many patches a history contains. */
  function Sent(es: seq<Event>): nat {
    if es == [] then 0 else Sent(es[..|es| - 1]) + if es[|es| - 1].Removed? || es[|es| - 1].Refused? then 1 else 0
  }

  lemma {:induction false} SentConcat(a: seq<Event>, b: seq<Event>)
    ensures Sent(a + b) == Sent(a) + Sent(b)
  {
    if b == [] {
      assert a + b == a;
    } else {
      assert (a + b)[..|a + b| - 1] == a + b[..|b| - 1];
      SentConcat(a, b[..|b| - 1]);
    }
  }

  lemma {:induction false} NoneSent(es: seq<Event>)
    requires forall i :: 0 <= i < |es| ==> es[i].Edited? || es[i].DriverSeen?
    ensures Sent(es) == 0
  {
    if es != [] {
      NoneSent(es[..|es| - 1]);
    }
  }

  lemma OneSent(first: Event, second: Event, last: Event)
    requires first.Edited? && second.Edited? && (last.Removed? || last.Refused?)
    ensures Sent([first, second, last]) == 1
  {
    NoneSent([first, second]);
    assert [first, second, last][..2] == [first, second];
  }

  ghost predicate OnlyEdits(es: seq<Event>) {
    forall e :: e in es ==> e.Edited?
  }

  /** Nothing but edits by others and patches that were refused. */
  ghost predicate NothingWritten(es: seq<Event>) {
    forall e :: e in es ==> e.Edited? || e.Refused?
  }

  ghost predicate Gone(taints: seq<Taint>, key: string) {
    forall x :: x in taints ==> x.key != key
  }

  datatype Attempt = Absent | Done | Failed

  class TaintRemover {
    const key: string
    /** Before its n-th call others edit the taints as world(n) says; the call itself may fail. */
    const world: nat -> (seq<Taint> -> seq<Taint>)
    const fails: nat -> bool
    const csi: nat -> CsiNode
    var clock: nat
    var taints: seq<Taint>
    /** How many patches were sent so far. */
    ghost var patches: nat

    constructor (key: string, world: nat -> (seq<Taint> -> seq<Taint>), fails: nat -> bool, csi: nat -> CsiNode,
                 taints: seq<Taint>)
      ensures this.key == key && this.world == world && this.taints == taints && clock == 0 && patches == 0
    {
      this.key, this.world, this.fails, this.csi, this.taints, clock, patches := key, world, fails, csi, taints, 0, 0;
    }

    method Tick() returns (e: Event)
      modifies this`clock, this`taints
      ensures e == Edited(world(old(clock))) && clock == old(clock) + 1
      ensures taints == e.edit(old(taints)) && taints == Replay(old(taints), key, [e])
    {
      e := Edited(world(clock));
      taints, clock := e.edit(taints), clock + 1;
      assert [e][..0] == [];
    }

    method GetNode() returns (seen: Option<seq<Taint>>, e: Event)
      modifies this`clock, this`taints
      ensures e == Edited(world(old(clock))) && clock == old(clock) + 1
      ensures taints == e.edit(old(taints)) && taints == Replay(old(taints), key, [e])
      ensures seen == if fails(clock) then None else Some(taints)
    {
      e := Tick();
      seen := if fails(clock) then None else Some(taints);
    }

    /** A patch that fails changes nothing. */
    method PatchNode(ops: seq<PatchOp>) returns (ok: bool, e: Event)
      modifies this
      ensures e == Edited(world(old(clock))) && clock == old(clock) + 1
      ensures ok <==> !fails(clock) && Apply(Member(e.edit(old(taints))), ops).Some?
      ensures ok ==> Apply(Member(e.edit(old(taints))), ops) == Some(taints)
      ensures !ok ==> taints == e.edit(old(taints))
      ensures patches == old(patches) + 1
    {
      patches := patches + 1;
      e := Tick();
      var patched := Apply(Member(taints), ops);
      ok := !fails(clock) && patched.Some?;
      if ok {
        taints := patched.value;
      }
    }

    /** The list without the key's taints, collected one by one. */
    method Kept(list: seq<Taint>) returns (kept: seq<Taint>)
      ensures kept == Without(list, key)
    {
      kept := [];
      for i := 0 to |list|
        invariant kept == Without(list[..i], key)
      {
        assert list[..i + 1][..i] == list[..i];
        if list[i].key != key {
          kept := kept + [list[i]];
        }
      }
      assert list[..|list|] == list;
    }

    /**
     One read-modify-write. Whatever others did in between, even if the list
     changed and changed back, success means that the taints found at that very
     moment were replaced by the same list without the key; failure writes nothing.
     */
    method TryRemoveNodeTaint() returns (r: Attempt, ghost es: seq<Event>)
      modifies this
      ensures taints == Replay(old(taints), key, es) && patches == old(patches) + Sent(es)
      ensures r.Done? ==> |es| == 3 && es[0].Edited? && es[1].Edited? && es[2].Removed?
      ensures !r.Done? ==> NothingWritten(es)
      ensures r.Absent? ==> OnlyEdits(es)
      ensures !r.Failed? ==> Gone(taints, key)
      ensures var c, read := old(clock), world(old(clock))(old(taints));
              r.Failed? <==> fails(c + 1) || (!Gone(read, key) && (fails(c + 2) || world(c + 1)(read) != read))
    {
      var node, first := GetNode();
      if node.None? {
        NoneSent([first]);
        return Failed, [first];
      }
      var kept := Kept(node.value);
      WithoutLength(node.value, key);
      if |kept| == |node.value| {
        NoneSent([first]);
        return Absent, [first];
      }
      var ok, second := PatchNode([Test(node.value), Replace(kept)]);
      TwoEdits(old(taints), key, first, second);
      PatchApplied(Member(second.edit(node.value)), node.value, kept);
      if !ok {
        RefusedLeaves(old(taints), key, first, second);
        OneSent(first, second, Refused);
        return Failed, [first, second, Refused];
      }
      EditsThenRemoval(old(taints), key, first, second);
      GoneAfter(node.value, key);
      OneSent(first, second, Removed);
      return Done, [first, second, Removed];
    }

    /** Polls CSINode until the driver is listed or the context ends. */
    method WaitForCSINodeDriver(polls: nat) returns (seen: bool, ghost es: seq<Event>)
      modifies this`clock, this`taints
      ensures taints == Replay(old(taints), key, es)
      ensures seen <==> exists n :: old(clock) < n <= old(clock) + polls && ListsDriver(csi(n))
      ensures seen ==> es != [] && es[|es| - 1].DriverSeen? && OnlyEdits(es[..|es| - 1])
      ensures !seen ==> OnlyEdits(es)
    {
      es := [];
      for i := 0 to polls
        invariant taints == Replay(old(taints), key, es) && OnlyEdits(es)
        invariant clock == old(clock) + i && forall n :: old(clock) < n <= clock ==> !ListsDriver(csi(n))
      {
        ghost var before := es;
        var e := Tick();
        es := es + [e];
        ReplayConcat(old(taints), key, before, [e]);
        match csi(clock)
        case Drivers(names) =>
          for k := 0 to |names|
            invariant R.DRIVER_NAME !in names[..k]
          {
            if names[k] == R.DRIVER_NAME {
              ghost var all := es + [DriverSeen];
              assert all[..|all| - 1] == es;
              return true, all;
            }
          }
        case NotFound =>
        case Unreadable =>
      }
      return false, es;
    }

    /** Retries until an attempt succeeds or the context ends. */
    method RemoveNodeTaint(polls: nat) returns (ok: bool, ghost es: seq<Event>)
      modifies this
      ensures taints == Replay(old(taints), key, es) && patches == old(patches) + Sent(es)
      ensures ok ==> Gone(taints, key)
      ensures NothingWritten(es) || (ok && es != [] && es[|es| - 1].Removed? && NothingWritten(es[..|es| - 1]))
      ensures forall e :: e in es ==> !e.DriverSeen?
    {
      es := [];
      for i := 0 to polls
        invariant taints == Replay(old(taints), key, es) && patches == old(patches) + Sent(es) && NothingWritten(es)
      {
        ghost var before := es;
        var r, more := TryRemoveNodeTaint();
        es := es + more;
        ReplayConcat(old(taints), key, before, more);
        SentConcat(before, more);
        if r.Done? {
          assert es[..|es| - 1] == before + [more[0], more[1]];
        }
        if !r.Failed? {
          return true, es;
        }
      }
      return false, es;
    }

    /**
     The whole removal, amid any edits by others: the final taints are everyone's
     edits replayed in order, with at most one removal among them, the last event;
     and no patch, taken or refused, is sent before the driver was seen in CSINode.
     */
    method RemoveStartupTaint(polls: nat, retries: nat) returns (ok: bool, ghost es: seq<Event>)
      modifies this
      ensures taints == Replay(old(taints), key, es) && patches == old(patches) + Sent(es)
      ensures ok ==> Gone(taints, key) && DriverSeen in es
      ensures forall i :: 0 <= i < |es| && (es[i].Removed? || es[i].Refused?) ==> DriverSeen in es[..i]
      ensures forall i :: 0 <= i < |es| && es[i].Removed? ==> ok && i == |es| - 1
    {
      var seen, first := WaitForCSINodeDriver(polls);
      if !seen {
        assert forall i :: 0 <= i < |first| ==> first[i] in first;
        NoneSent(first);
        return false, first;
      }
      ghost var rest;
      ok, rest := RemoveNodeTaint(retries);
      ReplayConcat(old(taints), key, first, rest);
      es := first + rest;
      SentConcat(first, rest);
      NoneSent(first);
      assert es[|first| - 1] == DriverSeen;
      forall i | 0 <= i < |es| && (es[i].Removed? || es[i].Refused?)
        ensures DriverSeen in es[..i] && (es[i].Removed? ==> ok && i == |es| - 1)
      {
        PatchesComeLater(first, rest, i, ok);
      }
    }
  }

  lemma TwoEdits(taints: seq<Taint>, key: string, first: Event, second: Event)
    requires first.Edited? && second.Edited?
    ensures Replay(taints, key, [first]) == first.edit(taints)
    ensures Replay(taints, key, [first, second]) == second.edit(first.edit(taints))
  {
  }

  lemma EditsThenRemoval(taints: seq<Taint>, key: string, first: Event, second: Event)
    requires first.Edited? && second.Edited?
    ensures Replay(taints, key, [first, second, Removed]) == Without(second.edit(first.edit(taints)), key)
  {
    TwoEdits(taints, key, first, second);
    assert [first, second, Removed][..2] == [first, second];
  }

  /** The patch goes through exactly if the list is still, or again, the one that was read. */
  lemma PatchApplied(member: Option<seq<Taint>>, read: seq<Taint>, kept: seq<Taint>)
    ensures Apply(member, [Test(read), Replace(kept)]) == if member == Some(read) then Some(kept) else None
  {
    var ops := [Test(read), Replace(kept)];
    assert ops[1..] == [Replace(kept)] && [Replace(kept)][1..] == [];
    assert Apply(Some(kept), []) == Some(kept);
    assert Apply(Some(read), [Replace(kept)]) == Some(kept);
  }

  lemma GoneAfter(taints: seq<Taint>, key: string)
    ensures Gone(Without(taints, key), key)
  {
  }

  lemma RefusedLeaves(taints: seq<Taint>, key: string, first: Event, second: Event)
    requires first.Edited? && second.Edited?
    ensures Replay(taints, key, [first, second, Refused]) == second.edit(first.edit(taints))
  {
    TwoEdits(taints, key, first, second);
    assert [first, second, Refused][..2] == [first, second];
  }

  lemma PatchesComeLater(first: seq<Event>, rest: seq<Event>, i: nat, ok: bool)
    requires first != [] && first[|first| - 1].DriverSeen? && OnlyEdits(first[..|first| - 1])
    requires NothingWritten(rest) || (ok && rest != [] && rest[|rest| - 1].Removed?
             && NothingWritten(rest[..|rest| - 1]))
    requires i < |first + rest| && ((first + rest)[i].Removed? || (first + rest)[i].Refused?)
    ensures DriverSeen in (first + rest)[..i] && ((first + rest)[i].Removed? ==> ok && i == |first + rest| - 1)
  {
    var es := first + rest;
    assert forall k :: 0 <= k < |first| - 1 ==> es[k] == first[..|first| - 1][k] && es[k] in first[..|first| - 1];
    assert es[|first| - 1] == first[|first| - 1];
    assert i >= |first| && es[i] == rest[i - |first|] && rest[i - |first|] in rest;
    assert forall k :: 0 <= k < |rest| - 1 ==> rest[k] == rest[..|rest| - 1][k] && rest[k] in rest[..|rest| - 1];
    assert es[..i][|first| - 1] == DriverSeen;
  }
}
