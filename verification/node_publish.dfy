/**
 The node server's publish and unpublish calls, and the in-memory set that
 remembers which targets are sidecar mounts so that they are never looked at in
 a way that can block.
 */
module NodePublish {
  import opened GoStrings
  import opened MountTable
  import opened ReadOnlyVerdicts

  datatype Layer = Sidecar(minor: int) | Bind | Foreign

  type Stacks = map<Path, seq<Layer>>

  function At(s: Stacks, t: Path): seq<Layer> {
    if t in s then s[t] else []
  }

  /** The kernel's mounts at each target and the tracked targets. */
  datatype Node = Node(stacks: Stacks, tracked: set<Path>)

  const FRESH := Node(map[], {})

  datatype Code = Ok | InvalidArgument | Internal

  /**
   A reply, whether the target was looked at with a stat, and whether the FUSE connection
   of its mount was aborted.
   */
  datatype Reply = Reply(code: Code, statted: bool, aborted: bool)

  datatype Capability = Missing | Block | MountAccess

  datatype PublishRequest = PublishRequest(volumeID: string, target: Path, capability: Capability, attrs: Attributes)

  /** How sidecarMount ends: without a kernel mount, after it (and then the mount was undone or not), or well. */
  datatype SidecarOutcome = NotMounted | FailedLater(undone: bool, minor: int) | Mounted(minor: int)

  datatype Check = Fine | Corrupted | NotExist | CheckFails

  /** What the pod mounter does to the target's stack, and whether it reports success. */
  datatype Mounter = Mounter(pops: nat, binds: bool, ok: bool)

  /** What the host answers during a call. */
  datatype Host = Host(mountinfo: bool, pending: set<int>, healthy: bool, unmounts: bool, tokenWritten: bool,
                       removes: bool, sidecar: SidecarOutcome, check: Check, mounter: Mounter)

  // ----- Validation and mode

  predicate Valid(req: PublishRequest) {
    && req.volumeID != "" && req.target != "" && req.capability.MountAccess?
    && Attr(req.attrs, "sourceType") != "" && Attr(req.attrs, "sourceId") != ""
  }

  /** Some(true) for a sidecar, Some(false) for a mount pod; without a pod UID there is no sidecar. */
  function ModeOf(attrs: Attributes): Option<bool> {
    var mode := AttrOr(attrs, "mountMode", "sidecar");
    if mode != "sidecar" && mode != "mountpod" then None
    else Some(mode == "sidecar" && Attr(attrs, "csi.storage.k8s.io/pod.uid") != "")
  }

  // ----- The calls as functions of the node's state

  function Drop(stack: seq<Layer>, n: nat): seq<Layer> {
    stack[..if n < |stack| then |stack| - n else 0]
  }

  /** The mounter's effect: some layers go, at most one bind comes. */
  function ByMounter(stack: seq<Layer>, m: Mounter): seq<Layer> {
    Drop(stack, m.pops) + if m.binds then [Bind] else []
  }

  function LastLayer(stack: seq<Layer>): Option<Layer> {
    if stack == [] then None else Some(stack[|stack| - 1])
  }

  function PublishSidecar(n: Node, t: Path, h: Host): (Node, Reply) {
    var stack := At(n.stacks, t);
    if !h.mountinfo then (n, Reply(Internal, false, false))
    else match LastLayer(stack)
      case Some(Sidecar(minor)) =>
        var seen := n.(tracked := n.tracked + {t});
        if minor in h.pending || h.healthy then (seen, Reply(Ok, false, false))
        else if h.unmounts then (Node(n.stacks[t := Drop(stack, 1)], seen.tracked - {t}), Reply(Internal, false, true))
        else (seen, Reply(Internal, false, true))
      case Some(_) => (n, Reply(Internal, false, false))
      case None =>
        if !h.tokenWritten then (n, Reply(Internal, false, false))
        else match h.sidecar
          case NotMounted => (n, Reply(Internal, false, false))
          case FailedLater(undone, minor) =>
            (n.(stacks := n.stacks[t := if undone then [] else [Sidecar(minor)]]), Reply(Internal, false, false))
          case Mounted(minor) => (Node(n.stacks[t := [Sidecar(minor)]], n.tracked + {t}), Reply(Ok, false, false))
  }

  function PublishByPod(n: Node, t: Path, h: Host): (Node, Reply) {
    var stack := At(n.stacks, t);
    if h.check.CheckFails? then (n, Reply(Internal, true, false))
    else if h.check.Fine? && stack != [] then (n, Reply(if h.healthy then Ok else Internal, true, false))
    else if !h.tokenWritten then (n, Reply(Internal, true, false))
    else (n.(stacks := n.stacks[t := ByMounter(stack, h.mounter)]),
        Reply(if h.mounter.ok then Ok else Internal, true, false))
  }

  function AfterPublish(n: Node, req: PublishRequest, h: Host): (Node, Reply) {
    if !Valid(req) || ModeOf(req.attrs).None? then (n, Reply(InvalidArgument, false, false))
    else if ModeOf(req.attrs).value then PublishSidecar(n, req.target, h)
    else PublishByPod(n, req.target, h)
  }

  function UnpublishTracked(n: Node, t: Path, h: Host): (Node, Reply) {
    var stack := At(n.stacks, t);
    if stack != [] && !h.unmounts then (n, Reply(Internal, false, true))
    else
      var rest := Drop(stack, 1);
      var popped := n.stacks[t := rest];
      // a directory that is still a mount point cannot be removed
      if rest != [] || !h.removes then (n.(stacks := popped), Reply(Internal, false, true))
      else (Node(popped, n.tracked - {t}), Reply(Ok, false, true))
  }

  function UnpublishByMounter(n: Node, t: Path, h: Host): (Node, Reply) {
    var stack := At(n.stacks, t);
    if h.check.CheckFails? then (n, Reply(Internal, true, false))
    else if h.check.NotExist? then (n, Reply(Ok, true, false))
    else if h.check.Fine? && stack == [] then (n, Reply(if h.removes then Ok else Internal, true, false))
    else (n.(stacks := n.stacks[t := Drop(stack, h.mounter.pops)]),
        Reply(if h.mounter.ok then Ok else Internal, true, false))
  }

  function AfterUnpublish(n: Node, volumeID: string, t: Path, h: Host): (Node, Reply) {
    if volumeID == "" || t == "" then (n, Reply(InvalidArgument, false, false))
    else if t in n.tracked then UnpublishTracked(n, t, h)
    else UnpublishByMounter(n, t, h)
  }

  // ----- What the answers mean

  /** What the driver refuses before it looks at anything. */
  predicate Acceptable(req: PublishRequest) {
    && req.volumeID != "" && req.target != "" && req.capability == MountAccess
    && "sourceType" in req.attrs && req.attrs["sourceType"] != ""
    && "sourceId" in req.attrs && req.attrs["sourceId"] != ""
    && ("mountMode" in req.attrs ==> req.attrs["mountMode"] in {"", "sidecar", "mountpod"})
  }

  /** Sidecar mode is the default, but it needs the pod's UID. */
  predicate WantsSidecar(req: PublishRequest) {
    && ("mountMode" in req.attrs ==> req.attrs["mountMode"] in {"", "sidecar"})
    && "csi.storage.k8s.io/pod.uid" in req.attrs && req.attrs["csi.storage.k8s.io/pod.uid"] != ""
  }

  lemma ModeMeans(req: PublishRequest)
    ensures Acceptable(req) <==> Valid(req) && ModeOf(req.attrs).Some?
    ensures Acceptable(req) ==> ModeOf(req.attrs) == Some(WantsSidecar(req))
  {
  }

  /** A publish in sidecar mode, by what is mounted at the target. */
  ghost predicate SidecarAnswer(before: Node, t: Path, h: Host, after: Node, r: Reply) {
    var stack := At(before.stacks, t);
    if !h.mountinfo || (stack != [] && !stack[|stack| - 1].Sidecar?) then
      // unreadable, or something that is not ours on top
      r == Reply(Internal, false, false) && after == before
    else if stack != [] then
      // a republish: leave the mount alone while its handoff runs or its sidecar is well, else detach it
      if stack[|stack| - 1].minor in h.pending || h.healthy then
        && r == Reply(Ok, false, false) && t in after.tracked && after.stacks == before.stacks
      else
        && r == Reply(Internal, false, true) && (t in after.tracked <==> !h.unmounts)
        && At(after.stacks, t) == if h.unmounts then stack[..|stack| - 1] else stack
    else
      // a first mount
      && !r.aborted && (r.code == Ok <==> h.tokenWritten && h.sidecar.Mounted?)
      && (r.code == Ok ==> At(after.stacks, t) == [Sidecar(h.sidecar.minor)] && t in after.tracked)
      && (r.code != Ok ==> r.code == Internal && after.tracked == before.tracked)
      && (At(after.stacks, t) != [] <==>
            h.tokenWritten && (h.sidecar.Mounted? || (h.sidecar.FailedLater? && !h.sidecar.undone)))
  }

  /** A publish through a mount pod: already mounted and healthy, or mounted now. */
  ghost predicate PodAnswer(before: Node, t: Path, h: Host, after: Node, r: Reply) {
    var stack := At(before.stacks, t);
    && r.statted && !r.aborted && after.tracked == before.tracked
    && if h.check.CheckFails? then r.code == Internal && after == before
       else if h.check.Fine? && stack != [] then
         r.code == (if h.healthy then Ok else Internal) && after == before
       else if !h.tokenWritten then r.code == Internal && after == before
       else
         && r.code == (if h.mounter.ok then Ok else Internal)
         && At(after.stacks, t) == stack[..if h.mounter.pops <= |stack| then |stack| - h.mounter.pops else 0]
                                   + if h.mounter.binds then [Bind] else []
  }

  /** Every other target keeps its mounts and its tracking. */
  ghost predicate OthersSame(before: Node, t: Path, after: Node) {
    forall x :: x != t ==> (x in after.tracked <==> x in before.tracked) && At(after.stacks, x) == At(before.stacks, x)
  }

  ghost predicate PublishAnswer(before: Node, req: PublishRequest, h: Host, after: Node, r: Reply) {
    && OthersSame(before, req.target, after)
    && if !Acceptable(req) then r == Reply(InvalidArgument, false, false) && after == before
       else if WantsSidecar(req) then !r.statted && SidecarAnswer(before, req.target, h, after, r)
       else PodAnswer(before, req.target, h, after, r)
  }

  lemma PublishMeans(n: Node, req: PublishRequest, h: Host)
    ensures PublishAnswer(n, req, h, AfterPublish(n, req, h).0, AfterPublish(n, req, h).1)
  {
    ModeMeans(req);
  }

  /**
   An unpublish. Of a tracked target: abort, detach one mount, remove the
   directory; of any other: look at it, then leave it to the mounter.
   */
  ghost predicate UnpublishAnswer(before: Node, volumeID: string, t: Path, h: Host, after: Node, r: Reply) {
    var stack := At(before.stacks, t);
    && OthersSame(before, t, after)
    && if volumeID == "" || t == "" then r == Reply(InvalidArgument, false, false) && after == before
       else if t in before.tracked then
         && !r.statted && r.aborted && r.code != InvalidArgument
         && (r.code == Ok <==> (stack == [] || (|stack| == 1 && h.unmounts)) && h.removes)
         && (t in after.tracked <==> r.code != Ok)
         && At(after.stacks, t) == if stack != [] && h.unmounts then stack[..|stack| - 1] else stack
       else
         && r.statted && !r.aborted && r.code != InvalidArgument && after.tracked == before.tracked
         && (r.code == Ok <==>
               match h.check
               case CheckFails => false
               case NotExist => true
               case Fine => if stack == [] then h.removes else h.mounter.ok
               case Corrupted => h.mounter.ok)
         && (At(after.stacks, t) != stack ==> h.check.Corrupted? || h.check.Fine?)
         && (h.check.Corrupted? || h.check.Fine? ==>
               At(after.stacks, t) == stack[..if h.mounter.pops <= |stack| then |stack| - h.mounter.pops else 0])
  }

  lemma UnpublishMeans(n: Node, volumeID: string, t: Path, h: Host)
    ensures UnpublishAnswer(n, volumeID, t, h, AfterUnpublish(n, volumeID, t, h).0, AfterUnpublish(n, volumeID, t, h).1)
  {
  }

  // ----- The server

  class NodeServer {
    var stacks: Stacks
    var tracked: set<Path>

    constructor ()
      ensures View() == FRESH
    {
      stacks, tracked := map[], {};
    }

    ghost function View(): Node
      reads this
    {
      Node(stacks, tracked)
    }

    method NodePublishVolume(req: PublishRequest, h: Host) returns (r: Reply)
      modifies this
      ensures (View(), r) == AfterPublish(old(View()), req, h)
      ensures PublishAnswer(old(View()), req, h, View(), r)
      ensures Acceptable(req) && WantsSidecar(req) && r.code == Ok ==> HasSidecar(View(), req.target)
    {
      ModeMeans(req);
      PublishMeans(View(), req, h);
      if req.volumeID == "" || req.target == "" {
        return Reply(InvalidArgument, false, false);
      }
      if req.capability.Missing? || req.capability.Block? {
        return Reply(InvalidArgument, false, false);
      }
      if Attr(req.attrs, "sourceType") == "" || Attr(req.attrs, "sourceId") == "" {
        return Reply(InvalidArgument, false, false);
      }
      var mode := AttrOr(req.attrs, "mountMode", "sidecar");
      if mode != "sidecar" && mode != "mountpod" {
        return Reply(InvalidArgument, false, false);
      }
      if mode == "sidecar" && Attr(req.attrs, "csi.storage.k8s.io/pod.uid") == "" {
        mode := "mountpod";
      }
      if mode == "sidecar" {
        r := PublishToSidecar(req.target, h);
      } else {
        r := PublishThroughPod(req.target, h);
      }
    }

    method PublishToSidecar(t: Path, h: Host) returns (r: Reply)
      modifies this
      ensures (View(), r) == PublishSidecar(old(View()), t, h)
      ensures !r.statted && SidecarAnswer(old(View()), t, h, View(), r)
      ensures r.code == Ok ==> HasSidecar(View(), t)
    {
      var stack := At(stacks, t);
      if !h.mountinfo || (stack != [] && !stack[|stack| - 1].Sidecar?) {
        return Reply(Internal, false, false);
      }
      if stack != [] {
        var minor := stack[|stack| - 1].minor;
        tracked := tracked + {t};
        if minor in h.pending {
          return Reply(Ok, false, false);
        }
        if !h.healthy {
          if h.unmounts {
            stacks := stacks[t := Drop(stack, 1)];
            tracked := tracked - {t};
          }
          return Reply(Internal, false, true);
        }
        return Reply(Ok, false, false);
      }
      if !h.tokenWritten {
        return Reply(Internal, false, false);
      }
      match h.sidecar
      case NotMounted =>
        return Reply(Internal, false, false);
      case FailedLater(undone, minor) =>
        stacks := stacks[t := if undone then [] else [Sidecar(minor)]];
        return Reply(Internal, false, false);
      case Mounted(minor) =>
        stacks := stacks[t := [Sidecar(minor)]];
        tracked := tracked + {t};
        assert At(stacks, t)[0].Sidecar?;
        return Reply(Ok, false, false);
    }

    method PublishThroughPod(t: Path, h: Host) returns (r: Reply)
      modifies this
      ensures (View(), r) == PublishByPod(old(View()), t, h)
      ensures PodAnswer(old(View()), t, h, View(), r)
    {
      var stack := At(stacks, t);
      if h.check.CheckFails? {
        return Reply(Internal, true, false);
      }
      var mounted := h.check.Fine? && stack != [];
      if mounted {
        return Reply(if h.healthy then Ok else Internal, true, false);
      }
      if !h.tokenWritten {
        return Reply(Internal, true, false);
      }
      stacks := stacks[t := ByMounter(stack, h.mounter)];
      return Reply(if h.mounter.ok then Ok else Internal, true, false);
    }

    method NodeUnpublishVolume(volumeID: string, t: Path, h: Host) returns (r: Reply)
      modifies this
      ensures (View(), r) == AfterUnpublish(old(View()), volumeID, t, h)
      ensures volumeID != "" && t != "" ==> (r.statted <==> t !in old(tracked)) && (r.aborted <==> t in old(tracked))
      ensures r.code == Ok ==> t !in tracked && (t in old(tracked) ==> At(stacks, t) == [])
      ensures r.code != Ok ==> tracked == old(tracked)
      ensures UnpublishAnswer(old(View()), volumeID, t, h, View(), r)
    {
      UnpublishMeans(View(), volumeID, t, h);
      if volumeID == "" || t == "" {
        return Reply(InvalidArgument, false, false);
      }
      if t in tracked {
        r := UnpublishSidecarVolume(t, h);
        return;
      }
      var stack := At(stacks, t);
      if h.check.CheckFails? {
        return Reply(Internal, true, false);
      }
      if h.check.NotExist? {
        return Reply(Ok, true, false);
      }
      if h.check.Fine? && stack == [] {
        return Reply(if h.removes then Ok else Internal, true, false);
      }
      stacks := stacks[t := Drop(stack, h.mounter.pops)];
      return Reply(if h.mounter.ok then Ok else Internal, true, false);
    }

    method UnpublishSidecarVolume(t: Path, h: Host) returns (r: Reply)
      modifies this
      ensures (View(), r) == UnpublishTracked(old(View()), t, h)
      ensures !r.statted && r.aborted && r.code != InvalidArgument
      ensures if r.code == Ok then tracked == old(tracked) - {t} && At(stacks, t) == [] else tracked == old(tracked)
    {
      var stack := At(stacks, t);
      if stack != [] && !h.unmounts {
        return Reply(Internal, false, true);
      }
      stacks := stacks[t := Drop(stack, 1)];
      if At(stacks, t) != [] || !h.removes {
        return Reply(Internal, false, true);
      }
      tracked := tracked - {t};
      return Reply(Ok, false, true);
    }
  }

  // ----- Runs

  datatype Event =
    | Published(req: PublishRequest, h: Host)
    | Unpublished(volumeID: string, t: Path, h: Host)
    | Restarted
    | Detached(t: Path)
    | Overmounted(t: Path)

  function Step(n: Node, e: Event): Node {
    match e
    case Published(req, h) => AfterPublish(n, req, h).0
    case Unpublished(volumeID, t, h) => AfterUnpublish(n, volumeID, t, h).0
    case Restarted => n.(tracked := {})
    case Detached(t) => n.(stacks := n.stacks[t := Drop(At(n.stacks, t), 1)])
    case Overmounted(t) => n.(stacks := n.stacks[t := At(n.stacks, t) + [Foreign]])
  }

  function ReplyTo(n: Node, e: Event): Option<Reply> {
    match e
    case Published(req, h) => Some(AfterPublish(n, req, h).1)
    case Unpublished(volumeID, t, h) => Some(AfterUnpublish(n, volumeID, t, h).1)
    case _ => None
  }

  function Run(es: seq<Event>): Node {
    if es == [] then FRESH else Step(Run(es[..|es| - 1]), es[|es| - 1])
  }

  predicate HasSidecar(n: Node, t: Path) {
    exists i :: 0 <= i < |At(n.stacks, t)| && At(n.stacks, t)[i].Sidecar?
  }

  /** A publish that makes a kernel mount at t. */
  predicate Creates(n: Node, e: Event, t: Path) {
    && e.Published? && e.req.target == t && Valid(e.req) && ModeOf(e.req.attrs) == Some(true)
    && e.h.mountinfo && e.h.tokenWritten && At(n.stacks, t) == [] && e.h.sidecar != NotMounted
  }

  /** A publish that sees the sidecar mount at t. */
  predicate Sees(n: Node, e: Event, t: Path) {
    && e.Published? && e.req.target == t && Valid(e.req) && ModeOf(e.req.attrs) == Some(true)
    && e.h.mountinfo && LastLayer(At(n.stacks, t)).Some? && LastLayer(At(n.stacks, t)).value.Sidecar?
  }

  /**
   Whether t is lost after a step: a restart loses what is mounted, and so does
   a setup that fails without undoing its mount, unless t was still tracked
   from before. A publish that sees the mount, or makes one and succeeds, finds
   it again.
   */
  ghost predicate LostNow(n: Node, lost: bool, e: Event, t: Path) {
    if e.Restarted? then HasSidecar(n, t)
    else if Sees(n, e, t) then false
    else if Creates(n, e, t) && e.h.sidecar.Mounted? then false
    else if Creates(n, e, t) && !e.h.sidecar.undone then t !in n.tracked
    else lost
  }

  ghost predicate Lost(es: seq<Event>, t: Path) {
    es != [] && LostNow(Run(es[..|es| - 1]), Lost(es[..|es| - 1], t), es[|es| - 1], t)
  }

  /** A sidecar mount stands alone at the bottom of its target's stack. */
  ghost predicate OneLayer(n: Node) {
    forall t, i :: 0 < i < |At(n.stacks, t)| ==> !At(n.stacks, t)[i].Sidecar?
  }

  /** A step adds sidecar layers only to a bare target, by making a kernel mount. */
  lemma LayerComesFrom(n: Node, e: Event, t: Path, i: nat)
    requires i < |At(Step(n, e).stacks, t)| && At(Step(n, e).stacks, t)[i].Sidecar?
    ensures (i < |At(n.stacks, t)| && At(n.stacks, t)[i].Sidecar?) || (i == 0 && Creates(n, e, t))
  {
    if e.Published? {
      PublishedLayer(n, e.req, e.h, t, i);
    }
  }

  lemma PublishedLayer(n: Node, req: PublishRequest, h: Host, t: Path, i: nat)
    requires i < |At(AfterPublish(n, req, h).0.stacks, t)| && At(AfterPublish(n, req, h).0.stacks, t)[i].Sidecar?
    ensures (i < |At(n.stacks, t)| && At(n.stacks, t)[i].Sidecar?) || (i == 0 && Creates(n, Published(req, h), t))
  {
  }

  lemma OneLayerStep(n: Node, e: Event)
    requires OneLayer(n)
    ensures OneLayer(Step(n, e))
  {
    var n' := Step(n, e);
    forall t, i | 0 < i < |At(n'.stacks, t)| ensures !At(n'.stacks, t)[i].Sidecar? {
      if At(n'.stacks, t)[i].Sidecar? {
        LayerComesFrom(n, e, t, i);
      }
    }
  }

  /** At most one sidecar layer per target, in every run, restarts included. */
  lemma {:induction false} NeverStacked(es: seq<Event>)
    ensures OneLayer(Run(es))
  {
    if es != [] {
      NeverStacked(es[..|es| - 1]);
      OneLayerStep(Run(es[..|es| - 1]), es[|es| - 1]);
    }
  }

  lemma NewSidecar(n: Node, e: Event, t: Path)
    requires HasSidecar(Step(n, e), t)
    ensures HasSidecar(n, t) || Creates(n, e, t)
  {
    var i :| 0 <= i < |At(Step(n, e).stacks, t)| && At(Step(n, e).stacks, t)[i].Sidecar?;
    LayerComesFrom(n, e, t, i);
  }

  /** Short of a restart, a mount that stays keeps its target tracked or untracked, unless a publish sees it. */
  lemma StaysAsTracked(n: Node, e: Event, t: Path)
    requires OneLayer(n) && HasSidecar(n, t) && !e.Restarted? && !Sees(n, e, t) && HasSidecar(Step(n, e), t)
    ensures t in Step(n, e).tracked <==> t in n.tracked
  {
    assert forall i :: 0 < i < |At(n.stacks, t)| ==> !At(n.stacks, t)[i].Sidecar?;
  }

  /** Seen mounted, a target is tracked unless it was unmounted as unhealthy. */
  lemma SeenIsTracked(n: Node, e: Event, t: Path)
    requires OneLayer(n) && HasSidecar(Step(n, e), t) && Sees(n, e, t)
    ensures t in Step(n, e).tracked
  {
  }

  /** A mount is tracked from its start exactly if its setup went well or its target still was. */
  lemma CreatedIsTracked(n: Node, e: Event, t: Path)
    requires HasSidecar(Step(n, e), t) && Creates(n, e, t)
    ensures !e.h.sidecar.Mounted? ==> !e.h.sidecar.undone
    ensures t in Step(n, e).tracked <==> e.h.sidecar.Mounted? || t in n.tracked
  {
  }

  lemma TrackedOrLostStep(n: Node, lost: bool, e: Event, t: Path)
    requires OneLayer(n) && HasSidecar(Step(n, e), t) && (HasSidecar(n, t) ==> (t in n.tracked <==> !lost))
    ensures t in Step(n, e).tracked <==> !LostNow(n, lost, e, t)
  {
    NewSidecar(n, e, t);
    if Sees(n, e, t) {
      SeenIsTracked(n, e, t);
    } else if Creates(n, e, t) {
      CreatedIsTracked(n, e, t);
    } else if !e.Restarted? {
      StaysAsTracked(n, e, t);
    }
  }

  /** In every run, a sidecar mount is tracked exactly if it is not lost. */
  lemma {:induction false} TrackedUnlessLost(es: seq<Event>, t: Path)
    requires HasSidecar(Run(es), t)
    ensures t in Run(es).tracked <==> !Lost(es, t)
  {
    assert At(FRESH.stacks, t) == [];
    var front, e := es[..|es| - 1], es[|es| - 1];
    NeverStacked(front);
    if HasSidecar(Run(front), t) {
      TrackedUnlessLost(front, t);
    }
    TrackedOrLostStep(Run(front), Lost(front, t), e, t);
  }

  /** No restart, and every setup that failed after its kernel mount undid it. */
  ghost predicate Undisturbed(es: seq<Event>) {
    forall e :: e in es ==> !e.Restarted? && (e.Published? && e.h.sidecar.FailedLater? ==> e.h.sidecar.undone)
  }

  /** Each target is published in one mode only. */
  ghost predicate FixedModes(es: seq<Event>, sidecar: Path -> bool) {
    forall e :: e in es && e.Published? && ModeOf(e.req.attrs).Some? ==>
        ModeOf(e.req.attrs).value == sidecar(e.req.target)
  }

  lemma {:induction false} NothingLost(es: seq<Event>, t: Path)
    requires Undisturbed(es)
    ensures !Lost(es, t)
  {
    if es != [] {
      NothingLost(es[..|es| - 1], t);
      assert es[|es| - 1] in es;
    }
  }

  /** Only targets of sidecar mode are tracked or carry sidecar mounts, and none of them carries a bind. */
  lemma {:induction false} ModesApart(es: seq<Event>, sidecar: Path -> bool, t: Path)
    requires FixedModes(es, sidecar)
    ensures t in Run(es).tracked || HasSidecar(Run(es), t) ==> sidecar(t)
    ensures sidecar(t) ==> Bind !in At(Run(es).stacks, t)
  {
    if es != [] {
      var front, e := es[..|es| - 1], es[|es| - 1];
      NeverStacked(front);
      assert e in es;
      ModesApart(front, sidecar, t);
      ModesApartStep(Run(front), e, sidecar, t);
    }
  }

  lemma ModesApartStep(n: Node, e: Event, sidecar: Path -> bool, t: Path)
    requires OneLayer(n) && (t in n.tracked || HasSidecar(n, t) ==> sidecar(t))
             && (sidecar(t) ==> Bind !in At(n.stacks, t))
    requires e.Published? && ModeOf(e.req.attrs).Some? ==> ModeOf(e.req.attrs).value == sidecar(e.req.target)
    ensures t in Step(n, e).tracked || HasSidecar(Step(n, e), t) ==> sidecar(t)
    ensures sidecar(t) ==> Bind !in At(Step(n, e).stacks, t)
  {
    if HasSidecar(Step(n, e), t) {
      NewSidecar(n, e, t);
    }
  }

  /**
   In a run without a restart every sidecar mount is tracked, so no call ever
   stats one (a stat can hang until the daemon serves it), and the connection
   of a bind mount (shared with its source) is never aborted.
   */
  lemma NeverBlocksNeverAbortsBinds(es: seq<Event>, next: Event, sidecar: Path -> bool, t: Path)
    requires Undisturbed(es) && FixedModes(es + [next], sidecar)
    requires (next.Published? && next.req.target == t) || (next.Unpublished? && next.t == t)
    ensures HasSidecar(Run(es), t) ==> t in Run(es).tracked
    ensures HasSidecar(Run(es), t) ==> !ReplyTo(Run(es), next).value.statted
    ensures ReplyTo(Run(es), next).value.aborted ==> Bind !in At(Run(es).stacks, t)
  {
    assert FixedModes(es, sidecar) by {
      forall e | e in es && e.Published? && ModeOf(e.req.attrs).Some?
          ensures ModeOf(e.req.attrs).value == sidecar(e.req.target) {
        assert e in es + [next];
      }
    }
    assert next in es + [next];
    ModesApart(es, sidecar, t);
    NothingLost(es, t);
    if HasSidecar(Run(es), t) {
      TrackedUnlessLost(es, t);
    }
  }

  // ----- Which aborts hit a bind

  predicate Concerns(e: Event, t: Path) {
    (e.Published? && e.req.target == t) || (e.Unpublished? && e.t == t && e.volumeID != "" && t != "")
  }

  predicate PublishesByPod(e: Event) {
    e.Published? && Valid(e.req) && ModeOf(e.req.attrs) == Some(false)
  }

  /** A publish in mount-pod mode binds on t while t is tracked. */
  predicate BindsTracked(n: Node, e: Event, t: Path) {
    && PublishesByPod(e) && e.req.target == t && t in n.tracked && !e.h.check.CheckFails?
    && (e.h.check.Fine? ==> At(n.stacks, t) == []) && e.h.tokenWritten && e.h.mounter.binds
  }

  ghost predicate BoundTracked(es: seq<Event>, t: Path) {
    es != [] && (BoundTracked(es[..|es| - 1], t) || BindsTracked(Run(es[..|es| - 1]), es[|es| - 1], t))
  }

  /** The call on t aborts a FUSE connection while a bind is mounted there. */
  predicate AbortsBind(n: Node, e: Event, t: Path) {
    Concerns(e, t) && ReplyTo(n, e).value.aborted && Bind in At(n.stacks, t)
  }

  lemma TrackedBindStep(n: Node, e: Event, t: Path)
    requires OneLayer(n) && (t in n.tracked ==> Bind !in At(n.stacks, t)) && !BindsTracked(n, e, t)
    ensures t in Step(n, e).tracked ==> Bind !in At(Step(n, e).stacks, t)
  {
  }

  lemma {:induction false} TrackedHasNoBind(es: seq<Event>, t: Path)
    requires !BoundTracked(es, t)
    ensures t in Run(es).tracked ==> Bind !in At(Run(es).stacks, t)
  {
    if es != [] {
      var front, e := es[..|es| - 1], es[|es| - 1];
      NeverStacked(front);
      TrackedHasNoBind(front, t);
      TrackedBindStep(Run(front), e, t);
    }
  }

  /** A call aborts a bind exactly if it unpublishes a tracked target that carries one. */
  lemma AbortsTracked(es: seq<Event>, e: Event, t: Path)
    ensures AbortsBind(Run(es), e, t) <==>
              Concerns(e, t) && e.Unpublished? && t in Run(es).tracked && Bind in At(Run(es).stacks, t)
  {
    NeverStacked(es);
  }

  lemma {:induction false} PrefixBound(es: seq<Event>, k: nat, t: Path)
    requires k <= |es| && BoundTracked(es[..k], t)
    ensures BoundTracked(es, t)
  {
    if k == |es| {
      assert es[..k] == es;
    } else {
      assert es[..|es| - 1][..k] == es[..k];
      PrefixBound(es[..|es| - 1], k, t);
    }
  }

  lemma {:induction false} BoundPrefix(es: seq<Event>, volumeID: string, t: Path, h: Host) returns (k: nat)
    requires BoundTracked(es, t) && volumeID != "" && t != ""
    ensures k <= |es| && AbortsBind(Run(es[..k]), Unpublished(volumeID, t, h), t)
  {
    var front, e := es[..|es| - 1], es[|es| - 1];
    if BindsTracked(Run(front), e, t) {
      k := |es|;
      assert es[..k] == es;
      var stack := ByMounter(At(Run(front).stacks, t), e.h.mounter);
      assert stack[|stack| - 1] == Bind;
    } else {
      k := BoundPrefix(front, volumeID, t, h);
      assert front[..k] == es[..k];
    }
  }

  /**
   Over any run, restarts and failures included: at some point an unpublish of
   t would abort the connection of a bind (shared with its source) if and only
   if a publish in mount-pod mode bound on t while t was tracked as a sidecar
   mount. No publish ever does.
   */
  lemma BindAborts(es: seq<Event>, volumeID: string, t: Path, h: Host)
    requires volumeID != "" && t != ""
    ensures (exists k :: 0 <= k <= |es| && AbortsBind(Run(es[..k]), Unpublished(volumeID, t, h), t)) <==>
              BoundTracked(es, t)
    ensures forall e: Event :: e.Published? ==> !AbortsBind(Run(es), e, t)
  {
    forall k | 0 <= k <= |es| && AbortsBind(Run(es[..k]), Unpublished(volumeID, t, h), t) ensures BoundTracked(es, t) {
      if !BoundTracked(es[..k], t) {
        TrackedHasNoBind(es[..k], t);
      } else {
        PrefixBound(es, k, t);
      }
    }
    if BoundTracked(es, t) {
      var k := BoundPrefix(es, volumeID, t, h);
    }
    forall e: Event | e.Published? ensures !AbortsBind(Run(es), e, t) {
      AbortsTracked(es, e, t);
    }
  }

  /** With one mode per target that cannot happen. */
  lemma {:induction false} FixedModesNeverBind(es: seq<Event>, sidecar: Path -> bool, t: Path)
    requires FixedModes(es, sidecar)
    ensures !BoundTracked(es, t)
  {
    if es != [] {
      var front, e := es[..|es| - 1], es[|es| - 1];
      assert e in es;
      FixedModesNeverBind(front, sidecar, t);
      ModesApart(front, sidecar, t);
    }
  }

  /** With two it can: a sidecar mount, detached by somebody else, and a mount-pod publish of the same target. */
  lemma MixedModesAbort(req: PublishRequest, req': PublishRequest, h: Host, h': Host, volumeID: string, h'': Host)
    requires Valid(req) && ModeOf(req.attrs) == Some(true) && h.mountinfo && h.tokenWritten && h.sidecar.Mounted?
    requires Valid(req') && ModeOf(req'.attrs) == Some(false) && req'.target == req.target
    requires !h'.check.CheckFails? && h'.tokenWritten && h'.mounter.binds && volumeID != ""
    ensures var run := [Published(req, h), Detached(req.target), Published(req', h')];
            AbortsBind(Run(run), Unpublished(volumeID, req.target, h''), req.target)
  {
    var t := req.target;
    var one, two := [Published(req, h)], [Published(req, h), Detached(t)];
    var run := [Published(req, h), Detached(t), Published(req', h')];
    assert one[..0] == [] && two[..1] == one && run[..2] == two;
    assert At(Run(one).stacks, t) == [Sidecar(h.sidecar.minor)];
    assert At(Run(two).stacks, t) == [] && t in Run(two).tracked;
    assert At(Run(run).stacks, t) == [Bind];
  }

  /** Only a successful unpublish stops tracking, and it leaves nothing mounted; so every retry takes the fast path. */
  lemma FailedUnpublishRetries(n: Node, volumeID: string, t: Path, h: Host, h': Host)
    requires t in n.tracked && volumeID != "" && t != ""
    ensures var (after, reply) := AfterUnpublish(n, volumeID, t, h);
            && !reply.statted
            && (reply.code == Ok <==> t !in after.tracked)
            && (reply.code == Ok ==> At(after.stacks, t) == [])
            && (reply.code != Ok ==> !AfterUnpublish(after, volumeID, t, h').1.statted)
            && (forall x :: x != t ==>
                (x in after.tracked <==> x in n.tracked)
                && At(after.stacks, x) == At(n.stacks, x))
  {
  }

  /** After a restart, one publish of a mounted target restores its tracking (or unmounts it as unhealthy). */
  lemma RepublishRestores(es: seq<Event>, req: PublishRequest, h: Host)
    requires Valid(req) && ModeOf(req.attrs) == Some(true) && h.mountinfo
    requires LastLayer(At(Run(es).stacks, req.target)).Some? && LastLayer(At(Run(es).stacks, req.target)).value.Sidecar?
    ensures var after := Run(es + [Published(req, h)]);
            && (req.target in after.tracked || !HasSidecar(after, req.target))
            && !Lost(es + [Published(req, h)], req.target)
  {
    var all := es + [Published(req, h)];
    assert all[..|all| - 1] == es;
    NeverStacked(es);
    NeverStacked(all);
    var stack := At(Run(es).stacks, req.target);
    assert |stack| == 1;
  }

  /** In every run: a call stats a sidecar mount exactly if it publishes in the other mode or unpublishes a lost one. */
  lemma SidecarIsStatted(es: seq<Event>, next: Event, t: Path)
    requires Concerns(next, t) && HasSidecar(Run(es), t)
    ensures ReplyTo(Run(es), next).value.statted <==> PublishesByPod(next) || (next.Unpublished? && Lost(es, t))
  {
    TrackedUnlessLost(es, t);
  }

  /** And that happens: publish, restart, unpublish. */
  lemma RestartLoses(req: PublishRequest, h: Host, volumeID: string, h': Host)
    requires Valid(req) && ModeOf(req.attrs) == Some(true) && h.mountinfo && h.tokenWritten && h.sidecar.Mounted?
             && volumeID != ""
    ensures var run := [Published(req, h), Restarted];
            && HasSidecar(Run(run), req.target) && Lost(run, req.target)
            && ReplyTo(Run(run), Unpublished(volumeID, req.target, h')).value.statted
  {
    var one, run := [Published(req, h)], [Published(req, h), Restarted];
    assert one[..0] == [] && run[..1] == one;
    assert At(Run(one).stacks, req.target) == [Sidecar(h.sidecar.minor)];
    assert At(Run(run).stacks, req.target)[0].Sidecar? && At(Run(one).stacks, req.target)[0].Sidecar?;
  }
}
