/**
 Publishing through a sidecar: the kernel mount made by the plugin, and the
 goroutine that hands its /dev/fuse descriptor to the sidecar. Everything either
 of them does to a descriptor, the mount or the sweeper's exemption is an event
 in the plugin's log.
 */
module SidecarHandoff {
  import opened GoStrings
  import opened MountTable
  import opened MountArgs

  const DEFAULT_FD_COUNT := 4
  const MAX_FD_COUNT := 32

  /** Descriptors are told apart by when they were opened: a number the kernel hands out again is a new descriptor. */
  type Fd = int

  datatype Event =
    | Opened(fd: Fd)
    | Closed(fd: Fd)
    | MountedAt(target: Path)
    | UnmountTried(target: Path)
    | WroteArgs(args: seq<string>)
    | Sent(fds: seq<Fd>)
    | SendFailed
    | ErrorRecorded
    | SymlinkRemoved
    | ListenerClosed
    | ConnClosed
    | Marked(minor: int)
    | Cleared(minor: int)

  type Log = seq<Event>

  function Count(es: Log, e: Event): nat {
    if es == [] then 0 else Count(es[..|es| - 1], e) + if es[|es| - 1] == e then 1 else 0
  }

  lemma {:induction false} CountConcat(a: Log, b: Log, e: Event)
    ensures Count(a + b, e) == Count(a, e) + Count(b, e)
  {
    if b == [] {
      assert a + b == a;
    } else {
      assert (a + b)[..|a + b| - 1] == a + b[..|b| - 1];
      CountConcat(a, b[..|b| - 1], e);
    }
  }

  lemma {:induction false} CountIn(es: Log, e: Event)
    ensures Count(es, e) > 0 <==> e in es
  {
    if es != [] {
      CountIn(es[..|es| - 1], e);
      assert es == es[..|es| - 1] + [es[|es| - 1]];
    }
  }

  lemma CountOne(e: Event, x: Event)
    ensures Count([e], x) == if e == x then 1 else 0
  {
  }

  // ----- How many descriptors a sidecar gets

  /** The number a setting asks for, None if it asks for nothing or nonsense. */
  function Asked(text: string): Option<int> {
    var n := Atoi(text);
    if text != "" && n.Some? && n.value >= 1 then n else None
  }

  /** The attribute decides, then the environment, then the default; never more than 32. */
  function FdCount(env: string, attr: string): (n: nat)
    ensures 1 <= n <= MAX_FD_COUNT
  {
    var n := if Asked(attr).Some? then Asked(attr).value else if Asked(env).Some? then Asked(env).value
        else DEFAULT_FD_COUNT;
    if n > MAX_FD_COUNT then MAX_FD_COUNT else n
  }

  method SidecarFuseFdCount(env: string, attr: string) returns (n: nat)
    ensures n == FdCount(env, attr)
    // the attribute if it is a positive number, else the environment if it is one, else four; at most 32
    ensures var asked := if attr != "" && Atoi(attr).Some? && Atoi(attr).value >= 1 then Atoi(attr).value
                         else if env != "" && Atoi(env).Some? && Atoi(env).value >= 1 then Atoi(env).value else 4;
            n == if asked < 32 then asked else 32
  {
    var count: int := DEFAULT_FD_COUNT;
    if env != "" {
      var parsed := Atoi(env);
      if parsed.Some? && parsed.value >= 1 {
        count := parsed.value;
      }
    }
    if attr != "" {
      var parsed := Atoi(attr);
      if parsed.Some? && parsed.value >= 1 {
        count := parsed.value;
      }
    }
    if count > MAX_FD_COUNT {
      count := MAX_FD_COUNT;
    }
    n := count;
  }

  // ----- What can go wrong

  datatype Stage =
    | Tmpfs
    | OpenFuse
    | KernelMount
    | VolumeDir
    | ClearStatus
    | WriteToken
    | WriteArgs
    | SymlinkBase
    | Symlink
    | Listen

  datatype CloneResult = CloneOk | CloneOpenFails | CloneIoctlFails

  /** How the handoff goes: whether the sidecar connects, how each clone ends, whether the message is sent. */
  datatype Peer = Peer(connects: bool, clones: nat -> CloneResult, sends: bool)

  /** What a started handoff owns. */
  datatype Handoff = Handoff(fd: Fd, minor: Option<int>, fdAttr: string)

  // ----- Accounts of descriptors

  /** Every descriptor opened here is closed here, once; of the others just those in `own` are closed, once. */
  ghost predicate Balanced(es: Log, own: set<Fd>, start: Fd) {
    forall f: Fd :: BalancedAt(es, own, start, f)
  }

  ghost predicate BalancedAt(es: Log, own: set<Fd>, start: Fd, f: Fd) {
    && Count(es, Opened(f)) <= 1
    && Count(es, Closed(f)) == Count(es, Opened(f)) + (if f in own then 1 else 0)
    && (Count(es, Opened(f)) > 0 ==> f >= start)
  }

  /** Of the descriptors opened here `extra` are still open; the others were closed, once. */
  ghost predicate Holding(es: Log, extra: seq<Fd>, start: Fd, end: Fd) {
    && Distinct(extra)
    && (forall f :: f in extra ==> start <= f < end)
    && (forall e :: e in es ==> e.Opened? || e.Closed?)
    && forall f: Fd :: HoldingAt(es, extra, start, end, f)
  }

  ghost predicate HoldingAt(es: Log, extra: seq<Fd>, start: Fd, end: Fd, f: Fd) {
    && Count(es, Opened(f)) <= 1
    && Count(es, Opened(f)) == Count(es, Closed(f)) + (if f in extra then 1 else 0)
    && (Count(es, Opened(f)) > 0 ==> start <= f < end)
  }

  ghost predicate Distinct(fds: seq<Fd>) {
    forall i, j :: 0 <= i < j < |fds| ==> fds[i] != fds[j]
  }

  /** Events that are neither an open nor a close. */
  ghost predicate Neutral(es: Log) {
    forall e :: e in es ==> !e.Opened? && !e.Closed?
  }

  lemma NeutralCounts(es: Log, f: Fd)
    requires Neutral(es)
    ensures Count(es, Opened(f)) == 0 && Count(es, Closed(f)) == 0
  {
  }

  function ClosesOf(fds: seq<Fd>): Log {
    seq(|fds|, i requires 0 <= i < |fds| => Closed(fds[i]))
  }

  lemma {:induction false} CountClosesOf(fds: seq<Fd>, f: Fd)
    requires Distinct(fds)
    ensures Count(ClosesOf(fds), Opened(f)) == 0 && Count(ClosesOf(fds), Closed(f)) == if f in fds then 1 else 0
  {
    if fds != [] {
      var n := |fds| - 1;
      CountClosesOf(fds[..n], f);
      assert ClosesOf(fds)[..n] == ClosesOf(fds[..n]);
      assert fds == fds[..n] + [fds[n]] && fds[n] !in fds[..n];
    }
  }

  lemma NothingHeld(start: Fd, end: Fd)
    requires start <= end
    ensures Holding([], [], start, end)
  {
  }

  lemma OneHeld(fd: Fd, end: Fd)
    requires fd < end
    ensures Holding([Opened(fd)], [fd], fd, end)
  {
    forall f: Fd ensures HoldingAt([Opened(fd)], [fd], fd, end, f) {
      CountOne(Opened(fd), Opened(f));
      CountOne(Opened(fd), Closed(f));
    }
  }

  lemma OneReturned(fd: Fd, end: Fd)
    requires fd < end
    ensures Holding([Opened(fd), Closed(fd)], [], fd, end)
  {
    forall f: Fd ensures HoldingAt([Opened(fd), Closed(fd)], [], fd, end, f) {
      assert [Opened(fd), Closed(fd)] == [Opened(fd)] + [Closed(fd)];
      forall x ensures Count([Opened(fd), Closed(fd)], x) == Count([Opened(fd)], x) + Count([Closed(fd)], x) {
        CountConcat([Opened(fd)], [Closed(fd)], x);
      }
      CountOne(Opened(fd), Opened(f));
      CountOne(Opened(fd), Closed(f));
      CountOne(Closed(fd), Opened(f));
      CountOne(Closed(fd), Closed(f));
    }
  }

  lemma HoldingConcat(a: Log, fds: seq<Fd>, b: Log, more: seq<Fd>, start: Fd, mid: Fd, end: Fd)
    requires start <= mid <= end && Holding(a, fds, start, mid) && Holding(b, more, mid, end)
    ensures Holding(a + b, fds + more, start, end)
  {
    forall f: Fd ensures HoldingAt(a + b, fds + more, start, end, f) {
      CountConcat(a, b, Opened(f));
      CountConcat(a, b, Closed(f));
      assert HoldingAt(a, fds, start, mid, f) && HoldingAt(b, more, mid, end, f);
    }
    var all := fds + more;
    forall i, j | 0 <= i < j < |all| ensures all[i] != all[j] {
      if i < |fds| <= j {
        assert fds[i] in fds && more[j - |fds|] in more;
      }
    }
  }

  lemma CloseBalanced(fd: Fd, start: Fd)
    ensures Balanced([Closed(fd)], {fd}, start)
  {
    forall f: Fd ensures BalancedAt([Closed(fd)], {fd}, start, f) {
      CountOne(Closed(fd), Opened(f));
      CountOne(Closed(fd), Closed(f));
    }
  }

  lemma AllDistinct(fds: seq<Fd>, fd: Fd, start: Fd)
    requires fds != [] && fds[0] == fd && fd < start && Distinct(fds[1..]) && forall f :: f in fds[1..] ==> f >= start
    ensures Distinct(fds)
  {
    forall i, j | 0 <= i < j < |fds| ensures fds[i] != fds[j] {
      assert fds[j] == fds[1..][j - 1] && fds[j] in fds[1..];
      assert i > 0 ==> fds[i] == fds[1..][i - 1];
    }
  }

  lemma PassBalanced(made: Log, fds: seq<Fd>, mid: Event, fd: Fd, start: Fd, end: Fd)
    requires fds != [] && fds[0] == fd && fd < start && Holding(made, fds[1..], start, end) && Neutral([mid])
    ensures Distinct(fds) && Balanced(made + [mid] + ClosesOf(fds), {fd}, start)
  {
    AllDistinct(fds, fd, start);
    assert fds == [fd] + fds[1..];
    var es := made + [mid] + ClosesOf(fds);
    forall f: Fd ensures BalancedAt(es, {fd}, start, f) {
      forall x ensures Count(es, x) == Count(made, x) + Count([mid], x) + Count(ClosesOf(fds), x) {
        CountConcat(made + [mid], ClosesOf(fds), x);
        CountConcat(made, [mid], x);
      }
      NeutralCounts([mid], f);
      CountClosesOf(fds, f);
      assert HoldingAt(made, fds[1..], start, end, f);
    }
  }

  lemma TailBalanced(es: Log, tail: Log, own: set<Fd>, start: Fd)
    requires Balanced(es, own, start) && Neutral(tail)
    ensures Balanced(es + tail, own, start)
  {
    forall f: Fd ensures BalancedAt(es + tail, own, start, f) {
      CountConcat(es, tail, Opened(f));
      CountConcat(es, tail, Closed(f));
      NeutralCounts(tail, f);
      assert BalancedAt(es, own, start, f);
    }
  }

  lemma OpenClose(fd: Fd, mid: Log)
    requires Neutral(mid)
    ensures Balanced([Opened(fd)] + mid + [Closed(fd)], {}, fd)
  {
    var es := [Opened(fd)] + mid + [Closed(fd)];
    forall f: Fd ensures BalancedAt(es, {}, fd, f) {
      forall x ensures Count(es, x) == Count([Opened(fd)], x) + Count(mid, x) + Count([Closed(fd)], x) {
        CountConcat([Opened(fd)] + mid, [Closed(fd)], x);
        CountConcat([Opened(fd)], mid, x);
      }
      NeutralCounts(mid, f);
      CountOne(Opened(fd), Opened(f));
      CountOne(Opened(fd), Closed(f));
      CountOne(Closed(fd), Opened(f));
      CountOne(Closed(fd), Closed(f));
    }
  }

  /** A setup that leaves one descriptor, and the handoff that closes it. */
  lemma SetupThenHandoff(fd: Fd, mid: Log, rest: Log, start: Fd)
    requires fd < start && Neutral(mid) && Balanced(rest, {fd}, start)
    ensures Balanced([Opened(fd)] + mid + rest, {}, fd)
  {
    var es := [Opened(fd)] + mid + rest;
    forall f: Fd ensures BalancedAt(es, {}, fd, f) {
      forall x ensures Count(es, x) == Count([Opened(fd)], x) + Count(mid, x) + Count(rest, x) {
        CountConcat([Opened(fd)] + mid, rest, x);
        CountConcat([Opened(fd)], mid, x);
      }
      NeutralCounts(mid, f);
      CountOne(Opened(fd), Opened(f));
      CountOne(Opened(fd), Closed(f));
      assert BalancedAt(rest, {fd}, start, f);
    }
  }

  /**
   The message at position i carries the primary first, then only good clones, at most 32
   in all and none closed yet.
   */
  ghost predicate SentRight(es: Log, i: nat, h: Handoff, env: string, peer: Peer)
    requires i < |es| && es[i].Sent?
  {
    var fds := es[i].fds;
    && 1 <= |fds| <= FdCount(env, h.fdAttr) && fds[0] == h.fd && Distinct(fds)
    && (|fds| == FdCount(env, h.fdAttr) || !peer.clones(|fds|).CloneOk?)
    && (forall k :: 1 <= k < |fds| ==> peer.clones(k).CloneOk?)
    && (forall j :: 0 <= j < i && es[j].Closed? ==> es[j].fd !in fds)
  }

  /** Every message in a log is sent right. */
  ghost predicate AllSentRight(es: Log, h: Handoff, env: string, peer: Peer) {
    forall i :: 0 <= i < |es| && es[i].Sent? ==> SentRight(es, i, h, env, peer)
  }

  lemma NothingClosedYet(made: Log, fds: seq<Fd>, fd: Fd, start: Fd, end: Fd)
    requires fds != [] && fds[0] == fd && fd < start && Holding(made, fds[1..], start, end)
    ensures forall j :: 0 <= j < |made| && made[j].Closed? ==> made[j].fd !in fds
  {
    forall j | 0 <= j < |made| && made[j].Closed? ensures made[j].fd !in fds {
      var f := made[j].fd;
      assert Closed(f) in made;
      CountIn(made, Closed(f));
      assert HoldingAt(made, fds[1..], start, end, f);
      assert fds == [fd] + fds[1..];
    }
  }

  lemma PassSentRight(made: Log, fds: seq<Fd>, mid: Event, h: Handoff, env: string, peer: Peer, start: Fd, end: Fd)
    requires 1 <= |fds| <= FdCount(env, h.fdAttr) && fds[0] == h.fd && h.fd < start && Distinct(fds)
             && Holding(made, fds[1..], start, end)
    requires |fds| == FdCount(env, h.fdAttr) || !peer.clones(|fds|).CloneOk?
    requires (forall k :: 1 <= k < |fds| ==> peer.clones(k).CloneOk?) && (mid == Sent(fds) || mid == SendFailed)
    ensures AllSentRight(made + [mid] + ClosesOf(fds), h, env, peer)
    ensures mid in made + [mid] + ClosesOf(fds)
    ensures forall e :: e in made + [mid] + ClosesOf(fds) ==> e.Opened? || e.Closed? || e == mid
  {
    var es := made + [mid] + ClosesOf(fds);
    assert es[|made|] == mid;
    NothingClosedYet(made, fds, h.fd, start, end);
    assert forall j :: 0 <= j < |made| ==> es[j] == made[j] && made[j] in made;
    forall i | 0 <= i < |es| && es[i].Sent? ensures SentRight(es, i, h, env, peer) {
      assert i == |made|;
    }
  }

  lemma TailSentRight(es: Log, tail: Log, h: Handoff, env: string, peer: Peer)
    requires AllSentRight(es, h, env, peer) && forall e :: e in tail ==> !e.Sent?
    ensures AllSentRight(es + tail, h, env, peer)
  {
  }

  /** The options the sidecar's arguments are built from: its own cache, and the token where the sidecar sees it. */
  function SidecarOptions(o: MountOptions, tokenInPod: string): MountOptions {
    o.(cacheDir := "", tokenFile := if o.tokenFile != "" then tokenInPod else "")
  }

  /**
   The sidecar's reading of its instructions: the same source, mounted at /tmp
   with the same options, but without the host's cache directory and with the
   token file where the sidecar sees it.
   */
  ghost predicate Instructs(args: seq<string>, sourceType: string, sourceID: string, o: MountOptions,
                            tokenInPod: string) {
    ReadArgs(args, |o.extraArgs|) == Some(CommandLine(sourceType, sourceID, "/tmp", MountOptions(
      if sourceType == "repo" then o.revision else "", o.hubEndpoint, "", o.cacheSize, o.pollIntervalSecs,
      o.pollListingConcurrency, o.metadataTtlMs, o.inodeSoftLimit, o.lruSweepIntervalMs, o.readOnly, o.extraArgs,
      if o.tokenFile == "" then "" else tokenInPod)))
  }

  ghost predicate AllInstruct(es: Log, sourceType: string, sourceID: string, o: MountOptions, tokenInPod: string) {
    forall e :: e in es && e.WroteArgs? ==> Instructs(e.args, sourceType, sourceID, o, tokenInPod)
  }

  lemma ArgsInstruct(sourceType: string, sourceID: string, o: MountOptions, tokenInPod: string)
    requires Supported(sourceType)
    ensures AllInstruct([WroteArgs(Args(sourceType, sourceID, "/tmp", SidecarOptions(o, tokenInPod)))], sourceType,
                        sourceID, o, tokenInPod)
  {
    ArgsReadBack(sourceType, sourceID, "/tmp", SidecarOptions(o, tokenInPod));
  }

  /** The descriptor is opened, then the mount made, then the instructions written, then the mount exempted. */
  ghost predicate InOrder(es: Log, fd: Fd, target: Path, minor: Option<int>) {
    && |es| == (if minor.Some? then 4 else 3)
    && es[0] == Opened(fd) && es[1] == MountedAt(target) && es[2].WroteArgs?
    && (minor.Some? ==> es[3] == Marked(minor.value))
  }

  /** The deferred steps, last in, first out. */
  function Tail(h: Handoff, connected: bool, ok: bool): Log {
    (if connected then [ConnClosed] else []) + (if ok then [] else [ErrorRecorded]) + [SymlinkRemoved, ListenerClosed]
    + if h.minor.Some? then [Cleared(h.minor.value)] else []
  }

  /** The symlink and the listener are gone, and the connection if there was one. */
  ghost predicate TidiedUp(es: Log, connected: bool) {
    SymlinkRemoved in es && ListenerClosed in es && (ConnClosed in es <==> connected)
  }

  lemma CountErrors(es: Log, h: Handoff, connected: bool, ok: bool)
    requires ErrorRecorded !in es
    ensures Count(es + Tail(h, connected, ok), ErrorRecorded) == if ok then 0 else 1
  {
    var a: Log, b: Log := if connected then [ConnClosed] else [], if ok then [] else [ErrorRecorded];
    var c: Log, d: Log := [SymlinkRemoved, ListenerClosed], if h.minor.Some? then [Cleared(h.minor.value)] else [];
    NoErrorBefore(es, a + b + c + d);
    CountConcat(a + b + c, d, ErrorRecorded);
    CountConcat(a + b, c, ErrorRecorded);
    NoErrorBefore(a, b);
    CountIn(c, ErrorRecorded);
    CountIn(d, ErrorRecorded);
    CountOne(ErrorRecorded, ErrorRecorded);
  }

  lemma NoErrorBefore(a: Log, b: Log)
    requires ErrorRecorded !in a
    ensures Count(a + b, ErrorRecorded) == Count(b, ErrorRecorded)
  {
    CountConcat(a, b, ErrorRecorded);
    CountIn(a, ErrorRecorded);
  }

  class Plugin {
    var log: Log
    var next: Fd
    var pending: set<int>

    constructor ()
      ensures log == [] && pending == {}
    {
      log, next, pending := [], 0, {};
    }

    method OpenFd() returns (fd: Fd)
      modifies this`log, this`next
      ensures fd == old(next) && next == fd + 1 && log == old(log) + [Opened(fd)]
    {
      fd := next;
      next, log := next + 1, log + [Opened(fd)];
    }

    method CloseFd(fd: Fd)
      modifies this`log
      ensures log == old(log) + [Closed(fd)]
    {
      log := log + [Closed(fd)];
    }

    method Note(e: Event)
      requires !e.Opened? && !e.Closed?
      modifies this`log
      ensures log == old(log) + [e]
    {
      log := log + [e];
    }

    /** A second descriptor of src's connection; one that cannot be bound to it is closed again. */
    method CloneFuseFd(src: Fd, result: CloneResult) returns (dst: Option<Fd>, ghost es: Log)
      modifies this`log, this`next
      ensures log == old(log) + es && next >= old(next)
      ensures dst.Some? <==> result.CloneOk?
      ensures Holding(es, if dst.Some? then [dst.value] else [], old(next), next)
    {
      if result.CloneOpenFails? {
        NothingHeld(next, next);
        assert log == old(log) + [];
        return None, [];
      }
      var fd := OpenFd();
      if result.CloneIoctlFails? {
        CloseFd(fd);
        OneReturned(fd, next);
        assert log == old(log) + [Opened(fd), Closed(fd)];
        return None, [Opened(fd), Closed(fd)];
      }
      OneHeld(fd, next);
      return Some(fd), [Opened(fd)];
    }

    /** The primary and up to n - 1 clones, fewer if a clone fails. */
    method CloneAll(fd: Fd, n: nat, clones: nat -> CloneResult) returns (fds: seq<Fd>, ghost es: Log)
      requires n >= 1
      modifies this`log, this`next
      ensures log == old(log) + es && next >= old(next)
      ensures 1 <= |fds| <= n && fds[0] == fd
      ensures Holding(es, fds[1..], old(next), next)
      ensures (|fds| == n || !clones(|fds|).CloneOk?) && forall i :: 1 <= i < |fds| ==> clones(i).CloneOk?
    {
      fds, es := [fd], [];
      NothingHeld(next, next);
      assert fds[1..] == [];
      for i := 1 to n
        invariant log == old(log) + es && next >= old(next)
        invariant |fds| == i && fds[0] == fd
        invariant Holding(es, fds[1..], old(next), next)
        invariant forall k :: 1 <= k < i ==> clones(k).CloneOk?
      {
        ghost var before, mid := es, next;
        var cloned, one := CloneFuseFd(fd, clones(i));
        es := es + one;
        HoldingConcat(before, fds[1..], one, if cloned.Some? then [cloned.value] else [], old(next), mid, next);
        if cloned.None? {
          assert fds[1..] + [] == fds[1..];
          break;
        }
        assert (fds + [cloned.value])[1..] == fds[1..] + [cloned.value];
        fds := fds + [cloned.value];
      }
    }

    method CloseAll(fds: seq<Fd>)
      modifies this`log
      ensures log == old(log) + ClosesOf(fds)
    {
      for i := 0 to |fds|
        invariant log == old(log) + ClosesOf(fds[..i])
      {
        assert ClosesOf(fds[..i + 1]) == ClosesOf(fds[..i]) + [Closed(fds[i])];
        CloseFd(fds[i]);
      }
      assert fds[..|fds|] == fds;
    }

    /** The descriptor's way to the sidecar, before the deferred steps. */
    method PassFds(h: Handoff, env: string, peer: Peer) returns (ok: bool, ghost es: Log)
      requires h.fd < next
      modifies this`log, this`next
      ensures log == old(log) + es && next >= old(next)
      ensures Balanced(es, {h.fd}, old(next))
      ensures ok <==> peer.connects && peer.sends
      ensures ok <==> exists e :: e in es && e.Sent?
      ensures AllSentRight(es, h, env, peer)
      ensures forall e :: e in es ==> e.Opened? || e.Closed? || e.Sent? || e.SendFailed?
    {
      if !peer.connects {
        CloseFd(h.fd);
        CloseBalanced(h.fd, old(next));
        return false, [Closed(h.fd)];
      }
      var n := SidecarFuseFdCount(env, h.fdAttr);
      var fds, made := CloneAll(h.fd, n, peer.clones);
      var message := if peer.sends then Sent(fds) else SendFailed;
      Note(message);
      CloseAll(fds);
      PassBalanced(made, fds, message, h.fd, old(next), next);
      PassSentRight(made, fds, message, h, env, peer, old(next), next);
      return peer.sends, made + [message] + ClosesOf(fds);
    }

    /** The deferred steps of the goroutine. */
    method Finish(h: Handoff, connected: bool, ok: bool)
      modifies this`log, this`pending
      ensures log == old(log) + Tail(h, connected, ok)
      ensures pending == if h.minor.Some? then old(pending) - {h.minor.value} else old(pending)
    {
      if connected {
        Note(ConnClosed);
      }
      if !ok {
        Note(ErrorRecorded);
      }
      Note(SymlinkRemoved);
      Note(ListenerClosed);
      if h.minor.Some? {
        pending := pending - {h.minor.value};
        Note(Cleared(h.minor.value));
      }
    }

    /**
     The handoff goroutine. It closes the primary and every clone once, sends at
     most one message, records an error exactly if it sent none, and withdraws
     its exemption as its very last act.
     */
    method HandOff(h: Handoff, env: string, peer: Peer) returns (ok: bool, ghost ran: Log)
      requires h.fd < next
      modifies this
      ensures log == old(log) + ran && next >= old(next)
      ensures Balanced(ran, {h.fd}, old(next))
      ensures ok <==> peer.connects && peer.sends
      ensures ok <==> exists e :: e in ran && e.Sent?
      ensures AllSentRight(ran, h, env, peer)
      ensures Count(ran, ErrorRecorded) == if ok then 0 else 1
      ensures pending == if h.minor.Some? then old(pending) - {h.minor.value} else old(pending)
      ensures h.minor.Some? ==> ran != [] && ran[|ran| - 1] == Cleared(h.minor.value)
      ensures TidiedUp(ran, peer.connects)
    {
      ghost var es;
      ok, es := PassFds(h, env, peer);
      Finish(h, peer.connects, ok);
      ran := es + Tail(h, peer.connects, ok);
      assert log == old(log) + ran;
      TailBalanced(es, Tail(h, peer.connects, ok), {h.fd}, old(next));
      TailSentRight(es, Tail(h, peer.connects, ok), h, env, peer);
      CountErrors(es, h, peer.connects, ok);
    }

    /** Control files, symlink and socket; `written` is what was logged before a failure. */
    method Prepare(sourceType: string, sourceID: string, o: MountOptions, tokenInPod: string, fault: Option<Stage>)
        returns (ok: bool, ghost written: Log)
      modifies this`log
      ensures log == old(log) + written
      ensures written == [] || (Supported(sourceType)
              && written == [WroteArgs(Args(sourceType, sourceID, "/tmp", SidecarOptions(o, tokenInPod)))])
      ensures ok ==> written != []
      ensures ok <==> Supported(sourceType) && !(fault.Some? && Spoils(fault.value, o))
    {
      if fault == Some(VolumeDir) || fault == Some(ClearStatus) || (fault == Some(WriteToken) && o.tokenFile != "") {
        return false, [];
      }
      var args := BuildArgs(sourceType, sourceID, "/tmp", SidecarOptions(o, tokenInPod));
      if args.None? || fault == Some(WriteArgs) {
        return false, [];
      }
      Note(WroteArgs(args.value));
      written := [WroteArgs(args.value)];
      ok := fault != Some(SymlinkBase) && fault != Some(Symlink) && fault != Some(Listen);
    }

    /**
     Kernel mount and control files. An error leaves no descriptor open, no
     exemption and no mount that was not tried to be unmounted; success leaves
     the descriptor to the handoff and, if the mount's minor was found, exempts it.
     */
    method SidecarMount(sourceType: string, sourceID: string, target: Path, o: MountOptions, tokenInPod: string,
                        fdAttr: string, fault: Option<Stage>, minor: Option<int>)
      returns (h: Option<Handoff>, ghost ran: Log)
      modifies this
      ensures log == old(log) + ran && next >= old(next)
      ensures h.Some? <==>
              Supported(sourceType)
              && !(fault.Some? && (fault.value != WriteToken || o.tokenFile != ""))
      ensures ErrorRecorded !in ran
      ensures h.None? ==>
              Balanced(ran, {}, old(next)) && pending == old(pending)
              && (MountedAt(target) in ran <==> UnmountTried(target) in ran)
      ensures h.Some? ==> h.value == Handoff(old(next), minor, fdAttr) && h.value.fd < next
                          && ran == [Opened(h.value.fd)] + Begun(sourceType, sourceID, target, o, tokenInPod, minor)
                          && pending == old(pending) + (if minor.Some? then {minor.value} else {})
    {
      if fault == Some(Tmpfs) || fault == Some(OpenFuse) {
        assert log == old(log) + [];
        return None, [];
      }
      var fd := OpenFd();
      if fault == Some(KernelMount) {
        CloseFd(fd);
        OpenClose(fd, []);
        return None, [Opened(fd)] + [] + [Closed(fd)];
      }
      var ok, es := AfterOpen(fd, sourceType, sourceID, target, o, tokenInPod, fault, minor);
      ran := [Opened(fd)] + es;
      assert log == old(log) + ran;
      if !ok {
        ghost var mid := es[..|es| - 1];
        assert ran == [Opened(fd)] + mid + [Closed(fd)];
        OpenClose(fd, mid);
        return None, ran;
      }
      return Some(Handoff(fd, minor, fdAttr)), ran;
    }

    /** The kernel mount and what follows; a failure undoes it and gives up the descriptor. */
    method AfterOpen(fd: Fd, sourceType: string, sourceID: string, target: Path, o: MountOptions, tokenInPod: string,
                     fault: Option<Stage>, minor: Option<int>) returns (ok: bool, ghost es: Log)
      modifies this`log, this`pending
      ensures log == old(log) + es
      ensures ok <==> Supported(sourceType) && !(fault.Some? && Spoils(fault.value, o))
      ensures ok ==> es == Begun(sourceType, sourceID, target, o, tokenInPod, minor)
      ensures ok ==> pending == old(pending) + if minor.Some? then {minor.value} else {}
      ensures !ok ==> pending == old(pending) && GivesUp(es, fd, target)
    {
      Note(MountedAt(target));
      ghost var written;
      ok, written := Prepare(sourceType, sourceID, o, tokenInPod, fault);
      if ok {
        es := Begun(sourceType, sourceID, target, o, tokenInPod, minor);
        Exempt(minor);
      } else {
        es := Abandoned(fd, target, written);
        AbandonedLog(fd, target, written);
        Undo(fd, target);
      }
    }

    method Exempt(minor: Option<int>)
      modifies this`log, this`pending
      ensures log == old(log) + if minor.Some? then [Marked(minor.value)] else []
      ensures pending == old(pending) + if minor.Some? then {minor.value} else {}
    {
      if minor.Some? {
        pending := pending + {minor.value};
        Note(Marked(minor.value));
      }
    }

    method Undo(fd: Fd, target: Path)
      modifies this`log
      ensures log == old(log) + [UnmountTried(target), Closed(fd)]
    {
      Note(UnmountTried(target));
      CloseFd(fd);
    }

    /**
     The two together: whatever fails on either side, every descriptor the plugin opened
     is closed exactly once and its exemption is withdrawn.
     */
    method PublishAndHandOff(sourceType: string, sourceID: string, target: Path, o: MountOptions, tokenInPod: string,
                             fdAttr: string, fault: Option<Stage>, minor: Option<int>, env: string, peer: Peer)
      returns (mounted: bool, ghost ran: Log)
      requires minor.Some? ==> minor.value !in pending
      modifies this
      ensures log == old(log) + ran
      ensures Balanced(ran, {}, old(next))
      ensures pending == old(pending)
      ensures Count(ran, ErrorRecorded) == if mounted && !(peer.connects && peer.sends) then 1 else 0
    {
      var h, setup := SidecarMount(sourceType, sourceID, target, o, tokenInPod, fdAttr, fault, minor);
      if h.None? {
        NoErrorBefore(setup, []);
        assert setup + [] == setup;
        return false, setup;
      }
      ghost var mid := next;
      var ok, rest := HandOff(h.value, env, peer);
      ran := setup + rest;
      BothAccounts(h.value.fd, setup, Begun(sourceType, sourceID, target, o, tokenInPod, minor), rest, mid);
      return true, ran;
    }
  }

  lemma BothAccounts(fd: Fd, setup: Log, mid: Log, rest: Log, start: Fd)
    requires setup == [Opened(fd)] + mid && ErrorRecorded !in setup && fd < start
    requires (forall e :: e in mid ==> !e.Opened? && !e.Closed?) && Balanced(rest, {fd}, start)
    ensures Balanced(setup + rest, {}, fd) && Count(setup + rest, ErrorRecorded) == Count(rest, ErrorRecorded)
  {
    SetupThenHandoff(fd, mid, rest, start);
    NoErrorBefore(setup, rest);
  }

  /** The faults that spoil the preparation; without a token there is none to write. */
  predicate Spoils(fault: Stage, o: MountOptions) {
    fault in {VolumeDir, ClearStatus, WriteArgs, SymlinkBase, Symlink, Listen}
        || (fault.WriteToken? && o.tokenFile != "")
  }

  /** What a setup that fails after the kernel mount logs from the mount on. */
  function Abandoned(fd: Fd, target: Path, written: Log): Log {
    [MountedAt(target)] + written + [UnmountTried(target), Closed(fd)]
  }

  /** The mount is undone and the descriptor closed, in the end and once. */
  ghost predicate GivesUp(es: Log, fd: Fd, target: Path) {
    && es != [] && es[|es| - 1] == Closed(fd) && Neutral(es[..|es| - 1])
    && MountedAt(target) in es && UnmountTried(target) in es && ErrorRecorded !in es
  }

  lemma AbandonedLog(fd: Fd, target: Path, written: Log)
    requires written == [] || (|written| == 1 && written[0].WroteArgs?)
    ensures GivesUp(Abandoned(fd, target, written), fd, target)
  {
  }

  /** What a successful setup logs after opening the descriptor. */
  function Begun(sourceType: string, sourceID: string, target: Path, o: MountOptions, tokenInPod: string,
                 minor: Option<int>): Log {
    [MountedAt(target), WroteArgs(Args(sourceType, sourceID, "/tmp", SidecarOptions(o, tokenInPod)))]
    + if minor.Some? then [Marked(minor.value)] else []
  }

  /** A successful setup opens, mounts, writes instructions the sidecar reads as what was asked for, then exempts. */
  lemma SetupLog(fd: Fd, sourceType: string, sourceID: string, target: Path, o: MountOptions, tokenInPod: string,
                 minor: Option<int>)
    requires Supported(sourceType)
    ensures var es := [Opened(fd)] + Begun(sourceType, sourceID, target, o, tokenInPod, minor);
            InOrder(es, fd, target, minor) && AllInstruct(es, sourceType, sourceID, o, tokenInPod)
  {
    ArgsInstruct(sourceType, sourceID, o, tokenInPod);
    var args := Args(sourceType, sourceID, "/tmp", SidecarOptions(o, tokenInPod));
    assert WroteArgs(args) in [WroteArgs(args)];
  }

  // ----- The sweeper's exemptions, over any interleaving of handoffs

  /** The exempted minors after a log. */
  function PendingAfter(log: Log): set<int> {
    if log == [] then {}
    else
      var before, e := PendingAfter(log[..|log| - 1]), log[|log| - 1];
      if e.Marked? then before + {e.minor} else if e.Cleared? then before - {e.minor} else before
  }

  /** Handoffs of minor m that have been started and not finished. */
  function InFlight(log: Log, m: int): int {
    Count(log, Marked(m)) as int - Count(log, Cleared(m)) as int
  }

  /** At every moment, m is exempt exactly if some handoff of m is in flight. */
  ghost predicate AlwaysRight(log: Log, m: int) {
    forall n :: 0 <= n <= |log| ==> (m in PendingAfter(log[..n]) <==> InFlight(log[..n], m) >= 1)
  }

  /** Whenever a handoff of m finishes, no other one of m is in flight. */
  ghost predicate FinishesAlone(log: Log, m: int) {
    forall n :: 0 <= n < |log| && log[n] == Cleared(m) ==> InFlight(log[..n], m) == 1
  }

  /** Every handoff clears its own mark, so no more are cleared than marked. */
  ghost predicate OwnMarks(log: Log, m: int) {
    forall n :: 0 <= n <= |log| ==> InFlight(log[..n], m) >= 0
  }

  lemma InFlightStep(log: Log, n: nat, m: int)
    requires n < |log|
    ensures InFlight(log[..n + 1], m) == InFlight(log[..n], m)
              + (if log[n] == Marked(m) then 1 else 0) - if log[n] == Cleared(m) then 1 else 0
    ensures m in PendingAfter(log[..n + 1]) <==>
              log[n] == Marked(m) || (m in PendingAfter(log[..n]) && log[n] != Cleared(m))
  {
    assert log[..n + 1][..n] == log[..n];
  }

  lemma {:induction false} RightUpTo(log: Log, m: int, n: nat)
    requires n <= |log| && OwnMarks(log, m) && FinishesAlone(log, m)
    ensures m in PendingAfter(log[..n]) <==> InFlight(log[..n], m) >= 1
  {
    if n > 0 {
      RightUpTo(log, m, n - 1);
      InFlightStep(log, n - 1, m);
      assert InFlight(log[..n], m) >= 0 && InFlight(log[..n - 1], m) >= 0;
    }
  }

  /**
   However handoffs interleave: the exemption of a minor is right at every
   moment if and only if every handoff of it that finishes is then the only one
   in flight. Two that overlap and are both still in flight do no harm.
   */
  lemma ExemptWhileInFlight(log: Log, m: int)
    requires OwnMarks(log, m)
    ensures AlwaysRight(log, m) <==> FinishesAlone(log, m)
  {
    if FinishesAlone(log, m) {
      forall n | 0 <= n <= |log| ensures m in PendingAfter(log[..n]) <==> InFlight(log[..n], m) >= 1 {
        RightUpTo(log, m, n);
      }
    }
    if AlwaysRight(log, m) {
      forall n | 0 <= n < |log| && log[n] == Cleared(m) ensures InFlight(log[..n], m) == 1 {
        InFlightStep(log, n, m);
        assert InFlight(log[..n + 1], m) >= 0;
        assert m in PendingAfter(log[..n + 1]) <==> InFlight(log[..n + 1], m) >= 1;
      }
    }
  }

  /** The first of two to finish ends the exemption of the other: the marks are a set, not a count. */
  lemma OverlapLosesExemption(m: int)
    ensures var log := [Marked(m), Marked(m), Cleared(m)]; InFlight(log, m) == 1 && m !in PendingAfter(log)
  {
    var one, two, log := [Marked(m)], [Marked(m), Marked(m)], [Marked(m), Marked(m), Cleared(m)];
    assert one[..0] == [] && two[..1] == one && log[..2] == two;
    assert PendingAfter(one) == {m} && PendingAfter(two) == {m} && PendingAfter(log) == {m} - {m};
    assert Count(one, Marked(m)) == 1 && Count(two, Marked(m)) == 2;
    CountIn(two, Cleared(m));
  }
}
