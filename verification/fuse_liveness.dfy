/** Whether some live process still serves a FUSE mount: matching command lines and cgroups against mount points. */
module FuseLiveness {
  import opened GoStrings
  import opened MountTable
  import opened MountArgs
  import N = NodeMachine

  const CSI_MARKER := "/volumes/kubernetes.io~csi/"
  const PODS_MARKER := "/pods/"
  const CONTAINER_PREFIX := "/mnt/hf/"
  const HF_MOUNT_BINARY := "hf-mount-fuse"
  const NUL: char := 0 as char

  /** A live process that holds /dev/fuse open. */
  datatype Server = Server(cmdline: string, cgroup: string)

  // ----- Strings

  /** Last element of a slash-separated path, trailing slashes dropped. */
  function Base(p: string): string {
    if p == "" then "."
    else if p[|p| - 1] == '/' then (if |p| == 1 then "/" else Base(p[..|p| - 1]))
    else LastElement(p)
  }

  function LastElement(p: string): string {
    if '/' !in p then p else LastElement(p[IndexByte(p, '/') + 1..])
  }

  /** Offset of the first occurrence of `sub`, None if there is none. */
  function Index(s: string, sub: string): Option<nat> {
    if sub <= s then Some(0)
    else if s == "" then None
    else match Index(s[1..], sub)
      case Some(n) => Some(n + 1)
      case None => None
  }

  lemma {:induction false} IndexInRange(s: string, sub: string)
    ensures Index(s, sub).Some? ==> Index(s, sub).value + |sub| <= |s|
  {
    if !(sub <= s) && s != "" {
      IndexInRange(s[1..], sub);
    }
  }

  function ToLower(c: char): char {
    if 'A' <= c <= 'Z' then c - 'A' + 'a' else c
  }

  /** Lower case, without dashes and underscores. */
  function Norm(s: string): string {
    if s == "" then "" else (if s[0] == '-' || s[0] == '_' then "" else [ToLower(s[0])]) + Norm(s[1..])
  }

  // ----- What a mount point and a process say

  function VolumeIDForMount(id: Path -> string, mp: Path): Option<string> {
    if HasPrefix(mp, N.MOUNT_BASE + "/") then Some(Base(mp))
    else if Contains(mp, CSI_MARKER) then Some(id(mp))
    else None
  }

  function PodUIDForMount(mp: Path): Option<string> {
    if !Contains(mp, CSI_MARKER) then None
    else match Index(mp, PODS_MARKER)
      case None => None
      case Some(i) =>
        IndexInRange(mp, PODS_MARKER);
        var rest := mp[i + |PODS_MARKER|..];
        var j := IndexByte(rest, '/');
        if j == |rest| || j == 0 then None else Some(rest[..j])
  }

  predicate CgroupHasPodUID(cgroup: string, uid: string) {
    Norm(uid) != "" && Contains(Norm(cgroup), Norm(uid))
  }

  predicate ServesVolume(srv: Server, volume: string) {
    volume != "" && Contains(srv.cmdline, CONTAINER_PREFIX + volume)
  }

  predicate ServesPod(srv: Server, uid: string) {
    uid != "" && CgroupHasPodUID(srv.cgroup, uid)
  }

  predicate Serves(id: Path -> string, mp: Path, srv: Server) {
    || (VolumeIDForMount(id, mp).Some? && ServesVolume(srv, VolumeIDForMount(id, mp).value))
    || (PodUIDForMount(mp).Some? && ServesPod(srv, PodUIDForMount(mp).value))
  }

  predicate HasLiveDaemon(id: Path -> string, mps: seq<Path>, servers: seq<Server>) {
    exists i, j :: 0 <= i < |mps| && 0 <= j < |servers| && Serves(id, mps[i], servers[j])
  }

  ghost predicate SomeVolume(id: Path -> string, mps: seq<Path>, v: string) {
    exists i :: 0 <= i < |mps| && VolumeIDForMount(id, mps[i]) == Some(v)
  }

  ghost predicate SomePod(mps: seq<Path>, u: string) {
    exists i :: 0 <= i < |mps| && PodUIDForMount(mps[i]) == Some(u)
  }

  method MountHasLiveDaemon(id: Path -> string, mps: seq<Path>, servers: seq<Server>) returns (live: bool)
    ensures live <==> HasLiveDaemon(id, mps, servers)
  {
    var volumeIDs, podUIDs := CollectIDs(id, mps);
    for j := 0 to |servers|
      invariant forall i, k :: 0 <= i < |mps| && 0 <= k < j ==> !Serves(id, mps[i], servers[k])
    {
      var found := MatchesAny(servers[j], volumeIDs, podUIDs);
      if found {
        ServesSome(id, mps, servers[j], volumeIDs, podUIDs);
        return true;
      }
      ServesNone(id, mps, servers[j], volumeIDs, podUIDs);
    }
    return false;
  }

  method CollectIDs(id: Path -> string, mps: seq<Path>) returns (volumeIDs: seq<string>, podUIDs: seq<string>)
    ensures forall v :: v in volumeIDs <==> SomeVolume(id, mps, v)
    ensures forall u :: u in podUIDs <==> SomePod(mps, u)
  {
    volumeIDs, podUIDs := [], [];
    for i := 0 to |mps|
      invariant forall v :: v in volumeIDs <==> SomeVolume(id, mps[..i], v)
      invariant forall u :: u in podUIDs <==> SomePod(mps[..i], u)
    {
      var v, u := VolumeIDForMount(id, mps[i]), PodUIDForMount(mps[i]);
      ExtendSome(id, mps, i);
      if v.Some? {
        volumeIDs := volumeIDs + [v.value];
      }
      if u.Some? {
        podUIDs := podUIDs + [u.value];
      }
    }
    assert mps[..|mps|] == mps;
  }

  predicate Matches(srv: Server, volumeIDs: seq<string>, podUIDs: seq<string>) {
    || (exists v :: v in volumeIDs && ServesVolume(srv, v))
    || (exists u :: u in podUIDs && ServesPod(srv, u))
  }

  method MatchesAny(srv: Server, volumeIDs: seq<string>, podUIDs: seq<string>) returns (found: bool)
    ensures found <==> Matches(srv, volumeIDs, podUIDs)
  {
    found := MatchesVolume(srv, volumeIDs);
    if !found {
      found := MatchesPod(srv, podUIDs);
    }
  }

  method MatchesVolume(srv: Server, volumeIDs: seq<string>) returns (found: bool)
    ensures found <==> exists v :: v in volumeIDs && ServesVolume(srv, v)
  {
    for k := 0 to |volumeIDs|
      invariant forall l :: 0 <= l < k ==> !ServesVolume(srv, volumeIDs[l])
    {
      if volumeIDs[k] != "" && Contains(srv.cmdline, CONTAINER_PREFIX + volumeIDs[k]) {
        assert ServesVolume(srv, volumeIDs[k]);
        return true;
      }
    }
    return false;
  }

  method MatchesPod(srv: Server, podUIDs: seq<string>) returns (found: bool)
    ensures found <==> exists u :: u in podUIDs && ServesPod(srv, u)
  {
    for k := 0 to |podUIDs|
      invariant forall l :: 0 <= l < k ==> !ServesPod(srv, podUIDs[l])
    {
      if podUIDs[k] != "" && CgroupHasPodUID(srv.cgroup, podUIDs[k]) {
        assert ServesPod(srv, podUIDs[k]);
        return true;
      }
    }
    return false;
  }

  ghost predicate Collected(id: Path -> string, mps: seq<Path>, volumeIDs: seq<string>, podUIDs: seq<string>) {
    && (forall v :: v in volumeIDs <==> SomeVolume(id, mps, v))
    && (forall u :: u in podUIDs <==> SomePod(mps, u))
  }

  lemma ServesSome(id: Path -> string, mps: seq<Path>, srv: Server, volumeIDs: seq<string>, podUIDs: seq<string>)
    requires Collected(id, mps, volumeIDs, podUIDs) && Matches(srv, volumeIDs, podUIDs)
    ensures exists i :: 0 <= i < |mps| && Serves(id, mps[i], srv)
  {
  }

  lemma ServesNone(id: Path -> string, mps: seq<Path>, srv: Server, volumeIDs: seq<string>, podUIDs: seq<string>)
    requires Collected(id, mps, volumeIDs, podUIDs) && !Matches(srv, volumeIDs, podUIDs)
    ensures forall i :: 0 <= i < |mps| ==> !Serves(id, mps[i], srv)
  {
  }

  lemma ExtendSome(id: Path -> string, mps: seq<Path>, i: nat)
    requires i < |mps|
    ensures forall v :: SomeVolume(id, mps[..i + 1], v) <==>
              SomeVolume(id, mps[..i], v) || VolumeIDForMount(id, mps[i]) == Some(v)
    ensures forall u :: SomePod(mps[..i + 1], u) <==> SomePod(mps[..i], u) || PodUIDForMount(mps[i]) == Some(u)
  {
    assert mps[..i + 1] == mps[..i] + [mps[i]];
    assert mps[..i + 1][i] == mps[i];
    forall k | 0 <= k < i ensures mps[..i + 1][k] == mps[..i][k] {
    }
  }

  /** More servers or more mount points never make a live mount look dead. */
  lemma LivenessIsMonotone(id: Path -> string, mps: seq<Path>, servers: seq<Server>, mps': seq<Path>,
                           servers': seq<Server>)
    requires HasLiveDaemon(id, mps, servers)
    requires (forall m :: m in mps ==> m in mps') && forall s :: s in servers ==> s in servers'
    ensures HasLiveDaemon(id, mps', servers')
  {
    var i, j :| 0 <= i < |mps| && 0 <= j < |servers| && Serves(id, mps[i], servers[j]);
    assert mps[i] in mps' && servers[j] in servers';
    var i' :| 0 <= i' < |mps'| && mps'[i'] == mps[i];
    var j' :| 0 <= j' < |servers'| && servers'[j'] == servers[j];
    assert Serves(id, mps'[i'], servers'[j']);
  }

  // ----- The command line of a mount pod's daemon

  /** /proc/<pid>/cmdline: every argument followed by a NUL. */
  function ProcCmdline(argv: seq<string>): string {
    if argv == [] then "" else argv[0] + [NUL] + ProcCmdline(argv[1..])
  }

  function TrimNul(s: string): string {
    if s == "" then ""
    else if s[0] == NUL then TrimNul(s[1..])
    else if s[|s| - 1] == NUL then TrimNul(s[..|s| - 1])
    else s
  }

  function NulToSpace(s: string): string {
    if s == "" then "" else [if s[0] == NUL then ' ' else s[0]] + NulToSpace(s[1..])
  }

  function CmdlineToString(bytes: string): string {
    NulToSpace(TrimNul(bytes))
  }

  lemma {:induction false} NulToSpaceConcat(a: string, b: string)
    ensures NulToSpace(a + b) == NulToSpace(a) + NulToSpace(b)
  {
    if a == "" {
      assert a + b == b;
    } else {
      assert (a + b)[1..] == a[1..] + b;
      NulToSpaceConcat(a[1..], b);
    }
  }

  lemma {:induction false} NulToSpacePlain(s: string)
    requires NUL !in s
    ensures NulToSpace(s) == s
  {
    if s != "" {
      NulToSpacePlain(s[1..]);
    }
  }

  lemma {:induction false} TrimNulKeeps(before: string, word: string, after: string)
    requires before != "" && before[0] != NUL && word != "" && NUL !in word
    ensures exists rest :: TrimNul(before + word + after) == before + word + rest
    decreases |after|
  {
    var s := before + word + after;
    assert s[0] == before[0];
    if after == "" {
      assert s[|s| - 1] == word[|word| - 1] && word[|word| - 1] in word;
      assert TrimNul(s) == before + word + "";
    } else if after[|after| - 1] == NUL {
      var front := after[..|after| - 1];
      assert s[..|s| - 1] == before + word + front;
      TrimNulKeeps(before, word, front);
    } else {
      assert s[|s| - 1] == after[|after| - 1];
    }
  }

  lemma {:induction false} ProcCmdlineSplit(argv: seq<string>, k: nat)
    requires 0 < k < |argv| && argv[0] != ""
    ensures exists before, after ::
            before != "" && before[0] == argv[0][0]
            && ProcCmdline(argv) == before + argv[k] + after
  {
    var head, tail := argv[0] + [NUL], argv[1..];
    if k == 1 {
      assert ProcCmdline(tail) == tail[0] + [NUL] + ProcCmdline(tail[1..]);
      var after := [NUL] + ProcCmdline(tail[1..]);
      assert ProcCmdline(argv) == head + argv[k] + after;
    } else {
      SplitAt(tail, k - 1);
      var before, after :| ProcCmdline(tail) == before + tail[k - 1] + after;
      assert ProcCmdline(argv) == (head + before) + argv[k] + after;
      assert (head + before)[0] == argv[0][0];
    }
  }

  lemma {:induction false} SplitAt(argv: seq<string>, k: nat)
    requires k < |argv|
    ensures exists before, after :: ProcCmdline(argv) == before + argv[k] + after
  {
    if k == 0 {
      assert ProcCmdline(argv) == "" + argv[0] + ([NUL] + ProcCmdline(argv[1..]));
    } else {
      SplitAt(argv[1..], k - 1);
      var before, after :| ProcCmdline(argv[1..]) == before + argv[1..][k - 1] + after;
      assert ProcCmdline(argv) == (argv[0] + [NUL] + before) + argv[k] + after;
    }
  }

  /** An argument of a process shows up in its rendered command line. */
  lemma ArgumentShows(argv: seq<string>, k: nat)
    requires 0 < k < |argv| && argv[0] != "" && argv[0][0] != NUL && argv[k] != "" && NUL !in argv[k]
    ensures Contains(CmdlineToString(ProcCmdline(argv)), argv[k])
  {
    ProcCmdlineSplit(argv, k);
    var before, after :| before != "" && before[0] == argv[0][0] && ProcCmdline(argv) == before + argv[k] + after;
    TrimNulKeeps(before, argv[k], after);
    var rest :| TrimNul(before + argv[k] + after) == before + argv[k] + rest;
    NulToSpaceConcat(before + argv[k], rest);
    NulToSpaceConcat(before, argv[k]);
    NulToSpacePlain(argv[k]);
    ContainsMiddle(NulToSpace(before), argv[k], NulToSpace(rest));
  }

  /** What mountID yields: a non-empty name without slashes or NULs. */
  predicate IsVolumeName(name: string) {
    name != "" && '/' !in name && NUL !in name
  }

  lemma {:induction false} IndexAtMost(s: string, c: char, k: nat)
    requires k < |s| && s[k] == c
    ensures IndexByte(s, c) <= k
  {
  }

  lemma {:induction false} LastElementOf(dir: string, name: string)
    requires '/' !in name
    ensures LastElement(dir + "/" + name) == name
    decreases |dir|
  {
    var p := dir + "/" + name;
    assert p[|dir|] == '/';
    var n := IndexByte(p, '/');
    IndexAtMost(p, '/', |dir|);
    if n == |dir| {
      assert p[n + 1..] == name;
    } else {
      assert p[n + 1..] == dir[n + 1..] + "/" + name;
      LastElementOf(dir[n + 1..], name);
    }
  }

  lemma VolumeOfSource(id: Path -> string, target: Path)
    requires IsVolumeName(id(target))
    ensures VolumeIDForMount(id, N.Source(id, target)) == Some(id(target))
  {
    var p := N.Source(id, target);
    N.SourceIsSource(id, target);
    LastElementOf(N.MOUNT_BASE, id(target));
    assert p[|p| - 1] == id(target)[|id(target)| - 1];
  }

  /**
   A running mount pod is never judged dead: the process that Mount starts for
   a target, whatever its options, serves every mount list that contains the
   volume's source mount or its kubelet CSI target (spelled without escapes).
   */
  lemma DaemonIsSeenAlive(id: Path -> string, target: Path, sourceType: string, sourceID: string, o: MountOptions,
                          cgroup: string, mps: seq<Path>, servers: seq<Server>)
    requires IsVolumeName(id(target)) && Supported(sourceType)
    requires N.Source(id, target) in mps || (target in mps && N.IsTarget(target) && Contains(target, CSI_MARKER))
    requires Server(CmdlineToString(ProcCmdline([HF_MOUNT_BINARY]
               + Args(sourceType, sourceID, CONTAINER_PREFIX + id(target), o))), cgroup) in servers
    ensures HasLiveDaemon(id, mps, servers)
  {
    var word := CONTAINER_PREFIX + id(target);
    var args := Args(sourceType, sourceID, word, o);
    var argv := [HF_MOUNT_BINARY] + args;
    var srv := Server(CmdlineToString(ProcCmdline(argv)), cgroup);
    var k := |OptionArgs(o) + (if o.readOnly then ["--read-only"] else []) + Flag("--token-file", o.tokenFile)
        + o.extraArgs| + 2;
    assert args[k] == word && argv[k + 1] == word;
    ArgumentShows(argv, k + 1);
    VolumeOfSource(id, target);
    var mp := if N.Source(id, target) in mps then N.Source(id, target) else target;
    assert Serves(id, mp, srv);
    var i :| 0 <= i < |mps| && mps[i] == mp;
    var j :| 0 <= j < |servers| && servers[j] == srv;
    assert Serves(id, mps[i], servers[j]);
  }

  // ----- The cgroup of a sidecar's daemon

  const KUBELET_DIR := "/var/lib/kubelet"

  function PublishTarget(uid: string, volume: string): Path {
    KUBELET_DIR + PODS_MARKER + uid + CSI_MARKER + volume + "/mount"
  }

  /** The same character, or the other separator, or the other case. */
  predicate Alike(a: char, b: char) {
    || a == b || (a in {'-', '_'} && b in {'-', '_'})
    || ('A' <= a <= 'Z' && b as int == a as int + 32) || ('A' <= b <= 'Z' && a as int == b as int + 32)
  }

  /** A pod UID as a cgroup driver may write it: the systemd one turns dashes into underscores. */
  ghost predicate Spells(written: string, uid: string) {
    |written| == |uid| && forall i :: 0 <= i < |uid| ==> Alike(written[i], uid[i])
  }

  lemma {:induction false} NormConcat(a: string, b: string)
    ensures Norm(a + b) == Norm(a) + Norm(b)
  {
    if a == "" {
      assert a + b == b;
    } else {
      assert (a + b)[1..] == a[1..] + b;
      NormConcat(a[1..], b);
    }
  }

  lemma {:induction false} NormOfSpelling(written: string, uid: string)
    requires Spells(written, uid)
    ensures Norm(written) == Norm(uid)
  {
    if uid != "" {
      assert Alike(written[0], uid[0]);
      NormOfSpelling(written[1..], uid[1..]);
    }
  }

  lemma {:induction false} NormNotEmpty(uid: string)
    requires exists c :: c in uid && c !in {'-', '_'}
    ensures Norm(uid) != ""
  {
    if uid[0] in {'-', '_'} {
      var c :| c in uid && c !in {'-', '_'};
      assert c in uid[1..];
      NormNotEmpty(uid[1..]);
    }
  }

  lemma {:induction false} IndexIs(s: string, sub: string, n: nat)
    requires n <= |s| && sub <= s[n..] && forall i :: 0 <= i < n ==> !(sub <= s[i..])
    ensures Index(s, sub) == Some(n)
  {
    if n == 0 {
      assert s[0..] == s;
    } else {
      assert s[0..] == s;
      forall i | 0 <= i < n - 1 ensures !(sub <= s[1..][i..]) {
        assert s[1..][i..] == s[i + 1..];
      }
      assert s[1..][n - 1..] == s[n..];
      IndexIs(s[1..], sub, n - 1);
    }
  }

  lemma PodsMarkerAt(s: string, i: nat)
    requires i <= |s|
    ensures PODS_MARKER <= s[i..] ==> i + 1 < |s| && s[i] == '/' && s[i + 1] == 'p'
  {
    assert |PODS_MARKER| == 6 && PODS_MARKER[0] == '/' && PODS_MARKER[1] == 'p';
    assert PODS_MARKER <= s[i..] ==> s[i..][0] == PODS_MARKER[0] && s[i..][1] == PODS_MARKER[1];
  }

  lemma NoPodsInKubeletDir(rest: string, i: nat)
    requires i < |KUBELET_DIR|
    ensures !(PODS_MARKER <= (KUBELET_DIR + rest)[i..])
  {
    PodsMarkerAt(KUBELET_DIR + rest, i);
    assert KUBELET_DIR[|KUBELET_DIR| - 1] == 't';
    assert i + 1 < |KUBELET_DIR| ==> !(KUBELET_DIR[i] == '/' && KUBELET_DIR[i + 1] == 'p');
  }

  lemma PodUIDBehind(mp: Path, n: nat, uid: string, tail: string)
    requires n <= |mp| && mp[n..] == PODS_MARKER + (uid + tail) && uid != "" && '/' !in uid && tail != ""
             && tail[0] == '/'
    requires Contains(mp, CSI_MARKER) && forall i :: 0 <= i < n ==> !(PODS_MARKER <= mp[i..])
    ensures PodUIDForMount(mp) == Some(uid)
  {
    IndexIs(mp, PODS_MARKER, n);
    assert mp[n + |PODS_MARKER|..] == mp[n..][|PODS_MARKER|..] == uid + tail;
    assert uid + tail == uid + ['/'] + tail[1..];
    IndexByteFirst(uid, '/', tail[1..]);
  }

  lemma PodOfTarget(uid: string, volume: string)
    requires uid != "" && '/' !in uid
    ensures PodUIDForMount(PublishTarget(uid, volume)) == Some(uid)
  {
    var tail := CSI_MARKER + (volume + "/mount");
    var mp, rest := PublishTarget(uid, volume), PODS_MARKER + (uid + tail);
    TargetParts(uid, volume);
    ContainsMiddle(KUBELET_DIR + PODS_MARKER + uid, CSI_MARKER, volume + "/mount");
    forall i | 0 <= i < |KUBELET_DIR| ensures !(PODS_MARKER <= mp[i..]) {
      NoPodsInKubeletDir(rest, i);
    }
    assert mp[|KUBELET_DIR|..] == rest;
    PodUIDBehind(mp, |KUBELET_DIR|, uid, tail);
  }

  lemma TargetParts(uid: string, volume: string)
    ensures PublishTarget(uid, volume) == KUBELET_DIR + (PODS_MARKER + (uid + (CSI_MARKER + (volume + "/mount"))))
    ensures PublishTarget(uid, volume) == (KUBELET_DIR + PODS_MARKER + uid) + CSI_MARKER + (volume + "/mount")
  {
  }

  /**
   A sidecar's daemon is never judged dead either: whichever way the cgroup
   driver spells the pod's UID, a process in that pod serves every mount list
   with a target of the pod.
   */
  lemma SidecarIsSeenAlive(id: Path -> string, uid: string, volume: string, srv: Server, before: string,
                           written: string, after: string, mps: seq<Path>, servers: seq<Server>)
    requires '/' !in uid && exists c :: c in uid && c !in {'-', '_'}
    requires srv.cgroup == before + written + after && Spells(written, uid)
    requires PublishTarget(uid, volume) in mps && srv in servers
    ensures HasLiveDaemon(id, mps, servers)
  {
    PodOfTarget(uid, volume);
    NormOfSpelling(written, uid);
    NormNotEmpty(uid);
    NormConcat(before + written, after);
    NormConcat(before, written);
    ContainsMiddle(Norm(before), Norm(uid), Norm(after));
    var i :| 0 <= i < |mps| && mps[i] == PublishTarget(uid, volume);
    var j :| 0 <= j < |servers| && servers[j] == srv;
    assert Serves(id, mps[i], servers[j]);
  }

  // ----- When a volume is judged dead

  /** The source mount of a target is no kubelet target. */
  lemma SourceIsNoPublish(id: Path -> string, target: Path)
    requires IsVolumeName(id(target))
    ensures !Contains(N.Source(id, target), CSI_MARKER)
  {
    var p, n, m := N.Source(id, target), |N.MOUNT_BASE|, |CSI_MARKER|;
    assert m == n + 1 && CSI_MARKER[m - 1] == '/' && CSI_MARKER[2] == 'o' && p[2] == N.MOUNT_BASE[2] == 'a';
    assert forall k :: n < k < |p| ==> p[k] == id(target)[k - n - 1];
    forall i: nat | i <= |p| ensures !OccursAt(p, CSI_MARKER, i) {
    }
  }

  lemma PublishIsTarget(uid: string, volume: string)
    ensures N.IsTarget(PublishTarget(uid, volume)) && Contains(PublishTarget(uid, volume), CSI_MARKER)
  {
    TargetParts(uid, volume);
    ContainsMiddle(KUBELET_DIR + PODS_MARKER + uid, CSI_MARKER, volume + "/mount");
    assert PublishTarget(uid, volume)[9] == KUBELET_DIR[9] == 'k' && N.MOUNT_BASE[9] == 'h';
  }

  /**
   A volume published to a pod, seen by its source mount and its target, is
   judged alive exactly if some server has the volume's path inside its
   container in its arguments or the pod's UID, however spelled, in its cgroup.
   */
  lemma ServedExactly(id: Path -> string, uid: string, volume: string, servers: seq<Server>)
    requires uid != "" && '/' !in uid && IsVolumeName(id(PublishTarget(uid, volume)))
    ensures var target := PublishTarget(uid, volume);
            HasLiveDaemon(id, [N.Source(id, target), target], servers) <==>
              exists srv :: srv in servers
                && (Contains(srv.cmdline, "/mnt/hf/" + id(target))
                    || (Norm(uid) != "" && Contains(Norm(srv.cgroup), Norm(uid))))
  {
    var target := PublishTarget(uid, volume);
    var mps := [N.Source(id, target), target];
    VolumeOfSource(id, target);
    SourceIsNoPublish(id, target);
    PublishIsTarget(uid, volume);
    PodOfTarget(uid, volume);
    if srv :| srv in servers && (Serves(id, mps[0], srv) || Serves(id, mps[1], srv)) {
      var j :| 0 <= j < |servers| && servers[j] == srv;
      assert Serves(id, mps[0], servers[j]) || Serves(id, mps[1], servers[j]);
    }
    forall srv | srv in servers
      ensures Serves(id, mps[0], srv) || Serves(id, mps[1], srv) <==>
                || Contains(srv.cmdline, "/mnt/hf/" + id(target))
                || (Norm(uid) != "" && Contains(Norm(srv.cgroup), Norm(uid)))
    {
    }
  }

  // ----- What a command line does not contain

  lemma OccursChars(s: string, word: string, i: nat, k: nat)
    requires OccursAt(s, word, i) && k < |word|
    ensures s[i + k] == word[k]
  {
    assert s[i..i + |word|][k] == word[k];
  }

  /** A word without the separator stands on one side of it. */
  lemma ContainsSide(a: string, c: char, b: string, word: string)
    requires word != "" && c !in word && Contains(a + [c] + b, word)
    ensures Contains(a, word) || Contains(b, word)
  {
    var s := a + [c] + b;
    var i: nat :| i <= |s| && OccursAt(s, word, i);
    if i + |word| <= |a| {
      assert a[i..i + |word|] == s[i..i + |word|];
      assert OccursAt(a, word, i);
    } else if i > |a| {
      var k := i - |a| - 1;
      assert b[k..k + |word|] == s[i..i + |word|];
      assert OccursAt(b, word, k);
    } else {
      OccursChars(s, word, i, |a| - i);
      assert false;
    }
  }

  lemma ContainsInside(outer: string, s: string, word: string, k: nat)
    requires k + |s| <= |outer| && outer[k..k + |s|] == s && Contains(s, word)
    ensures Contains(outer, word)
  {
    var i: nat :| i <= |s| && OccursAt(s, word, i);
    var there, here := outer[k + i..k + i + |word|], s[i..i + |word|];
    forall j | 0 <= j < |word| ensures there[j] == here[j] {
      assert outer[k..k + |s|][i + j] == s[i + j];
    }
    assert there == here;
    assert OccursAt(outer, word, k + i);
  }

  lemma {:induction false} TrimmedContains(s: string, word: string)
    requires Contains(TrimNul(s), word)
    ensures Contains(s, word)
  {
    if s != "" && s[0] == NUL {
      TrimmedContains(s[1..], word);
      ContainsInside(s, s[1..], word, 1);
    } else if s != "" && s[|s| - 1] == NUL {
      TrimmedContains(s[..|s| - 1], word);
      ContainsInside(s, s[..|s| - 1], word, 0);
    }
  }

  lemma {:induction false} SpacedAt(s: string, i: nat)
    ensures |NulToSpace(s)| == |s|
    ensures i < |s| ==> NulToSpace(s)[i] == if s[i] == NUL then ' ' else s[i]
  {
    if s != "" {
      SpacedAt(s[1..], if i > 0 then i - 1 else 0);
    }
  }

  lemma SpacedContains(s: string, word: string)
    requires ' ' !in word && Contains(NulToSpace(s), word)
    ensures Contains(s, word)
  {
    SpacedAt(s, 0);
    var i: nat :| i <= |s| && OccursAt(NulToSpace(s), word, i);
    forall k | 0 <= k < |word| ensures s[i + k] == word[k] {
      SpacedAt(s, i + k);
      assert NulToSpace(s)[i..i + |word|][k] == word[k];
    }
    assert s[i..i + |word|] == word;
    assert OccursAt(s, word, i);
  }

  lemma {:induction false} ProcContains(argv: seq<string>, word: string)
    requires word != "" && NUL !in word && Contains(ProcCmdline(argv), word)
    ensures exists arg :: arg in argv && Contains(arg, word)
  {
    if argv != [] {
      ContainsSide(argv[0], NUL, ProcCmdline(argv[1..]), word);
      if !Contains(argv[0], word) {
        ProcContains(argv[1..], word);
        var arg :| arg in argv[1..] && Contains(arg, word);
        assert arg in argv;
      }
    }
  }

  /** A text without spaces and NULs that shows in a command line shows in one argument. */
  lemma ShownByArgument(argv: seq<string>, word: string)
    requires word != "" && NUL !in word && ' ' !in word && Contains(CmdlineToString(ProcCmdline(argv)), word)
    ensures exists arg :: arg in argv && Contains(arg, word)
  {
    SpacedContains(TrimNul(ProcCmdline(argv)), word);
    TrimmedContains(ProcCmdline(argv), word);
    ProcContains(argv, word);
  }

  /**
   A volume whose own daemon is gone is judged dead: processes that serve other
   volumes, with IDs of the same length, and run in other pods do not count,
   unless another of their arguments spells this volume's path.
   */
  lemma OtherDaemonsDoNotCount(id: Path -> string, uid: string, volume: string, servers: seq<Server>)
    requires uid != "" && '/' !in uid && IsVolumeName(id(PublishTarget(uid, volume)))
             && ' ' !in id(PublishTarget(uid, volume))
    requires forall srv :: srv in servers ==> ServesAnother(srv, uid, id(PublishTarget(uid, volume)))
    ensures var target := PublishTarget(uid, volume);
            !HasLiveDaemon(id, [N.Source(id, target), target], servers)
  {
    ServedExactly(id, uid, volume, servers);
    var target := PublishTarget(uid, volume);
    forall srv | srv in servers ensures !Contains(srv.cmdline, "/mnt/hf/" + id(target)) {
      NotOnCommandLine(srv, uid, id(target));
    }
  }

  /** A process that serves another volume, in another pod. */
  ghost predicate ServesAnother(srv: Server, uid: string, volumeID: string) {
    && !(Norm(uid) != "" && Contains(Norm(srv.cgroup), Norm(uid)))
    && exists argv: seq<string>, other: string ::
         srv.cmdline == CmdlineToString(ProcCmdline(argv)) && other != volumeID && |other| == |volumeID|
         && forall arg :: arg in argv && Contains(arg, "/mnt/hf/" + volumeID) ==> arg == "/mnt/hf/" + other
  }

  lemma NotOnCommandLine(srv: Server, uid: string, volumeID: string)
    requires ServesAnother(srv, uid, volumeID) && IsVolumeName(volumeID) && ' ' !in volumeID
    ensures !Contains(srv.cmdline, "/mnt/hf/" + volumeID)
  {
    var word := "/mnt/hf/" + volumeID;
    var argv: seq<string>, other: string :|
        srv.cmdline == CmdlineToString(ProcCmdline(argv)) && other != volumeID && |other| == |volumeID|
        && forall arg :: arg in argv && Contains(arg, word) ==> arg == "/mnt/hf/" + other;
    assert word[8..] == volumeID && ("/mnt/hf/" + other)[8..] == other;
    forall arg | arg in argv ensures !Contains(arg, word) {
      WholeWord("/mnt/hf/" + other, word);
    }
    if Contains(srv.cmdline, word) {
      ShownByArgument(argv, word);
    }
  }

  lemma WholeWord(s: string, word: string)
    requires |s| == |word|
    ensures Contains(s, word) ==> s == word
  {
    assert forall i: nat :: OccursAt(s, word, i) ==> s[i..i + |word|] == s;
  }
}
