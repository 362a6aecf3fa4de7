/**
 Two independent read-only classifiers: the admission webhook's, on a pod's
 volumes, and the driver's, on the command line it builds from the same
 attributes when the volume is published.
 */
module ReadOnlyVerdicts {
  import opened GoStrings
  import opened MountArgs

  type Attributes = map<string, string>

  function Attr(attrs: Attributes, key: string): string {
    if key in attrs then attrs[key] else ""
  }

  function AttrOr(attrs: Attributes, key: string, default: string): string {
    if Attr(attrs, key) == "" then default else Attr(attrs, key)
  }

  // ----- Comma-separated flags

  function Split(s: string, sep: char): (parts: seq<string>)
    ensures parts != []
  {
    var n := IndexByte(s, sep);
    if n == |s| then [s] else [s[..n]] + Split(s[n + 1..], sep)
  }

  /** Mount flags as extra arguments, each with two dashes. */
  function Dashed(flags: seq<string>): seq<string> {
    if flags == [] then [] else Dashed(flags[..|flags| - 1]) + ["--" + flags[|flags| - 1]]
  }

  /** The flags of a comma-separated attribute, blank ones dropped. */
  function Listed(parts: seq<string>): seq<string> {
    if parts == [] then []
    else
      var flag := TrimSpace(parts[|parts| - 1]);
      Listed(parts[..|parts| - 1]) + if flag == "" then [] else ["--" + flag]
  }

  // ----- The driver

  /**
   A publish request; `mountGroup` is the pod's fsGroup, `cacheDefault` the default cache
   directory, `tokenFile` the written token or "".
   */
  datatype Publish = Publish(attrs: Attributes, readOnly: bool, mountFlags: seq<string>, mountGroup: string,
                             cacheDefault: string, tokenFile: string)

  function ExtraArgs(req: Publish): seq<string> {
    (if req.mountGroup == "" then [] else ["--uid=" + req.mountGroup, "--gid=" + req.mountGroup])
    + Dashed(req.mountFlags) + Listed(Split(Attr(req.attrs, "mountFlags"), ','))
  }

  function OptionsOf(req: Publish): MountOptions {
    OptionsWith(req, ExtraArgs(req))
  }

  function OptionsWith(req: Publish, extra: seq<string>): MountOptions {
    MountOptions(
      AttrOr(req.attrs, "revision", "main"), Attr(req.attrs, "hubEndpoint"),
      AttrOr(req.attrs, "cacheDir", req.cacheDefault), Attr(req.attrs, "cacheSize"),
      Attr(req.attrs, "pollIntervalSecs"), Attr(req.attrs, "pollListingConcurrency"),
      Attr(req.attrs, "metadataTtlMs"), Attr(req.attrs, "inodeSoftLimit"), Attr(req.attrs, "lruSweepIntervalMs"),
      req.readOnly, extra, req.tokenFile)
  }

  method AppendDashed(extra: seq<string>, flags: seq<string>) returns (r: seq<string>)
    ensures r == extra + Dashed(flags)
  {
    r := extra;
    for i := 0 to |flags|
      invariant r == extra + Dashed(flags[..i])
    {
      assert flags[..i + 1][..i] == flags[..i];
      r := r + ["--" + flags[i]];
    }
    assert flags[..|flags|] == flags;
  }

  method AppendListed(extra: seq<string>, raw: string) returns (r: seq<string>)
    ensures r == extra + Listed(Split(raw, ','))
  {
    r := extra;
    if raw == "" {
      NoFlags();
      return;
    }
    var parts := Split(raw, ',');
    for i := 0 to |parts|
      invariant r == extra + Listed(parts[..i])
    {
      assert parts[..i + 1][..i] == parts[..i];
      var flag := TrimSpace(parts[i]);
      if flag != "" {
        r := r + ["--" + flag];
      }
    }
    assert parts[..|parts|] == parts;
  }

  method BuildOptions(req: Publish) returns (o: MountOptions)
    ensures o == OptionsOf(req)
    // attribute by attribute
    ensures o.revision == (if "revision" in req.attrs && req.attrs["revision"] != "" then req.attrs["revision"]
                           else "main")
    ensures o.cacheDir == (if "cacheDir" in req.attrs && req.attrs["cacheDir"] != "" then req.attrs["cacheDir"]
                           else req.cacheDefault)
    ensures o.hubEndpoint == (if "hubEndpoint" in req.attrs then req.attrs["hubEndpoint"] else "")
    ensures o.cacheSize == (if "cacheSize" in req.attrs then req.attrs["cacheSize"] else "")
    ensures o.pollIntervalSecs == (if "pollIntervalSecs" in req.attrs then req.attrs["pollIntervalSecs"] else "")
    ensures o.pollListingConcurrency ==
            (if "pollListingConcurrency" in req.attrs then req.attrs["pollListingConcurrency"] else "")
    ensures o.metadataTtlMs == (if "metadataTtlMs" in req.attrs then req.attrs["metadataTtlMs"] else "")
    ensures o.inodeSoftLimit == (if "inodeSoftLimit" in req.attrs then req.attrs["inodeSoftLimit"] else "")
    ensures o.lruSweepIntervalMs == (if "lruSweepIntervalMs" in req.attrs then req.attrs["lruSweepIntervalMs"] else "")
    ensures o.readOnly == req.readOnly && o.tokenFile == req.tokenFile
    ensures ExtrasFor(req, o.extraArgs)
  {
    ExtraArgsParts(req);
    var extra := BuildExtraArgs(req);
    return OptionsWith(req, extra);
  }

  method BuildExtraArgs(req: Publish) returns (extra: seq<string>)
    ensures extra == ExtraArgs(req)
  {
    extra := [];
    if req.mountGroup != "" {
      extra := extra + ["--uid=" + req.mountGroup, "--gid=" + req.mountGroup];
    }
    extra := AppendDashed(extra, req.mountFlags);
    extra := AppendListed(extra, Attr(req.attrs, "mountFlags"));
  }

  lemma {:induction false} DashedAt(flags: seq<string>)
    ensures |Dashed(flags)| == |flags| && forall i :: 0 <= i < |flags| ==> Dashed(flags)[i] == "--" + flags[i]
  {
    if flags != [] {
      DashedAt(flags[..|flags| - 1]);
    }
  }

  lemma {:induction false} ListedAre(parts: seq<string>, x: string)
    ensures x in Listed(parts) <==> IsFlagOf(parts, x)
  {
    if parts != [] {
      var n := |parts| - 1;
      ListedAre(parts[..n], x);
      assert parts == parts[..n] + [parts[n]];
      assert IsFlagOf(parts, x) <==>
        IsFlagOf(parts[..n], x) || (TrimSpace(parts[n]) != "" && x == "--" + TrimSpace(parts[n]));
    }
  }

  /** Listed flags keep their order. */
  lemma {:induction false} ListedConcat(a: seq<string>, b: seq<string>)
    ensures Listed(a + b) == Listed(a) + Listed(b)
  {
    if b == [] {
      assert a + b == a;
    } else {
      assert (a + b)[..|a + b| - 1] == a + b[..|b| - 1];
      ListedConcat(a, b[..|b| - 1]);
    }
  }

  function JoinBy(parts: seq<string>, sep: char): string {
    if parts == [] then "" else if |parts| == 1 then parts[0] else parts[0] + [sep] + JoinBy(parts[1..], sep)
  }

  /** The parts make up the text again, and none holds a separator. */
  lemma {:induction false} SplitJoins(s: string, sep: char)
    ensures JoinBy(Split(s, sep), sep) == s && forall part :: part in Split(s, sep) ==> sep !in part
  {
    var n := IndexByte(s, sep);
    if n == |s| {
      assert s[..n] == s;
    } else {
      SplitJoins(s[n + 1..], sep);
      var parts := Split(s, sep);
      assert parts[1..] == Split(s[n + 1..], sep);
      assert s == s[..n] + [sep] + s[n + 1..];
    }
  }

  /** The extra arguments: the group, the request's flags in order, then the listed flags. */
  ghost predicate ExtrasFor(req: Publish, extra: seq<string>) {
    var g, f := if req.mountGroup == "" then 0 else 2, |req.mountFlags|;
    && |extra| >= g + f
    && (g == 2 ==> extra[0] == "--uid=" + req.mountGroup && extra[1] == "--gid=" + req.mountGroup)
    && (forall i :: 0 <= i < f ==> extra[g + i] == "--" + req.mountFlags[i])
    && HoldsFlags(extra[g + f..], Split(if "mountFlags" in req.attrs then req.attrs["mountFlags"] else "", ','))
  }

  /** Exactly the parts that are not blank, trimmed and dashed. */
  ghost predicate HoldsFlags(flags: seq<string>, parts: seq<string>) {
    forall x :: x in flags <==> IsFlagOf(parts, x)
  }

  ghost predicate IsFlagOf(parts: seq<string>, x: string) {
    exists i :: 0 <= i < |parts| && TrimSpace(parts[i]) != "" && x == "--" + TrimSpace(parts[i])
  }

  lemma ExtraArgsParts(req: Publish)
    ensures ExtrasFor(req, ExtraArgs(req))
  {
    var group := if req.mountGroup == "" then [] else ["--uid=" + req.mountGroup, "--gid=" + req.mountGroup];
    var parts := Split(Attr(req.attrs, "mountFlags"), ',');
    DashedAt(req.mountFlags);
    assert ExtraArgs(req) == group + Dashed(req.mountFlags) + Listed(parts);
    assert ExtraArgs(req)[|group| + |req.mountFlags|..] == Listed(parts);
    forall x ensures x in Listed(parts) <==> IsFlagOf(parts, x) {
      ListedAre(parts, x);
    }
  }

  lemma NoFlags()
    ensures Listed(Split("", ',')) == []
  {
  }

  // ----- The webhook

  predicate FlagListed(parts: seq<string>) {
    exists i :: 0 <= i < |parts| && TrimSpace(parts[i]) == "read-only"
  }

  predicate VolumeReadOnly(readOnly: Option<bool>, attrs: Attributes) {
    readOnly == Some(true) || Attr(attrs, "sourceType") == "repo" || FlagListed(Split(Attr(attrs, "mountFlags"), ','))
  }

  method VolumeIsReadOnly(readOnly: Option<bool>, attrs: Attributes) returns (r: bool)
    ensures r <==> VolumeReadOnly(readOnly, attrs)
  {
    if readOnly == Some(true) {
      return true;
    }
    if Attr(attrs, "sourceType") == "repo" {
      return true;
    }
    var parts := Split(Attr(attrs, "mountFlags"), ',');
    for i := 0 to |parts|
      invariant forall k :: 0 <= k < i ==> TrimSpace(parts[k]) != "read-only"
    {
      if TrimSpace(parts[i]) == "read-only" {
        return true;
      }
    }
    return false;
  }

  method PvMountOptionsReadOnly(mountOptions: seq<string>) returns (r: bool)
    ensures r <==> "read-only" in mountOptions
  {
    for i := 0 to |mountOptions|
      invariant "read-only" !in mountOptions[..i]
    {
      if mountOptions[i] == "read-only" {
        return true;
      }
    }
    return false;
  }

  // ----- Their agreement

  lemma DashedWord(flag: string)
    ensures "--" + flag in READ_ONLY_WORDS <==> flag == "read-only"
  {
    assert ("--" + flag)[2..] == flag && "--read-only"[2..] == "read-only" && "--" + "read-only" == "--read-only";
    assert ("--" + flag)[0] == '-' && "repo"[0] == 'r';
  }

  lemma {:induction false} DashedReadOnly(flags: seq<string>)
    ensures ReadOnlyArgs(Dashed(flags)) <==> "read-only" in flags
  {
    if flags != [] {
      var n := |flags| - 1;
      DashedReadOnly(flags[..n]);
      DashedWord(flags[n]);
      ReadOnlyConcat(Dashed(flags[..n]), ["--" + flags[n]]);
      assert flags == flags[..n] + [flags[n]];
      assert ReadOnlyArgs(["--" + flags[n]]) <==> flags[n] == "read-only" by {
        assert "--" + flags[n] in ["--" + flags[n]];
      }
    }
  }

  lemma {:induction false} ListedReadOnly(parts: seq<string>)
    ensures ReadOnlyArgs(Listed(parts)) <==> FlagListed(parts)
  {
    if parts != [] {
      var n := |parts| - 1;
      var flag := TrimSpace(parts[n]);
      var last := if flag == "" then [] else ["--" + flag];
      ListedReadOnly(parts[..n]);
      DashedWord(flag);
      ReadOnlyConcat(Listed(parts[..n]), last);
      assert ReadOnlyArgs(last) <==> flag == "read-only" by {
        assert flag != "" ==> "--" + flag in last;
      }
      if FlagListed(parts[..n]) {
        var i :| 0 <= i < n && TrimSpace(parts[..n][i]) == "read-only";
        assert TrimSpace(parts[i]) == "read-only";
      }
      if FlagListed(parts) {
        var i :| 0 <= i <= n && TrimSpace(parts[i]) == "read-only";
        assert i < n ==> parts[..n][i] == parts[i];
      }
    }
  }

  lemma GroupArgsNotReadOnly(group: string)
    ensures !ReadOnlyArgs(["--uid=" + group, "--gid=" + group])
  {
    assert ("--uid=" + group)[2] == 'u' && ("--gid=" + group)[2] == 'g' && "--read-only"[2] == 'r' && "repo"[2] == 'p';
  }

  lemma ExtraArgsReadOnly(req: Publish)
    ensures ReadOnlyArgs(ExtraArgs(req)) <==>
              "read-only" in req.mountFlags || FlagListed(Split(Attr(req.attrs, "mountFlags"), ','))
  {
    var group := if req.mountGroup == "" then [] else ["--uid=" + req.mountGroup, "--gid=" + req.mountGroup];
    var listed := Listed(Split(Attr(req.attrs, "mountFlags"), ','));
    GroupArgsNotReadOnly(req.mountGroup);
    DashedReadOnly(req.mountFlags);
    ListedReadOnly(Split(Attr(req.attrs, "mountFlags"), ','));
    ReadOnlyConcat(group, Dashed(req.mountFlags));
    ReadOnlyConcat(group + Dashed(req.mountFlags), listed);
  }

  /** The driver's verdict on the command line it builds for a request. */
  predicate DriverReadOnly(req: Publish, target: string) {
    ReadOnlyArgs(Args(Attr(req.attrs, "sourceType"), Attr(req.attrs, "sourceId"), target, OptionsOf(req)))
  }

  /**
   For an inline volume (no PV mount options) or a PV whose options kubelet
   passes as mount flags: the driver says read-only exactly if the webhook does
   or an option value or the source id is one of the two marker words. Hence
   the webhook's verdict implies the driver's, and without such a value they agree.
   */
  lemma VerdictsAgree(req: Publish, target: string)
    requires Supported(Attr(req.attrs, "sourceType")) && HasPrefix(target, "/")
    ensures var webhook := VolumeReadOnly(Some(req.readOnly || "read-only" in req.mountFlags), req.attrs);
            && (DriverReadOnly(req, target) <==> webhook || Collides(Attr(req.attrs, "sourceId"), OptionsOf(req)))
            && (webhook ==> DriverReadOnly(req, target))
  {
    ExtraArgsReadOnly(req);
    ReadOnlyCommandLine(Attr(req.attrs, "sourceType"), Attr(req.attrs, "sourceId"), target, OptionsOf(req));
  }

  /** The verdicts do differ: a writable bucket called "repo" is read-only to the driver alone. */
  lemma BucketCalledRepo(target: string)
    requires HasPrefix(target, "/")
    ensures var req := Publish(map["sourceType" := "bucket", "sourceId" := "repo"], false, [], "", "/cache", "");
            !VolumeReadOnly(Some(false), req.attrs) && DriverReadOnly(req, target)
  {
  }
}
