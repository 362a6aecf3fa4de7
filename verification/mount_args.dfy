/** The hf-mount command line built from a volume's options, and what can be read back from it. */
module MountArgs {
  import opened GoStrings

  datatype MountOptions = MountOptions(
    revision: string, hubEndpoint: string, cacheDir: string, cacheSize: string, pollIntervalSecs: string,
    pollListingConcurrency: string, metadataTtlMs: string, inodeSoftLimit: string, lruSweepIntervalMs: string,
    readOnly: bool, extraArgs: seq<string>, tokenFile: string)

  predicate Supported(sourceType: string) {
    sourceType == "bucket" || sourceType == "repo"
  }

  function Flag(name: string, value: string): seq<string> {
    if value == "" then [] else [name, value]
  }

  function OptionArgs(o: MountOptions): seq<string> {
    Flag("--hub-endpoint", o.hubEndpoint) + Flag("--cache-dir", o.cacheDir) + Flag("--cache-size", o.cacheSize)
    + Flag("--poll-interval-secs", o.pollIntervalSecs) + Flag("--poll-listing-concurrency", o.pollListingConcurrency)
    + Flag("--metadata-ttl-ms", o.metadataTtlMs) + Flag("--inode-soft-limit", o.inodeSoftLimit)
    + Flag("--lru-sweep-interval-ms", o.lruSweepIntervalMs)
  }

  function Args(sourceType: string, sourceID: string, target: string, o: MountOptions): seq<string> {
    OptionArgs(o) + (if o.readOnly then ["--read-only"] else []) + Flag("--token-file", o.tokenFile)
    + o.extraArgs + [sourceType, sourceID, target]
    + if sourceType == "repo" then Flag("--revision", o.revision) else []
  }

  method AppendFlag(args: seq<string>, name: string, value: string) returns (r: seq<string>)
    ensures r == args + Flag(name, value)
  {
    r := args;
    if value != "" {
      r := r + [name, value];
    }
  }

  method BuildOptionArgs(o: MountOptions) returns (args: seq<string>)
    ensures args == OptionArgs(o)
  {
    args := AppendFlag([], "--hub-endpoint", o.hubEndpoint);
    assert args == Flag("--hub-endpoint", o.hubEndpoint);
    args := AppendFlag(args, "--cache-dir", o.cacheDir);
    args := AppendFlag(args, "--cache-size", o.cacheSize);
    args := AppendFlag(args, "--poll-interval-secs", o.pollIntervalSecs);
    args := AppendFlag(args, "--poll-listing-concurrency", o.pollListingConcurrency);
    args := AppendFlag(args, "--metadata-ttl-ms", o.metadataTtlMs);
    args := AppendFlag(args, "--inode-soft-limit", o.inodeSoftLimit);
    args := AppendFlag(args, "--lru-sweep-interval-ms", o.lruSweepIntervalMs);
  }

  method BuildArgs(sourceType: string, sourceID: string, target: string, o: MountOptions)
      returns (r: Option<seq<string>>)
    ensures r == if Supported(sourceType) then Some(Args(sourceType, sourceID, target, o)) else None
    ensures r.Some? <==> sourceType in {"bucket", "repo"}
    // the daemon reads back what was asked for
    ensures r.Some? && HasPrefix(target, "/") ==>
              ReadArgs(r.value, |o.extraArgs|) ==
              Some(CommandLine(sourceType, sourceID, target,
                               o.(revision := if sourceType == "repo" then o.revision else "")))
  {
    if sourceType != "bucket" && sourceType != "repo" {
      return None;
    }
    var args := BuildOptionArgs(o);
    if o.readOnly {
      args := args + ["--read-only"];
    }
    assert args == OptionArgs(o) + if o.readOnly then ["--read-only"] else [];
    args := AppendFlag(args, "--token-file", o.tokenFile);
    args := args + o.extraArgs;
    args := args + [sourceType, sourceID, target];
    if sourceType == "repo" && o.revision != "" {
      args := args + ["--revision", o.revision];
    }
    assert args == Args(sourceType, sourceID, target, o);
    if HasPrefix(target, "/") {
      ArgsReadBack(sourceType, sourceID, target, o);
    }
    return Some(args);
  }

  // ----- Reading a command line back

  datatype Words = Words(values: map<string, string>, readOnly: bool)

  /** Options, each a name and its value, among them the one flag without a value. */
  function ReadOptions(args: seq<string>): Words {
    if args == [] then Words(map[], false)
    else if args[0] == "--read-only" then ReadOptions(args[1..]).(readOnly := true)
    else if |args| == 1 then Words(map[], false)
    else
      var rest := ReadOptions(args[2..]);
      rest.(values := rest.values[args[0] := args[1]])
  }

  function ValueOf(w: Words, name: string): string {
    if name in w.values then w.values[name] else ""
  }

  datatype CommandLine = CommandLine(sourceType: string, sourceID: string, target: string, options: MountOptions)

  /**
   The daemon's reading of a command line with a known number of extra
   arguments: options, the extra ones, type, ID and mount point, and perhaps a
   revision. A mount point starts with a slash, so it is no source type.
   */
  function ReadArgs(args: seq<string>, extras: nat): Option<CommandLine> {
    var n := |args|;
    if n >= 5 && args[n - 3] !in {"bucket", "repo"} && args[n - 2] == "--revision" then
      ReadMount(args[..n - 2], extras, args[n - 1])
    else ReadMount(args, extras, "")
  }

  function ReadMount(args: seq<string>, extras: nat, revision: string): Option<CommandLine> {
    var end := |args| - 3;
    if end < extras then None
    else
      var w := ReadOptions(args[..end - extras]);
      Some(CommandLine(args[end], args[end + 1], args[end + 2], MountOptions(
        revision, ValueOf(w, "--hub-endpoint"), ValueOf(w, "--cache-dir"), ValueOf(w, "--cache-size"),
        ValueOf(w, "--poll-interval-secs"), ValueOf(w, "--poll-listing-concurrency"),
        ValueOf(w, "--metadata-ttl-ms"), ValueOf(w, "--inode-soft-limit"), ValueOf(w, "--lru-sweep-interval-ms"),
        w.readOnly, args[end - extras..end], ValueOf(w, "--token-file"))))
  }

  /** Names with their values from the i-th on, those without one left out. */
  function Pairs(names: seq<string>, values: seq<string>, i: nat): seq<string>
    requires i <= |names| == |values|
    decreases |names| - i
  {
    if i == |names| then [] else Flag(names[i], values[i]) + Pairs(names, values, i + 1)
  }

  lemma ReadFlag(name: string, value: string, rest: seq<string>)
    requires name != "--read-only"
    ensures ReadOptions(Flag(name, value) + rest) ==
            if value == "" then ReadOptions(rest)
            else ReadOptions(rest).(values := ReadOptions(rest).values[name := value])
  {
    var args := Flag(name, value) + rest;
    if value != "" {
      assert args[2..] == rest;
    } else {
      assert args == rest;
    }
  }

  /** Every value is read back under its name, and what follows as if it stood alone. */
  lemma {:induction false} ReadPairs(names: seq<string>, values: seq<string>, i: nat, tail: seq<string>)
    requires i <= |names| == |values| && "--read-only" !in names
    requires forall j, k :: 0 <= j < k < |names| ==> names[j] != names[k]
    requires forall j :: 0 <= j < |names| ==> names[j] !in ReadOptions(tail).values
    ensures var w, rest := ReadOptions(Pairs(names, values, i) + tail), ReadOptions(tail);
            && w.readOnly == rest.readOnly
            && (forall j :: 0 <= j < |names| ==> ValueOf(w, names[j]) == if j < i then "" else values[j])
            && forall name :: name !in names ==> ValueOf(w, name) == ValueOf(rest, name)
    decreases |names| - i
  {
    if i == |names| {
      assert Pairs(names, values, i) + tail == tail;
    } else {
      var more := Pairs(names, values, i + 1) + tail;
      assert Pairs(names, values, i) + tail == Flag(names[i], values[i]) + more;
      ReadPairs(names, values, i + 1, tail);
      ReadFlag(names[i], values[i], more);
    }
  }

  const OPTION_NAMES := ["--hub-endpoint", "--cache-dir", "--cache-size", "--poll-interval-secs",
                         "--poll-listing-concurrency", "--metadata-ttl-ms", "--inode-soft-limit",
                         "--lru-sweep-interval-ms"]

  function OptionValues(o: MountOptions): seq<string> {
    [o.hubEndpoint, o.cacheDir, o.cacheSize, o.pollIntervalSecs, o.pollListingConcurrency, o.metadataTtlMs,
     o.inodeSoftLimit, o.lruSweepIntervalMs]
  }

  lemma OptionArgsArePairs(o: MountOptions)
    ensures OptionArgs(o) == Pairs(OPTION_NAMES, OptionValues(o), 0)
  {
    var n, v := OPTION_NAMES, OptionValues(o);
    Regroup(Flag(n[0], v[0]), Flag(n[1], v[1]), Flag(n[2], v[2]), Flag(n[3], v[3]),
            Flag(n[4], v[4]), Flag(n[5], v[5]), Flag(n[6], v[6]), Flag(n[7], v[7]));
    UnrollPairs(n, v);
  }

  lemma UnrollPairs(n: seq<string>, v: seq<string>)
    requires |n| == |v| == 8
    ensures Pairs(n, v, 0) ==
            Flag(n[0], v[0]) + (Flag(n[1], v[1]) + (Flag(n[2], v[2]) + (Flag(n[3], v[3]) + (Flag(n[4], v[4])
            + (Flag(n[5], v[5]) + (Flag(n[6], v[6]) + (Flag(n[7], v[7]) + [])))))))
  {
    assert Pairs(n, v, 8) == [];
    assert Pairs(n, v, 6) == Flag(n[6], v[6]) + (Flag(n[7], v[7]) + []);
    assert Pairs(n, v, 4) == Flag(n[4], v[4]) + (Flag(n[5], v[5]) + Pairs(n, v, 6));
    assert Pairs(n, v, 2) == Flag(n[2], v[2]) + (Flag(n[3], v[3]) + Pairs(n, v, 4));
  }

  lemma Regroup(a: seq<string>, b: seq<string>, c: seq<string>, d: seq<string>, e: seq<string>, f: seq<string>,
                g: seq<string>, h: seq<string>)
    ensures a + b + c + d + e + f + g + h == a + (b + (c + (d + (e + (f + (g + (h + [])))))))
  {
    assert h + [] == h;
    assert a + b + c + d + (e + (f + (g + h))) == a + (b + (c + (d + (e + (f + (g + h))))));
    assert a + b + c + d + e + f + g + h == a + b + c + d + (e + (f + (g + h)));
  }

  /** Where the names differ. */
  lemma NamesDiffer()
    ensures forall i, j :: 0 <= i < j < |OPTION_NAMES| ==> OPTION_NAMES[i] != OPTION_NAMES[j]
    ensures forall i :: 0 <= i < |OPTION_NAMES| ==> OPTION_NAMES[i] !in {"--token-file", "--read-only"}
  {
    assert OPTION_NAMES[2][2] == 'c' && "--token-file"[2] == 't' && "--read-only"[2] == 'r';
    assert OPTION_NAMES[1][2] == 'c';
    assert |OPTION_NAMES[0]| == 14 && |OPTION_NAMES[1]| == 11 && |OPTION_NAMES[2]| == 12 && |OPTION_NAMES[3]| == 20;
    assert |OPTION_NAMES[4]| == 26 && |OPTION_NAMES[5]| == 17 && |OPTION_NAMES[6]| == 18 && |OPTION_NAMES[7]| == 23;
    assert |"--token-file"| == 12 && |"--read-only"| == 11;
  }

  /** The flag without a value and the token, as they are read. */
  lemma ReadTail(readOnly: bool, tokenFile: string)
    ensures var w := ReadOptions((if readOnly then ["--read-only"] else []) + Flag("--token-file", tokenFile));
            w == Words(if tokenFile == "" then map[] else map["--token-file" := tokenFile], readOnly)
  {
    var token := Flag("--token-file", tokenFile);
    assert "--token-file"[2] == 't' && "--read-only"[2] == 'r';
    ReadFlag("--token-file", tokenFile, []);
    assert token + [] == token;
    if readOnly {
      assert (["--read-only"] + token)[1..] == token;
    } else {
      assert [] + token == token;
    }
  }

  function OptionPart(o: MountOptions): seq<string> {
    OptionArgs(o) + (if o.readOnly then ["--read-only"] else []) + Flag("--token-file", o.tokenFile)
  }

  lemma ReadsPairsAndTail(names: seq<string>, values: seq<string>, readOnly: bool, tokenFile: string, part: seq<string>)
    requires |names| == |values| && "--read-only" !in names && "--token-file" !in names
    requires forall i, j :: 0 <= i < j < |names| ==> names[i] != names[j]
    requires part == Pairs(names, values, 0) + (if readOnly then ["--read-only"] else [])
                     + Flag("--token-file", tokenFile)
    ensures var w := ReadOptions(part);
            && w.readOnly == readOnly && ValueOf(w, "--token-file") == tokenFile
            && forall i :: 0 <= i < |names| ==> ValueOf(w, names[i]) == values[i]
  {
    var tail := (if readOnly then ["--read-only"] else []) + Flag("--token-file", tokenFile);
    ReadTail(readOnly, tokenFile);
    ReadPairs(names, values, 0, tail);
    assert part == Pairs(names, values, 0) + tail;
  }

  /** Every option stands behind its own name. */
  lemma ReadsOptions(o: MountOptions)
    ensures var w := ReadOptions(OptionPart(o));
            && w.readOnly == o.readOnly && ValueOf(w, "--token-file") == o.tokenFile
            && forall i :: 0 <= i < |OPTION_NAMES| ==> ValueOf(w, OPTION_NAMES[i]) == OptionValues(o)[i]
  {
    OptionArgsArePairs(o);
    NamesDiffer();
    ReadsPairsAndTail(OPTION_NAMES, OptionValues(o), o.readOnly, o.tokenFile, OptionPart(o));
  }

  /** The options of a command line, by name. */
  lemma ReadsByName(o: MountOptions)
    ensures var w := ReadOptions(OptionPart(o));
            && ValueOf(w, "--hub-endpoint") == o.hubEndpoint && ValueOf(w, "--cache-dir") == o.cacheDir
            && ValueOf(w, "--cache-size") == o.cacheSize && ValueOf(w, "--poll-interval-secs") == o.pollIntervalSecs
            && ValueOf(w, "--poll-listing-concurrency") == o.pollListingConcurrency
            && ValueOf(w, "--metadata-ttl-ms") == o.metadataTtlMs
            && ValueOf(w, "--inode-soft-limit") == o.inodeSoftLimit
            && ValueOf(w, "--lru-sweep-interval-ms") == o.lruSweepIntervalMs
  {
    ReadsOptions(o);
    var n := OPTION_NAMES;
    assert n[0] == "--hub-endpoint" && n[1] == "--cache-dir" && n[2] == "--cache-size";
    assert n[3] == "--poll-interval-secs";
    assert n[4] == "--poll-listing-concurrency" && n[5] == "--metadata-ttl-ms";
    assert n[6] == "--inode-soft-limit" && n[7] == "--lru-sweep-interval-ms";
  }

  lemma ReadsMount(sourceType: string, sourceID: string, target: string, o: MountOptions, revision: string)
    ensures ReadMount(OptionPart(o) + o.extraArgs + [sourceType, sourceID, target], |o.extraArgs|, revision) ==
            Some(CommandLine(sourceType, sourceID, target, o.(revision := revision)))
  {
    var front, extra := OptionPart(o), o.extraArgs;
    var args := front + extra + [sourceType, sourceID, target];
    assert args[..|front|] == front && args[|front|..|front| + |extra|] == extra;
    ReadsOptions(o);
    ReadsByName(o);
  }

  /** What is built is read back: source, mount point and every option; a bucket has no revision. */
  lemma ArgsReadBack(sourceType: string, sourceID: string, target: string, o: MountOptions)
    requires Supported(sourceType) && HasPrefix(target, "/")
    ensures ReadArgs(Args(sourceType, sourceID, target, o), |o.extraArgs|) ==
            Some(CommandLine(sourceType, sourceID, target,
                             o.(revision := if sourceType == "repo" then o.revision else "")))
  {
    var front := OptionPart(o) + o.extraArgs + [sourceType, sourceID, target];
    var args := Args(sourceType, sourceID, target, o);
    ReadsMount(sourceType, sourceID, target, o, if sourceType == "repo" then o.revision else "");
    if sourceType == "repo" && o.revision != "" {
      assert args == front + ["--revision", o.revision];
      assert args[..|args| - 2] == front;
      assert target[0] == '/' && "bucket"[0] == 'b' && "repo"[0] == 'r';
      assert args[|args| - 3] == target;
    } else {
      assert args == front;
      assert args[|args| - 3] == sourceType;
    }
  }

  // ----- Read-only mounts

  /** The two arguments that mark a mount as read-only. */
  const READ_ONLY_WORDS: set<string> := {"--read-only", "repo"}

  predicate ReadOnlyArgs(args: seq<string>) {
    exists a :: a in args && a in READ_ONLY_WORDS
  }

  method ReadOnlyFromArgs(args: seq<string>) returns (readOnly: bool)
    ensures readOnly <==> ReadOnlyArgs(args)
    ensures readOnly <==> "--read-only" in args || "repo" in args
  {
    for i := 0 to |args|
      invariant forall k :: 0 <= k < i ==> args[k] !in READ_ONLY_WORDS
    {
      if args[i] == "--read-only" || args[i] == "repo" {
        return true;
      }
    }
    return false;
  }

  /** The values a user chooses freely and that stand on the command line on their own. */
  function FreeValues(sourceID: string, o: MountOptions): set<string> {
    {sourceID, o.hubEndpoint, o.cacheDir, o.cacheSize, o.pollIntervalSecs, o.pollListingConcurrency, o.metadataTtlMs,
     o.inodeSoftLimit, o.lruSweepIntervalMs, o.tokenFile}
  }

  predicate Collides(sourceID: string, o: MountOptions) {
    exists v :: v in FreeValues(sourceID, o) && v in READ_ONLY_WORDS
  }

  lemma ReadOnlyConcat(a: seq<string>, b: seq<string>)
    ensures ReadOnlyArgs(a + b) <==> ReadOnlyArgs(a) || ReadOnlyArgs(b)
  {
  }

  lemma ReadOnlyFlag(name: string, value: string)
    requires name !in READ_ONLY_WORDS
    ensures ReadOnlyArgs(Flag(name, value)) <==> value in READ_ONLY_WORDS
  {
  }

  lemma ReadOnlyOptions(o: MountOptions)
    ensures ReadOnlyArgs(OptionArgs(o)) <==>
              || o.hubEndpoint in READ_ONLY_WORDS || o.cacheDir in READ_ONLY_WORDS || o.cacheSize in READ_ONLY_WORDS
              || o.pollIntervalSecs in READ_ONLY_WORDS || o.pollListingConcurrency in READ_ONLY_WORDS
              || o.metadataTtlMs in READ_ONLY_WORDS || o.inodeSoftLimit in READ_ONLY_WORDS
                  || o.lruSweepIntervalMs in READ_ONLY_WORDS
  {
    var a := Flag("--hub-endpoint", o.hubEndpoint);
    var b := Flag("--cache-dir", o.cacheDir);
    var c := Flag("--cache-size", o.cacheSize);
    var d := Flag("--poll-interval-secs", o.pollIntervalSecs);
    var e := Flag("--poll-listing-concurrency", o.pollListingConcurrency);
    var f := Flag("--metadata-ttl-ms", o.metadataTtlMs);
    var g := Flag("--inode-soft-limit", o.inodeSoftLimit);
    var h := Flag("--lru-sweep-interval-ms", o.lruSweepIntervalMs);
    ReadOnlyConcat(a, b);
    ReadOnlyConcat(a + b, c);
    ReadOnlyConcat(a + b + c, d);
    ReadOnlyConcat(a + b + c + d, e);
    ReadOnlyConcat(a + b + c + d + e, f);
    ReadOnlyConcat(a + b + c + d + e + f, g);
    ReadOnlyConcat(a + b + c + d + e + f + g, h);
    ReadOnlyFlag("--hub-endpoint", o.hubEndpoint);
    ReadOnlyFlag("--cache-dir", o.cacheDir);
    ReadOnlyFlag("--cache-size", o.cacheSize);
    ReadOnlyFlag("--poll-interval-secs", o.pollIntervalSecs);
    ReadOnlyFlag("--poll-listing-concurrency", o.pollListingConcurrency);
    ReadOnlyFlag("--metadata-ttl-ms", o.metadataTtlMs);
    ReadOnlyFlag("--inode-soft-limit", o.inodeSoftLimit);
    ReadOnlyFlag("--lru-sweep-interval-ms", o.lruSweepIntervalMs);
  }

  /**
   The command line of a bucket or repo mount reads as read-only exactly if it is one, an
   extra flag says so, or a free value is mistaken for it.
   */
  lemma ReadOnlyCommandLine(sourceType: string, sourceID: string, target: string, o: MountOptions)
    requires Supported(sourceType) && HasPrefix(target, "/")
    ensures ReadOnlyArgs(Args(sourceType, sourceID, target, o)) <==>
              sourceType == "repo" || o.readOnly || ReadOnlyArgs(o.extraArgs) || Collides(sourceID, o)
  {
    var opts := OptionArgs(o);
    var ro := if o.readOnly then ["--read-only"] else [];
    var token := Flag("--token-file", o.tokenFile);
    var tail := [sourceType, sourceID, target];
    var rev := if sourceType == "repo" then Flag("--revision", o.revision) else [];
    ReadOnlyOptions(o);
    ReadOnlyFlag("--token-file", o.tokenFile);
    ReadOnlyConcat(opts, ro);
    ReadOnlyConcat(opts + ro, token);
    ReadOnlyConcat(opts + ro + token, o.extraArgs);
    ReadOnlyConcat(opts + ro + token + o.extraArgs, tail);
    ReadOnlyConcat(opts + ro + token + o.extraArgs + tail, rev);
    assert tail[0] in tail && tail[1] in tail;
    assert ro != [] ==> ro[0] in ro;
    assert target[0] == '/';
  }
}
