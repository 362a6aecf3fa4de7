/**
 Healing a lost mount pod: what Mount stores in the HFMount object, what a heal
 reads back from it, and that the pod rebuilt from it is the pod Mount built.
 */
module Healing {
  import opened GoStrings
  import opened MountArgs
  import opened ReadOnlyVerdicts
  import opened Resources
  import F = FuseLiveness
  import N = NodeMachine

  /** An untyped value in a stored object. */
  datatype Json = Text(text: string) | Items(items: seq<Json>) | Object(fields: map<string, Json>) | Other

  type Spec = map<string, Json>

  /** Printing and parsing of quantities. */
  datatype Codec = Codec(parse: Parser, show: Quantity -> string)

  /** A printed quantity is never blank and parses to the same value, perhaps spelled differently. */
  ghost predicate Lawful(k: Codec) {
    forall q :: k.show(q) != "" && k.parse(k.show(q)).Some? && k.parse(k.show(q)).value.value == q.value
  }

  datatype Recipe = Recipe(sourceType: string, sourceID: string, args: seq<string>, resources: MountResources)

  // ----- Resources as stored strings

  /** Exactly the set fields, each under its key as printed. */
  ghost predicate Prints(m: map<string, string>, k: Codec, r: MountResources) {
    && (forall f :: Key(f) in m <==> r.Get(f).Some?)
    && (forall f :: r.Get(f).Some? ==> m[Key(f)] == k.show(r.Get(f).value))
    && (forall key :: key in m ==> exists f :: key == Key(f))
  }

  lemma KeysDiffer(f: Field, g: Field)
    ensures Key(f) == Key(g) <==> f == g
  {
  }

  /** m holds the fields of `done` that are set. */
  ghost predicate PrintsSome(m: map<string, string>, k: Codec, r: MountResources, done: set<Field>) {
    && (forall f :: Key(f) in m <==> f in done && r.Get(f).Some?)
    && (forall f :: f in done && r.Get(f).Some? ==> m[Key(f)] == k.show(r.Get(f).value))
    && (forall key :: key in m ==> exists f :: key == Key(f))
  }

  method PutField(m: map<string, string>, k: Codec, r: MountResources, f: Field, ghost done: set<Field>)
      returns (m': map<string, string>)
    requires PrintsSome(m, k, r, done)
    ensures PrintsSome(m', k, r, done + {f})
  {
    forall g ensures Key(g) == Key(f) <==> g == f {
      KeysDiffer(g, f);
    }
    m' := m;
    if r.Get(f).Some? {
      m' := m'[Key(f) := k.show(r.Get(f).value)];
    }
  }

  method ToStringMap(k: Codec, r: MountResources) returns (m: map<string, string>)
    ensures Prints(m, k, r)
  {
    m := map[];
    m := PutField(m, k, r, CpuLimit, {});
    m := PutField(m, k, r, CpuRequest, {CpuLimit});
    m := PutField(m, k, r, MemoryLimit, {CpuLimit, CpuRequest});
    m := PutField(m, k, r, MemoryRequest, {CpuLimit, CpuRequest, MemoryLimit});
    forall f
      ensures Key(f) in m <==> r.Get(f).Some?
      ensures r.Get(f).Some? ==> m[Key(f)] == k.show(r.Get(f).value)
    {
      assert f == CpuLimit || f == CpuRequest || f == MemoryLimit || f == MemoryRequest;
    }
  }

  function Strings(raw: map<string, Json>): map<string, string> {
    map key | key in raw && raw[key].Text? :: raw[key].text
  }

  /** The stored form of a string map, None if it is empty. */
  method ToUnstructured(src: map<string, string>) returns (r: Option<map<string, Json>>)
    ensures r.None? <==> forall key :: key !in src
    ensures r.Some? ==> Strings(r.value) == src
  {
    if |src| == 0 {
      EmptyMap(src);
      return None;
    }
    var dst: map<string, Json>, keys: set<string> := map[], src.Keys;
    while exists key :: key in keys
      invariant keys <= src.Keys
      invariant forall key :: key in dst <==> key in src && key !in keys
      invariant forall key :: key in dst ==> dst[key] == Text(src[key])
      decreases keys
    {
      var key: string :| key in keys;
      keys := keys - {key};
      dst := dst[key := Text(src[key])];
    }
    SameStrings(dst, src);
    NonEmptyMap(src);
    return Some(dst);
  }

  lemma EmptyMap(m: map<string, string>)
    requires |m| == 0
    ensures forall key :: key !in m
  {
  }

  lemma NonEmptyMap(m: map<string, string>)
    requires |m| != 0
    ensures exists key :: key in m
  {
  }

  lemma SameStrings(raw: map<string, Json>, src: map<string, string>)
    requires forall key :: key in raw <==> key in src
    requires forall key :: key in raw ==> raw[key] == Text(src[key])
    ensures Strings(raw) == src
  {
  }

  method MountResourcesFromUnstructured(parse: Parser, raw: map<string, Json>) returns (r: MountResources)
    ensures r == ParseMountResources(parse, Strings(raw))
  {
    var attrs: map<string, string>, keys: set<string> := map[], raw.Keys;
    while exists key :: key in keys
      invariant keys <= raw.Keys
      invariant forall key :: key in attrs <==> key in raw && key !in keys && raw[key].Text?
      invariant forall key :: key in attrs ==> attrs[key] == raw[key].text
      decreases keys
    {
      var key: string :| key in keys;
      keys := keys - {key};
      if raw[key].Text? {
        attrs := attrs[key := raw[key].text];
      }
    }
    AttrsAreStrings(attrs, raw);
    r := ParseMountResources(parse, attrs);
  }

  lemma AttrsAreStrings(attrs: map<string, string>, raw: map<string, Json>)
    requires forall key :: key in attrs <==> key in raw && raw[key].Text?
    requires forall key :: key in attrs ==> attrs[key] == raw[key].text
    ensures attrs == Strings(raw)
  {
  }

  /** Storing resources and reading them back keeps every field, by value. */
  lemma ResourcesRoundTrip(k: Codec, r: MountResources, m: map<string, string>, f: Field)
    requires Lawful(k) && Prints(m, k, r)
    ensures SameValue(ParseMountResources(k.parse, m).Get(f), r.Get(f))
  {
  }

  // ----- The stored object

  function AsItems(args: seq<string>): seq<Json> {
    seq(|args|, i requires 0 <= i < |args| => Text(args[i]))
  }

  ghost predicate StoredAs(spec: Spec, k: Codec, nodeID: string, mountPath: string, r: Recipe) {
    && "nodeName" in spec && spec["nodeName"] == Text(nodeID)
    && "sourceType" in spec && spec["sourceType"] == Text(r.sourceType)
    && "sourceID" in spec && spec["sourceID"] == Text(r.sourceID)
    && "mountPodName" in spec && spec["mountPodName"] == Text(N.MOUNT_POD_PREFIX + F.Base(mountPath))
    && "mountPath" in spec && spec["mountPath"] == Text(mountPath)
    && "mountArgs" in spec && spec["mountArgs"] == Items(AsItems(r.args))
    && ResourcesStored(spec, k, r.resources)
  }

  /** The resources key is there exactly if some field is set. */
  ghost predicate ResourcesStored(spec: Spec, k: Codec, r: MountResources) {
    if "resources" in spec then spec["resources"].Object? && Prints(Strings(spec["resources"].fields), k, r)
    else forall f :: r.Get(f).None?
  }

  method ArgsIface(args: seq<string>) returns (items: seq<Json>)
    ensures items == AsItems(args)
  {
    items := [];
    for i := 0 to |args|
      invariant items == AsItems(args[..i])
    {
      assert args[..i + 1] == args[..i] + [args[i]];
      items := items + [Text(args[i])];
    }
    assert args[..|args|] == args;
  }

  method CreateSpec(k: Codec, nodeID: string, mountPath: string, r: Recipe) returns (spec: Spec)
    ensures StoredAs(spec, k, nodeID, mountPath, r) && "workloads" in spec && spec["workloads"] == Items([])
  {
    var items := ArgsIface(r.args);
    var m := ToStringMap(k, r.resources);
    var res := ToUnstructured(m);
    spec := map["nodeName" := Text(nodeID), "sourceType" := Text(r.sourceType), "sourceID" := Text(r.sourceID),
                "mountPodName" := Text(N.MOUNT_POD_PREFIX + F.Base(mountPath)), "mountPath" := Text(mountPath),
                "mountArgs" := Items(items), "workloads" := Items([])];
    assert "resources" !in spec;
    if res.Some? {
      spec := spec["resources" := Object(res.value)];
    } else {
      assert forall f :: Key(f) !in m;
    }
  }

  // ----- Reading it back

  function TextAt(spec: Spec, key: string): string {
    if key in spec && spec[key].Text? then spec[key].text else ""
  }

  function Texts(items: seq<Json>): seq<string> {
    if items == [] then []
    else Texts(items[..|items| - 1]) + if items[|items| - 1].Text? then [items[|items| - 1].text] else []
  }

  function RawArgs(spec: Spec): seq<Json> {
    if "mountArgs" in spec && spec["mountArgs"].Items? then spec["mountArgs"].items else []
  }

  function RecipeOf(parse: Parser, spec: Spec): Recipe {
    Recipe(TextAt(spec, "sourceType"), TextAt(spec, "sourceID"), Texts(RawArgs(spec)),
           if "resources" in spec && spec["resources"].Object? then
               ParseMountResources(parse, Strings(spec["resources"].fields)) else UNSET)
  }

  method ReadRecipe(parse: Parser, spec: Spec) returns (r: Option<Recipe>)
    ensures r == if RawArgs(spec) == [] then None else Some(RecipeOf(parse, spec))
  {
    var rawArgs := RawArgs(spec);
    if |rawArgs| == 0 {
      return None;
    }
    var args := [];
    for i := 0 to |rawArgs|
      invariant args == Texts(rawArgs[..i])
    {
      assert rawArgs[..i + 1][..i] == rawArgs[..i];
      if rawArgs[i].Text? {
        args := args + [rawArgs[i].text];
      }
    }
    assert rawArgs[..|rawArgs|] == rawArgs;
    var resources := UNSET;
    if "resources" in spec && spec["resources"].Object? {
      resources := MountResourcesFromUnstructured(parse, spec["resources"].fields);
    }
    return Some(Recipe(TextAt(spec, "sourceType"), TextAt(spec, "sourceID"), args, resources));
  }

  lemma {:induction false} TextsOfItems(args: seq<string>)
    ensures Texts(AsItems(args)) == args
  {
    if args != [] {
      var n := |args| - 1;
      assert AsItems(args)[..n] == AsItems(args[..n]);
      TextsOfItems(args[..n]);
      assert args == args[..n] + [args[n]];
    }
  }

  ghost predicate SameRecipe(a: Recipe, b: Recipe) {
    && a.sourceType == b.sourceType && a.sourceID == b.sourceID && a.args == b.args
    && forall f :: SameValue(a.resources.Get(f), b.resources.Get(f))
  }

  /** Whatever happened to its workload list, a stored recipe reads back as it was, quantities by value. */
  lemma StoredRecipeReadsBack(k: Codec, nodeID: string, mountPath: string, r: Recipe, spec: Spec, workloads: Json)
    requires Lawful(k) && StoredAs(spec, k, nodeID, mountPath, r)
    ensures SameRecipe(RecipeOf(k.parse, spec["workloads" := workloads]), r)
    ensures r.args != [] ==> RawArgs(spec["workloads" := workloads]) != []
  {
    var now := spec["workloads" := workloads];
    TextsOfItems(r.args);
    assert now["mountArgs"] == spec["mountArgs"];
    forall f ensures SameValue(RecipeOf(k.parse, now).resources.Get(f), r.resources.Get(f)) {
      if "resources" in spec {
        assert now["resources"] == spec["resources"];
        ResourcesRoundTrip(k, r.resources, Strings(spec["resources"].fields), f);
      } else {
        assert "resources" !in now && UNSET.Get(f) == None;
      }
    }
  }

  // ----- The mount pod

  /** The mounter's own settings, and the operator's default requests; `labelled` makes a label value. */
  datatype Settings = Settings(nodeID: string, namespace: string, image: string, pullPolicy: string,
                               pullSecrets: seq<string>, serviceAccount: string, hostNetwork: bool, cacheDir: string,
                               labelled: string -> string, defaults: bool -> ResourceName -> Quantity)

  datatype MountPod = MountPod(name: string, namespace: string, labels: map<string, string>,
                               annotations: map<string, string>, hostNetwork: bool, node: string,
                               serviceAccount: string, pullSecrets: seq<string>, image: string, pullPolicy: string,
                               command: string, args: seq<string>, env: seq<(string, string)>,
                               hostPaths: map<string, string>, resources: Requirements)

  function PodWith(cfg: Settings, volumeID: string, mountPath: string, r: Recipe, req: Requirements): MountPod {
    MountPod(N.MOUNT_POD_PREFIX + volumeID, cfg.namespace,
             map["hf.csi.huggingface.co/app" := "hf-mount", "hf.csi.huggingface.co/volume-id" := cfg.labelled(volumeID),
                 "hf.csi.huggingface.co/node" := cfg.labelled(cfg.nodeID)],
             map["hf.csi.huggingface.co/source-type" := r.sourceType, "hf.csi.huggingface.co/source-id" := r.sourceID,
                 "hf.csi.huggingface.co/mount-path" := mountPath],
             cfg.hostNetwork, cfg.nodeID, cfg.serviceAccount, cfg.pullSecrets, cfg.image, cfg.pullPolicy,
                 F.HF_MOUNT_BINARY, r.args,
             [("HF_CSI_SOURCE_TYPE", r.sourceType), ("HF_CSI_SOURCE_ID", r.sourceID), ("HF_CSI_VOLUME_ID", volumeID),
              ("HF_CSI_NODE", cfg.nodeID), ("HF_CSI_MOUNT_PATH", mountPath)],
             map["/mnt/hf" := N.MOUNT_BASE, cfg.cacheDir := cfg.cacheDir], req)
  }

  ghost predicate PodFor(pod: MountPod, cfg: Settings, volumeID: string, mountPath: string, r: Recipe) {
    && pod == PodWith(cfg, volumeID, mountPath, r, pod.resources)
    && Built(pod.resources, r.resources, cfg.defaults(ReadOnlyArgs(r.args)))
  }

  method BuildMountPod(cfg: Settings, volumeID: string, mountPath: string, r: Recipe) returns (pod: MountPod)
    ensures PodFor(pod, cfg, volumeID, mountPath, r)
    // the daemon runs on this node, with the recipe's arguments, in the mounter's image
    ensures pod.name == "hf-mount-" + volumeID && pod.namespace == cfg.namespace && pod.node == cfg.nodeID
    ensures pod.command == "hf-mount-fuse" && pod.args == r.args
    ensures pod.image == cfg.image && pod.pullPolicy == cfg.pullPolicy && pod.pullSecrets == cfg.pullSecrets
            && pod.serviceAccount == cfg.serviceAccount && pod.hostNetwork == cfg.hostNetwork
    // it says what it serves
    ensures pod.env == [("HF_CSI_SOURCE_TYPE", r.sourceType), ("HF_CSI_SOURCE_ID", r.sourceID),
                        ("HF_CSI_VOLUME_ID", volumeID), ("HF_CSI_NODE", cfg.nodeID), ("HF_CSI_MOUNT_PATH", mountPath)]
    ensures pod.labels == map["hf.csi.huggingface.co/app" := "hf-mount",
                              "hf.csi.huggingface.co/volume-id" := cfg.labelled(volumeID),
                              "hf.csi.huggingface.co/node" := cfg.labelled(cfg.nodeID)]
    ensures pod.annotations == map["hf.csi.huggingface.co/source-type" := r.sourceType,
                                   "hf.csi.huggingface.co/source-id" := r.sourceID,
                                   "hf.csi.huggingface.co/mount-path" := mountPath]
    // its mounts show on the host, and its cache is the host's
    ensures cfg.cacheDir != "/mnt/hf" ==> pod.hostPaths == map["/mnt/hf" := "/var/lib/hf-csi-driver/mnt",
                                                              cfg.cacheDir := cfg.cacheDir]
    // without hints it requests the default of its kind, read-only if an argument says so
    ensures r.resources == MountResources(None, None, None, None) ==>
              Cpu !in pod.resources.limits && Memory !in pod.resources.limits
              && Memory in pod.resources.requests
              && pod.resources.requests[Memory] == cfg.defaults("--read-only" in r.args || "repo" in r.args)(Memory)
  {
    var readOnly := ReadOnlyFromArgs(r.args);
    var req := BuildResourceRequirements(r.resources, cfg.defaults(readOnly));
    pod := PodWith(cfg, volumeID, mountPath, r, req);
  }

  ghost predicate SameRequirements(a: Requirements, b: Requirements) {
    forall n ::
      && (n in a.requests <==> n in b.requests) && (n in a.requests ==> a.requests[n].value == b.requests[n].value)
      && (n in a.limits <==> n in b.limits) && (n in a.limits ==> a.limits[n].value == b.limits[n].value)
  }

  /** The same pod, quantities compared by value. */
  ghost predicate SamePod(a: MountPod, b: MountPod) {
    a.(resources := b.resources) == b && SameRequirements(a.resources, b.resources)
  }

  lemma SameRecipeSamePod(cfg: Settings, volumeID: string, mountPath: string, r: Recipe, r': Recipe, pod: MountPod,
                          pod': MountPod)
    requires SameRecipe(r, r') && PodFor(pod, cfg, volumeID, mountPath, r) && PodFor(pod', cfg, volumeID, mountPath, r')
    ensures SamePod(pod, pod')
  {
    forall n ensures SameValue(r.resources.Get(Request(n)), r'.resources.Get(Request(n)))
        && SameValue(r.resources.Get(Limit(n)), r'.resources.Get(Limit(n))) {
    }
    var a, b, d := pod.resources, pod'.resources, cfg.defaults(ReadOnlyArgs(r.args));
    forall n
      ensures n in a.requests && n in b.requests && a.requests[n].value == b.requests[n].value
      ensures (n in a.limits <==> n in b.limits) && (n in a.limits ==> a.limits[n].value == b.limits[n].value)
    {
      assert BuiltFor(a, r.resources, d, n) && BuiltFor(b, r'.resources, d, n);
    }
  }

  // ----- Mount, loss and heal

  /**
   What the API server answers to Mount. A create fails only for another reason
   than that the thing exists; an existing pod is done if it is terminal or
   being deleted.
   */
  datatype MountAnswers = MountAnswers(crdCreated: bool, created: bool, podReadable: bool, podDone: bool, deleted: bool,
                                       recreated: bool, crdDeleted: bool)

  datatype MountOutcome =
    | Unsupported
    | CrdFailed
    | CreateFailed
    | GetFailed
    | StaleRemains
    | RecreateFailed
    | Created
    | Reused

  /** What it answers to a heal; `cleaned` is the delete of a new pod that does not start. */
  datatype HealAnswers = HealAnswers(podReadable: bool, podDone: bool, crdReadable: bool, deleted: bool, created: bool,
                                     ran: bool, cleaned: bool)

  datatype HealOutcome = Nothing | ReboundOnly | Recreated | NotRecreated | NotStarted

  function PodOutcome(present: bool, ans: MountAnswers): MountOutcome {
    if !ans.created then CreateFailed
    else if !present then Created
    else if !ans.podReadable then GetFailed
    else if !ans.podDone then Reused
    else if !ans.deleted then StaleRemains
    else if !ans.recreated then RecreateFailed
    else Created
  }

  /** A usable pod is reused, a done one replaced; only without one, or after that, a pod is created. */
  lemma PodOutcomeMeans(present: bool, ans: MountAnswers)
    ensures var outcome := PodOutcome(present, ans);
            && (outcome.Reused? <==> ans.created && present && ans.podReadable && !ans.podDone)
            && (outcome.Created? <==>
                  ans.created && (!present || (ans.podReadable && ans.podDone && ans.deleted && ans.recreated)))
            && (outcome.CreateFailed? <==> !ans.created)
            && (outcome.GetFailed? <==> ans.created && present && !ans.podReadable)
            && (outcome.StaleRemains? <==>
                  ans.created && present && ans.podReadable && ans.podDone && !ans.deleted)
            && (outcome.RecreateFailed? <==>
                  ans.created && present && ans.podReadable && ans.podDone && ans.deleted && !ans.recreated)
  {
  }

  class Volume {
    const cfg: Settings
    const k: Codec
    const mountPath: string
    var pod: Option<MountPod>
    var crd: Option<Spec>

    constructor (cfg: Settings, k: Codec, mountPath: string)
      ensures this.cfg == cfg && this.k == k && this.mountPath == mountPath && pod == None && crd == None
    {
      this.cfg, this.k, this.mountPath, pod, crd := cfg, k, mountPath, None, None;
    }

    /**
     Mount's part: create the HFMount object and the pod. That one of them exists
     already is no failure of its create call: the object is then kept, the pod
     reused or, if it is done, replaced.
     */
    method CreateObjects(volumeID: string, sourceType: string, sourceID: string, o: MountOptions,
                         resources: MountResources, ans: MountAnswers) returns (outcome: MountOutcome)
      requires volumeID == F.Base(mountPath)
      modifies this
      ensures outcome == if !Supported(sourceType) then Unsupported
                         else if !ans.crdCreated then CrdFailed
                         else PodOutcome(old(pod).Some?, ans)
      ensures outcome.Unsupported? || outcome.CrdFailed? ==> crd == old(crd) && pod == old(pod)
      ensures outcome.Created? ==> pod.Some? && PodFor(pod.value, cfg, volumeID, mountPath,
                                                       MountRecipe(volumeID, sourceType, sourceID, o, resources))
      ensures outcome in {Reused, GetFailed, StaleRemains, CreateFailed} ==> pod == old(pod)
      ensures outcome.RecreateFailed? ==> pod.None?
      // only a failed first create takes the object away, also one that existed before
      ensures crd == None <==>
                || (outcome.CreateFailed? && ans.crdDeleted)
                || (old(crd).None? && (outcome.Unsupported? || outcome.CrdFailed?))
      ensures crd.Some? && old(crd).Some? ==> crd == old(crd)
      ensures crd.Some? && old(crd).None? ==> StoredAs(crd.value, k, cfg.nodeID, mountPath,
                                                       MountRecipe(volumeID, sourceType, sourceID, o, resources))
    {
      var args := BuildArgs(sourceType, sourceID, F.CONTAINER_PREFIX + volumeID, o);
      if args.None? {
        return Unsupported;
      }
      var recipe := Recipe(sourceType, sourceID, args.value, resources);
      if !ans.crdCreated {
        return CrdFailed;
      }
      if crd.None? {
        var spec := CreateSpec(k, cfg.nodeID, mountPath, recipe);
        crd := Some(spec);
      }
      outcome := CreatePod(volumeID, recipe, ans);
      if outcome.CreateFailed? && ans.crdDeleted {
        crd := None;
      }
    }

    method CreatePod(volumeID: string, recipe: Recipe, ans: MountAnswers) returns (outcome: MountOutcome)
      modifies this`pod
      ensures outcome == PodOutcome(old(pod).Some?, ans)
      ensures outcome.Created? ==> pod.Some? && PodFor(pod.value, cfg, volumeID, mountPath, recipe)
      ensures outcome in {Reused, GetFailed, StaleRemains, CreateFailed} ==> pod == old(pod)
      ensures outcome.RecreateFailed? ==> pod.None?
    {
      var p := BuildMountPod(cfg, volumeID, mountPath, recipe);
      if !ans.created {
        return CreateFailed;
      }
      if pod.Some? {
        if !ans.podReadable {
          return GetFailed;
        }
        if !ans.podDone {
          return Reused;
        }
        if !ans.deleted {
          return StaleRemains;
        }
        pod := None;
        if !ans.recreated {
          return RecreateFailed;
        }
      }
      pod := Some(p);
      return Created;
    }

    /** A heal of the source mount; `pod` is the pod the API server has. */
    method TryHealSource(ans: HealAnswers) returns (outcome: HealOutcome)
      modifies this`pod
      ensures outcome.ReboundOnly? <==> ans.podReadable && old(pod).Some? && !ans.podDone
      ensures outcome.Nothing? || outcome.ReboundOnly? ==> pod == old(pod)
      // nothing at all without readable answers, an object with arguments, and the old pod gone
      ensures outcome.Nothing? <==>
                || !ans.podReadable
                || ((old(pod).None? || ans.podDone)
                    && (!ans.crdReadable || crd.None? || RawArgs(crd.value) == [] || (old(pod).Some? && !ans.deleted)))
      ensures outcome.NotRecreated? || outcome.NotStarted? ==> (outcome.NotRecreated? <==> !ans.created)
      ensures outcome.NotRecreated? ==> pod.None?
      ensures outcome.NotStarted? ==> crd.Some? && !ans.ran && (pod.None? <==> ans.cleaned)
      ensures outcome.Recreated? <==>
              && ans.podReadable && (old(pod).None? || (ans.podDone && ans.deleted))
              && ans.crdReadable && crd.Some? && RawArgs(crd.value) != [] && ans.created && ans.ran
      ensures outcome.Recreated? ==> pod.Some?
      ensures (outcome.Recreated? || outcome.NotStarted?) && pod.Some? ==>
                PodFor(pod.value, cfg, F.Base(mountPath), mountPath, RecipeOf(k.parse, crd.value))
    {
      var volumeID := F.Base(mountPath);
      if !ans.podReadable {
        return Nothing;
      }
      if pod.Some? && !ans.podDone {
        return ReboundOnly;
      }
      if crd.None? || !ans.crdReadable {
        return Nothing;
      }
      var recipe := ReadRecipe(k.parse, crd.value);
      if recipe.None? {
        return Nothing;
      }
      if pod.Some? {
        if !ans.deleted {
          return Nothing;
        }
        pod := None;
      }
      var p := BuildMountPod(cfg, volumeID, mountPath, recipe.value);
      if !ans.created {
        return NotRecreated;
      }
      pod := Some(p);
      if ans.ran {
        return Recreated;
      }
      if ans.cleaned {
        pod := None;
      }
      return NotStarted;
    }

    /** Mounted without a token, lost, mounted with one, lost, healed: the object still has the first arguments. */
    method HealAfterSecondMount(volumeID: string, sourceType: string, sourceID: string, o: MountOptions, token: string,
                                resources: MountResources) returns (built: MountPod, healed: MountPod)
      requires crd == None && pod == None && volumeID == F.Base(mountPath) && Supported(sourceType) && Lawful(k)
      requires o.tokenFile == "" && token != ""
      modifies this
      ensures PodFor(built, cfg, volumeID, mountPath,
                     MountRecipe(volumeID, sourceType, sourceID, o.(tokenFile := token), resources))
      ensures pod == Some(healed) && !SamePod(healed, built)
    {
      var ans := MountAnswers(true, true, true, true, true, true, true);
      var outcome := CreateObjects(volumeID, sourceType, sourceID, o, resources, ans);
      pod := None;
      outcome := CreateObjects(volumeID, sourceType, sourceID, o.(tokenFile := token), resources, ans);
      built := pod.value;
      pod := None;
      ReadableRecipe(k, cfg.nodeID, mountPath, MountRecipe(volumeID, sourceType, sourceID, o, resources), crd.value);
      assert sourceType in MountRecipe(volumeID, sourceType, sourceID, o, resources).args;
      var heal := TryHealSource(HealAnswers(true, true, true, true, true, true, true));
      healed := pod.value;
      OldObjectOldArguments(cfg, k, volumeID, mountPath, sourceType, sourceID, o, token, resources, crd.value, built,
                            healed);
    }
  }

  /** What Mount puts into the pod and, for a new object, into the store. */
  function MountRecipe(volumeID: string, sourceType: string, sourceID: string, o: MountOptions,
                       resources: MountResources): Recipe {
    Recipe(sourceType, sourceID, Args(sourceType, sourceID, F.CONTAINER_PREFIX + volumeID, o), resources)
  }

  /**
   A pod healed from the object that Mount created is the pod Mount built, and such an
   object always holds arguments.
   */
  lemma HealRebuildsMountPod(cfg: Settings, k: Codec, volumeID: string, mountPath: string, sourceType: string,
                             sourceID: string, o: MountOptions, resources: MountResources, spec: Spec, workloads: Json,
                             pod: MountPod, healed: MountPod)
    requires Lawful(k) && volumeID == F.Base(mountPath)
    requires StoredAs(spec, k, cfg.nodeID, mountPath, MountRecipe(volumeID, sourceType, sourceID, o, resources))
    requires PodFor(pod, cfg, volumeID, mountPath, MountRecipe(volumeID, sourceType, sourceID, o, resources))
    requires PodFor(healed, cfg, volumeID, mountPath, RecipeOf(k.parse, spec["workloads" := workloads]))
    ensures RawArgs(spec["workloads" := workloads]) != [] && SamePod(healed, pod)
  {
    var r, now := MountRecipe(volumeID, sourceType, sourceID, o, resources), spec["workloads" := workloads];
    StoredRecipeReadsBack(k, cfg.nodeID, mountPath, r, spec, workloads);
    assert sourceType in r.args;
    SameRecipeSamePod(cfg, volumeID, mountPath, RecipeOf(k.parse, now), r, healed, pod);
  }

  /** The request a recipe leads to, by value: the wanted one, or the limit where that is smaller. */
  function Effective(cfg: Settings, r: Recipe, n: ResourceName): real {
    var wanted := if r.resources.Get(Request(n)).Some? then r.resources.Get(Request(n)).value.value
        else cfg.defaults(ReadOnlyArgs(r.args))(n).value;
    var limit := r.resources.Get(Limit(n));
    if limit.Some? && limit.value.value < wanted then limit.value.value else wanted
  }

  /**
   An object that already existed keeps what it was created with: the healed
   pod is the pod this Mount built exactly if the stored source, arguments,
   limits and effective requests are the ones of this Mount.
   */
  lemma HealFromExistingObject(cfg: Settings, k: Codec, volumeID: string, mountPath: string, stored: Recipe,
                               mounted: Recipe, spec: Spec, workloads: Json, pod: MountPod, healed: MountPod)
    requires Lawful(k) && StoredAs(spec, k, cfg.nodeID, mountPath, stored)
    requires PodFor(pod, cfg, volumeID, mountPath, mounted)
    requires PodFor(healed, cfg, volumeID, mountPath, RecipeOf(k.parse, spec["workloads" := workloads]))
    ensures SamePod(healed, pod) <==>
              && stored.sourceType == mounted.sourceType && stored.sourceID == mounted.sourceID
                  && stored.args == mounted.args
              && forall n :: SameValue(stored.resources.Get(Limit(n)), mounted.resources.Get(Limit(n)))
                  && Effective(cfg, stored, n) == Effective(cfg, mounted, n)
  {
    var read := RecipeOf(k.parse, spec["workloads" := workloads]);
    StoredRecipeReadsBack(k, cfg.nodeID, mountPath, stored, spec, workloads);
    PodFields(cfg, volumeID, mountPath, read, mounted, healed.resources, pod.resources);
    forall n
      ensures n in healed.resources.requests && n in pod.resources.requests
      ensures healed.resources.requests[n].value == Effective(cfg, read, n)
              && pod.resources.requests[n].value == Effective(cfg, mounted, n)
      ensures n in healed.resources.limits <==> stored.resources.Get(Limit(n)).Some?
      ensures n in healed.resources.limits ==>
                healed.resources.limits[n].value == stored.resources.Get(Limit(n)).value.value
      ensures n in pod.resources.limits <==> mounted.resources.Get(Limit(n)).Some?
      ensures n in pod.resources.limits ==> pod.resources.limits[n].value == mounted.resources.Get(Limit(n)).value.value
      ensures Effective(cfg, stored, n) == Effective(cfg, read, n)
    {
      EffectiveRequest(cfg, read, healed.resources, n);
      EffectiveRequest(cfg, mounted, pod.resources, n);
      assert SameValue(read.resources.Get(Limit(n)), stored.resources.Get(Limit(n)));
      assert SameValue(read.resources.Get(Request(n)), stored.resources.Get(Request(n)));
    }
  }

  lemma EffectiveRequest(cfg: Settings, r: Recipe, req: Requirements, n: ResourceName)
    requires Built(req, r.resources, cfg.defaults(ReadOnlyArgs(r.args)))
    ensures n in req.requests && req.requests[n].value == Effective(cfg, r, n)
    ensures n in req.limits <==> r.resources.Get(Limit(n)).Some?
    ensures n in req.limits ==> req.limits[n] == r.resources.Get(Limit(n)).value
  {
    assert BuiltFor(req, r.resources, cfg.defaults(ReadOnlyArgs(r.args)), n);
  }

  /** Apart from the resources, a pod's fields tell its source and its arguments. */
  lemma PodFields(cfg: Settings, volumeID: string, mountPath: string, r: Recipe, r': Recipe, req: Requirements,
                  req': Requirements)
    ensures PodWith(cfg, volumeID, mountPath, r, req').(resources := req') ==
              PodWith(cfg, volumeID, mountPath, r', req') <==>
              r.sourceType == r'.sourceType && r.sourceID == r'.sourceID && r.args == r'.args
  {
  }

  lemma ReadableRecipe(k: Codec, nodeID: string, mountPath: string, r: Recipe, spec: Spec)
    requires Lawful(k) && StoredAs(spec, k, nodeID, mountPath, r)
    ensures SameRecipe(RecipeOf(k.parse, spec), r) && (r.args != [] ==> RawArgs(spec) != [])
  {
    StoredRecipeReadsBack(k, nodeID, mountPath, r, spec, Items([]));
    var now := spec["workloads" := Items([])];
    assert RawArgs(now) == RawArgs(spec) && TextAt(now, "sourceType") == TextAt(spec, "sourceType");
    assert TextAt(now, "sourceID") == TextAt(spec, "sourceID");
  }

  /** With a token file in one of two mounts only, the object of the first does not give the pod of the second. */
  lemma OldObjectOldArguments(cfg: Settings, k: Codec, volumeID: string, mountPath: string, sourceType: string,
                              sourceID: string, o: MountOptions, token: string, resources: MountResources, spec: Spec,
                              pod: MountPod, healed: MountPod)
    requires Lawful(k) && o.tokenFile == "" && token != ""
    requires StoredAs(spec, k, cfg.nodeID, mountPath, MountRecipe(volumeID, sourceType, sourceID, o, resources))
    requires PodFor(pod, cfg, volumeID, mountPath,
                    MountRecipe(volumeID, sourceType, sourceID, o.(tokenFile := token), resources))
    requires PodFor(healed, cfg, volumeID, mountPath, RecipeOf(k.parse, spec))
    ensures !SamePod(healed, pod)
  {
    var stored := MountRecipe(volumeID, sourceType, sourceID, o, resources);
    var mounted := MountRecipe(volumeID, sourceType, sourceID, o.(tokenFile := token), resources);
    ReadableRecipe(k, cfg.nodeID, mountPath, stored, spec);
    assert |mounted.args| == |stored.args| + 2;
    assert healed.args == stored.args && pod.args == mounted.args;
  }
}
