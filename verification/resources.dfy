/**
 Resources of the FUSE daemon's container: the webhook's fold over a pod's
 volumes, and the requests and limits built from it.
 */
module Resources {
  import opened GoStrings
  import opened ReadOnlyVerdicts

  /** A quantity and the way it is spelled; comparison looks at the value alone. */
  datatype Quantity = Quantity(value: real, spelling: string)

  type Parser = string -> Option<Quantity>

  datatype Field = CpuLimit | CpuRequest | MemoryLimit | MemoryRequest

  datatype MountResources = MountResources(cpuLimit: Option<Quantity>, cpuRequest: Option<Quantity>,
                                           memoryLimit: Option<Quantity>, memoryRequest: Option<Quantity>)
  {
    function Get(f: Field): Option<Quantity> {
      match f
      case CpuLimit => cpuLimit
      case CpuRequest => cpuRequest
      case MemoryLimit => memoryLimit
      case MemoryRequest => memoryRequest
    }
  }

  const UNSET := MountResources(None, None, None, None)

  function Key(f: Field): string {
    match f
    case CpuLimit => "cpuLimit"
    case CpuRequest => "cpuRequest"
    case MemoryLimit => "memoryLimit"
    case MemoryRequest => "memoryRequest"
  }

  function ParseField(parse: Parser, attrs: Attributes, f: Field): Option<Quantity> {
    if Attr(attrs, Key(f)) == "" then None else parse(Attr(attrs, Key(f)))
  }

  function ParseMountResources(parse: Parser, attrs: Attributes): MountResources {
    MountResources(ParseField(parse, attrs, CpuLimit), ParseField(parse, attrs, CpuRequest),
                   ParseField(parse, attrs, MemoryLimit), ParseField(parse, attrs, MemoryRequest))
  }

  /** The four attributes, by name; blank ones and ones that do not parse count as unset. */
  lemma ParseMeans(parse: Parser, attrs: Attributes)
    ensures var r := ParseMountResources(parse, attrs);
            && r.cpuLimit == (if "cpuLimit" in attrs && attrs["cpuLimit"] != "" then parse(attrs["cpuLimit"]) else None)
            && r.cpuRequest ==
               (if "cpuRequest" in attrs && attrs["cpuRequest"] != "" then parse(attrs["cpuRequest"]) else None)
            && r.memoryLimit ==
               (if "memoryLimit" in attrs && attrs["memoryLimit"] != "" then parse(attrs["memoryLimit"]) else None)
            && r.memoryRequest ==
               (if "memoryRequest" in attrs && attrs["memoryRequest"] != "" then parse(attrs["memoryRequest"])
                else None)
  {
  }

  // ----- The per-field maximum

  function MaxQuantity(a: Option<Quantity>, b: Option<Quantity>): Option<Quantity> {
    if a.None? then b
    else if b.None? then a
    else if a.value.value < b.value.value then b
    else a
  }

  method MergeMaxResources(dst: MountResources, other: MountResources) returns (merged: MountResources)
    ensures forall f :: merged.Get(f) == MaxQuantity(dst.Get(f), other.Get(f))
  {
    merged := dst;
    merged := merged.(memoryLimit := MaxQuantity(merged.memoryLimit, other.memoryLimit));
    merged := merged.(memoryRequest := MaxQuantity(merged.memoryRequest, other.memoryRequest));
    merged := merged.(cpuLimit := MaxQuantity(merged.cpuLimit, other.cpuLimit));
    merged := merged.(cpuRequest := MaxQuantity(merged.cpuRequest, other.cpuRequest));
  }

  predicate AtMost(a: Option<Quantity>, b: Option<Quantity>) {
    a.Some? ==> b.Some? && a.value.value <= b.value.value
  }

  predicate Below(a: Option<Quantity>, b: Option<Quantity>) {
    a.Some? ==> b.Some? && a.value.value < b.value.value
  }

  /** q is the first of the largest hints for f, or unset if there is no hint for it. */
  ghost predicate FirstLargest(q: Option<Quantity>, hints: seq<Hint>, f: Field) {
    && (forall h :: h in hints ==> AtMost(h.resources.Get(f), q))
    && (q.Some? ==> exists i ::
        0 <= i < |hints| && hints[i].resources.Get(f) == q
        && forall j :: 0 <= j < i ==> Below(hints[j].resources.Get(f), q))
  }

  // ----- The volumes of a pod

  const DRIVER_NAME := "hf.csi.huggingface.co"

  datatype CSISource = CSISource(driver: string, readOnly: Option<bool>, attrs: Attributes)

  datatype Claim = Claim(name: string, readOnly: bool)

  datatype Volume = Volume(csi: Option<CSISource>, claim: Option<Claim>)

  datatype PVSource = PVSource(driver: string, readOnly: bool, attrs: Attributes)

  datatype PersistentVolume = PersistentVolume(csi: Option<PVSource>, mountOptions: seq<string>)

  /**
   What the API server shows: the volume each readable claim of the namespace is bound to,
   and the readable volumes.
   */
  datatype Cluster = Cluster(boundTo: map<string, string>, volumes: map<string, PersistentVolume>)

  /** The claim's volume if it is one of this driver's. */
  function ResolvePV(c: Cluster, claim: string): (r: Option<PersistentVolume>)
    ensures r.Some? ==> r.value.csi.Some? && r.value.csi.value.driver == DRIVER_NAME
  {
    if claim !in c.boundTo || c.boundTo[claim] == "" || c.boundTo[claim] !in c.volumes then None
    else
      var pv := c.volumes[c.boundTo[claim]];
      if pv.csi.None? || pv.csi.value.driver != DRIVER_NAME then None else Some(pv)
  }

  /** What one volume contributes. */
  datatype Hint = Hint(readOnly: bool, resources: MountResources, logFormat: string)

  function HintOf(c: Cluster, parse: Parser, vol: Volume): Option<Hint> {
    if vol.csi.Some? && vol.csi.value.driver == DRIVER_NAME then
      AttrsHint(parse, vol.csi.value.readOnly, vol.csi.value.attrs)
    else if vol.claim.Some? && ResolvePV(c, vol.claim.value.name).Some? then
      var pv := ResolvePV(c, vol.claim.value.name).value;
      AttrsHint(parse, Some(vol.claim.value.readOnly || pv.csi.value.readOnly || "read-only" in pv.mountOptions),
          pv.csi.value.attrs)
    else None
  }

  function AttrsHint(parse: Parser, readOnly: Option<bool>, attrs: Attributes): Option<Hint> {
    if Attr(attrs, "mountMode") == "mountpod" then None
    else Some(Hint(VolumeReadOnly(readOnly, attrs), ParseMountResources(parse, attrs), Attr(attrs, "logFormat")))
  }

  /** The contributions of the volumes served by the sidecar, in order. */
  function Hints(c: Cluster, parse: Parser, vols: seq<Volume>): seq<Hint> {
    if vols == [] then []
    else Hints(c, parse, vols[..|vols| - 1]) + Contribution(c, parse, vols[|vols| - 1])
  }

  function Contribution(c: Cluster, parse: Parser, vol: Volume): seq<Hint> {
    match HintOf(c, parse, vol) case Some(h) => [h] case None => []
  }

  ghost predicate FirstFormat(format: string, hints: seq<Hint>) {
    if format == "" then forall h :: h in hints ==> h.logFormat == ""
    else exists i ::
        0 <= i < |hints| && hints[i].logFormat == format
        && forall j :: 0 <= j < i ==> hints[j].logFormat == ""
  }

  datatype Scan = Scan(count: nat, resources: MountResources, logFormat: string, allReadOnly: bool)

  /** What a scan must find, said of the hints as a whole. */
  ghost predicate ScanOf(s: Scan, hints: seq<Hint>) {
    && s.count == |hints|
    && (s.allReadOnly <==> forall h :: h in hints ==> h.readOnly)
    && (forall f :: FirstLargest(s.resources.Get(f), hints, f))
    && FirstFormat(s.logFormat, hints)
  }

  lemma FirstLargestGrows(q: Option<Quantity>, hints: seq<Hint>, h: Hint, f: Field)
    requires FirstLargest(q, hints, f)
    ensures FirstLargest(MaxQuantity(q, h.resources.Get(f)), hints + [h], f)
  {
    var all, r := hints + [h], MaxQuantity(q, h.resources.Get(f));
    if r.Some? {
      if q.Some? && r == q {
        var i :| 0 <= i < |hints| && hints[i].resources.Get(f) == q
            && forall j :: 0 <= j < i ==> Below(hints[j].resources.Get(f), q);
        assert all[i] == hints[i] && forall j :: 0 <= j < i ==> all[j] == hints[j];
      } else {
        assert all[|hints|] == h;
        forall j | 0 <= j < |hints| ensures Below(all[j].resources.Get(f), r) {
          assert all[j] == hints[j] && hints[j] in hints;
        }
      }
    }
  }

  lemma FirstFormatGrows(format: string, hints: seq<Hint>, h: Hint)
    requires FirstFormat(format, hints)
    ensures FirstFormat(if format == "" then h.logFormat else format, hints + [h])
  {
    var all := hints + [h];
    if format != "" {
      var i :| 0 <= i < |hints| && hints[i].logFormat == format && forall j :: 0 <= j < i ==> hints[j].logFormat == "";
      assert all[i] == hints[i] && forall j :: 0 <= j < i ==> all[j] == hints[j];
    } else {
      assert all[|hints|] == h;
      assert forall j :: 0 <= j < |hints| ==> all[j] == hints[j] && hints[j] in hints;
    }
  }

  lemma ScanGrows(s: Scan, hints: seq<Hint>, h: Hint, s': Scan)
    requires ScanOf(s, hints)
    requires s'.count == s.count + 1 && s'.allReadOnly == (s.allReadOnly && h.readOnly)
    requires forall f :: s'.resources.Get(f) == MaxQuantity(s.resources.Get(f), h.resources.Get(f))
    requires s'.logFormat == if s.logFormat == "" then h.logFormat else s.logFormat
    ensures ScanOf(s', hints + [h])
  {
    forall f ensures FirstLargest(s'.resources.Get(f), hints + [h], f) {
      FirstLargestGrows(s.resources.Get(f), hints, h, f);
    }
    FirstFormatGrows(s.logFormat, hints, h);
    assert forall x :: x in hints + [h] <==> x in hints || x == h;
  }

  /** The attributes that speak for a volume: its own, or those of this driver's volume behind its claim. */
  ghost predicate SpeaksFor(c: Cluster, vol: Volume, attrs: Attributes) {
    if vol.csi.Some? && vol.csi.value.driver == "hf.csi.huggingface.co" then attrs == vol.csi.value.attrs
    else
      && vol.claim.Some? && vol.claim.value.name in c.boundTo
      && var pv := c.boundTo[vol.claim.value.name];
         && pv != "" && pv in c.volumes && c.volumes[pv].csi.Some?
         && c.volumes[pv].csi.value.driver == "hf.csi.huggingface.co" && attrs == c.volumes[pv].csi.value.attrs
  }

  /** Some read-only setting applies: of the volume, of its claim or of the claimed volume. */
  ghost predicate SetReadOnly(c: Cluster, vol: Volume) {
    if vol.csi.Some? && vol.csi.value.driver == "hf.csi.huggingface.co" then vol.csi.value.readOnly == Some(true)
    else
      && vol.claim.Some? && vol.claim.value.name in c.boundTo && c.boundTo[vol.claim.value.name] in c.volumes
      && var pv := c.volumes[c.boundTo[vol.claim.value.name]];
         vol.claim.value.readOnly || (pv.csi.Some? && pv.csi.value.readOnly) || "read-only" in pv.mountOptions
  }

  /** One volume's contribution, by the checks of the source; counted is false if it takes no part. */
  method ReadHint(c: Cluster, parse: Parser, vol: Volume) returns (counted: bool, readOnly: bool, attrs: Attributes)
    // a volume of this driver takes part unless it asks for a mount pod
    ensures counted <==> exists a :: SpeaksFor(c, vol, a) && !("mountMode" in a && a["mountMode"] == "mountpod")
    ensures counted ==> SpeaksFor(c, vol, attrs)
    ensures counted ==>
              (readOnly <==> SetReadOnly(c, vol) || ("sourceType" in attrs && attrs["sourceType"] == "repo")
                             || ("mountFlags" in attrs && FlagListed(Split(attrs["mountFlags"], ','))))
    ensures counted <==> HintOf(c, parse, vol).Some?
    ensures counted ==>
              HintOf(c, parse, vol) ==
              Some(Hint(readOnly, ParseMountResources(parse, attrs), Attr(attrs, "logFormat")))
  {
    counted, readOnly, attrs := false, false, map[];
    if vol.csi.Some? && vol.csi.value.driver == DRIVER_NAME {
      attrs := vol.csi.value.attrs;
      if Attr(attrs, "mountMode") == "mountpod" {
        return;
      }
      counted := true;
      readOnly := VolumeIsReadOnly(vol.csi.value.readOnly, attrs);
    } else if vol.claim.Some? {
      var pv := ResolvePV(c, vol.claim.value.name);
      if pv.Some? {
        attrs := pv.value.csi.value.attrs;
        if Attr(attrs, "mountMode") == "mountpod" {
          return;
        }
        counted := true;
        var byOptions := PvMountOptionsReadOnly(pv.value.mountOptions);
        readOnly := VolumeIsReadOnly(Some(vol.claim.value.readOnly || pv.value.csi.value.readOnly || byOptions), attrs);
      }
    }
  }

  /** One turn of the scan's loop. */
  method ScanVolume(c: Cluster, parse: Parser, vol: Volume, s: Scan, ghost hints: seq<Hint>) returns (next: Scan)
    requires ScanOf(s, hints)
    ensures ScanOf(next, hints + Contribution(c, parse, vol))
  {
    var counted, readOnly, attrs := ReadHint(c, parse, vol);
    if !counted {
      assert hints + [] == hints;
      return s;
    }
    var hint := ParseMountResources(parse, attrs);
    var merged := MergeMaxResources(s.resources, hint);
    var format := if s.logFormat == "" then Attr(attrs, "logFormat") else s.logFormat;
    next := Scan(s.count + 1, merged, format, s.allReadOnly && readOnly);
    ScanGrows(s, hints, Hint(readOnly, hint, Attr(attrs, "logFormat")), next);
  }

  method ScanHFCSIVolumes(c: Cluster, parse: Parser, vols: seq<Volume>) returns (s: Scan)
    ensures ScanOf(s, Hints(c, parse, vols))
  {
    s := Scan(0, UNSET, "", true);
    for i := 0 to |vols|
      invariant ScanOf(s, Hints(c, parse, vols[..i]))
    {
      assert vols[..i + 1][..i] == vols[..i];
      s := ScanVolume(c, parse, vols[i], s, Hints(c, parse, vols[..i]));
    }
    assert vols[..|vols|] == vols;
  }

  // ----- The order of the volumes

  lemma {:induction false} HintsOfConcat(c: Cluster, parse: Parser, a: seq<Volume>, b: seq<Volume>)
    ensures Hints(c, parse, a + b) == Hints(c, parse, a) + Hints(c, parse, b)
  {
    if b == [] {
      assert a + b == a;
    } else {
      assert (a + b)[..|a + b| - 1] == a + b[..|b| - 1];
      HintsOfConcat(c, parse, a, b[..|b| - 1]);
    }
  }

  lemma WithoutOne(c: Cluster, parse: Parser, front: seq<Volume>, v: Volume, back: seq<Volume>)
    ensures multiset(Hints(c, parse, front + [v] + back)) == multiset(Hints(c, parse, front + back))
              + multiset(Hints(c, parse, [v]))
  {
    HintsOfConcat(c, parse, front, back);
    HintsOfConcat(c, parse, front + [v], back);
    HintsOfConcat(c, parse, front, [v]);
  }

  lemma {:induction false} HintsOfPermutation(c: Cluster, parse: Parser, vols: seq<Volume>, vols': seq<Volume>)
    requires multiset(vols) == multiset(vols')
    ensures multiset(Hints(c, parse, vols)) == multiset(Hints(c, parse, vols'))
    decreases |vols'|
  {
    if vols' == [] {
      assert |multiset(vols)| == |multiset(vols')|;
    } else {
      var n := |vols'| - 1;
      var v, rest := vols'[n], vols'[..n];
      assert vols' == rest + [v] + [];
      var front, back := Around(vols, vols', v);
      Cancel(multiset(front + back), multiset(rest), v);
      HintsOfPermutation(c, parse, front + back, rest);
      WithoutOne(c, parse, front, v, back);
      WithoutOne(c, parse, rest, v, []);
      assert rest + [] == rest;
    }
  }

  lemma Cancel(a: multiset<Volume>, b: multiset<Volume>, v: Volume)
    requires a + multiset{v} == b + multiset{v}
    ensures a == b
  {
    assert a == (a + multiset{v}) - multiset{v} && b == (b + multiset{v}) - multiset{v};
  }

  lemma Around(vols: seq<Volume>, vols': seq<Volume>, v: Volume) returns (front: seq<Volume>, back: seq<Volume>)
    requires multiset(vols) == multiset(vols') && v in vols'
    ensures vols == front + [v] + back && multiset(front + back) + multiset{v} == multiset(vols)
  {
    assert v in multiset(vols');
    var i :| 0 <= i < |vols| && vols[i] == v;
    front, back := vols[..i], vols[i + 1..];
  }

  predicate SameValue(a: Option<Quantity>, b: Option<Quantity>) {
    a.Some? == b.Some? && (a.Some? ==> a.value.value == b.value.value)
  }

  /** The count, the read-only verdict and every merged value do not depend on the order of the volumes. */
  lemma ScanIgnoresOrder(c: Cluster, parse: Parser, vols: seq<Volume>, vols': seq<Volume>, s: Scan, s': Scan)
    requires multiset(vols) == multiset(vols')
    requires ScanOf(s, Hints(c, parse, vols)) && ScanOf(s', Hints(c, parse, vols'))
    ensures s.count == s'.count && s.allReadOnly == s'.allReadOnly
    ensures forall f :: SameValue(s.resources.Get(f), s'.resources.Get(f))
  {
    var hints, hints' := Hints(c, parse, vols), Hints(c, parse, vols');
    HintsOfPermutation(c, parse, vols, vols');
    assert |multiset(hints)| == |multiset(hints')|;
    forall h ensures h in hints <==> h in hints' {
      assert h in multiset(hints) <==> h in multiset(hints');
    }
    forall f ensures SameValue(s.resources.Get(f), s'.resources.Get(f)) {
      LargestIsLargest(hints, hints', f, s.resources.Get(f), s'.resources.Get(f));
      LargestIsLargest(hints', hints, f, s'.resources.Get(f), s.resources.Get(f));
    }
  }

  lemma LargestIsLargest(hints: seq<Hint>, hints': seq<Hint>, f: Field, q: Option<Quantity>, q': Option<Quantity>)
    requires (forall h :: h in hints <==> h in hints') && FirstLargest(q, hints, f) && FirstLargest(q', hints', f)
    ensures AtMost(q, q')
  {
  }

  /** All hints that name a log format name the same one. */
  ghost predicate FormatsAgree(hints: seq<Hint>) {
    forall h, h' :: h in hints && h' in hints && h.logFormat != "" && h'.logFormat != "" ==> h.logFormat == h'.logFormat
  }

  /** The log format does depend on the order, unless all volumes that name one name the same. */
  lemma LogFormatIgnoresOrder(hints: seq<Hint>)
    ensures (forall hints', a, b ::
               multiset(hints') == multiset(hints) && FirstFormat(a, hints) && FirstFormat(b, hints') ==> a == b)
       <==> FormatsAgree(hints)
  {
    if FormatsAgree(hints) {
      forall hints', a, b | multiset(hints') == multiset(hints) && FirstFormat(a, hints) && FirstFormat(b, hints')
        ensures a == b
      {
        forall h ensures h in hints <==> h in hints' {
          assert h in multiset(hints) <==> h in multiset(hints');
        }
        SameFormat(hints, hints', a, b);
      }
    } else {
      var h, h' :| h in hints && h' in hints && h.logFormat != "" && h'.logFormat != "" && h.logFormat != h'.logFormat;
      var p := ToFront(hints, h);
      var p' := ToFront(hints, h');
      var a := FormatOf(hints);
      assert FirstFormat(h.logFormat, p) && FirstFormat(h'.logFormat, p');
      assert a != h.logFormat || a != h'.logFormat;
    }
  }

  lemma SameFormat(hints: seq<Hint>, hints': seq<Hint>, a: string, b: string)
    requires forall h :: h in hints <==> h in hints'
    requires FormatsAgree(hints)
    requires FirstFormat(a, hints) && FirstFormat(b, hints')
    ensures a == b
  {
  }

  /** The same hints, h first. */
  lemma ToFront(hints: seq<Hint>, h: Hint) returns (p: seq<Hint>)
    requires h in hints
    ensures multiset(p) == multiset(hints) && p != [] && p[0] == h
  {
    var i :| 0 <= i < |hints| && hints[i] == h;
    p := [h] + hints[..i] + hints[i + 1..];
    assert hints == hints[..i] + [h] + hints[i + 1..];
  }

  lemma {:induction false} FormatOf(hints: seq<Hint>) returns (a: string)
    ensures FirstFormat(a, hints)
  {
    if hints == [] {
      a := "";
    } else {
      var n := |hints| - 1;
      a := FormatOf(hints[..n]);
      FirstFormatGrows(a, hints[..n], hints[n]);
      assert hints == hints[..n] + [hints[n]];
      a := if a == "" then hints[n].logFormat else a;
    }
  }

  /** The first volume that sets a field decides it exactly if no other volume sets a larger value. */
  lemma FirstHintWins(s: Scan, hints: seq<Hint>, f: Field, k: nat)
    requires ScanOf(s, hints) && k < |hints| && hints[k].resources.Get(f).Some?
    requires forall j :: 0 <= j < k ==> hints[j].resources.Get(f).None?
    ensures s.resources.Get(f) == hints[k].resources.Get(f) <==>
              forall h :: h in hints ==> AtMost(h.resources.Get(f), hints[k].resources.Get(f))
  {
    var q := s.resources.Get(f);
    assert FirstLargest(q, hints, f) && hints[k] in hints;
    var i :| 0 <= i < |hints| && hints[i].resources.Get(f) == q
        && forall j :: 0 <= j < i ==> Below(hints[j].resources.Get(f), q);
    assert hints[i] in hints;
  }

  /** So a larger second hint wins over a first one. */
  lemma SecondHintWins(first: Hint, second: Hint, f: Field, s: Scan)
    requires first.resources.Get(f).Some? && Below(first.resources.Get(f), second.resources.Get(f))
    requires ScanOf(s, [first, second])
    ensures s.resources.Get(f) == second.resources.Get(f) != first.resources.Get(f)
  {
    FirstHintWins(s, [first, second], f, 0);
    assert [first, second][1] in [first, second];
    assert FirstLargest(s.resources.Get(f), [first, second], f);
  }

  // ----- Requests and limits

  datatype ResourceName = Cpu | Memory

  function Request(r: ResourceName): Field {
    if r.Cpu? then CpuRequest else MemoryRequest
  }

  function Limit(r: ResourceName): Field {
    if r.Cpu? then CpuLimit else MemoryLimit
  }

  datatype Requirements = Requirements(requests: map<ResourceName, Quantity>, limits: map<ResourceName, Quantity>)

  method ClampRequestToLimit(req: Requirements, r: ResourceName) returns (clamped: Requirements)
    ensures clamped.limits == req.limits
    ensures clamped.requests == if r in req.requests && r in req.limits && req.requests[r].value > req.limits[r].value
                                then req.requests[r := req.limits[r]] else req.requests
  {
    clamped := req;
    if r !in req.requests || r !in req.limits {
      return;
    }
    if req.requests[r].value > req.limits[r].value {
      clamped := clamped.(requests := clamped.requests[r := req.limits[r]]);
    }
  }

  /** The wanted request, or the limit where that is smaller. */
  ghost predicate BuiltFor(req: Requirements, overrides: MountResources, defaults: ResourceName -> Quantity,
                           r: ResourceName) {
    && r in req.requests
    && (if overrides.Get(Limit(r)).Some? then r in req.limits && req.limits[r] == overrides.Get(Limit(r)).value
        else r !in req.limits)
    && var wanted := if overrides.Get(Request(r)).Some? then overrides.Get(Request(r)).value else defaults(r);
       req.requests[r] == if r in req.limits && req.limits[r].value < wanted.value then req.limits[r] else wanted
  }

  ghost predicate Built(req: Requirements, overrides: MountResources, defaults: ResourceName -> Quantity) {
    forall r :: BuiltFor(req, overrides, defaults, r)
  }

  /** The user's values over the defaults, before clamping. */
  method ApplyOverrides(overrides: MountResources, defaults: ResourceName -> Quantity) returns (req: Requirements)
    ensures forall r :: r in req.requests
                        && req.requests[r] ==
                            if overrides.Get(Request(r)).Some? then overrides.Get(Request(r)).value else defaults(r)
    ensures forall r ::
            (r in req.limits <==> overrides.Get(Limit(r)).Some?)
            && (r in req.limits ==> req.limits[r] == overrides.Get(Limit(r)).value)
  {
    var requests: map<ResourceName, Quantity> := map[Cpu := defaults(Cpu), Memory := defaults(Memory)];
    var limits: map<ResourceName, Quantity> := map[];
    if overrides.cpuRequest.Some? {
      requests := requests[Cpu := overrides.cpuRequest.value];
    }
    if overrides.memoryRequest.Some? {
      requests := requests[Memory := overrides.memoryRequest.value];
    }
    if overrides.cpuLimit.Some? {
      limits := limits[Cpu := overrides.cpuLimit.value];
    }
    if overrides.memoryLimit.Some? {
      limits := limits[Memory := overrides.memoryLimit.value];
    }
    req := Requirements(requests, limits);
    forall r ensures r in requests && requests[r] ==
        if overrides.Get(Request(r)).Some? then overrides.Get(Request(r)).value else defaults(r) {
      assert r == Cpu || r == Memory;
    }
    forall r ensures (r in limits <==> overrides.Get(Limit(r)).Some?)
        && (r in limits ==> limits[r] == overrides.Get(Limit(r)).value) {
      assert r == Cpu || r == Memory;
    }
  }

  method BuildResourceRequirements(overrides: MountResources, defaults: ResourceName -> Quantity)
      returns (req: Requirements)
    ensures Built(req, overrides, defaults)
    // the two limits are the user's
    ensures (Cpu in req.limits <==> overrides.cpuLimit.Some?) && (Memory in req.limits <==> overrides.memoryLimit.Some?)
    ensures Cpu in req.limits ==> req.limits[Cpu] == overrides.cpuLimit.value
    ensures Memory in req.limits ==> req.limits[Memory] == overrides.memoryLimit.value
    // the two requests are the user's, or the defaults, but never above the limit
    ensures Cpu in req.requests && Memory in req.requests
    ensures var wanted := if overrides.cpuRequest.Some? then overrides.cpuRequest.value else defaults(Cpu);
            req.requests[Cpu] == if Cpu in req.limits && req.limits[Cpu].value < wanted.value then req.limits[Cpu]
                                 else wanted
    ensures var wanted := if overrides.memoryRequest.Some? then overrides.memoryRequest.value else defaults(Memory);
            req.requests[Memory] ==
            if Memory in req.limits && req.limits[Memory].value < wanted.value then req.limits[Memory] else wanted
  {
    req := ApplyOverrides(overrides, defaults);
    req := ClampRequestToLimit(req, Cpu);
    req := ClampRequestToLimit(req, Memory);
    forall r ensures BuiltFor(req, overrides, defaults, r) {
      assert r == Cpu || r == Memory;
    }
    assert BuiltFor(req, overrides, defaults, Cpu) && BuiltFor(req, overrides, defaults, Memory);
  }

  /** No request exceeds its limit, so the API server accepts the container. */
  lemma RequestsWithinLimits(req: Requirements, overrides: MountResources, defaults: ResourceName -> Quantity,
                             r: ResourceName)
    requires Built(req, overrides, defaults)
    ensures r in req.requests && (r in req.limits ==> req.requests[r].value <= req.limits[r].value)
    ensures var wanted := if overrides.Get(Request(r)).Some? then overrides.Get(Request(r)).value else defaults(r);
            var limit := overrides.Get(Limit(r));
            req.requests[r].value == if limit.Some? && limit.value.value < wanted.value then limit.value.value
                else wanted.value
  {
    assert BuiltFor(req, overrides, defaults, r);
  }

  // ----- Defaults an operator can replace at startup

  class Defaults {
    var writable: Quantity
    var readOnly: Quantity

    constructor ()
      ensures writable == Quantity(2147483648.0, "2Gi") && readOnly == Quantity(134217728.0, "128Mi")
    {
      writable, readOnly := Quantity(2147483648.0, "2Gi"), Quantity(134217728.0, "128Mi");
    }

    /** Both are replaced, or neither if one of them does not parse. */
    method SetDefaultMemoryRequests(parse: Parser, writableText: string, readOnlyText: string) returns (ok: bool)
      modifies this
      ensures ok <==> parse(writableText).Some? && parse(readOnlyText).Some?
      ensures ok ==> Some(writable) == parse(writableText) && Some(readOnly) == parse(readOnlyText)
      ensures !ok ==> writable == old(writable) && readOnly == old(readOnly)
    {
      var w, r := parse(writableText), parse(readOnlyText);
      if w.None? || r.None? {
        return false;
      }
      writable, readOnly := w.value, r.value;
      return true;
    }

    function For(allReadOnly: bool): ResourceName -> Quantity
      reads this
    {
      var memory := if allReadOnly then readOnly else writable;
      (r: ResourceName) => if r.Cpu? then Quantity(0.01, "10m") else memory
    }

    /** The sidecar container's resources: the scan of the pod's volumes, then the requirements built from it. */
    method SidecarResources(c: Cluster, parse: Parser, vols: seq<Volume>) returns (s: Scan, req: Requirements)
      ensures ScanOf(s, Hints(c, parse, vols)) && Built(req, s.resources, For(s.allReadOnly))
      // with no hint the request is 10m of CPU, and the memory default for what all the volumes are
      ensures s.resources == MountResources(None, None, None, None) ==>
                && Cpu !in req.limits && Memory !in req.limits
                && Cpu in req.requests && req.requests[Cpu] == Quantity(0.01, "10m")
                && Memory in req.requests && req.requests[Memory] == if s.allReadOnly then readOnly else writable
    {
      s := ScanHFCSIVolumes(c, parse, vols);
      req := BuildResourceRequirements(s.resources, For(s.allReadOnly));
    }
  }

  /** End to end: whatever the order of a pod's volumes, the sidecar gets the same requests and limits by value. */
  lemma SidecarIgnoresOrder(c: Cluster, parse: Parser, vols: seq<Volume>, vols': seq<Volume>, s: Scan, s': Scan,
                            defaults: bool -> ResourceName -> Quantity, req: Requirements, req': Requirements,
                            r: ResourceName)
    requires multiset(vols) == multiset(vols')
    requires ScanOf(s, Hints(c, parse, vols)) && Built(req, s.resources, defaults(s.allReadOnly))
    requires ScanOf(s', Hints(c, parse, vols')) && Built(req', s'.resources, defaults(s'.allReadOnly))
    ensures r in req.requests && r in req'.requests && req.requests[r].value == req'.requests[r].value
    ensures r in req.limits <==> r in req'.limits
    ensures r in req.limits ==> req.limits[r].value == req'.limits[r].value
  {
    ScanIgnoresOrder(c, parse, vols, vols', s, s');
    assert BuiltFor(req, s.resources, defaults(s.allReadOnly), r)
        && BuiltFor(req', s'.resources, defaults(s'.allReadOnly), r);
    assert SameValue(s.resources.Get(Limit(r)), s'.resources.Get(Limit(r)));
    assert SameValue(s.resources.Get(Request(r)), s'.resources.Get(Request(r)));
  }
}
