/**
 Mount attempts on one volume: which of its attempts keep, delete or reuse the
 mount pod and the HFMount object. The cluster moves on its own between the
 driver's calls: `world` says what happens to the pod at each tick, `fails`
 which API calls fail (without effect), `seen` what the mount check reports.
 */
module MountAttempts {
  import opened GoStrings

  const CRASH_LOOP_RESTARTS: nat := 2

  datatype Phase = Pending | Running | Failed | Succeeded

  datatype Pod = Pod(uid: nat, phase: Phase, deleting: bool, restarts: nat) {
    predicate Terminal() {
      phase.Failed? || phase.Succeeded?
    }
  }

  /** What can happen to the pod behind the driver's back; a replacement (say by a heal) is a new pod. */
  datatype PodEvent =
    | Nothing
    | Reports(phase: Phase, restarts: nat)
    | MarkedForDeletion
    | Removed
    | Replaced

  function Evolve(pod: Option<Pod>, event: PodEvent, nextUid: nat): Option<Pod> {
    match (pod, event)
    case (Some(p), Reports(phase, restarts)) => Some(p.(phase := phase, restarts := restarts))
    case (Some(p), MarkedForDeletion) => Some(p.(deleting := true))
    case (_, Removed) => None
    case (_, Replaced) => Some(Pod(nextUid, Pending, false, 0))
    case _ => pod
  }

  datatype Wait = Ready | TimedOut | Fatal

  datatype ApiResult<+T> = Found(value: T) | NotFound | ApiError

  datatype CreateResult = Created | AlreadyExists | CreateError

  datatype Outcome =
    | Mounted
    | CrdFailed
    | CreateFailed
    | GetFailed
    | StaleRemains
    | RecreateFailed
    | NotReady
    | PodFatal
    | BindFailed

  /** The driver's calls about the pod, in order; a create remembers how long the object's log was then. */
  datatype PodCall = CreateSent(answer: CreateResult, events: nat) | GetSent(result: ApiResult<Pod>) | DeleteSent

  ghost predicate OnlyGets(calls: seq<PodCall>) {
    forall i :: 0 <= i < |calls| ==> calls[i].GetSent?
  }

  /** No pod judged fatal can be taken for a usable one: it is gone or being deleted. */
  ghost predicate NoFatalPod(pod: Option<Pod>, judged: set<nat>) {
    pod.Some? && pod.value.uid in judged ==> pod.value.deleting
  }

  // ----- What happens to the HFMount object

  /** The object as the set of targets it lists; others edit it too. */
  type Object = Option<set<string>>

  datatype ObjectEvent =
    | Edited(edit: Object -> Object)
    | Made
    | Listed(target: string)
    | Deleted

  function Replay(log: seq<ObjectEvent>): Object {
    if log == [] then None
    else
      var before := Replay(log[..|log| - 1]);
      match log[|log| - 1]
      case Edited(edit) => edit(before)
      case Made => Some({})
      case Listed(target) => if before.Some? then Some(before.value + {target}) else None
      case Deleted => None
  }

  /** The log grew by edits of others only. */
  ghost predicate OthersOnly(log: seq<ObjectEvent>, log': seq<ObjectEvent>) {
    && |log| <= |log'|
    && (forall i :: 0 <= i < |log| ==> log'[i] == log[i])
    && (forall i :: |log| <= i < |log'| ==> log'[i].Edited?)
  }

  /** The log grew, but by no deletion of the driver's. */
  ghost predicate Undeleted(log: seq<ObjectEvent>, log': seq<ObjectEvent>) {
    && |log| <= |log'|
    && (forall i :: 0 <= i < |log| ==> log'[i] == log[i])
    && (forall i :: |log| <= i < |log'| ==> !log'[i].Deleted?)
  }

  ghost predicate UidsIssued(pod: Option<Pod>, judged: set<nat>, nextUid: nat) {
    (pod.Some? ==> pod.value.uid < nextUid) && forall u :: u in judged ==> u < nextUid
  }

  /** Neither terminal nor crash-looping. */
  predicate Healthy(pod: Pod) {
    !pod.Terminal() && pod.restarts < CRASH_LOOP_RESTARTS
  }

  /**
   How the calls of one attempt's start decide its outcome: a create; if the pod
   exists, a look at it; only if it is terminal or being deleted, the delete (if
   it is not under way), looks until it is gone, and one more create.
   */
  ghost predicate ObtainedBy(calls: seq<PodCall>, r: Option<Outcome>, created: bool, reused: Option<nat>) {
    && calls != [] && calls[0].CreateSent?
    && match calls[0].answer
       case Created => |calls| == 1 && r == None && created && reused == None
       case CreateError => |calls| == 1 && r == Some(CreateFailed)
       case AlreadyExists =>
         && |calls| >= 2 && calls[1].GetSent?
         && if !calls[1].result.Found? then |calls| == 2 && r == Some(GetFailed)
            else
              var p := calls[1].result.value;
              if !p.deleting && p.phase != Failed && p.phase != Succeeded then
                |calls| == 2 && r == None && !created && reused == Some(p.uid)
              else if p.deleting then ReplacedBy(calls[2..], r, created)
              else |calls| >= 3 && calls[2].DeleteSent? && ReplacedBy(calls[3..], r, created)
  }

  /** Looks until the pod is gone, and then the second create; or looks in vain. */
  ghost predicate ReplacedBy(calls: seq<PodCall>, r: Option<Outcome>, created: bool) {
    var n := |calls| - 1;
    if calls == [] || calls[n].GetSent? then
      r == Some(StaleRemains) && !created && forall i :: 0 <= i <= n ==> calls[i].GetSent?
    else
      && n > 0 && calls[n].CreateSent? && calls[n - 1] == GetSent(NotFound)
      && (forall i :: 0 <= i < n ==> calls[i].GetSent?)
      && created == calls[n].answer.Created? && r == if created then None else Some(RecreateFailed)
  }

  /** The only delete among them is the one right after the look, of a terminal pod that is not being deleted. */
  ghost predicate DeletesStaleOnly(calls: seq<PodCall>) {
    forall i :: 0 <= i < |calls| && calls[i].DeleteSent? ==>
        i == 2 && calls[1].GetSent? && calls[1].result.Found?
        && !calls[1].result.value.deleting && calls[1].result.value.phase in {Failed, Succeeded}
  }

  /** The pod exists, and the look finds one that is neither terminal nor being deleted. */
  ghost predicate FindsUsable(calls: seq<PodCall>) {
    && |calls| >= 2 && calls[0].CreateSent? && calls[0].answer.AlreadyExists?
    && calls[1].GetSent? && calls[1].result.Found?
    && !calls[1].result.value.deleting && calls[1].result.value.phase !in {Failed, Succeeded}
  }

  lemma ReplacedDeletesNothing(calls: seq<PodCall>, r: Option<Outcome>, created: bool)
    requires ReplacedBy(calls, r, created)
    ensures forall i :: 0 <= i < |calls| ==> !calls[i].DeleteSent?
  {
  }

  lemma ObtainedDeletes(calls: seq<PodCall>, r: Option<Outcome>, created: bool, reused: Option<nat>)
    requires ObtainedBy(calls, r, created, reused)
    ensures DeletesStaleOnly(calls)
    ensures FindsUsable(calls) ==> r == None && !created && reused == Some(calls[1].result.value.uid)
  {
    if |calls| > 2 {
      var front := if calls[1].result.value.deleting then 2 else 3;
      ReplacedDeletesNothing(calls[front..], r, created);
      forall i | front <= i < |calls| ensures !calls[i].DeleteSent? {
        assert calls[front..][i - front] == calls[i];
      }
    }
  }

  /** Looks that follow change none of that. */
  lemma LooksDeleteNothing(calls: seq<PodCall>, more: seq<PodCall>)
    requires DeletesStaleOnly(calls) && calls != [] && OnlyGets(more) && calls[0].CreateSent?
    requires |calls| == 1 ==> !calls[0].answer.AlreadyExists?
    ensures DeletesStaleOnly(calls + more) && (calls + more)[0] == calls[0]
    ensures FindsUsable(calls + more) ==> FindsUsable(calls) && (calls + more)[1] == calls[1]
  {
  }

  class VolumeMounter {
    const source: string
    const world: nat -> PodEvent
    const fails: nat -> bool
    const seen: nat -> Option<bool>
    const edits: nat -> (Object -> Object)
    var clock: nat
    var pod: Option<Pod>
    var nextUid: nat
    var crd: Object
    ghost var crdLog: seq<ObjectEvent>
    ghost var calls: seq<PodCall>
    var binds: map<string, string>
    /** Pods some wait has judged fatal. */
    ghost var judged: set<nat>

    ghost predicate Valid()
      reads this
    {
      UidsIssued(pod, judged, nextUid) && crd == Replay(crdLog)
    }

    constructor (source: string, world: nat -> PodEvent, fails: nat -> bool, seen: nat -> Option<bool>,
                 edits: nat -> (Object -> Object))
      ensures Valid() && NoFatalPod(pod, judged) && binds == map[]
    {
      this.source, this.world, this.fails, this.seen, this.edits := source, world, fails, seen, edits;
      clock, pod, nextUid, crd, crdLog, calls, binds, judged := 0, None, 0, None, [], [], map[], {};
    }

    // ----- The cluster

    /** One tick passes before every call. */
    method Tick()
      requires Valid()
      modifies this`clock, this`pod, this`nextUid, this`crd, this`crdLog
      ensures OthersOnly(old(crdLog), crdLog)
      ensures Valid() && clock == old(clock) + 1 && nextUid == old(nextUid) + 1
              && pod == Evolve(old(pod), world(old(clock)), old(nextUid))
      ensures old(NoFatalPod(pod, judged)) ==> NoFatalPod(pod, judged)
    {
      pod := Evolve(pod, world(clock), nextUid);
      ghost var before := crdLog;
      crdLog := crdLog + [Edited(edits(clock))];
      assert crdLog[..|crdLog| - 1] == before;
      crd := edits(clock)(crd);
      clock, nextUid := clock + 1, nextUid + 1;
    }

    method CreatePod() returns (r: CreateResult)
      requires Valid()
      modifies this`clock, this`pod, this`nextUid, this`crd, this`crdLog, this`calls
      ensures OthersOnly(old(crdLog), crdLog) && calls == old(calls) + [CreateSent(r, |crdLog|)]
      ensures Valid() && nextUid >= old(nextUid)
      ensures old(NoFatalPod(pod, judged)) ==> NoFatalPod(pod, judged)
      ensures r.Created? ==>
              pod.Some? && pod.value.uid >= old(nextUid) && pod.value.phase.Pending?
              && !pod.value.deleting
      ensures r.AlreadyExists? ==> pod.Some?
    {
      Tick();
      if fails(clock) {
        r := CreateError;
      } else if pod.Some? {
        r := AlreadyExists;
      } else {
        pod, nextUid := Some(Pod(nextUid, Pending, false, 0)), nextUid + 1;
        r := Created;
      }
      calls := calls + [CreateSent(r, |crdLog|)];
    }

    method GetPod() returns (r: ApiResult<Pod>)
      requires Valid()
      modifies this`clock, this`pod, this`nextUid, this`crd, this`crdLog, this`calls
      ensures OthersOnly(old(crdLog), crdLog) && calls == old(calls) + [GetSent(r)]
      ensures Valid() && nextUid >= old(nextUid)
      ensures old(NoFatalPod(pod, judged)) ==> NoFatalPod(pod, judged)
      ensures r == if fails(clock) then ApiError else match pod case Some(p) => Found(p) case None => NotFound
    {
      Tick();
      if fails(clock) {
        r := ApiError;
      } else {
        r := match pod case Some(p) => Found(p) case None => NotFound;
      }
      calls := calls + [GetSent(r)];
    }

    /** A delete only marks the pod; it goes away later. */
    method DeletePod() returns (ok: bool)
      requires Valid()
      modifies this`clock, this`pod, this`nextUid, this`crd, this`crdLog, this`calls
      ensures OthersOnly(old(crdLog), crdLog) && calls == old(calls) + [DeleteSent]
      ensures Valid() && nextUid >= old(nextUid)
      ensures old(NoFatalPod(pod, judged)) ==> NoFatalPod(pod, judged)
      ensures ok == !fails(clock) && (ok ==> pod.None? || pod.value.deleting)
    {
      Tick();
      ok := !fails(clock);
      if ok && pod.Some? {
        pod := Some(pod.value.(deleting := true));
      }
      calls := calls + [DeleteSent];
    }

    // ----- The waits; each ends by its deadline after `polls` more looks

    method WaitForPodRunning(polls: nat) returns (w: Wait, ghost looks: seq<PodCall>)
      requires Valid()
      modifies this`clock, this`pod, this`nextUid, this`crd, this`crdLog, this`calls, this`judged
      ensures OthersOnly(old(crdLog), crdLog) && calls == old(calls) + looks && OnlyGets(looks)
      ensures Valid() && nextUid >= old(nextUid)
      ensures w.Ready? ==> pod.Some? && pod.value.phase.Running?
      ensures w.TimedOut? ==> fails(clock) || pod.None? || pod.value.phase.Pending?
      ensures w.Fatal? ==>
                pod.Some? && pod.value.phase in {Failed, Succeeded} && judged == old(judged) + {pod.value.uid}
      ensures !w.Fatal? ==> judged == old(judged) && (old(NoFatalPod(pod, judged)) ==> NoFatalPod(pod, judged))
    {
      looks := [];
      for i := 0 to polls + 1
        invariant OthersOnly(old(crdLog), crdLog) && Valid() && judged == old(judged) && nextUid >= old(nextUid)
        invariant calls == old(calls) + looks && OnlyGets(looks)
        invariant i > 0 ==> fails(clock) || pod.None? || pod.value.phase.Pending?
        invariant old(NoFatalPod(pod, judged)) ==> NoFatalPod(pod, judged)
      {
        var got := GetPod();
        looks := looks + [GetSent(got)];
        if got.Found? {
          if got.value.phase.Running? {
            return Ready, looks;
          }
          if got.value.Terminal() {
            judged := judged + {got.value.uid};
            return Fatal, looks;
          }
        }
      }
      return TimedOut, looks;
    }

    method WaitForMount(polls: nat) returns (w: Wait, ghost looks: seq<PodCall>)
      requires Valid()
      modifies this`clock, this`pod, this`nextUid, this`crd, this`crdLog, this`calls, this`judged
      ensures OthersOnly(old(crdLog), crdLog) && calls == old(calls) + looks && OnlyGets(looks)
      ensures Valid() && nextUid >= old(nextUid)
      ensures w.Ready? ==> seen(clock) == Some(true)
      ensures w.TimedOut? ==>
                fails(clock) || (pod.Some? && pod.value.phase in {Pending, Running} && pod.value.restarts < 2)
      ensures w.Fatal? ==>
                if pod.None? then judged == old(judged)
                else (pod.value.phase in {Failed, Succeeded} || pod.value.restarts >= 2)
                     && judged == old(judged) + {pod.value.uid}
      ensures !w.Fatal? ==> judged == old(judged) && (old(NoFatalPod(pod, judged)) ==> NoFatalPod(pod, judged))
    {
      looks := [];
      for i := 0 to polls + 1
        invariant OthersOnly(old(crdLog), crdLog) && Valid() && judged == old(judged) && nextUid >= old(nextUid)
        invariant calls == old(calls) + looks && OnlyGets(looks)
        invariant i > 0 ==> fails(clock) || (pod.Some? && Healthy(pod.value))
        invariant old(NoFatalPod(pod, judged)) ==> NoFatalPod(pod, judged)
      {
        if seen(clock) == Some(true) {
          return Ready, looks;
        }
        var got := GetPod();
        looks := looks + [GetSent(got)];
        if got.NotFound? {
          return Fatal, looks;
        }
        if got.Found? && (got.value.Terminal() || got.value.restarts >= CRASH_LOOP_RESTARTS) {
          judged := judged + {got.value.uid};
          return Fatal, looks;
        }
      }
      return TimedOut, looks;
    }

    method WaitForPodDeletion(polls: nat) returns (gone: bool, ghost looks: seq<PodCall>)
      requires Valid()
      modifies this`clock, this`pod, this`nextUid, this`crd, this`crdLog, this`calls
      ensures OthersOnly(old(crdLog), crdLog) && calls == old(calls) + looks && OnlyGets(looks)
      ensures Valid() && nextUid >= old(nextUid)
      ensures old(NoFatalPod(pod, judged)) ==> NoFatalPod(pod, judged)
      ensures gone ==> pod.None? && looks != [] && looks[|looks| - 1] == GetSent(NotFound)
    {
      looks := [];
      for i := 0 to polls
        invariant OthersOnly(old(crdLog), crdLog) && Valid() && nextUid >= old(nextUid)
        invariant calls == old(calls) + looks && OnlyGets(looks)
        invariant old(NoFatalPod(pod, judged)) ==> NoFatalPod(pod, judged)
      {
        var got := GetPod();
        looks := looks + [GetSent(got)];
        if got.NotFound? {
          return true, looks;
        }
      }
      return false, looks;
    }

    // ----- One attempt

    /** Get a mount pod: create it, reuse the existing one, or replace a stale one. */
    method ObtainPod(polls: nat)
      returns (r: Option<Outcome>, created: bool, reused: Option<nat>, ghost asked: seq<PodCall>)
      requires Valid() && NoFatalPod(pod, judged)
      modifies this`clock, this`pod, this`nextUid, this`crd, this`crdLog, this`calls
      ensures OthersOnly(old(crdLog), crdLog)
      ensures Valid() && nextUid >= old(nextUid) && NoFatalPod(pod, judged)
      ensures r.Some? ==> r.value in {CreateFailed, GetFailed, StaleRemains, RecreateFailed} && !created && reused.None?
      ensures r.None? ==> created != reused.Some?
      ensures reused.Some? ==> reused.value !in judged
      ensures reused.Some? ==>
              pod.Some? && pod.value.uid == reused.value && !pod.value.deleting
              && !pod.value.Terminal()
      ensures created ==> pod.Some? && pod.value.uid >= old(nextUid) && pod.value.phase.Pending? && !pod.value.deleting
      // call by call: what the server answered decides, and a usable pod is reused without another call
      ensures calls == old(calls) + asked && ObtainedBy(asked, r, created, reused)
      ensures asked[0].events >= |old(crdLog)|
    {
      r, created, reused := None, false, None;
      var c := CreatePod();
      asked := [CreateSent(c, |crdLog|)];
      if c.Created? {
        created := true;
      } else if c.CreateError? {
        r := Some(CreateFailed);
      } else {
        var got := GetPod();
        asked := asked + [GetSent(got)];
        if !got.Found? {
          return Some(GetFailed), false, None, asked;
        }
        if got.value.deleting || got.value.Terminal() {
          ghost var more;
          r, created, more := ReplacePod(polls, got.value.deleting);
          asked := asked + more;
        } else {
          reused := Some(got.value.uid);
        }
      }
    }

    /** Delete the pod unless that is under way, wait until it is gone, and create it again. */
    method ReplacePod(polls: nat, deleting: bool) returns (r: Option<Outcome>, created: bool, ghost more: seq<PodCall>)
      requires Valid() && NoFatalPod(pod, judged)
      modifies this`clock, this`pod, this`nextUid, this`crd, this`crdLog, this`calls
      ensures OthersOnly(old(crdLog), crdLog)
      ensures Valid() && nextUid >= old(nextUid) && NoFatalPod(pod, judged)
      ensures r.Some? ==> r.value in {StaleRemains, RecreateFailed}
      ensures r == None <==> created
      ensures created ==> pod.Some? && pod.value.uid >= old(nextUid) && pod.value.phase.Pending? && !pod.value.deleting
      ensures calls == old(calls) + more
      ensures if deleting then ReplacedBy(more, r, created)
              else more != [] && more[0].DeleteSent? && ReplacedBy(more[1..], r, created)
    {
      if !deleting {
        var _ := DeletePod();
      }
      var gone, looks := WaitForPodDeletion(polls);
      if gone {
        var c := CreatePod();
        created := c.Created?;
        r := if created then None else Some(RecreateFailed);
        looks := looks + [CreateSent(c, |crdLog|)];
      } else {
        r, created := Some(StaleRemains), false;
      }
      more := (if deleting then [] else [DeleteSent]) + looks;
    }

    /**
     One Mount attempt. `cleanedPod` and `cleanedCrd` say which deferred deletes
     ran, `deletesOk` whether the pod's succeeded if it ran; `crdStays` makes the
     object's fail.
     */
    method Mount(target: string, polls: nat, crdFails: bool, listFails: bool, bindFails: bool, crdStays: bool)
      returns (outcome: Outcome, created: bool, reused: Option<nat>, cleanedPod: bool, cleanedCrd: bool,
               deletesOk: bool, ghost asked: seq<PodCall>)
      requires Valid() && NoFatalPod(pod, judged)
      modifies this
      ensures Valid()
      // the binds map changes on success only
      ensures binds == if outcome.Mounted? then old(binds)[target := source] else old(binds)
      ensures outcome.Mounted? ==> seen(clock) == Some(true) && !bindFails
      ensures outcome.BindFailed? ==> bindFails
      // a pure timeout keeps the pod and the object, and so does success; a fatal wait deletes the
      // pod, created or reused
      ensures outcome.NotReady? || outcome.Mounted? ==> !cleanedPod && !cleanedCrd
      ensures outcome.PodFatal? ==> cleanedPod && cleanedCrd == created
      ensures outcome.BindFailed? ==> cleanedPod == cleanedCrd == created
      ensures outcome in {CrdFailed, GetFailed, StaleRemains, RecreateFailed} ==> !cleanedPod && !cleanedCrd
      ensures outcome.CreateFailed? ==> !cleanedPod && cleanedCrd
      // so the object goes only with a pod of this attempt, or when the first create failed outright
      ensures cleanedCrd ==> created || outcome.CreateFailed?
      ensures cleanedCrd && !crdStays ==> crd == None
      // whatever others do to it, this attempt never deletes it otherwise
      ensures |old(crdLog)| <= |crdLog| && forall i :: 0 <= i < |old(crdLog)| ==> crdLog[i] == old(crdLog)[i]
      ensures forall i :: |old(crdLog)| <= i < |crdLog| && crdLog[i].Deleted? ==> cleanedCrd && !crdStays
      ensures cleanedPod && deletesOk ==> pod.None? || pod.value.deleting
      // a pod once judged fatal is not reused, and stays unusable as long as deletes succeed
      ensures reused.Some? ==> reused.value !in old(judged)
      ensures !outcome.PodFatal? || deletesOk ==> NoFatalPod(pod, judged)
      ensures old(judged) <= judged && (!outcome.PodFatal? ==> judged == old(judged))
      // a pod is deleted only if it was found terminal, after a fatal wait, or after a failed bind of an own pod
      ensures calls == old(calls) + asked && (outcome.CrdFailed? <==> asked == [])
      ensures cleanedPod ==> asked != [] && asked[|asked| - 1].DeleteSent?
      ensures DeletesStaleOnly(if cleanedPod then asked[..|asked| - 1] else asked)
      // a usable pod is reused, so that a retry resumes what an earlier attempt began
      ensures FindsUsable(asked) ==> !created && reused == Some(asked[1].result.value.uid)
      // the target is listed in the object before the pod is asked for
      ensures asked != [] ==> asked[0].CreateSent?
      ensures asked != [] && !listFails ==>
                exists i :: |old(crdLog)| <= i < |crdLog| && i < asked[0].events
                            && crdLog[i].Listed? && crdLog[i].target == target
    {
      created, reused, cleanedPod, cleanedCrd, deletesOk := false, None, false, false, true;
      var registered := EnsureObject(crdFails);
      if !registered {
        outcome, asked := CrdFailed, [];
        return;
      }
      AddWorkload(target, listFails);
      ghost var listed := crdLog;
      assert !listFails ==> listed[|listed| - 1].Listed? && listed[|listed| - 1].target == target;
      var cleanupPod, cleanupCrd;
      outcome, created, reused, cleanupPod, cleanupCrd, asked := ReachMount(target, polls, bindFails);
      deletesOk := CleanUp(cleanupPod, cleanupCrd, crdStays);
      cleanedPod, cleanedCrd := cleanupPod, cleanupCrd;
      if cleanedPod {
        asked := asked + [DeleteSent];
      }
    }

    /** The deferred deletes. */
    method CleanUp(cleanupPod: bool, cleanupCrd: bool, crdStays: bool) returns (deletesOk: bool)
      requires Valid()
      modifies this`clock, this`pod, this`nextUid, this`crd, this`crdLog, this`calls
      ensures Valid() && (old(NoFatalPod(pod, judged)) ==> NoFatalPod(pod, judged))
      ensures calls == old(calls) + if cleanupPod then [DeleteSent] else []
      ensures cleanupPod && deletesOk ==> pod.None? || pod.value.deleting
      ensures !cleanupPod ==> deletesOk && pod == old(pod) && clock == old(clock)
      ensures cleanupCrd && !crdStays ==> crd == None
      ensures |old(crdLog)| <= |crdLog| && forall i :: 0 <= i < |old(crdLog)| ==> crdLog[i] == old(crdLog)[i]
      ensures forall i :: |old(crdLog)| <= i < |crdLog| && crdLog[i].Deleted? ==> cleanupCrd && !crdStays
    {
      deletesOk := true;
      if cleanupPod {
        deletesOk := DeletePod();
      }
      if cleanupCrd && !crdStays {
        Write(Deleted);
      }
    }

    /** Create the HFMount object; that there is one already is no failure. */
    method EnsureObject(crdFails: bool) returns (ok: bool)
      requires Valid()
      modifies this`clock, this`pod, this`nextUid, this`crd, this`crdLog
      ensures Valid() && (old(NoFatalPod(pod, judged)) ==> NoFatalPod(pod, judged))
      ensures Undeleted(old(crdLog), crdLog)
      ensures ok <==> !crdFails
      ensures ok ==> crd.Some?
    {
      Tick();
      ok := !crdFails;
      if crd.None? && ok {
        Write(Made);
      }
    }

    /** List the target in the object; without an object the update does nothing, and it may fail. */
    method AddWorkload(target: string, listFails: bool)
      requires Valid()
      modifies this`clock, this`pod, this`nextUid, this`crd, this`crdLog
      ensures Valid() && (old(NoFatalPod(pod, judged)) ==> NoFatalPod(pod, judged))
      ensures Undeleted(old(crdLog), crdLog)
      ensures !listFails && crd.Some? ==> target in crd.value
      ensures !listFails ==>
                |crdLog| > |old(crdLog)| && crdLog[|crdLog| - 1].Listed? && crdLog[|crdLog| - 1].target == target
    {
      Tick();
      if !listFails {
        Write(Listed(target));
      }
    }

    /** One write of the driver to the object. */
    method Write(e: ObjectEvent)
      requires Valid() && !e.Edited?
      modifies this`crd, this`crdLog
      ensures Valid() && crdLog == old(crdLog) + [e]
    {
      ghost var before := crdLog;
      match e {
        case Made => crd := Some({});
        case Listed(target) => crd := if crd.Some? then Some(crd.value + {target}) else None;
        case Deleted => crd := None;
      }
      crdLog := crdLog + [e];
      assert crdLog[..|crdLog| - 1] == before;
    }

    /** From the pod to the bind; the two flags are what the deferred cleanup will find set. */
    method ReachMount(target: string, polls: nat, bindFails: bool)
      returns (outcome: Outcome, created: bool, reused: Option<nat>, cleanupPod: bool, cleanupCrd: bool,
               ghost asked: seq<PodCall>)
      requires Valid() && NoFatalPod(pod, judged)
      modifies this`clock, this`pod, this`nextUid, this`crd, this`crdLog, this`calls, this`judged, this`binds
      ensures OthersOnly(old(crdLog), crdLog)
      ensures Valid() && !outcome.CrdFailed?
      ensures binds == if outcome.Mounted? then old(binds)[target := source] else old(binds)
      ensures outcome.Mounted? ==> seen(clock) == Some(true) && !bindFails
      ensures outcome.BindFailed? ==> bindFails
      ensures outcome.NotReady? || outcome.Mounted? ==> !cleanupPod && !cleanupCrd
      ensures outcome.PodFatal? ==> cleanupPod && cleanupCrd == created
      ensures outcome.BindFailed? ==> cleanupPod == cleanupCrd == created
      ensures outcome in {GetFailed, StaleRemains, RecreateFailed} ==> !cleanupPod && !cleanupCrd
      ensures outcome.CreateFailed? ==> !cleanupPod && cleanupCrd
      ensures reused.Some? ==> reused.value !in old(judged)
      ensures !outcome.PodFatal? ==> judged == old(judged) && NoFatalPod(pod, judged)
      ensures old(judged) <= judged
      ensures calls == old(calls) + asked && DeletesStaleOnly(asked)
      ensures asked != [] && asked[0].CreateSent? && asked[0].events >= |old(crdLog)|
      ensures FindsUsable(asked) ==> !created && reused == Some(asked[1].result.value.uid)
    {
      created, reused, cleanupPod, cleanupCrd := false, None, false, false;
      var obtained: Option<Outcome>;
      obtained, created, reused, asked := ObtainPod(polls);
      if obtained.Some? {
        outcome := obtained.value;
        cleanupCrd := outcome.CreateFailed?;
        ObtainedDeletes(asked, obtained, created, reused);
        return;
      }
      cleanupPod, cleanupCrd := created, created;
      var w, looks := WaitForPodRunning(polls);
      if w.Ready? {
        ghost var more;
        w, more := WaitForMount(polls);
        looks := looks + more;
      }
      ObtainedDeletes(asked, obtained, created, reused);
      LooksDeleteNothing(asked, looks);
      asked := asked + looks;
      if w.TimedOut? {
        outcome, cleanupPod, cleanupCrd := NotReady, false, false;
      } else if w.Fatal? {
        outcome, cleanupPod := PodFatal, true;
      } else if bindFails {
        outcome := BindFailed;
      } else {
        binds := binds[target := source];
        outcome, cleanupPod, cleanupCrd := Mounted, false, false;
      }
    }

    /**
     Any number of attempts, as long as every cleanup delete succeeds: none
     reuses a pod that an earlier one judged fatal.
     */
    method Retry(target: string, polls: nat, attempts: nat, crdFails: nat -> bool, listFails: nat -> bool,
                 bindFails: nat -> bool, crdStays: nat -> bool)
      returns (mounted: bool, reusedPods: seq<Option<nat>>, ghost judgedBefore: seq<set<nat>>)
      requires Valid() && NoFatalPod(pod, judged)
      modifies this
      ensures Valid() && |reusedPods| == |judgedBefore| <= attempts
      ensures forall i :: 0 <= i < |reusedPods| && reusedPods[i].Some? ==> reusedPods[i].value !in judgedBefore[i]
      ensures forall i, j :: 0 <= i < j < |judgedBefore| ==> judgedBefore[i] <= judgedBefore[j]
      ensures judgedBefore != [] ==> judgedBefore[0] == old(judged)
      ensures binds == if mounted then old(binds)[target := source] else old(binds)
    {
      mounted, reusedPods, judgedBefore := false, [], [];
      for i := 0 to attempts
        invariant Valid() && NoFatalPod(pod, judged) && !mounted && binds == old(binds)
        invariant |reusedPods| == |judgedBefore| == i
        invariant forall k :: 0 <= k < i && reusedPods[k].Some? ==> reusedPods[k].value !in judgedBefore[k]
        invariant forall j, k :: 0 <= j < k < i ==> judgedBefore[j] <= judgedBefore[k]
        invariant forall k :: 0 <= k < i ==> judgedBefore[k] <= judged
        invariant if i == 0 then judged == old(judged) else judgedBefore[0] == old(judged)
      {
        judgedBefore := judgedBefore + [judged];
        var outcome, _, reused, cleanedPod, _,
            deletesOk, _ := Mount(target, polls, crdFails(i), listFails(i), bindFails(i), crdStays(i));
        reusedPods := reusedPods + [reused];
        if outcome.Mounted? || (cleanedPod && !deletesOk) {
          mounted := outcome.Mounted?;
          return;
        }
      }
    }
  }
}
