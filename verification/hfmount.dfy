/**
 The workload list of an HFMount object under optimistic concurrency: any
 number of callers run the read-modify-write loop against an API server that
 refuses an update made from an old version.
 */
module HFMount {
  import opened GoStrings

  /** `time` is the parsed attachment time, None if it does not parse. */
  datatype Workload = Workload(podUID: string, targetPath: string, time: Option<int>)

  datatype Request =
    | AddWorkload(podUID: string, targetPath: string)
    | RemoveWorkload(targetPath: string)
    | RemoveStale(live: set<string>, threshold: int)

  /** A request with the clock reading of one of its attempts. */
  datatype Mutator = Mutator(req: Request, now: int)

  // ----- The three mutators

  predicate IsTracked(ws: seq<Workload>, targetPath: string) {
    exists i :: 0 <= i < |ws| && ws[i].targetPath == targetPath
  }

  predicate Keeps(m: Mutator, w: Workload) {
    match m.req
    case AddWorkload(_, _) => true
    case RemoveWorkload(targetPath) => w.targetPath != targetPath
    case RemoveStale(live, threshold) => w.podUID in live || w.time.None? || m.now - w.time.value <= threshold
  }

  function Kept(m: Mutator, ws: seq<Workload>): (r: seq<Workload>)
    ensures |r| <= |ws|
    ensures |r| == |ws| ==> r == ws
  {
    if ws == [] then []
    else
      var rest := Kept(m, ws[..|ws| - 1]);
      assert ws == ws[..|ws| - 1] + [ws[|ws| - 1]];
      if Keeps(m, ws[|ws| - 1]) then rest + [ws[|ws| - 1]] else rest
  }

  /** The list after the mutator; it has changed exactly if its length has. */
  function Mutate(m: Mutator, ws: seq<Workload>): seq<Workload> {
    match m.req
    case AddWorkload(podUID, targetPath) =>
      if IsTracked(ws, targetPath) then ws else ws + [Workload(podUID, targetPath, Some(m.now))]
    case _ => Kept(m, ws)
  }

  lemma ChangedByLength(m: Mutator, ws: seq<Workload>)
    ensures |Mutate(m, ws)| == |ws| <==> Mutate(m, ws) == ws
  {
  }

  /** Some entries of ws, in their order. */
  ghost predicate Subsequence(after: seq<Workload>, ws: seq<Workload>) {
    if ws == [] then after == []
    else
      var n := |ws| - 1;
      || Subsequence(after, ws[..n])
      || (after != [] && after[|after| - 1] == ws[n] && Subsequence(after[..|after| - 1], ws[..n]))
  }

  lemma {:induction false} KeptInOrder(m: Mutator, ws: seq<Workload>)
    ensures Subsequence(Kept(m, ws), ws)
  {
    if ws != [] {
      var n := |ws| - 1;
      KeptInOrder(m, ws[..n]);
      assert (Kept(m, ws[..n]) + [ws[n]])[..|Kept(m, ws[..n])|] == Kept(m, ws[..n]);
    }
  }

  lemma {:induction false} KeptCounts(m: Mutator, ws: seq<Workload>, w: Workload)
    ensures multiset(Kept(m, ws))[w] == if Keeps(m, w) then multiset(ws)[w] else 0
  {
    if ws != [] {
      var n := |ws| - 1;
      KeptCounts(m, ws[..n], w);
      assert ws == ws[..n] + [ws[n]];
      assert multiset(ws) == multiset(ws[..n]) + multiset{ws[n]};
      if Keeps(m, ws[n]) {
        assert multiset(Kept(m, ws)) == multiset(Kept(m, ws[..n])) + multiset{ws[n]};
      } else {
        assert Kept(m, ws) == Kept(m, ws[..n]);
      }
    }
  }

  /** Removing a target drops exactly its entries; all others stay, in order and as often as before. */
  lemma RemoveDropsTarget(m: Mutator, ws: seq<Workload>)
    requires m.req.RemoveWorkload?
    ensures Subsequence(Mutate(m, ws), ws)
    ensures forall w :: multiset(Mutate(m, ws))[w] == if w.targetPath == m.req.targetPath then 0 else multiset(ws)[w]
  {
    KeptInOrder(m, ws);
    forall w ensures multiset(Mutate(m, ws))[w] == if w.targetPath == m.req.targetPath then 0 else multiset(ws)[w] {
      KeptCounts(m, ws, w);
    }
  }

  /** Removing the stale drops exactly the entries of dead pods whose time parses and is too long ago. */
  lemma StaleDropsOldDead(m: Mutator, ws: seq<Workload>)
    requires m.req.RemoveStale?
    ensures Subsequence(Mutate(m, ws), ws)
    ensures forall w :: multiset(Mutate(m, ws))[w] ==
              if w.podUID !in m.req.live && w.time.Some? && m.now - w.time.value > m.req.threshold then 0
              else multiset(ws)[w]
  {
    KeptInOrder(m, ws);
    forall w ensures multiset(Mutate(m, ws))[w] ==
        if w.podUID !in m.req.live && w.time.Some? && m.now - w.time.value > m.req.threshold then 0
        else multiset(ws)[w] {
      KeptCounts(m, ws, w);
    }
  }

  /** A target that is not listed is appended with its pod and the time; a listed one changes nothing. */
  lemma AddAppendsOnce(m: Mutator, ws: seq<Workload>)
    requires m.req.AddWorkload?
    ensures if exists w :: w in ws && w.targetPath == m.req.targetPath then Mutate(m, ws) == ws
            else Mutate(m, ws) == ws + [Workload(m.req.podUID, m.req.targetPath, Some(m.now))]
  {
    if w :| w in ws && w.targetPath == m.req.targetPath {
      var i :| 0 <= i < |ws| && ws[i] == w;
    }
  }

  /** The mutators as the code runs them: the new list and whether it must be written. */
  method RunMutator(m: Mutator, ws: seq<Workload>) returns (after: seq<Workload>, changed: bool)
    ensures after == Mutate(m, ws)
    ensures changed <==> after != ws
    // what that is, request by request
    ensures m.req.AddWorkload? ==>
              if exists w :: w in ws && w.targetPath == m.req.targetPath then after == ws
              else after == ws + [Workload(m.req.podUID, m.req.targetPath, Some(m.now))]
    ensures !m.req.AddWorkload? ==> Subsequence(after, ws)
    ensures m.req.RemoveWorkload? ==> forall w ::
              multiset(after)[w] == if w.targetPath == m.req.targetPath then 0 else multiset(ws)[w]
    ensures m.req.RemoveStale? ==> forall w ::
              multiset(after)[w] ==
              if w.podUID !in m.req.live && w.time.Some? && m.now - w.time.value > m.req.threshold then 0
              else multiset(ws)[w]
  {
    ChangedByLength(m, ws);
    match m.req {
      case AddWorkload(_, _) => AddAppendsOnce(m, ws);
      case RemoveWorkload(_) => RemoveDropsTarget(m, ws);
      case RemoveStale(_, _) => StaleDropsOldDead(m, ws);
    }
    if m.req.AddWorkload? {
      for i := 0 to |ws|
        invariant forall k :: 0 <= k < i ==> ws[k].targetPath != m.req.targetPath
      {
        if ws[i].targetPath == m.req.targetPath {
          return ws, false;
        }
      }
      return ws + [Workload(m.req.podUID, m.req.targetPath, Some(m.now))], true;
    }
    after := [];
    for i := 0 to |ws|
      invariant after == Kept(m, ws[..i])
    {
      assert ws[..i + 1][..i] == ws[..i];
      if Keeps(m, ws[i]) {
        after := after + [ws[i]];
      }
    }
    assert ws[..|ws|] == ws;
    changed := |after| != |ws|;
  }

  /** No target is listed twice. */
  ghost predicate Distinct(ws: seq<Workload>) {
    forall i, j :: 0 <= i < j < |ws| ==> ws[i].targetPath != ws[j].targetPath
  }

  lemma {:induction false} KeptFrom(m: Mutator, ws: seq<Workload>, path: string)
    ensures IsTracked(Kept(m, ws), path) ==> IsTracked(ws, path)
  {
    if ws != [] {
      var n := |ws| - 1;
      KeptFrom(m, ws[..n], path);
      if IsTracked(ws[..n], path) {
        var i :| 0 <= i < n && ws[..n][i].targetPath == path;
        assert ws[i].targetPath == path;
      }
      if ws[n].targetPath == path { assert IsTracked(ws, path); }
    }
  }

  lemma {:induction false} KeptDistinct(m: Mutator, ws: seq<Workload>)
    requires Distinct(ws)
    ensures Distinct(Kept(m, ws))
  {
    if ws != [] {
      var n := |ws| - 1;
      KeptDistinct(m, ws[..n]);
      var rest := Kept(m, ws[..n]);
      forall i | 0 <= i < |rest| ensures rest[i].targetPath != ws[n].targetPath {
        KeptFrom(m, ws[..n], rest[i].targetPath);
        assert IsTracked(rest, rest[i].targetPath);
        var j :| 0 <= j < n && ws[..n][j].targetPath == rest[i].targetPath;
        assert ws[j].targetPath != ws[n].targetPath;
      }
    }
  }

  lemma MutateDistinct(m: Mutator, ws: seq<Workload>)
    requires Distinct(ws)
    ensures Distinct(Mutate(m, ws))
  {
    KeptDistinct(m, ws);
  }

  // ----- What happened, in order

  type CallId = nat

  /** Writes to the object, and the last read of a call that found nothing to change. */
  datatype Event =
    | Created
    | Deleted
    | StatusWritten
    | Committed(call: CallId, m: Mutator)
    | Observed(call: CallId, m: Mutator)

  function Effect(ws: Option<seq<Workload>>, e: Event): Option<seq<Workload>> {
    match e
    case Created => Some([])
    case Deleted => None
    case Committed(_, m) => (match ws case Some(l) => Some(Mutate(m, l)) case None => None)
    case _ => ws
  }

  /** The list after all the events, one at a time in log order; None while there is no object. */
  function Replay(log: seq<Event>): Option<seq<Workload>> {
    if log == [] then None else Effect(Replay(log[..|log| - 1]), log[|log| - 1])
  }

  function Writes(log: seq<Event>): nat {
    if log == [] then 0 else Writes(log[..|log| - 1]) + if log[|log| - 1].Observed? then 0 else 1
  }

  predicate ByCall(e: Event, c: CallId) {
    (e.Committed? || e.Observed?) && e.call == c
  }

  ghost predicate Absent(log: seq<Event>, c: CallId) {
    forall i :: 0 <= i < |log| ==> !ByCall(log[i], c)
  }

  lemma {:induction false} WritesSplit(a: seq<Event>, b: seq<Event>)
    ensures Writes(a + b) == Writes(a) + Writes(b)
  {
    if b == [] {
      assert a + b == a;
    } else {
      WritesSplit(a, b[..|b| - 1]);
      assert (a + b)[..|a + b| - 1] == a + b[..|b| - 1];
    }
  }

  // ----- The server and its callers

  datatype Stored = Stored(version: nat, workloads: seq<Workload>)

  datatype Outcome = Ok(count: nat, changed: bool) | Failed | GaveUp

  /** `started` is the length of the log when the call began; `gotAt` when its current attempt read the object. */
  datatype Call =
    | Reading(req: Request, started: nat, attempt: nat)
    | Writing(req: Request, started: nat, attempt: nat, gotAt: nat, got: Stored, m: Mutator)
    | Done(req: Request, started: nat, ended: nat, outcome: Outcome, lin: nat)

  datatype State = State(stored: Option<Stored>, nextVersion: nat, log: seq<Event>, calls: map<CallId, Call>)

  const INIT := State(None, 0, [], map[])
  const MAX_ATTEMPTS: nat := 5

  datatype Step =
    | CreateObject
    | DeleteObject
    | WriteStatus
    | Invoke(c: CallId, req: Request)
    | Get(c: CallId, now: int)
    | Update(c: CallId)
    | Error(c: CallId)

  predicate Can(s: State, step: Step) {
    match step
    case CreateObject => s.stored.None?
    case DeleteObject => s.stored.Some?
    case WriteStatus => s.stored.Some?
    case Invoke(c, _) => c !in s.calls
    case Get(c, _) => c in s.calls && s.calls[c].Reading?
    case Update(c) => c in s.calls && s.calls[c].Writing?
    case Error(c) => c in s.calls && !s.calls[c].Done?
  }

  function Finish(s: State, c: CallId, outcome: Outcome): State
    requires c in s.calls
  {
    s.(calls := s.calls[c := Done(s.calls[c].req, s.calls[c].started, |s.log|, outcome, |s.log|)])
  }

  /** A successful call takes effect here: it adds one event to the log. */
  function FinishWith(s: State, c: CallId, count: nat, event: Event): State
    requires c in s.calls
  {
    s.(log := s.log + [event],
       calls := s.calls[c := Done(s.calls[c].req, s.calls[c].started, |s.log| + 1, Ok(count, event.Committed?),
           |s.log|)])
  }

  /** Get and the mutator that runs on what it returned; an unchanged list ends the call. */
  function DoGet(s: State, c: CallId, now: int): State
    requires Can(s, Get(c, now))
  {
    var call := s.calls[c];
    if s.stored.None? then Finish(s, c, Failed)
    else
      var m := Mutator(call.req, now);
      var ws := s.stored.value.workloads;
      if Mutate(m, ws) == ws then FinishWith(s, c, |ws|, Observed(c, m))
      else s.(calls := s.calls[c := Writing(call.req, call.started, call.attempt, |s.log|, s.stored.value, m)])
  }

  /** The server commits an update made from the version it stores; any other version is a conflict. */
  function DoUpdate(s: State, c: CallId): State
    requires Can(s, Update(c))
  {
    var call := s.calls[c];
    if s.stored.None? then Finish(s, c, Failed)
    else if s.stored.value.version == call.got.version then
      var ws := Mutate(call.m, call.got.workloads);
      FinishWith(s, c, |ws|, Committed(c, call.m)).(stored := Some(Stored(s.nextVersion, ws)),
          nextVersion := s.nextVersion + 1)
    else if call.attempt + 1 < MAX_ATTEMPTS then
      s.(calls := s.calls[c := Reading(call.req, call.started, call.attempt + 1)])
    else Finish(s, c, GaveUp)
  }

  function Next(s: State, step: Step): State
    requires Can(s, step)
  {
    match step
    case CreateObject =>
      s.(stored := Some(Stored(s.nextVersion, [])), nextVersion := s.nextVersion + 1, log := s.log + [Created])
    case DeleteObject => s.(stored := None, log := s.log + [Deleted])
    case WriteStatus =>
      s.(stored := Some(s.stored.value.(version := s.nextVersion)), nextVersion := s.nextVersion + 1,
          log := s.log + [StatusWritten])
    case Invoke(c, req) => s.(calls := s.calls[c := Reading(req, |s.log|, 0)])
    case Get(c, now) => DoGet(s, c, now)
    case Update(c) => DoUpdate(s, c)
    case Error(c) => Finish(s, c, Failed)
  }

  // ----- The invariant

  ghost predicate StoredIsReplay(s: State) {
    Replay(s.log) == match s.stored case Some(o) => Some(o.workloads) case None => None
  }

  ghost predicate StoreOK(s: State) {
    && StoredIsReplay(s)
    && (s.stored.Some? ==> s.stored.value.version < s.nextVersion && Distinct(s.stored.value.workloads))
  }

  /** The version a writer holds still has the list it read, and an overwritten version means a write since. */
  ghost predicate GotOK(s: State, call: Call)
    requires call.Writing?
  {
    && call.got.version < s.nextVersion && call.m.req == call.req
    && call.started <= call.gotAt <= |s.log|
    && Mutate(call.m, call.got.workloads) != call.got.workloads
    && (s.stored.Some? && s.stored.value.version == call.got.version ==> s.stored.value == call.got)
    && (s.stored.None? || s.stored.value.version != call.got.version ==> Writes(s.log[call.gotAt..]) >= 1)
    && Writes(s.log[call.started..call.gotAt]) >= call.attempt
  }

  /** A successful call is the event at its point, which lies in its interval, and its answer is right at that point. */
  ghost predicate LinearizedAt(log: seq<Event>, c: CallId, call: Call)
    requires call.Done? && call.outcome.Ok?
  {
    && call.started <= call.lin < call.ended <= |log|
    && ByCall(log[call.lin], c) && log[call.lin].m.req == call.req
    && (call.outcome.changed <==> log[call.lin].Committed?)
    && var before := Replay(log[..call.lin]);
       && before.Some?
       && |Mutate(log[call.lin].m, before.value)| == call.outcome.count
       && (call.outcome.changed <==> Mutate(log[call.lin].m, before.value) != before.value)
  }

  ghost predicate CallOK(s: State, c: CallId, call: Call) {
    match call
    case Reading(_, started, attempt) =>
      started <= |s.log| && Writes(s.log[started..]) >= attempt && Absent(s.log, c) && attempt < MAX_ATTEMPTS
    case Writing(_, _, attempt, _, _, _) => GotOK(s, call) && Absent(s.log, c) && attempt < MAX_ATTEMPTS
    case Done(_, started, ended, outcome, lin) =>
      if outcome.Ok? then LinearizedAt(s.log, c, call)
          && forall i :: 0 <= i < |s.log| && i != lin ==> !ByCall(s.log[i], c)
      else
        && started <= ended <= |s.log| && Absent(s.log, c)
        && (outcome.GaveUp? ==> Writes(s.log[started..ended]) >= MAX_ATTEMPTS)
  }

  ghost predicate CallsOK(s: State) {
    && (forall c :: c in s.calls ==> CallOK(s, c, s.calls[c]))
    && (forall i, c :: 0 <= i < |s.log| && ByCall(s.log[i], c) ==> c in s.calls)
  }

  ghost predicate Inv(s: State) {
    StoreOK(s) && CallsOK(s)
  }

  lemma ReplayOfAppend(log: seq<Event>, e: Event)
    ensures Replay(log + [e]) == Effect(Replay(log), e)
    ensures Writes(log + [e]) == Writes(log) + if e.Observed? then 0 else 1
  {
  }

  lemma CommitKeepsStore(s: State, c: CallId)
    requires Inv(s) && Can(s, Update(c))
    ensures StoreOK(Next(s, Update(c)))
  {
    var call := s.calls[c];
    assert CallOK(s, c, call);
    if s.stored.Some? && s.stored.value.version == call.got.version {
      ReplayOfAppend(s.log, Committed(c, call.m));
      MutateDistinct(call.m, s.stored.value.workloads);
    }
  }

  lemma GetKeepsStore(s: State, c: CallId, now: int)
    requires Inv(s) && Can(s, Get(c, now))
    ensures StoreOK(Next(s, Get(c, now)))
  {
  }

  lemma KeepsStore(s: State, step: Step)
    requires Inv(s) && Can(s, step)
    ensures StoreOK(Next(s, step))
  {
    match step
    case Update(c) => CommitKeepsStore(s, c);
    case Get(c, now) => GetKeepsStore(s, c, now);
    case CreateObject => ReplayOfAppend(s.log, Created);
    case DeleteObject => ReplayOfAppend(s.log, Deleted);
    case WriteStatus => ReplayOfAppend(s.log, StatusWritten);
    case _ =>
  }

  /** The log grows by an event of someone else; a new stored version comes with a write. */
  ghost predicate OtherStep(s: State, s': State, c: CallId) {
    && s.nextVersion <= s'.nextVersion
    && (s'.log == s.log ==> s'.stored == s.stored)
    && (s'.log != s.log ==>
          && |s'.log| == |s.log| + 1 && s'.log[..|s.log|] == s.log && !ByCall(s'.log[|s.log|], c)
          && (s'.stored == s.stored
              || (!s'.log[|s.log|].Observed? && (s'.stored.Some? ==> s'.stored.value.version >= s.nextVersion))))
  }

  lemma WritesGrow(s: State, s': State, c: CallId, from: nat)
    requires OtherStep(s, s', c) && from <= |s.log|
    ensures Writes(s'.log[from..]) >= Writes(s.log[from..])
    ensures s'.log != s.log && !s'.log[|s.log|].Observed? ==> Writes(s'.log[from..]) >= 1
  {
    if s'.log != s.log {
      assert s'.log[from..] == s.log[from..] + [s'.log[|s.log|]] by {
        assert s'.log[from..][..|s.log| - from] == s'.log[..|s.log|][from..];
      }
      ReplayOfAppend(s.log[from..], s'.log[|s.log|]);
    }
  }

  lemma SamePart(log: seq<Event>, log': seq<Event>, from: nat, to: nat)
    requires from <= to <= |log| <= |log'| && log'[..|log|] == log
    ensures log'[from..to] == log[from..to]
  {
    forall i | from <= i < to ensures log'[i] == log[i] {
      assert log'[..|log|][i] == log'[i];
    }
  }

  lemma ReadingKept(s: State, s': State, c: CallId, call: Call)
    requires OtherStep(s, s', c) && call.Reading? && CallOK(s, c, call)
    ensures CallOK(s', c, call)
  {
    WritesGrow(s, s', c, call.started);
    forall i | 0 <= i < |s'.log| ensures !ByCall(s'.log[i], c) {
      assert i < |s.log| ==> s'.log[..|s.log|][i] == s.log[i];
    }
  }

  lemma WritingKept(s: State, s': State, c: CallId, call: Call)
    requires OtherStep(s, s', c) && call.Writing? && CallOK(s, c, call)
    ensures CallOK(s', c, call)
  {
    WritesGrow(s, s', c, call.gotAt);
    SamePart(s.log, s'.log, call.started, call.gotAt);
    forall i | 0 <= i < |s'.log| ensures !ByCall(s'.log[i], c) {
      assert i < |s.log| ==> s'.log[..|s.log|][i] == s.log[i];
    }
  }

  lemma DoneKept(s: State, s': State, c: CallId, call: Call)
    requires OtherStep(s, s', c) && call.Done? && CallOK(s, c, call)
    ensures CallOK(s', c, call)
  {
    forall i | 0 <= i < |s.log| ensures s'.log[i] == s.log[i] {
      assert s'.log[..|s.log|][i] == s.log[i];
    }
    if call.outcome.Ok? {
      assert s'.log[..call.lin] == s.log[..call.lin];
    } else {
      SamePart(s.log, s'.log, call.started, call.ended);
    }
  }

  /** Nothing already true of a call is undone by a step of someone else. */
  lemma OtherCallKept(s: State, s': State, c: CallId, call: Call)
    requires OtherStep(s, s', c) && CallOK(s, c, call)
    ensures CallOK(s', c, call)
  {
    match call
    case Reading(_, _, _) => ReadingKept(s, s', c, call);
    case Writing(_, _, _, _, _, _) => WritingKept(s, s', c, call);
    case Done(_, _, _, _, _) => DoneKept(s, s', c, call);
  }

  predicate OfCall(step: Step, c: CallId) {
    !(step.CreateObject? || step.DeleteObject? || step.WriteStatus?) && step.c == c
  }

  lemma StepIsOther(s: State, step: Step, c: CallId)
    requires Can(s, step) && !OfCall(step, c) && StoreOK(s)
    ensures OtherStep(s, Next(s, step), c)
    ensures c in s.calls ==> c in Next(s, step).calls && Next(s, step).calls[c] == s.calls[c]
  {
  }

  lemma InvokeOK(s: State, c: CallId, req: Request)
    requires Inv(s) && Can(s, Invoke(c, req))
    ensures CallOK(Next(s, Invoke(c, req)), c, Next(s, Invoke(c, req)).calls[c])
  {
  }

  /** The event a call adds at its end is its point. */
  lemma FinishedOK(s: State, s': State, c: CallId, call: Call)
    requires Absent(s.log, c) && call.Done? && call.outcome.Ok?
    requires |s'.log| == |s.log| + 1 && s'.log[..|s.log|] == s.log
    requires call.started <= |s.log| == call.lin && call.ended == |s'.log|
    requires LinearizedAt(s'.log, c, call)
    ensures CallOK(s', c, call)
  {
  }

  lemma GetOK(s: State, c: CallId, now: int)
    requires Inv(s) && Can(s, Get(c, now))
    ensures CallOK(Next(s, Get(c, now)), c, Next(s, Get(c, now)).calls[c])
  {
    var call, s' := s.calls[c], Next(s, Get(c, now));
    assert CallOK(s, c, call);
    assert s.log[call.started..] == s.log[call.started..|s.log|];
    if s.stored.Some? && |s'.log| > |s.log| {
      assert s'.log[..|s.log|] == s.log;
      FinishedOK(s, s', c, s'.calls[c]);
    }
  }

  lemma CommitOK(s: State, c: CallId)
    requires Inv(s) && Can(s, Update(c)) && s.stored.Some? && s.stored.value.version == s.calls[c].got.version
    ensures CallOK(Next(s, Update(c)), c, Next(s, Update(c)).calls[c])
  {
  }

  /** Each conflict adds a write of someone else since this attempt's Get to those counted before it. */
  lemma ConflictCounts(s: State, c: CallId, call: Call)
    requires call.Writing? && CallOK(s, c, call) && (s.stored.None? || s.stored.value.version != call.got.version)
    ensures Writes(s.log[call.started..]) >= call.attempt + 1
  {
    assert s.log[call.started..] == s.log[call.started..call.gotAt] + s.log[call.gotAt..];
    WritesSplit(s.log[call.started..call.gotAt], s.log[call.gotAt..]);
  }

  lemma UpdateOK(s: State, c: CallId)
    requires Inv(s) && Can(s, Update(c))
    ensures CallOK(Next(s, Update(c)), c, Next(s, Update(c)).calls[c])
  {
    var call := s.calls[c];
    assert CallOK(s, c, call);
    if s.stored.Some? && s.stored.value.version == call.got.version {
      CommitOK(s, c);
    } else {
      ConflictCounts(s, c, call);
      assert s.log[call.started..|s.log|] == s.log[call.started..];
    }
  }

  lemma ErrorOK(s: State, c: CallId)
    requires Inv(s) && Can(s, Error(c))
    ensures CallOK(Next(s, Error(c)), c, Next(s, Error(c)).calls[c])
  {
  }

  lemma KeepsCalls(s: State, step: Step)
    requires Inv(s) && Can(s, step)
    ensures CallsOK(Next(s, step))
  {
    var s' := Next(s, step);
    forall c | c in s'.calls ensures CallOK(s', c, s'.calls[c]) {
      if OfCall(step, c) {
        match step
        case Invoke(_, req) => InvokeOK(s, c, req);
        case Get(_, now) => GetOK(s, c, now);
        case Update(_) => UpdateOK(s, c);
        case Error(_) => ErrorOK(s, c);
      } else {
        StepIsOther(s, step, c);
        OtherCallKept(s, s', c, s.calls[c]);
      }
    }
  }

  // ----- Whole runs

  ghost predicate IsRun(s: State, steps: seq<Step>)
    decreases |steps|
  {
    steps == [] || (Can(s, steps[0]) && IsRun(Next(s, steps[0]), steps[1..]))
  }

  ghost function After(s: State, steps: seq<Step>): State
    requires IsRun(s, steps)
    decreases |steps|
  {
    if steps == [] then s else After(Next(s, steps[0]), steps[1..])
  }

  lemma {:induction false} RunKeepsInv(s: State, steps: seq<Step>)
    requires Inv(s) && IsRun(s, steps)
    ensures Inv(After(s, steps))
    decreases |steps|
  {
    if steps != [] {
      KeepsStore(s, steps[0]);
      KeepsCalls(s, steps[0]);
      RunKeepsInv(Next(s, steps[0]), steps[1..]);
    }
  }

  /**
   In every run the stored list is the committed mutators applied one at a time in commit
   order, and lists no target twice.
   */
  lemma StoredListIsFold(steps: seq<Step>)
    requires IsRun(INIT, steps)
    ensures var s := After(INIT, steps);
            && Replay(s.log) == (match s.stored case Some(o) => Some(o.workloads) case None => None)
            && (s.stored.Some? ==> Distinct(s.stored.value.workloads))
  {
    RunKeepsInv(INIT, steps);
  }

  /**
   Every finished call is atomic: a successful one is exactly one event of the
   log, inside its interval, where its mutator applied to the list at that
   point gives the count it returned and a change exactly if it committed;
   any other one left no event, and one that gave up overlapped at least five
   writes of others.
   */
  lemma CallsAreAtomic(steps: seq<Step>, c: CallId)
    requires IsRun(INIT, steps) && c in After(INIT, steps).calls && After(INIT, steps).calls[c].Done?
    ensures var s := After(INIT, steps);
            var call := s.calls[c];
            && (call.outcome.Ok? ==>
                LinearizedAt(s.log, c, call)
                && forall i :: 0 <= i < |s.log| && ByCall(s.log[i], c) ==> i == call.lin)
            && (!call.outcome.Ok? ==> Absent(s.log, c))
            && (call.outcome.GaveUp? ==>
                call.started <= call.ended <= |s.log|
                && Writes(s.log[call.started..call.ended]) >= 5)
  {
    RunKeepsInv(INIT, steps);
    assert CallOK(After(INIT, steps), c, After(INIT, steps).calls[c]);
  }

  /** The order of the log respects real time: a call that ended before another began comes first. */
  lemma LogRespectsRealTime(steps: seq<Step>, a: CallId, b: CallId)
    requires IsRun(INIT, steps)
    requires var calls := After(INIT, steps).calls;
             && a in calls && b in calls && calls[a].Done? && calls[b].Done?
             && calls[a].outcome.Ok? && calls[b].outcome.Ok? && calls[a].ended <= calls[b].started
    ensures After(INIT, steps).calls[a].lin < After(INIT, steps).calls[b].lin
  {
    CallsAreAtomic(steps, a);
    CallsAreAtomic(steps, b);
  }

  // ----- One caller's loop

  /**
   The API server as one caller meets it: `others(k)` is what everyone else does before
   its k-th request, `fails(k)` whether that request fails.
   */
  class HFMountClient {
    const others: nat -> seq<Event>
    const fails: nat -> bool
    const now: nat -> int
    var stored: Option<Stored>
    var nextVersion: nat
    var clock: nat
    ghost var log: seq<Event>

    constructor (others: nat -> seq<Event>, fails: nat -> bool, now: nat -> int)
      ensures Valid() && log == []
    {
      this.others, this.fails, this.now := others, fails, now;
      stored, nextVersion, clock, log := None, 0, 0, [];
    }

    ghost function View(): State
      reads this
    {
      State(stored, nextVersion, log, map[])
    }

    ghost predicate Valid()
      reads this
    {
      StoreOK(View())
    }

    method Commit(ws: seq<Workload>, ghost event: Event)
      requires Valid() && Distinct(ws) && !event.Observed? && Effect(Replay(log), event) == Some(ws)
      modifies this`stored, this`nextVersion, this`log
      ensures Valid() && log == old(log) + [event]
      ensures stored == Some(Stored(old(nextVersion), ws)) && nextVersion == old(nextVersion) + 1
    {
      ReplayOfAppend(log, event);
      stored, nextVersion := Some(Stored(nextVersion, ws)), nextVersion + 1;
      log := log + [event];
    }

    method CommitOther(ws: seq<Workload>, event: Event, c: CallId)
      requires Valid() && Distinct(ws) && Effect(Replay(log), event) == Some(ws)
      requires !event.Observed? && !ByCall(event, c)
      modifies this`stored, this`nextVersion, this`log
      ensures Valid() && OtherStep(old(View()), View(), c)
    {
      Commit(ws, event);
    }

    method Remove(c: CallId)
      requires Valid()
      modifies this`stored, this`log
      ensures Valid() && OtherStep(old(View()), View(), c)
    {
      ReplayOfAppend(log, Deleted);
      stored := None;
      log := log + [Deleted];
    }

    /** One event of someone else than call c, if it is possible now. */
    method Happen(event: Event, c: CallId)
      requires Valid()
      modifies this`stored, this`nextVersion, this`log
      ensures Valid() && OtherStep(old(View()), View(), c)
    {
      match event
      case Created =>
        if stored.None? { CommitOther([], Created, c); }
      case Deleted =>
        Remove(c);
      case StatusWritten =>
        if stored.Some? { CommitOther(stored.value.workloads, StatusWritten, c); }
      case Committed(call, m) =>
        if stored.Some? && call != c {
          MutateDistinct(m, stored.value.workloads);
          CommitOther(Mutate(m, stored.value.workloads), event, c);
        }
      case Observed(_, _) =>
    }

    method Elapse(c: CallId)
      requires Valid()
      modifies this`stored, this`nextVersion, this`log, this`clock
      ensures Valid() && |old(log)| <= |log| && clock == old(clock) + 1
      ensures forall call :: CallOK(old(View()), c, call) ==> CallOK(View(), c, call)
    {
      var events := others(clock);
      clock := clock + 1;
      for i := 0 to |events|
        invariant Valid() && |old(log)| <= |log| && clock == old(clock) + 1
        invariant forall call :: CallOK(old(View()), c, call) ==> CallOK(View(), c, call)
      {
        ghost var before := View();
        Happen(events[i], c);
        forall call | CallOK(before, c, call) ensures CallOK(View(), c, call) {
          OtherCallKept(before, View(), c, call);
        }
      }
    }

    /** The call has ended now. */
    ghost predicate Ended(c: CallId, req: Request, started: nat, outcome: Outcome, call: Call)
      reads this
    {
      call.Done? && call.req == req && call.started == started && call.ended == |log| && call.outcome == outcome
          && CallOK(View(), c, call)
    }

    /** Get, and run the mutator on what it returned. */
    method ReadAttempt(c: CallId, req: Request, attempt: nat, ghost call: Call)
      returns (end: Option<Outcome>, got: Stored, m: Mutator, ws: seq<Workload>, ghost next: Call)
      requires Valid() && call.Reading? && call.req == req && call.attempt == attempt && CallOK(View(), c, call)
      modifies this
      ensures Valid() && clock == old(clock) + 1
      ensures end.Some? ==> !end.value.GaveUp? && Ended(c, req, call.started, end.value, next)
      ensures end.None? ==>
                && next.Writing? && next.req == req && next.started == call.started && next.attempt == attempt
                && next.got == got && next.m == m && ws == Mutate(m, got.workloads) && CallOK(View(), c, next)
    {
      got, m, ws := Stored(0, []), Mutator(req, 0), [];
      Elapse(c);
      if fails(clock) || stored.None? {
        return Some(Failed), got, m, ws, Done(req, call.started, |log|, Failed, |log|);
      }
      got, m := stored.value, Mutator(req, now(clock));
      var changed: bool;
      ws, changed := RunMutator(m, got.workloads);
      if !changed {
        next := RecordRead(c, call, |got.workloads|, Observed(c, m));
        return Some(Ok(|got.workloads|, false)), got, m, ws, next;
      }
      assert log[call.started..|log|] == log[call.started..];
      return None, got, m, ws, Writing(req, call.started, attempt, |log|, got, m);
    }

    /** Update from the version read; a conflict starts the next attempt or, after the fifth, ends the call. */
    method WriteAttempt(c: CallId, req: Request, attempt: nat, got: Stored, m: Mutator, ws: seq<Workload>,
                        ghost call: Call) returns (end: Option<Outcome>, ghost next: Call)
      requires Valid() && call.Writing? && call.req == req && call.attempt == attempt && CallOK(View(), c, call)
      requires call.got == got && call.m == m && ws == Mutate(m, got.workloads)
      modifies this
      ensures Valid() && clock == old(clock) + 1
      ensures end.Some? ==> Ended(c, req, call.started, end.value, next)
      ensures end.Some? && end.value.GaveUp? ==> attempt + 1 == MAX_ATTEMPTS
      ensures end.None? ==>
              attempt + 1 < MAX_ATTEMPTS && next == Reading(req, call.started, attempt + 1)
              && CallOK(View(), c, next)
    {
      Elapse(c);
      if fails(clock) || stored.None? {
        return Some(Failed), Done(req, call.started, |log|, Failed, |log|);
      }
      if stored.value.version == got.version {
        ghost var before := View();
        assert stored.value == got;
        MutateDistinct(m, got.workloads);
        Commit(ws, Committed(c, m));
        next := Done(req, call.started, |log|, Ok(|ws|, true), |log| - 1);
        assert log[..|before.log|] == before.log;
        FinishedOK(before, View(), c, next);
        return Some(Ok(|ws|, true)), next;
      }
      ConflictCounts(View(), c, call);
      if attempt + 1 < MAX_ATTEMPTS {
        return None, Reading(req, call.started, attempt + 1);
      }
      assert log[call.started..|log|] == log[call.started..];
      return Some(GaveUp), Done(req, call.started, |log|, GaveUp, |log|);
    }

    /**
     Get, mutate, update, at most five times. Whatever the others do meanwhile,
     the call ends as the machine says a call may end.
     */
    method RetryOnConflict(c: CallId, req: Request) returns (outcome: Outcome, ghost call: Call)
      requires Valid() && Absent(log, c)
      modifies this
      ensures Valid() && Ended(c, req, |old(log)|, outcome, call)
      // ten requests at most, and all of them before giving up
      ensures old(clock) < clock <= old(clock) + 10 && (outcome.GaveUp? ==> clock == old(clock) + 10)
    {
      call := Reading(req, |log|, 0);
      var attempt := 0;
      while true
        invariant attempt < MAX_ATTEMPTS && Valid() && clock == old(clock) + 2 * attempt
        invariant call == Reading(req, |old(log)|, attempt) && CallOK(View(), c, call)
        decreases MAX_ATTEMPTS - attempt
      {
        var end, got, m, ws;
        end, got, m, ws, call := ReadAttempt(c, req, attempt, call);
        if end.Some? {
          return end.value, call;
        }
        end, call := WriteAttempt(c, req, attempt, got, m, ws, call);
        if end.Some? {
          return end.value, call;
        }
        attempt := attempt + 1;
      }
    }

    /** Record the last read of a call that changes nothing. */
    ghost method RecordRead(c: CallId, call: Call, count: nat, event: Event) returns (done: Call)
      requires Valid() && call.Reading? && CallOK(View(), c, call) && stored.Some?
      requires event.Observed? && event.call == c && event.m.req == call.req
      requires Mutate(event.m, stored.value.workloads) == stored.value.workloads && count == |stored.value.workloads|
      modifies this`log
      ensures Valid() && log == old(log) + [event]
      ensures done == Done(call.req, call.started, |log|, Ok(count, false), |log| - 1) && CallOK(View(), c, done)
    {
      var before := View();
      ReplayOfAppend(log, event);
      log := log + [event];
      done := Done(call.req, call.started, |log|, Ok(count, false), |log| - 1);
      assert log[..|before.log|] == before.log;
      FinishedOK(before, View(), c, done);
    }
  }
}
