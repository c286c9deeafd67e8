/** What each call tells the frontend and the stages, and when a request is complete. */
module OrchestratorMessages {
  import opened CfgTracker
  import opened OrchestratorSpec
  import opened OrchestratorSafety
  import opened OrchestratorBundle

  /** The events a call appends. */
  function News(s: Sys, s1: Sys): seq<Event> {
    if |s.log| <= |s1.log| then s1.log[|s.log|..] else []
  }

  lemma AppendedNews(s: Sys, s1: Sys, es: seq<Event>)
    requires s1.log == s.log + es
    ensures News(s, s1) == es
  {
  }

  /** Some companion of the parent has not been counted. */
  ghost predicate Awaits(t: Tracker, p: ReqId) {
    exists i :: 0 <= i < |RoleMap(t, p)| && RoleMap(t, p)[i].1 !in DoneSet(t, p)
  }

  lemma AwaitsIff(t: Tracker, p: ReqId)
    ensures Awaits(t, p) <==> p in t.companions && !AllDone(t, p)
  {
  }

  // ---- forwarding --------------------------------------------------------------------------

  /** The prefill parameters known for a request name a remote request. */
  predicate KnowsRemote(s: Sys, r: ReqId) {
    r in s.pdKv && s.pdKv[r]
  }

  /** What forwarding an output past stage src tells.  The next stage is given that output: on
      its own, or before the companions' in front of a diffusion stage.  Without inputs a
      finished request ends with a message; without prefill parameters the decode half of a
      prefill-decode pair cannot be built and the orchestrator goes down. */
  ghost predicate Moves(cfg: Config, s: Sys, s1: Sys, r: ReqId, src: nat, out: Output, inputs: nat, remote: bool, news: seq<Event>)
    requires r in s.requests
  {
    var next := src + 1;
    if IsDiffusion(cfg, next) then
      if inputs == 0 then news == [OutputMessage(r, next, true)] && r !in s1.requests
      else |news| == 1 && news[0].Submitted? && news[0].req == r && news[0].stage == next
           && news[0].sources != [] && news[0].sources[0] == out && r in s1.requests
           && forall i | 1 <= i < |news[0].sources| :: news[0].sources[i] in s.tracker.outputs.Values
    else if cfg.pdPair == Some((src, next)) then
      if remote then news == [Submitted(r, next, [out], [])] && r in s1.requests else news == [] && s1.crashed
    else if inputs > 0 then news == [Submitted(r, next, [out], [])] && r in s1.requests
    else if out.finished then news == [OutputMessage(r, s.requests[r].finalStage, true)] && r !in s1.requests
    else news == [] && r in s1.requests
  }

  lemma ForwardTells(cfg: Config, s: Sys, r: ReqId, src: nat, out: Output, inputs: nat)
    requires r in s.requests && src + 1 < |cfg.stages|
    ensures var s1 := Forward(cfg, s, r, src, out, inputs);
            s1.log == s.log + News(s, s1) && Moves(cfg, s, s1, r, src, out, inputs, KnowsRemote(s, r), News(s, s1))
  {
    hide RoleMap, Ids, Collect;
    var s1 := Forward(cfg, s, r, src, out, inputs);
    CollectFrom(s.tracker.outputs, Ids(RoleMap(s.tracker, r)));
    assert s.log + [] == s.log;
  }

  lemma {:induction false} CollectFrom(outputs: map<ReqId, Output>, ids: seq<ReqId>)
    ensures forall x | x in Collect(outputs, ids) :: x in outputs.Values
    decreases |ids|
  {
    if ids == [] {
    } else {
      CollectFrom(outputs - {ids[0]}, ids[1..]);
      assert (outputs - {ids[0]}).Values <= outputs.Values;
    }
  }

  lemma ForwardOrDeferTells(cfg: Config, s: Sys, r: ReqId, src: nat, out: Output, inputs: nat)
    requires r in s.requests && src + 1 < |cfg.stages|
    ensures var s1 := ForwardOrDefer(cfg, s, r, src, out, inputs);
            && s1.log == s.log + News(s, s1)
            && (if Awaits(s.tracker, r) then
                  News(s, s1) == [] && r in s1.requests && r in s1.tracker.pending && s1.tracker.pending[r] == Deferred(out, src)
                else Moves(cfg, s, s1, r, src, out, inputs, KnowsRemote(s, r), News(s, s1)))
  {
    hide Forward, AllDone, Moves;
    AwaitsIff(s.tracker, r);
    ForwardTells(cfg, s, r, src, out, inputs);
    assert s.log + [] == s.log;
  }

  // ---- outputs -----------------------------------------------------------------------------

  /** A forward of this output is called for: the next stage has its turn and has not had it. */
  predicate Due(cfg: Config, q: Request, stage: nat) {
    stage < q.finalStage && !cfg.asyncChunk && stage + 1 !in q.submitted
  }

  /** With this output finished, every wanted output is. */
  predicate Completes(cfg: Config, q: Request, stage: nat, out: Output)
    requires stage < |cfg.stages|
  {
    cfg.stages[stage].finalOutput && out.finished && q.finalOutputs <= q.finishedOutputs + {stage}
  }

  /** What the frontend is told about an output: every one of a final-output stage, marked as
      the last when it completes the request; the metrics of any other finished one. */
  function Announced(cfg: Config, q: Request, stage: nat, out: Output): seq<Event>
    requires stage < |cfg.stages|
  {
    if cfg.stages[stage].finalOutput then [OutputMessage(out.req, stage, Completes(cfg, q, stage, out))]
    else if out.finished then [MetricsMessage(out.req, stage)]
    else []
  }

  lemma AnnounceTells(cfg: Config, s: Sys, stage: nat, out: Output)
    requires out.req in s.requests && stage < |cfg.stages| && RequestOk(cfg, s.requests[out.req])
    ensures var (s1, complete) := Announce(cfg, s, stage, out);
            var q := s.requests[out.req];
            && complete == Completes(cfg, q, stage, out)
            && s1.log == s.log + Announced(cfg, q, stage, out)
            && s1 == OrchestratorSafety.Marked(cfg, s, stage, out).(log := s1.log)
  {
    assert s.log + [] == s.log;
    assert s.requests[out.req := s.requests[out.req]] == s.requests;
  }

  /** Whether prefill parameters name a remote request, once this output is taken in. */
  predicate RemoteAfter(cfg: Config, s: Sys, stage: nat, out: Output) {
    if cfg.pdPair.Some? && stage == cfg.pdPair.value.0 && out.finished && out.kv.Some? then out.kv.value else KnowsRemote(s, out.req)
  }

  /** What follows the announcement.  A completing output ends the request; one that is due goes
      on or waits for companions; any other changes nothing else. */
  ghost predicate Follows(cfg: Config, s: Sys, s1: Sys, stage: nat, out: Output, inputs: nat, more: seq<Event>)
    requires out.req in s.requests && stage < |cfg.stages|
  {
    var r, q := out.req, s.requests[out.req];
    if Completes(cfg, q, stage, out) then more == [] && r !in s1.requests
    else if !(out.finished && Due(cfg, q, stage)) then more == [] && r in s1.requests
    else if Awaits(s.tracker, r) then
      more == [] && r in s1.requests && r in s1.tracker.pending && s1.tracker.pending[r] == Deferred(out, stage)
    else Moves(cfg, s, s1, r, stage, out, inputs, RemoteAfter(cfg, s, stage, out), more)
  }

  /** The whole trace of a client's output: what is announced, then at most one forward. */
  ghost predicate OutputTold(cfg: Config, s: Sys, s1: Sys, stage: nat, out: Output, inputs: nat)
    requires out.req in s.requests && stage < |cfg.stages|
  {
    exists more :: s1.log == s.log + Announced(cfg, s.requests[out.req], stage, out) + more && Follows(cfg, s, s1, stage, out, inputs, more)
  }

  lemma OutputTells(cfg: Config, s: Sys, stage: nat, out: Output, inputs: nat)
    requires Inv(cfg, s) && !s.crashed && out.req in s.requests && stage < |cfg.stages| && stage in s.requests[out.req].submitted
    requires out.finished ==> out.req !in s.tracker.companionIds
    ensures OutputTold(cfg, s, Route(cfg, s, stage, out, inputs), stage, out, inputs)
  {
    hide TrackerOk, LogOk, LinksOk, Announce, ForwardOrDefer, RolesDone, RequestOk, Moves, CleanupParent;
    var r, q := out.req, s.requests[out.req];
    RequestIsOk(cfg, s, r);
    var (s1, complete) := Announce(cfg, s, stage, out);
    AnnounceTells(cfg, s, stage, out);
    var m := OrchestratorSafety.Marked(cfg, s, stage, out);
    MarkedKeeps(cfg, s, stage, out);
    RequestIsOk(cfg, m, r);
    var s2 := CapturePrefill(cfg, s1, stage, out);
    assert s2.log == s.log + Announced(cfg, q, stage, out) && s2.tracker == s.tracker;
    var end := Route(cfg, s, stage, out, inputs);
    StageInRange(cfg, q, stage);
    if complete {
      CompleteHasNoNext(cfg, m.requests[r], stage);
      assert end == FinishRequest(s2, r);
      assert end.log == s.log + Announced(cfg, q, stage, out) + [] && Follows(cfg, s, end, stage, out, inputs, []);
    } else if !(out.finished && Due(cfg, q, stage)) {
      assert end == s2;
      assert end.log == s.log + Announced(cfg, q, stage, out) + [] && Follows(cfg, s, end, stage, out, inputs, []);
    } else {
      ForwardOrDeferTells(cfg, s2, r, stage, out, inputs);
      assert end == ForwardOrDefer(cfg, s2, r, stage, out, inputs);
      assert end.log == s.log + Announced(cfg, q, stage, out) + News(s2, end);
      assert KnowsRemote(s2, r) == RemoteAfter(cfg, s, stage, out);
      MovesAlike(cfg, s2, s, end, r, stage, out, inputs, KnowsRemote(s2, r), News(s2, end));
      assert Follows(cfg, s, end, stage, out, inputs, News(s2, end));
    }
  }

  lemma MovesAlike(cfg: Config, s: Sys, t: Sys, s1: Sys, r: ReqId, src: nat, out: Output, inputs: nat, remote: bool, news: seq<Event>)
    requires r in s.requests && r in t.requests && s.requests[r].finalStage == t.requests[r].finalStage
    requires s.tracker.outputs == t.tracker.outputs
    ensures Moves(cfg, s, s1, r, src, out, inputs, remote, news) <==> Moves(cfg, t, s1, r, src, out, inputs, remote, news)
  {
  }

  lemma StageInRange(cfg: Config, q: Request, stage: nat)
    requires RequestOk(cfg, q)
    ensures Due(cfg, q, stage) ==> stage + 1 < |cfg.stages|
  {
  }

  // ---- errors, ready kv caches, admissions ---------------------------------------------------

  /** A stage's error output tells exactly one error message, to the request or to the parent it
      was registered for, and nothing of the addressee is left. */
  lemma ErrorTells(cfg: Config, s: Sys, stage: nat, out: Output, inputs: nat)
    requires Inv(cfg, s) && !s.crashed && out.req in s.requests && stage < |cfg.stages| && out.error
    ensures var s1 := Step(cfg, s, StageOutput(stage, out, inputs));
            exists p ::
              && s1.log == s.log + [ErrorMessage(p, stage)] && p in s.requests && NoTrace(s1, p)
              && (out.req !in s.tracker.companionIds ==> p == out.req)
              && (forall e | e in s.log && e.Registered? && e.companion == out.req :: e.parent == p)
  {
    hide TrackerOk, LinksOk, RequestOk, RoleMap;
    var r := out.req;
    var s1 := Step(cfg, s, StageOutput(stage, out, inputs));
    var p := if r in s.tracker.companionIds && r in s.tracker.parentOf then s.tracker.parentOf[r] else r;
    Addressee(cfg, s, r);
    ErrorKeeps(cfg, s, stage, r);
    TerminalKeeps(cfg, s, p, ErrorMessage(p, stage));
    GoneLeavesNoTrace(cfg, s1, p);
    assert s1.log == s.log + [ErrorMessage(p, stage)];
  }

  lemma Addressee(cfg: Config, s: Sys, r: ReqId)
    requires Inv(cfg, s) && r in s.requests
    ensures var p := if r in s.tracker.companionIds && r in s.tracker.parentOf then s.tracker.parentOf[r] else r;
            && p in s.requests && p !in s.tracker.companionIds
            && forall e | e in s.log && e.Registered? && e.companion == r :: e.parent == p
  {
    hide RequestOk, SubmissionOk, TraceOk;
    if r in s.tracker.companionIds {
      ParentIsClient(s, s.tracker.parentOf[r]);
    }
    forall e | e in s.log && e.Registered? && e.companion == r
      ensures r in s.tracker.parentOf && e.parent == s.tracker.parentOf[r]
    {
      assert RegistrationOk(s, e);
    }
    assert r in s.tracker.parentOf <==> r in s.tracker.companionIds;
  }

  /** A client's ready kv cache goes on or waits for companions when a forward is due, and
      changes nothing otherwise. */
  lemma KvReadyTells(cfg: Config, s: Sys, stage: nat, out: Output, inputs: nat)
    requires Inv(cfg, s) && !s.crashed && out.req in s.requests && out.req !in s.tracker.companionIds
    ensures var r, q, s1 := out.req, s.requests[out.req], Step(cfg, s, KvReady(stage, out, inputs));
            && s1.log == s.log + News(s, s1)
            && (if !Due(cfg, q, stage) then s1 == s
                else if Awaits(s.tracker, r) then
                  News(s, s1) == [] && r in s1.requests && r in s1.tracker.pending && s1.tracker.pending[r] == Deferred(out, stage)
                else Moves(cfg, s, s1, r, stage, out, inputs, KnowsRemote(s, r), News(s, s1)))
  {
    hide TrackerOk, LogOk, LinksOk, RequestOk, ForwardOrDefer, Moves, Awaits;
    RequestIsOk(cfg, s, out.req);
    StageInRange(cfg, s.requests[out.req], stage);
    assert s.log + [] == s.log;
    if Due(cfg, s.requests[out.req], stage) {
      ForwardOrDeferTells(cfg, s, out.req, stage, out, inputs);
    }
  }

  /** Counting a companion moves at most its waiting parent, with the output that was held. */
  lemma ReadyTells(cfg: Config, s: Sys, c: ReqId, inputs: nat)
    requires Inv(cfg, s) && !s.crashed
    ensures var s1 := CompanionReady(cfg, s, c, inputs);
            && s1.log == s.log + News(s, s1)
            && (News(s, s1) == []
                || exists p :: p in s.tracker.pending && p in s.requests
                               && var d := s.tracker.pending[p];
                                  Moves(cfg, s, s1, p, d.stage, d.output, inputs, KnowsRemote(s, p), News(s, s1)))
  {
    hide LogOk, LinksOk, TrackerOk, RolesDone, Forward, Moves;
    CompletedKeeps(s.tracker, c);
    var s1 := CompanionReady(cfg, s, c, inputs);
    var (t, done) := OnCompleted(s.tracker, c);
    assert s.log + [] == s.log;
    if done.Release? {
      var p := done.parent;
      var d := t.pending[p];
      var s2 := s.(tracker := t.(pending := t.pending - {p}));
      TrackerOnly(cfg, s, s2.tracker);
      ReleasedForwardable(cfg, s, p);
      if d.stage + 1 !in s2.requests[p].submitted {
        ForwardTells(cfg, s2, p, d.stage, d.output, inputs);
        MovesAlike(cfg, s2, s, s1, p, d.stage, d.output, inputs, KnowsRemote(s, p), News(s, s1));
      }
    }
  }

  /** An admission tells of itself, and in async-chunk mode of a submission to every later stage
      up to the final one; the request starts with no output finished. */
  lemma AdmissionTells(cfg: Config, s: Sys, r: ReqId, finalStage: nat, finalOutputs: set<nat>, hasTokens: bool)
    requires !s.crashed
    ensures var s1 := Step(cfg, s, AddRequest(r, finalStage, finalOutputs, hasTokens));
            var ahead := if cfg.asyncChunk && hasTokens then finalStage else 0;
            && s1.log == s.log + [Admitted(r)] + seq(ahead, i requires 0 <= i < ahead => Submitted(r, i + 1, [], []))
            && r in s1.requests && s1.requests[r].finishedOutputs == {} && s1.requests[r].finalStage == finalStage
            && s1.requests[r].finalOutputs == (if finalOutputs == {} then {finalStage} else finalOutputs)
            && (forall k: nat :: k in s1.requests[r].submitted <==> k <= ahead)
            && s1.tracker == s.tracker && s1.requests.Keys == s.requests.Keys + {r} && !s1.crashed
  {
    var top := if cfg.asyncChunk && hasTokens then finalStage + 1 else 1;
    PrewarmTells(s.log + [Admitted(r)], r, 1, top);
    assert forall k: nat :: k in Below(top) <==> k < top;
  }

  lemma {:induction false} PrewarmTells(log: seq<Event>, r: ReqId, lo: nat, hi: nat)
    requires 1 <= lo <= hi
    ensures Prewarm(log, r, lo, hi) == log + seq(hi - lo, i requires 0 <= i < hi - lo => Submitted(r, lo + i, [], []))
    decreases hi - lo
  {
    if lo == hi {
    } else {
      PrewarmTells(log + [Submitted(r, lo, [], [])], r, lo + 1, hi);
    }
  }

  // ---- registrations, companions, aborts -------------------------------------------------------

  /** A companion of a live parent becomes a live request of stage 0 that the parent waits for; of
      a parent that is gone it is dropped. */
  lemma RegistrationTells(cfg: Config, s: Sys, p: ReqId, role: Role, c: ReqId)
    requires Inv(cfg, s) && !s.crashed && CallOk(cfg, s, AddCompanion(p, role, c))
    ensures var s1 := Step(cfg, s, AddCompanion(p, role, c));
            if p !in s.requests then s1 == s
            else
              && s1.log == s.log + [Registered(p, c)]
              && s1.requests == s.requests[c := Request(0, {0}, {}, {0})]
              && c in s1.tracker.companionIds && Awaits(s1.tracker, p)
              && RoleMap(s1.tracker, p) == RoleMap(s.tracker, p) + [(role, c)] && c !in DoneSet(s1.tracker, p)
              && (forall q | q != p :: RoleMap(s1.tracker, q) == RoleMap(s.tracker, q) && DoneSet(s1.tracker, q) == DoneSet(s.tracker, q))
  {
    hide LogOk, LinksOk, Known, PutRole, StashOk, WaitingOk;
    if p in s.requests {
      FreshCompanion(cfg, s, p, c);
      PutNewRole(RoleMap(s.tracker, p), role, c);
      var t1 := RegisterCompanion(s.tracker, p, role, c);
      assert RoleMap(t1, p)[|RoleMap(s.tracker, p)|].1 == c;
    }
  }

  lemma FreshCompanion(cfg: Config, s: Sys, p: ReqId, c: ReqId)
    requires Inv(cfg, s) && c !in Known(s.log)
    ensures c !in DoneSet(s.tracker, p)
  {
    hide Known, LinksOk;
    FreshId(cfg, s, c);
    if p in s.tracker.companions {
      assert ParentOk(s.tracker.companions[p], s.tracker.done[p], s.tracker.companionIds, s.tracker.parentOf, p);
    }
  }

  lemma ForwardKeepsDone(cfg: Config, s: Sys, r: ReqId, src: nat, out: Output, inputs: nat, p: ReqId)
    requires r in s.requests && src + 1 < |cfg.stages|
    ensures var s1 := Forward(cfg, s, r, src, out, inputs);
            p in s1.requests ==> DoneSet(s1.tracker, p) == DoneSet(s.tracker, p)
  {
    hide RoleMap, Ids, Collect;
  }

  /** A counted companion is recorded as done for as long as its parent lives. */
  lemma ReadyCounts(cfg: Config, s: Sys, c: ReqId, inputs: nat)
    requires Inv(cfg, s) && !s.crashed && c in s.tracker.parentOf
    ensures var s1, p := CompanionReady(cfg, s, c, inputs), s.tracker.parentOf[c];
            p in s1.requests ==> c in DoneSet(s1.tracker, p)
  {
    hide LogOk, LinksOk, TrackerOk, RolesDone, Forward;
    CompletedKeeps(s.tracker, c);
    var (t, done) := OnCompleted(s.tracker, c);
    if done.Release? {
      var p := done.parent;
      var d := t.pending[p];
      var s2 := s.(tracker := t.(pending := t.pending - {p}));
      ReleasedForwardable(cfg, s, p);
      if d.stage + 1 !in s2.requests[p].submitted {
        ForwardKeepsDone(cfg, s2, p, d.stage, d.output, inputs, p);
      }
    }
  }

  /** A companion's finished output is counted for its parent, and the companion is gone. */
  lemma CompanionTells(cfg: Config, s: Sys, stage: nat, out: Output, inputs: nat)
    requires Inv(cfg, s) && !s.crashed && out.req in s.requests && out.req in s.tracker.companionIds
    requires stage < |cfg.stages| && out.finished && !out.error
    ensures var s1 := Step(cfg, s, StageOutput(stage, out, inputs));
            && out.req in s.tracker.parentOf
            && (s1.crashed || out.req !in s1.requests)
            && var p := s.tracker.parentOf[out.req]; p in s1.requests ==> out.req in DoneSet(s1.tracker, p)
  {
    hide LogOk, LinksOk, TrackerOk, CompanionReady;
    var s1 := s.(tracker := s.tracker.(outputs := s.tracker.outputs[out.req := out]));
    StashParts(s);
    OutputsOnly(cfg, s, s1.tracker.outputs);
    TrackedCompanions(s.tracker);
    ReadyCounts(cfg, s1, out.req, inputs);
    RouteOfCompanion(cfg, s, stage, out, inputs);
  }

  lemma TrackedCompanions(t: Tracker)
    requires TrackerOk(t)
    ensures t.companionIds == t.parentOf.Keys
  {
  }

  /** An abort silently removes exactly the requests it names and the companions of those. */
  lemma AbortTells(cfg: Config, s: Sys, reqs: seq<ReqId>, order: seq<ReqId>)
    requires Inv(cfg, s) && !s.crashed && CallOk(cfg, s, Abort(reqs, order))
    ensures var s1 := Step(cfg, s, Abort(reqs, order));
            && s1.log == s.log && !s1.crashed
            && (forall r | r in s.requests ::
                  r !in s1.requests <==> r in reqs || (r in s.tracker.parentOf && s.tracker.parentOf[r] in reqs))
            && (forall r | r in s1.requests :: r in s.requests && s1.requests[r] == s.requests[r])
  {
    hide LogOk, LinksOk, TrackerOk;
    AbortIsClean(s.tracker, order, reqs);
    ParentsAreClients(s.tracker);
  }

  lemma ParentsAreClients(t: Tracker)
    requires TrackerOk(t)
    ensures forall c | c in t.parentOf :: t.parentOf[c] !in t.companionIds
  {
    hide StashOk, WaitingOk;
    forall c | c in t.parentOf
      ensures t.parentOf[c] !in t.companionIds
    {
      assert ParentOk(t.companions[t.parentOf[c]], t.done[t.parentOf[c]], t.companionIds, t.parentOf, t.parentOf[c]);
    }
  }
}
