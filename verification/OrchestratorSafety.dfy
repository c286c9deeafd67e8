/** What every run of the orchestrator keeps. */
module OrchestratorSafety {
  import opened CfgTracker
  import opened OrchestratorSpec

  // ---- the trace ------------------------------------------------------------------

  /** Ids ever admitted or registered. */
  function Known(log: seq<Event>): set<ReqId> {
    if log == [] then {}
    else
      Known(log[..|log| - 1]) +
      match log[|log| - 1]
      case Admitted(r) => {r}
      case Registered(_, c) => {c}
      case _ => {}
  }

  predicate IsTerminal(e: Event, r: ReqId) {
    (e.ErrorMessage? && e.req == r) || (e.OutputMessage? && e.req == r && e.finished)
  }

  function Terminals(log: seq<Event>, r: ReqId): nat {
    if log == [] then 0
    else Terminals(log[..|log| - 1], r) + if IsTerminal(log[|log| - 1], r) then 1 else 0
  }

  predicate IsSubmission(e: Event, r: ReqId, stage: nat) {
    e.Submitted? && e.req == r && e.stage == stage
  }

  function Submissions(log: seq<Event>, r: ReqId, stage: nat): nat {
    if log == [] then 0
    else Submissions(log[..|log| - 1], r, stage) + if IsSubmission(log[|log| - 1], r, stage) then 1 else 0
  }

  lemma Appended(log: seq<Event>, e: Event, r: ReqId)
    ensures Known(log + [e]) == Known(log) + match e case Admitted(q) => {q} case Registered(_, c) => {c} case _ => {}
    ensures Terminals(log + [e], r) == Terminals(log, r) + if IsTerminal(e, r) then 1 else 0
    ensures forall k: nat :: Submissions(log + [e], r, k) == Submissions(log, r, k) + if IsSubmission(e, r, k) then 1 else 0
  {
    assert (log + [e])[..|log|] == log;
  }

  // ---- the invariant ---------------------------------------------------------------

  /** A parent is no companion; its roles and companions are distinct; its companions
      point back at it, and only they can be done. */
  ghost predicate ParentOk(roles: seq<(Role, ReqId)>, done: set<ReqId>, ids: set<ReqId>, parentOf: map<ReqId, ReqId>, p: ReqId) {
    && p !in ids
    && (forall i | 0 <= i < |roles| :: roles[i].1 in parentOf && parentOf[roles[i].1] == p)
    && (forall i, j | 0 <= i < j < |roles| :: roles[i].0 != roles[j].0 && roles[i].1 != roles[j].1)
    && (forall c | c in done :: c in Ids(roles))
  }

  /** The companion map, id set, parent map and done sets agree. */
  ghost predicate IndexOk(companions: map<ReqId, seq<(Role, ReqId)>>, ids: set<ReqId>, parentOf: map<ReqId, ReqId>,
                          done: map<ReqId, set<ReqId>>) {
    && companions.Keys == done.Keys
    && ids == parentOf.Keys
    && (forall p | p in companions :: ParentOk(companions[p], done[p], ids, parentOf, p))
    && (forall c | c in parentOf :: parentOf[c] in companions && c in Ids(companions[parentOf[c]]))
  }

  ghost predicate StashOk(ids: set<ReqId>, outputs: map<ReqId, Output>) {
    forall c | c in outputs :: c in ids && outputs[c].req == c && outputs[c].finished
  }

  /** Every deferred parent still waits for someone. */
  ghost predicate WaitingOk(t: Tracker) {
    forall p | p in t.pending :: p in t.companions && !AllDone(t, p)
  }

  ghost predicate TrackerOk(t: Tracker) {
    && IndexOk(t.companions, t.companionIds, t.parentOf, t.done)
    && StashOk(t.companionIds, t.outputs)
    && WaitingOk(t)
  }

  /** Submitted stages are a contiguous prefix {0, .., top - 1} up to the final stage. */
  ghost predicate RequestOk(cfg: Config, q: Request) {
    && q.finalStage < |cfg.stages|
    && q.finalStage in q.finalOutputs
    && q.finishedOutputs <= q.submitted
    && exists top: nat :: 1 <= top <= q.finalStage + 1 && q.submitted == Below(top)
  }

  ghost predicate DeferredOk(s: Sys, p: ReqId, d: Deferred) {
    && p in s.requests
    && d.output.req == p
    && d.stage in s.requests[p].submitted && d.stage < s.requests[p].finalStage
  }

  ghost predicate LinksOk(cfg: Config, s: Sys) {
    && (forall r | r in s.requests :: RequestOk(cfg, s.requests[r]))
    && (forall r | r in s.requests && r in s.tracker.companionIds :: s.requests[r].finalStage == 0)
    && s.tracker.companions.Keys <= s.requests.Keys
    && (forall p | p in s.tracker.pending :: DeferredOk(s, p, s.tracker.pending[p]))
    && s.pdKv.Keys <= s.requests.Keys
  }

  /** One request in the trace: at most one terminal message, and none while it lives;
      at most one submission to each stage; nothing about an id never admitted. */
  ghost predicate TraceOk(s: Sys, r: ReqId) {
    && Terminals(s.log, r) <= 1
    && (Terminals(s.log, r) > 0 ==> r in Known(s.log) && r !in s.requests)
    && forall k: nat :: SubmissionOk(s, r, k)
  }

  ghost predicate SubmissionOk(s: Sys, r: ReqId, k: nat) {
    && Submissions(s.log, r, k) <= 1
    && (Submissions(s.log, r, k) > 0 ==> r in Known(s.log) && (r in s.requests ==> k in s.requests[r].submitted))
    && (1 <= k && r in s.requests && k in s.requests[r].submitted ==> Submissions(s.log, r, k) == 1)
  }

  /** A live registered companion is tracked under the parent it was registered for. */
  ghost predicate RegistrationOk(s: Sys, e: Event) {
    e.Registered? ==>
      && e.companion in Known(s.log)
      && (e.companion in s.requests ==> e.companion in s.tracker.parentOf && s.tracker.parentOf[e.companion] == e.parent)
  }

  ghost predicate LogOk(s: Sys) {
    && s.requests.Keys <= Known(s.log)
    && s.tracker.companionIds <= Known(s.log)
    && (forall r :: TraceOk(s, r))
    && (forall e | e in s.log :: RegistrationOk(s, e))
  }

  ghost predicate Inv(cfg: Config, s: Sys) {
    TrackerOk(s.tracker) && LinksOk(cfg, s) && LogOk(s)
  }

  /** What the callers and the stage pools owe: request and companion ids are fresh, a
      companion names a client request and a new role, the final stage produces output,
      and pools answer only for stages the request was submitted to. */
  ghost predicate CallOk(cfg: Config, s: Sys, call: Call) {
    match call
    case AddRequest(r, finalStage, finalOutputs, _) =>
      && r !in Known(s.log)
      && finalStage < |cfg.stages|
      && (finalOutputs == {} || finalStage in finalOutputs)
    case AddCompanion(p, role, c) =>
      && c !in Known(s.log)
      && (p in s.requests ==> p !in s.tracker.companionIds
                              && forall i | 0 <= i < |RoleMap(s.tracker, p)| :: RoleMap(s.tracker, p)[i].0 != role)
    case Abort(reqs, order) => forall p :: p in order <==> p in reqs && p !in s.tracker.companionIds
    case StageOutput(stage, out, _) => out.req in s.requests ==> stage in s.requests[out.req].submitted
    case KvReady(stage, out, _) => out.req in s.requests ==> stage in s.requests[out.req].submitted
  }

  ghost predicate RunOk(cfg: Config, s: Sys, calls: seq<Call>)
    decreases |calls|
  {
    calls == [] || (CallOk(cfg, s, calls[0]) && RunOk(cfg, Step(cfg, s, calls[0]), calls[1..]))
  }

  lemma InitOk(cfg: Config)
    ensures Inv(cfg, Init())
  {
  }

  // ---- removing requests ----------------------------------------------------------------

  /** Companions whose parent is in `gone`. */
  function OwnedBy(t: Tracker, gone: set<ReqId>): set<ReqId> {
    set c | c in t.parentOf && t.parentOf[c] in gone
  }

  function Clean(t: Tracker, gone: set<ReqId>): Tracker {
    var owned := OwnedBy(t, gone);
    Tracker(t.companions - gone, t.companionIds - owned, t.parentOf - owned, t.done - gone, t.pending - gone, t.outputs - owned)
  }

  lemma CleanOk(t: Tracker, gone: set<ReqId>)
    requires TrackerOk(t)
    ensures TrackerOk(Clean(t, gone))
  {
    hide RolesDone, Ids;
    var t1 := Clean(t, gone);
    forall p | p in t1.companions
      ensures ParentOk(t1.companions[p], t1.done[p], t1.companionIds, t1.parentOf, p)
    {
      assert ParentOk(t.companions[p], t.done[p], t.companionIds, t.parentOf, p);
    }
  }

  lemma CleanupIsClean(t: Tracker, p: ReqId)
    requires TrackerOk(t)
    ensures CleanupParent(t, p).0 == Clean(t, {p})
    ensures Members(CleanupParent(t, p).1) == OwnedBy(t, {p})
  {
    var ids := Ids(RoleMap(t, p));
    if p in t.companions {
      assert ParentOk(t.companions[p], t.done[p], t.companionIds, t.parentOf, p);
    }
    assert Members(ids) == OwnedBy(t, {p});
  }

  lemma CleanTwice(t: Tracker, a: set<ReqId>, b: set<ReqId>)
    ensures Clean(Clean(t, a), b) == Clean(t, a + b)
    ensures OwnedBy(t, a) + OwnedBy(Clean(t, a), b) == OwnedBy(t, a + b)
  {
    assert OwnedBy(t, a) + OwnedBy(Clean(t, a), b) == OwnedBy(t, a + b);
    var x, y := Clean(Clean(t, a), b), Clean(t, a + b);
    assert x.companions == y.companions && x.done == y.done && x.pending == y.pending;
    assert x.parentOf == y.parentOf && x.outputs == y.outputs && x.companionIds == y.companionIds;
  }

  lemma {:induction false} AppendNewMembers(seen: seq<ReqId>, ids: seq<ReqId>)
    ensures Members(AppendNew(seen, ids)) == Members(seen) + Members(ids)
    decreases |ids|
  {
    if ids == [] {
    } else {
      var seen' := if ids[0] in seen then seen else seen + [ids[0]];
      AppendNewMembers(seen', ids[1..]);
      assert Members(seen') == Members(seen) + {ids[0]};
      assert Members(ids) == {ids[0]} + Members(ids[1..]);
    }
  }

  lemma CleanNothing(t: Tracker)
    ensures Clean(t, {}) == t && OwnedBy(t, {}) == {}
  {
    assert OwnedBy(t, {}) == {};
  }

  lemma {:induction false} AbortIsClean(t: Tracker, order: seq<ReqId>, seen: seq<ReqId>)
    requires TrackerOk(t)
    ensures AbortParents(t, order, seen).0 == Clean(t, Members(order))
    ensures Members(AbortParents(t, order, seen).1) == Members(seen) + OwnedBy(t, Members(order))
    decreases |order|
  {
    if order == [] {
      assert Members(order) == {};
      CleanNothing(t);
    } else {
      hide TrackerOk, Clean, OwnedBy, CleanupParent;
      var p := order[0];
      var (t1, ids) := CleanupParent(t, p);
      CleanupIsClean(t, p);
      CleanOk(t, {p});
      AppendNewMembers(seen, ids);
      AbortIsClean(t1, order[1..], AppendNew(seen, ids));
      CleanTwice(t, {p}, Members(order[1..]));
      assert Members(order) == {p} + Members(order[1..]);
    }
  }

  /** Removing `ids` and cleaning the parents `gone` keeps the invariant, provided every
      removed parent is cleaned and every cleaned parent goes with its companions. */
  lemma RemoveKeeps(cfg: Config, s: Sys, gone: set<ReqId>, ids: set<ReqId>)
    requires Inv(cfg, s)
    requires OwnedBy(s.tracker, gone) <= ids
    requires forall p | p in ids && p in s.tracker.companions :: p in gone
    ensures Inv(cfg, CleanupIds(s.(tracker := Clean(s.tracker, gone)), ids))
  {
    var s1 := CleanupIds(s.(tracker := Clean(s.tracker, gone)), ids);
    CleanOk(s.tracker, gone);
    forall p | p in s1.tracker.pending
      ensures DeferredOk(s1, p, s1.tracker.pending[p])
    {
      assert DeferredOk(s, p, s.tracker.pending[p]);
    }
    assert LinksOk(cfg, s1);
    SameLog(s, s1);
  }

  lemma FinishKeeps(cfg: Config, s: Sys, r: ReqId)
    requires Inv(cfg, s) && r in s.requests && r !in s.tracker.companionIds
    ensures Inv(cfg, FinishRequest(s, r)) && r !in FinishRequest(s, r).requests
  {
    CleanupIsClean(s.tracker, r);
    RemoveKeeps(cfg, s, {r}, {r} + OwnedBy(s.tracker, {r}));
  }

  lemma EmitKeeps(cfg: Config, s: Sys, e: Event)
    requires Inv(cfg, s) && !e.Admitted? && !e.Registered? && !e.Submitted?
    requires forall r | IsTerminal(e, r) :: r in Known(s.log) && r !in s.requests && Terminals(s.log, r) == 0
    ensures Inv(cfg, Emit(s, e))
  {
    hide TrackerOk, RequestOk;
    var s1 := Emit(s, e);
    EmittedLog(s, e);
    KeepDeferred(s, s1);
  }

  lemma EmittedLog(s: Sys, e: Event)
    requires LogOk(s) && !e.Admitted? && !e.Registered? && !e.Submitted?
    requires forall r | IsTerminal(e, r) :: r in Known(s.log) && r !in s.requests && Terminals(s.log, r) == 0
    ensures LogOk(Emit(s, e))
  {
    var s1 := Emit(s, e);
    forall r
      ensures TraceOk(s1, r)
    {
      assert TraceOk(s, r);
      Appended(s.log, e, r);
      forall k: nat
        ensures SubmissionOk(s1, r, k)
      {
        assert SubmissionOk(s, r, k);
      }
    }
    Appended(s.log, e, "");
    forall e1 | e1 in s1.log
      ensures RegistrationOk(s1, e1)
    {
      assert e1 in s.log || e1 == e;
    }
  }

  /** A terminal message followed by the request's cleanup. */
  lemma TerminalKeeps(cfg: Config, s: Sys, r: ReqId, e: Event)
    requires Inv(cfg, s) && r in s.requests && r !in s.tracker.companionIds
    requires e.OutputMessage? || e.ErrorMessage?
    requires forall q | IsTerminal(e, q) :: q == r
    ensures Inv(cfg, FinishRequest(Emit(s, e), r))
    ensures r !in FinishRequest(Emit(s, e), r).requests
  {
    FinishKeeps(cfg, s, r);
    assert TraceOk(s, r);
    EmitKeeps(cfg, FinishRequest(s, r), e);
    assert FinishRequest(Emit(s, e), r) == Emit(FinishRequest(s, r), e);
  }

  // ---- forwarding --------------------------------------------------------------------

  lemma OutputsOnly(cfg: Config, s: Sys, outputs: map<ReqId, Output>)
    requires Inv(cfg, s) && StashOk(s.tracker.companionIds, outputs)
    ensures Inv(cfg, s.(tracker := s.tracker.(outputs := outputs)))
  {
    hide RolesDone, LogOk, IndexOk;
    var s1 := s.(tracker := s.tracker.(outputs := outputs));
    KeepDeferred(s, s1);
    SameLog(s, s1);
  }

  lemma KeepDeferred(s: Sys, s1: Sys)
    requires forall p | p in s.tracker.pending :: DeferredOk(s, p, s.tracker.pending[p])
    requires forall p | p in s1.tracker.pending :: p in s.tracker.pending && s1.tracker.pending[p] == s.tracker.pending[p]
                                                  && p in s1.requests
    requires forall r | r in s1.requests && r in s.requests ::
               s1.requests[r].submitted >= s.requests[r].submitted && s1.requests[r].finalStage == s.requests[r].finalStage
    ensures forall p | p in s1.tracker.pending :: DeferredOk(s1, p, s1.tracker.pending[p])
  {
    forall p | p in s1.tracker.pending
      ensures DeferredOk(s1, p, s1.tracker.pending[p])
    {
      assert DeferredOk(s, p, s.tracker.pending[p]);
    }
  }

  lemma SameLog(s: Sys, s1: Sys)
    requires LogOk(s) && s1.log == s.log && s1.requests.Keys <= s.requests.Keys
    requires s1.tracker.companionIds <= s.tracker.companionIds
    requires forall r | r in s1.requests :: s1.requests[r].submitted == s.requests[r].submitted
    requires forall c | c in s1.requests && c in s.tracker.parentOf :: c in s1.tracker.parentOf && s1.tracker.parentOf[c] == s.tracker.parentOf[c]
    ensures LogOk(s1)
  {
    forall r
      ensures TraceOk(s1, r)
    {
      assert TraceOk(s, r);
      forall k: nat
        ensures SubmissionOk(s1, r, k)
      {
        assert SubmissionOk(s, r, k);
      }
    }
    forall e | e in s1.log
      ensures RegistrationOk(s1, e)
    {
      assert RegistrationOk(s, e);
    }
  }

  lemma NextStage(q: Request, src: nat, cfg: Config)
    requires RequestOk(cfg, q) && src in q.submitted && src + 1 !in q.submitted && src < q.finalStage
    ensures RequestOk(cfg, q.(submitted := q.submitted + {src + 1}))
    ensures q.submitted == Below(src + 1)
  {
    var top: nat :| 1 <= top <= q.finalStage + 1 && q.submitted == Below(top);
    assert top == src + 1;
    assert q.submitted + {src + 1} == Below(src + 2);
  }

  lemma SubmitKeeps(cfg: Config, s: Sys, r: ReqId, src: nat, sources: seq<Output>, companions: seq<ReqId>)
    requires Inv(cfg, s) && r in s.requests
    requires src in s.requests[r].submitted && src + 1 !in s.requests[r].submitted && src < s.requests[r].finalStage
    ensures Inv(cfg, Submit(s, r, src + 1, sources, companions))
  {
    hide TrackerOk, RequestOk;
    var s1 := Submit(s, r, src + 1, sources, companions);
    TrackerParts(s.tracker);
    assert RequestOk(cfg, s.requests[r]);
    NextStage(s.requests[r], src, cfg);
    KeepDeferred(s, s1);
    StageKept(cfg, s.requests[r], src);
    SubmittedLog(s, r, src + 1, sources, companions);
  }

  lemma StageKept(cfg: Config, q: Request, src: nat)
    requires RequestOk(cfg, q)
    ensures q.finishedOutputs <= q.submitted
  {
  }

  lemma SubmittedLog(s: Sys, r: ReqId, stage: nat, sources: seq<Output>, companions: seq<ReqId>)
    requires LogOk(s) && r in s.requests && stage !in s.requests[r].submitted
    ensures LogOk(Submit(s, r, stage, sources, companions))
  {
    var s1 := Submit(s, r, stage, sources, companions);
    var e := Submitted(r, stage, sources, companions);
    forall q
      ensures TraceOk(s1, q)
    {
      assert TraceOk(s, q);
      Appended(s.log, e, q);
      forall k: nat
        ensures SubmissionOk(s1, q, k)
      {
        assert SubmissionOk(s, q, k);
      }
    }
    forall e1 | e1 in s1.log
      ensures RegistrationOk(s1, e1)
    {
      assert e1 in s.log || e1 == e;
      assert e1 in s.log ==> RegistrationOk(s, e1);
      Appended(s.log, e, r);
    }
  }

  /** The situation every forward happens in. */
  ghost predicate Forwardable(s: Sys, r: ReqId, src: nat) {
    && r in s.requests && r !in s.tracker.companionIds
    && src in s.requests[r].submitted && src + 1 !in s.requests[r].submitted && src < s.requests[r].finalStage
  }

  lemma EarlyEndKeeps(cfg: Config, s: Sys, r: ReqId, stage: nat)
    requires Inv(cfg, s) && r in s.requests && r !in s.tracker.companionIds
    ensures Inv(cfg, TerminateEarly(s, r, stage)) && r !in TerminateEarly(s, r, stage).requests
    ensures TerminateEarly(MarkSubmitted(s, r, stage), r, stage) == TerminateEarly(s, r, stage)
  {
    TerminalKeeps(cfg, s, r, OutputMessage(r, stage, true));
    var a, b := TerminateEarly(MarkSubmitted(s, r, stage), r, stage), TerminateEarly(s, r, stage);
    assert a.requests == b.requests;
  }

  lemma PopKeeps(cfg: Config, s: Sys, r: ReqId)
    requires Inv(cfg, s)
    ensures Inv(cfg, s.(tracker := PopOutputs(s.tracker, r).0))
  {
    OutputsOnly(cfg, s, PopOutputs(s.tracker, r).0.outputs);
  }

  lemma PdKeeps(cfg: Config, s: Sys, pdKv: map<ReqId, bool>, crashed: bool)
    requires Inv(cfg, s) && pdKv.Keys <= s.requests.Keys
    ensures Inv(cfg, s.(pdKv := pdKv, crashed := crashed))
  {
    hide TrackerOk;
    var s1 := s.(pdKv := pdKv, crashed := crashed);
    KeepDeferred(s, s1);
    SameLog(s, s1);
  }

  lemma ForwardKeeps(cfg: Config, s: Sys, r: ReqId, src: nat, out: Output, inputs: nat)
    requires Inv(cfg, s) && Forwardable(s, r, src) && src + 1 < |cfg.stages|
    ensures Inv(cfg, Forward(cfg, s, r, src, out, inputs))
  {
    hide TrackerOk, LogOk, LinksOk, FinishRequest;
    if cfg.stages[src + 1].diffusion {
      var s1 := s.(tracker := PopOutputs(s.tracker, r).0);
      PopKeeps(cfg, s, r);
      if inputs == 0 {
        EarlyEndKeeps(cfg, s1, r, src + 1);
      } else {
        SubmitKeeps(cfg, s1, r, src, [out] + PopOutputs(s.tracker, r).1, Ids(RoleMap(s.tracker, r)));
      }
    } else if cfg.pdPair == Some((src, src + 1)) {
      PdKeys(cfg, s);
      PdKeeps(cfg, s, s.pdKv - {r}, s.crashed);
      PdKeeps(cfg, s, s.pdKv - {r}, true);
      SubmitKeeps(cfg, s.(pdKv := s.pdKv - {r}), r, src, [out], []);
    } else if inputs == 0 {
      EarlyEndKeeps(cfg, s, r, s.requests[r].finalStage);
    } else {
      SubmitKeeps(cfg, s, r, src, [out], []);
    }
  }

  lemma PdKeys(cfg: Config, s: Sys)
    requires Inv(cfg, s)
    ensures s.pdKv.Keys <= s.requests.Keys
  {
  }

  lemma DeferKeeps(cfg: Config, s: Sys, r: ReqId, src: nat, out: Output)
    requires Inv(cfg, s) && Forwardable(s, r, src) && out.req == r
    requires r in s.tracker.companions && !AllDone(s.tracker, r)
    ensures Inv(cfg, s.(tracker := Defer(s.tracker, r, Deferred(out, src))))
  {
    hide RolesDone, LogOk, IndexOk, RequestOk;
    var s1 := s.(tracker := Defer(s.tracker, r, Deferred(out, src)));
    forall p | p in s1.tracker.pending
      ensures DeferredOk(s1, p, s1.tracker.pending[p])
    {
      if p != r {
        assert DeferredOk(s, p, s.tracker.pending[p]);
      }
    }
    SameLog(s, s1);
  }

  lemma ForwardOrDeferKeeps(cfg: Config, s: Sys, r: ReqId, src: nat, out: Output, inputs: nat)
    requires Inv(cfg, s) && Forwardable(s, r, src) && src + 1 < |cfg.stages| && out.req == r
    ensures Inv(cfg, ForwardOrDefer(cfg, s, r, src, out, inputs))
  {
    hide TrackerOk, LogOk, LinksOk, AllDone;
    if r in s.tracker.companions && !AllDone(s.tracker, r) {
      DeferKeeps(cfg, s, r, src, out);
    } else {
      ForwardKeeps(cfg, s, r, src, out, inputs);
    }
  }

  // ---- companions -----------------------------------------------------------------------

  /** Completion bookkeeping never trips its assertion.  Releasing the parent is exactly
      what a parent that no longer waits needs. */
  lemma CompletedKeeps(t: Tracker, c: ReqId)
    requires TrackerOk(t)
    ensures var (t1, done) := OnCompleted(t, c);
            && !done.AssertionFailed?
            && (done.Release? ==> done.parent in t1.pending && TrackerOk(t1.(pending := t1.pending - {done.parent})))
            && (!done.Release? ==> TrackerOk(t1))
            && t1 == t.(done := t1.done)
  {
    hide RolesDone, StashOk;
    var (t1, done) := OnCompleted(t, c);
    if done.Marked? || done.Release? {
      CompletedIndex(t, c);
    }
  }

  lemma CompletedIndex(t: Tracker, c: ReqId)
    requires IndexOk(t.companions, t.companionIds, t.parentOf, t.done) && c in t.parentOf
    ensures t.parentOf[c] in t.done
    ensures var p := t.parentOf[c];
            IndexOk(t.companions, t.companionIds, t.parentOf, t.done[p := t.done[p] + {c}])
  {
    hide Ids;
    var p := t.parentOf[c];
    forall q | q in t.companions
      ensures ParentOk(t.companions[q], t.done[p := t.done[p] + {c}][q], t.companionIds, t.parentOf, q)
    {
      assert ParentOk(t.companions[q], t.done[q], t.companionIds, t.parentOf, q);
    }
  }

  /** Replacing the tracker by one that only finished companions and released parents. */
  lemma TrackerOnly(cfg: Config, s: Sys, t1: Tracker)
    requires Inv(cfg, s) && TrackerOk(t1)
    requires t1.companions == s.tracker.companions && t1.companionIds == s.tracker.companionIds && t1.parentOf == s.tracker.parentOf
    requires forall p | p in t1.pending :: p in s.tracker.pending && t1.pending[p] == s.tracker.pending[p]
    ensures Inv(cfg, s.(tracker := t1))
  {
    hide TrackerOk, RequestOk;
    TrackerParts(s.tracker);
    TrackerParts(t1);
    var s1 := s.(tracker := t1);
    KeepDeferred(s, s1);
    SameLog(s, s1);
  }

  lemma TrackerParts(t: Tracker)
    requires TrackerOk(t)
    ensures forall p | p in t.pending :: p in t.companions
  {
  }

  lemma ParentIsClient(s: Sys, p: ReqId)
    requires TrackerOk(s.tracker) && p in s.tracker.companions
    ensures p !in s.tracker.companionIds
  {
    var t := s.tracker;
    assert ParentOk(t.companions[p], t.done[p], t.companionIds, t.parentOf, p);
  }

  lemma ReleasedForwardable(cfg: Config, s: Sys, p: ReqId)
    requires Inv(cfg, s) && p in s.tracker.pending
    ensures DeferredOk(s, p, s.tracker.pending[p]) && p !in s.tracker.companionIds
    ensures s.tracker.pending[p].stage + 1 < |cfg.stages|
  {
    hide LogOk;
    ParentIsClient(s, p);
    assert RequestOk(cfg, s.requests[p]);
  }

  lemma CompanionReadyKeeps(cfg: Config, s: Sys, c: ReqId, inputs: nat)
    requires Inv(cfg, s)
    ensures Inv(cfg, CompanionReady(cfg, s, c, inputs))
  {
    hide LogOk, LinksOk, TrackerOk, RolesDone, Forward;
    CompletedKeeps(s.tracker, c);
    var (t, done) := OnCompleted(s.tracker, c);
    if done.Release? {
      var p := done.parent;
      var d := t.pending[p];
      var t2 := t.(pending := t.pending - {p});
      var s2 := s.(tracker := t2);
      TrackerOnly(cfg, s, t2);
      ReleasedForwardable(cfg, s, p);
      if d.stage + 1 !in s2.requests[p].submitted {
        ForwardKeeps(cfg, s2, p, d.stage, d.output, inputs);
      }
    } else {
      TrackerOnly(cfg, s, t);
    }
  }

  lemma RemoveCompanion(cfg: Config, s: Sys, c: ReqId)
    requires Inv(cfg, s) && c !in s.tracker.companions
    ensures Inv(cfg, CleanupIds(s, {c}))
  {
    CleanNothing(s.tracker);
    RemoveKeeps(cfg, s, {}, {c});
    assert s.(tracker := Clean(s.tracker, {})) == s;
  }

  /** A forward adds no parents. */
  lemma ForwardParents(cfg: Config, s: Sys, r: ReqId, src: nat, out: Output, inputs: nat)
    requires r in s.requests && src + 1 < |cfg.stages|
    ensures Forward(cfg, s, r, src, out, inputs).tracker.companions.Keys <= s.tracker.companions.Keys
  {
  }

  lemma ReadyParents(cfg: Config, s: Sys, c: ReqId, inputs: nat)
    ensures CompanionReady(cfg, s, c, inputs).tracker.companions.Keys <= s.tracker.companions.Keys
  {
    hide Forward, RolesDone;
    var (t, done) := OnCompleted(s.tracker, c);
    if done.Release? && done.parent in t.pending {
      var p := done.parent;
      var d := t.pending[p];
      var s2 := s.(tracker := t.(pending := t.pending - {p}));
      if p in s2.requests && d.stage + 1 < |cfg.stages| {
        ForwardParents(cfg, s2, p, d.stage, d.output, inputs);
      }
    }
  }

  lemma RouteCompanionKeeps(cfg: Config, s: Sys, out: Output, inputs: nat)
    requires Inv(cfg, s) && out.req in s.tracker.companionIds && out.finished
    ensures Inv(cfg, RouteCompanion(cfg, s, out, inputs))
  {
    hide LogOk, LinksOk, TrackerOk, CompanionReady;
    var s1 := s.(tracker := s.tracker.(outputs := s.tracker.outputs[out.req := out]));
    StashParts(s);
    OutputsOnly(cfg, s, s1.tracker.outputs);
    CompanionReadyKeeps(cfg, s1, out.req, inputs);
    var s2 := CompanionReady(cfg, s1, out.req, inputs);
    ReadyParents(cfg, s1, out.req, inputs);
    if !s2.crashed {
      CompanionIsNoParent(s.tracker, out.req);
      RemoveCompanion(cfg, s2, out.req);
    }
  }

  lemma StashParts(s: Sys)
    requires TrackerOk(s.tracker)
    ensures StashOk(s.tracker.companionIds, s.tracker.outputs)
  {
  }

  lemma CompanionIsNoParent(t: Tracker, c: ReqId)
    requires TrackerOk(t) && c in t.companionIds
    ensures c !in t.companions
  {
    assert c in t.companions ==> ParentOk(t.companions[c], t.done[c], t.companionIds, t.parentOf, c);
  }

  // ---- routing ------------------------------------------------------------------------

  lemma MarkFinishedKeeps(cfg: Config, s: Sys, r: ReqId, stage: nat)
    requires Inv(cfg, s) && r in s.requests && stage in s.requests[r].submitted
    ensures var q := s.requests[r];
            Inv(cfg, s.(requests := s.requests[r := q.(finishedOutputs := q.finishedOutputs + {stage})]))
  {
    hide TrackerOk;
    var q := s.requests[r];
    var s1 := s.(requests := s.requests[r := q.(finishedOutputs := q.finishedOutputs + {stage})]);
    TrackerParts(s.tracker);
    assert RequestOk(cfg, q);
    KeepDeferred(s, s1);
    SameLog(s, s1);
  }

  /** Once every wanted output is finished the final stage has been submitted, so there is
      nothing left to forward. */
  lemma CompleteHasNoNext(cfg: Config, q: Request, stage: nat)
    requires RequestOk(cfg, q) && stage in q.submitted && WantedOutputs(q) <= q.finishedOutputs
    ensures stage < q.finalStage ==> stage + 1 in q.submitted
  {
    var top: nat :| 1 <= top <= q.finalStage + 1 && q.submitted == Below(top);
    assert q.finalStage in q.submitted;
  }

  /** The request record after a finished final output. */
  function Marked(cfg: Config, s: Sys, stage: nat, out: Output): Sys
    requires out.req in s.requests && stage < |cfg.stages|
  {
    var q := s.requests[out.req];
    if cfg.stages[stage].finalOutput && out.finished
    then s.(requests := s.requests[out.req := q.(finishedOutputs := q.finishedOutputs + {stage})]) else s
  }

  lemma AnnounceParts(cfg: Config, s: Sys, stage: nat, out: Output)
    requires out.req in s.requests && stage < |cfg.stages|
    ensures var (s1, complete) := Announce(cfg, s, stage, out);
            var m := Marked(cfg, s, stage, out);
            && (s1 == m || exists e: Event :: s1 == Emit(m, e) && (e.OutputMessage? || e.MetricsMessage?)
                                              && forall q | IsTerminal(e, q) :: q == out.req && complete)
            && (complete ==> exists e: Event :: s1 == Emit(m, e) && e.OutputMessage? && forall q | IsTerminal(e, q) :: q == out.req)
            && (complete ==> WantedOutputs(m.requests[out.req]) <= m.requests[out.req].finishedOutputs)
  {
    var (s1, complete) := Announce(cfg, s, stage, out);
    var m := Marked(cfg, s, stage, out);
    if cfg.stages[stage].finalOutput {
      assert s.requests[out.req := s.requests[out.req]] == s.requests;
      assert s1 == Emit(m, OutputMessage(out.req, stage, complete));
    } else if out.finished {
      assert s1 == Emit(m, MetricsMessage(out.req, stage));
    }
  }

  lemma MarkedKeeps(cfg: Config, s: Sys, stage: nat, out: Output)
    requires Inv(cfg, s) && out.req in s.requests && stage < |cfg.stages| && stage in s.requests[out.req].submitted
    ensures var m := Marked(cfg, s, stage, out);
            && Inv(cfg, m) && m.tracker == s.tracker && m.log == s.log && m.pdKv == s.pdKv && m.crashed == s.crashed
            && out.req in m.requests && m.requests[out.req].submitted == s.requests[out.req].submitted
            && m.requests[out.req].finalStage == s.requests[out.req].finalStage
  {
    MarkFinishedKeeps(cfg, s, out.req, stage);
  }

  lemma CompleteKeeps(cfg: Config, m: Sys, e: Event, r: ReqId, pdKv: map<ReqId, bool>)
    requires Inv(cfg, m) && r in m.requests && r !in m.tracker.companionIds
    requires e.OutputMessage? && forall q | IsTerminal(e, q) :: q == r
    requires pdKv - {r} == m.pdKv - {r}
    ensures Inv(cfg, FinishRequest(Emit(m, e).(pdKv := pdKv), r))
  {
    hide TrackerOk, LogOk, LinksOk, CleanupParent;
    TerminalKeeps(cfg, m, r, e);
    var ids := {r} + Members(CleanupParent(m.tracker, r).1);
    assert pdKv - ids == (pdKv - {r}) - ids;
    assert m.pdKv - ids == (m.pdKv - {r}) - ids;
    assert FinishRequest(Emit(m, e).(pdKv := pdKv), r) == FinishRequest(Emit(m, e), r);
  }

  lemma RouteParentKeeps(cfg: Config, s: Sys, stage: nat, out: Output, inputs: nat)
    requires Inv(cfg, s) && out.req in s.requests && stage < |cfg.stages| && stage in s.requests[out.req].submitted
    requires !s.crashed && (out.finished ==> out.req !in s.tracker.companionIds)
    ensures Inv(cfg, Route(cfg, s, stage, out, inputs))
  {
    hide TrackerOk, LogOk, LinksOk, Announce, FinishRequest, ForwardOrDefer, Marked, RolesDone;
    var r := out.req;
    var m := Marked(cfg, s, stage, out);
    MarkedKeeps(cfg, s, stage, out);
    AnnounceParts(cfg, s, stage, out);
    RequestIsOk(cfg, m, r);
    var (s1, complete) := Announce(cfg, s, stage, out);
    if complete {
      CompleteIsFinished(cfg, s, stage, out);
      CompleteHasNoNext(cfg, m.requests[r], stage);
      var e: Event :| s1 == Emit(m, e) && e.OutputMessage? && forall q | IsTerminal(e, q) :: q == r;
      var pdKv := CapturePrefill(cfg, s1, stage, out).pdKv;
      CompleteKeeps(cfg, m, e, r, pdKv);
    } else {
      if s1 != m {
        var e: Event :| s1 == Emit(m, e) && (e.OutputMessage? || e.MetricsMessage?) && forall q | IsTerminal(e, q) :: q == r && complete;
        EmitKeeps(cfg, m, e);
      }
      var s2 := CapturePrefill(cfg, s1, stage, out);
      PdKeys(cfg, s1);
      PdKeeps(cfg, s1, s2.pdKv, s1.crashed);
      PdKeeps(cfg, s2, s2.pdKv, true);
      if ShouldForward(cfg, s2, stage, out) && stage + 1 < |cfg.stages| {
        ForwardOrDeferKeeps(cfg, s2, r, stage, out, inputs);
      }
    }
  }

  lemma CompleteIsFinished(cfg: Config, s: Sys, stage: nat, out: Output)
    requires out.req in s.requests && stage < |cfg.stages|
    ensures Announce(cfg, s, stage, out).1 ==> out.finished
  {
  }

  lemma RequestIsOk(cfg: Config, s: Sys, r: ReqId)
    requires Inv(cfg, s) && r in s.requests
    ensures RequestOk(cfg, s.requests[r])
  {
  }

  // ---- admission and abort ---------------------------------------------------------------

  lemma {:induction false} PrewarmTrace(log: seq<Event>, r: ReqId, lo: nat, hi: nat, q: ReqId)
    ensures var log1 := Prewarm(log, r, lo, hi);
            && Known(log1) == Known(log) && Terminals(log1, q) == Terminals(log, q)
            && (forall k: nat :: Submissions(log1, q, k) == Submissions(log, q, k) + if q == r && lo <= k < hi then 1 else 0)
            && forall e | e in log1 :: e in log || e.Submitted?
    decreases hi - lo
  {
    if lo >= hi {
    } else {
      Appended(log, Submitted(r, lo, [], []), q);
      PrewarmTrace(log + [Submitted(r, lo, [], [])], r, lo + 1, hi, q);
    }
  }

  lemma FreshId(cfg: Config, s: Sys, r: ReqId)
    requires Inv(cfg, s) && r !in Known(s.log)
    ensures r !in s.requests && r !in s.tracker.companionIds && r !in s.tracker.companions && r !in s.tracker.parentOf
    ensures r !in s.tracker.pending && r !in s.pdKv
    ensures Terminals(s.log, r) == 0 && forall k: nat :: Submissions(s.log, r, k) == 0
  {
    assert TraceOk(s, r);
    forall k: nat
      ensures Submissions(s.log, r, k) == 0
    {
      assert SubmissionOk(s, r, k);
    }
  }

  lemma AdmitKeeps(cfg: Config, s: Sys, r: ReqId, finalStage: nat, finalOutputs: set<nat>, hasTokens: bool)
    requires Inv(cfg, s) && CallOk(cfg, s, AddRequest(r, finalStage, finalOutputs, hasTokens))
    ensures Inv(cfg, Admit(cfg, s, r, finalStage, finalOutputs, hasTokens))
  {
    hide TrackerOk;
    FreshId(cfg, s, r);
    TrackerParts(s.tracker);
    var s1 := Admit(cfg, s, r, finalStage, finalOutputs, hasTokens);
    KeepDeferred(s, s1);
    assert RequestOk(cfg, s1.requests[r]);
    AdmitLog(cfg, s, r, finalStage, finalOutputs, hasTokens);
  }

  lemma AdmitLog(cfg: Config, s: Sys, r: ReqId, finalStage: nat, finalOutputs: set<nat>, hasTokens: bool)
    requires LogOk(s) && r !in Known(s.log) && Terminals(s.log, r) == 0 && forall k: nat :: Submissions(s.log, r, k) == 0
    ensures LogOk(Admit(cfg, s, r, finalStage, finalOutputs, hasTokens))
  {
    var s1 := Admit(cfg, s, r, finalStage, finalOutputs, hasTokens);
    var top := if cfg.asyncChunk && hasTokens then finalStage + 1 else 1;
    forall q
      ensures TraceOk(s1, q)
      ensures Known(s1.log) == Known(s.log) + {r}
    {
      assert TraceOk(s, q);
      Appended(s.log, Admitted(r), q);
      PrewarmTrace(s.log + [Admitted(r)], r, 1, top, q);
      forall k: nat
        ensures SubmissionOk(s1, q, k)
      {
        assert SubmissionOk(s, q, k);
      }
    }
    assert TraceOk(s1, r);
    PrewarmTrace(s.log + [Admitted(r)], r, 1, top, r);
    Appended(s.log, Admitted(r), r);
    forall e | e in s1.log
      ensures RegistrationOk(s1, e)
    {
      if e.Registered? {
        assert RegistrationOk(s, e);
      }
    }
  }

  lemma {:induction false} PutNewRole(roles: seq<(Role, ReqId)>, role: Role, c: ReqId)
    requires forall i | 0 <= i < |roles| :: roles[i].0 != role
    ensures PutRole(roles, role, c) == roles + [(role, c)]
  {
    if roles == [] {
    } else {
      PutNewRole(roles[1..], role, c);
    }
  }

  lemma RegisterTracker(t: Tracker, p: ReqId, role: Role, c: ReqId)
    requires TrackerOk(t) && c !in t.parentOf && c !in t.companions && p != c && p !in t.companionIds
    requires forall i | 0 <= i < |RoleMap(t, p)| :: RoleMap(t, p)[i].0 != role
    ensures TrackerOk(RegisterCompanion(t, p, role, c))
    ensures RegisterCompanion(t, p, role, c).pending == t.pending
  {
    hide IndexOk, RolesDone, ParentOk;
    var t1 := RegisterCompanion(t, p, role, c);
    PutNewRole(RoleMap(t, p), role, c);
    RegisteredIndex(t, p, role, c);
    forall q | q in t1.pending
      ensures q in t1.companions && !AllDone(t1, q)
    {
      if q == p {
        LongerRoles(RoleMap(t, p), (role, c), DoneSet(t, p));
      }
    }
  }

  lemma LongerRoles(roles: seq<(Role, ReqId)>, x: (Role, ReqId), done: set<ReqId>)
    ensures RolesDone(roles + [x], done) ==> RolesDone(roles, done)
    ensures Ids(roles + [x]) == Ids(roles) + [x.1]
  {
    if RolesDone(roles + [x], done) {
      forall i | 0 <= i < |roles|
        ensures roles[i].1 in done
      {
        assert (roles + [x])[i] == roles[i];
      }
    }
  }

  lemma RegisteredIndex(t: Tracker, p: ReqId, role: Role, c: ReqId)
    requires IndexOk(t.companions, t.companionIds, t.parentOf, t.done)
    requires c !in t.parentOf && c !in t.companions && p != c && p !in t.companionIds
    requires forall i | 0 <= i < |RoleMap(t, p)| :: RoleMap(t, p)[i].0 != role
    ensures var t1 := RegisterCompanion(t, p, role, c);
            IndexOk(t1.companions, t1.companionIds, t1.parentOf, t1.done)
  {
    hide Ids, ParentOk, PutRole;
    var t1 := RegisterCompanion(t, p, role, c);
    forall q | q in t1.companions
      ensures ParentOk(t1.companions[q], t1.done[q], t1.companionIds, t1.parentOf, q)
    {
      RegisteredParent(t, p, role, c, q);
    }
    forall d | d in t1.parentOf
      ensures t1.parentOf[d] in t1.companions && d in Ids(t1.companions[t1.parentOf[d]])
    {
      RegisteredChild(t, p, role, c, d);
    }
  }

  lemma RegisteredParent(t: Tracker, p: ReqId, role: Role, c: ReqId, q: ReqId)
    requires IndexOk(t.companions, t.companionIds, t.parentOf, t.done)
    requires c !in t.parentOf && c !in t.companions && p != c && p !in t.companionIds
    requires forall i | 0 <= i < |RoleMap(t, p)| :: RoleMap(t, p)[i].0 != role
    requires q in RegisterCompanion(t, p, role, c).companions
    ensures var t1 := RegisterCompanion(t, p, role, c);
            q in t1.done && ParentOk(t1.companions[q], t1.done[q], t1.companionIds, t1.parentOf, q)
  {
    var roles := RoleMap(t, p);
    PutNewRole(roles, role, c);
    LongerRoles(roles, (role, c), {});
    assert q in t.companions ==> ParentOk(t.companions[q], t.done[q], t.companionIds, t.parentOf, q);
  }

  lemma RegisteredChild(t: Tracker, p: ReqId, role: Role, c: ReqId, d: ReqId)
    requires forall d | d in t.parentOf :: t.parentOf[d] in t.companions && d in Ids(t.companions[t.parentOf[d]])
    requires c !in t.parentOf && (d == c || d in t.parentOf)
    requires forall i | 0 <= i < |RoleMap(t, p)| :: RoleMap(t, p)[i].0 != role
    ensures var t1 := RegisterCompanion(t, p, role, c);
            t1.parentOf[d] in t1.companions && d in Ids(t1.companions[t1.parentOf[d]])
  {
    hide Ids;
    var roles := RoleMap(t, p);
    PutNewRole(roles, role, c);
    LongerRoles(roles, (role, c), {});
    assert (Ids(roles) + [c])[|Ids(roles)|] == c;
  }

  lemma RegisterKeeps(cfg: Config, s: Sys, p: ReqId, role: Role, c: ReqId)
    requires Inv(cfg, s) && CallOk(cfg, s, AddCompanion(p, role, c))
    ensures Inv(cfg, Step(cfg, s, AddCompanion(p, role, c)))
  {
    if !s.crashed && p in s.requests {
      FreshId(cfg, s, c);
      RegisterTracker(s.tracker, p, role, c);
      RegisterLog(s, p, c, RegisterCompanion(s.tracker, p, role, c));
      RegisterLinks(cfg, s, p, role, c);
    }
  }

  lemma RegisterLinks(cfg: Config, s: Sys, p: ReqId, role: Role, c: ReqId)
    requires LinksOk(cfg, s) && TrackerOk(s.tracker) && p in s.requests && c !in s.requests
    ensures var t1 := RegisterCompanion(s.tracker, p, role, c);
            LinksOk(cfg, s.(tracker := t1, requests := s.requests[c := Request(0, {0}, {}, {0})], log := s.log + [Registered(p, c)]))
  {
    hide TrackerOk, PutRole;
    var t1 := RegisterCompanion(s.tracker, p, role, c);
    var s1 := s.(tracker := t1, requests := s.requests[c := Request(0, {0}, {}, {0})], log := s.log + [Registered(p, c)]);
    TrackerParts(s.tracker);
    KeepDeferred(s, s1);
    assert RequestOk(cfg, s.requests[p]);
    assert {0} == Below(1);
    assert RequestOk(cfg, s1.requests[c]);
  }

  lemma RegisterLog(s: Sys, p: ReqId, c: ReqId, t1: Tracker)
    requires LogOk(s) && c !in Known(s.log) && c !in s.tracker.parentOf && Terminals(s.log, c) == 0 && forall k: nat :: Submissions(s.log, c, k) == 0
    requires t1.parentOf == s.tracker.parentOf[c := p] && t1.companionIds == s.tracker.companionIds + {c}
    ensures LogOk(s.(tracker := t1, requests := s.requests[c := Request(0, {0}, {}, {0})], log := s.log + [Registered(p, c)]))
  {
    hide TraceOk, RegistrationOk;
    var e := Registered(p, c);
    var s1 := s.(tracker := t1, requests := s.requests[c := Request(0, {0}, {}, {0})], log := s.log + [e]);
    forall q
      ensures TraceOk(s1, q)
    {
      RegisterTrace(s, p, c, t1, q);
    }
    Appended(s.log, e, c);
    forall e1 | e1 in s1.log
      ensures RegistrationOk(s1, e1)
    {
      assert e1 in s.log || e1 == e;
      RegisterEvent(s, p, c, t1, e1);
    }
  }

  lemma RegisterEvent(s: Sys, p: ReqId, c: ReqId, t1: Tracker, e: Event)
    requires e == Registered(p, c) || RegistrationOk(s, e)
    requires c !in Known(s.log) && t1.parentOf == s.tracker.parentOf[c := p]
    ensures RegistrationOk(s.(tracker := t1, requests := s.requests[c := Request(0, {0}, {}, {0})], log := s.log + [Registered(p, c)]), e)
  {
    Appended(s.log, Registered(p, c), c);
  }

  lemma RegisterTrace(s: Sys, p: ReqId, c: ReqId, t1: Tracker, q: ReqId)
    requires TraceOk(s, q) && (q == c ==> Terminals(s.log, c) == 0 && forall k: nat :: Submissions(s.log, c, k) == 0)
    ensures TraceOk(s.(tracker := t1, requests := s.requests[c := Request(0, {0}, {}, {0})], log := s.log + [Registered(p, c)]), q)
  {
    var e := Registered(p, c);
    var s1 := s.(tracker := t1, requests := s.requests[c := Request(0, {0}, {}, {0})], log := s.log + [e]);
    Appended(s.log, e, q);
    forall k: nat
      ensures SubmissionOk(s1, q, k)
    {
      assert SubmissionOk(s, q, k);
    }
  }

  lemma AbortKeeps(cfg: Config, s: Sys, reqs: seq<ReqId>, order: seq<ReqId>)
    requires Inv(cfg, s) && CallOk(cfg, s, Abort(reqs, order))
    ensures Inv(cfg, Step(cfg, s, Abort(reqs, order)))
  {
    hide LogOk, LinksOk;
    AbortIsClean(s.tracker, order, reqs);
    forall p | p in Members(AbortParents(s.tracker, order, reqs).1) && p in s.tracker.companions
      ensures p in Members(order)
    {
      ParentIsClient(s, p);
    }
    RemoveKeeps(cfg, s, Members(order), Members(AbortParents(s.tracker, order, reqs).1));
  }

  lemma ErrorKeeps(cfg: Config, s: Sys, stage: nat, r: ReqId)
    requires Inv(cfg, s) && r in s.requests
    ensures Inv(cfg, StageError(s, stage, r))
  {
    hide LogOk;
    var p := if r in s.tracker.companionIds && r in s.tracker.parentOf then s.tracker.parentOf[r] else r;
    if r in s.tracker.companionIds {
      ParentIsClient(s, p);
    }
    TerminalKeeps(cfg, s, p, ErrorMessage(p, stage));
  }

  // ---- one call, and every run ----------------------------------------------------------------

  lemma StepKeeps(cfg: Config, s: Sys, call: Call)
    requires Inv(cfg, s) && CallOk(cfg, s, call)
    ensures Inv(cfg, Step(cfg, s, call))
  {
    hide TrackerOk, LogOk, LinksOk, Route, RouteCompanion, CompanionReady, ForwardOrDefer, StageError, Admit, Known;
    if s.crashed {
      return;
    }
    match call
    case AddRequest(r, finalStage, finalOutputs, hasTokens) =>
      AdmitKeeps(cfg, s, r, finalStage, finalOutputs, hasTokens);
    case AddCompanion(p, role, c) =>
      RegisterKeeps(cfg, s, p, role, c);
    case Abort(reqs, order) =>
      AbortKeeps(cfg, s, reqs, order);
    case StageOutput(stage, out, inputs) =>
      if out.req in s.requests && stage < |cfg.stages| {
        if out.error {
          ErrorKeeps(cfg, s, stage, out.req);
        } else if out.finished && out.req in s.tracker.companionIds {
          RouteCompanionKeeps(cfg, s, out, inputs);
          RouteOfCompanion(cfg, s, stage, out, inputs);
        } else {
          RouteParentKeeps(cfg, s, stage, out, inputs);
        }
      }
    case KvReady(stage, out, inputs) =>
      if !cfg.asyncChunk && out.req in s.requests {
        if out.req in s.tracker.companionIds {
          CompanionReadyKeeps(cfg, s, out.req, inputs);
        } else if stage < s.requests[out.req].finalStage && !NextSubmitted(s, out.req, stage) {
          RequestIsOk(cfg, s, out.req);
          ForwardOrDeferKeeps(cfg, s, out.req, stage, out, inputs);
        }
      }
  }

  lemma RouteOfCompanion(cfg: Config, s: Sys, stage: nat, out: Output, inputs: nat)
    requires out.req in s.requests && stage < |cfg.stages| && out.finished && out.req in s.tracker.companionIds
    ensures Route(cfg, s, stage, out, inputs) == RouteCompanion(cfg, s, out, inputs)
  {
  }

  lemma {:induction false} RunKeeps(cfg: Config, s: Sys, calls: seq<Call>)
    requires Inv(cfg, s) && RunOk(cfg, s, calls)
    ensures Inv(cfg, Run(cfg, s, calls))
    decreases |calls|
  {
    if calls == [] {
    } else {
      StepKeeps(cfg, s, calls[0]);
      RunKeeps(cfg, Step(cfg, s, calls[0]), calls[1..]);
    }
  }

  // ---- what a run keeps, in the protocol's own terms ----------------------------------------

  lemma {:induction false} PrefixIsBelow(submitted: set<nat>, top: nat)
    requires submitted == Below(top)
    ensures |submitted| == top
  {
    if top == 0 {
    } else {
      PrefixIsBelow(Below(top - 1), top - 1);
      assert Below(top) == Below(top - 1) + {top - 1};
    }
  }

  /** In every run a live request has been submitted to exactly the stages 0 .. k for some k
      up to its final stage: the trace holds one submission to each of 1 .. k and none beyond,
      and no stage was ever submitted to twice.  Stage 0 is submitted to by the admission. */
  lemma ContiguousAndOnce(cfg: Config, calls: seq<Call>, r: ReqId, stage: nat)
    requires RunOk(cfg, Init(), calls)
    ensures var s := Run(cfg, Init(), calls);
            && Submissions(s.log, r, stage) <= 1
            && (r in s.requests ==>
                  var q := s.requests[r];
                  && 1 <= |q.submitted| <= q.finalStage + 1
                  && (forall k: nat :: k in q.submitted <==> k < |q.submitted|)
                  && (1 <= stage ==> Submissions(s.log, r, stage) == if stage < |q.submitted| then 1 else 0))
  {
    var s := Run(cfg, Init(), calls);
    InitOk(cfg);
    RunKeeps(cfg, Init(), calls);
    assert TraceOk(s, r) && SubmissionOk(s, r, stage);
    if r in s.requests {
      var q := s.requests[r];
      assert RequestOk(cfg, q);
      var top: nat :| 1 <= top <= q.finalStage + 1 && q.submitted == Below(top);
      PrefixIsBelow(q.submitted, top);
    }
  }

  /** Nothing of the request is left: not its state, not its captured parameters, not its
      tracker entries, not a live or tracked companion. */
  ghost predicate NoTrace(s: Sys, r: ReqId) {
    && r !in s.requests && r !in s.pdKv
    && r !in s.tracker.companions && r !in s.tracker.done && r !in s.tracker.pending
    && (forall c | c in s.tracker.parentOf :: s.tracker.parentOf[c] != r)
    && (forall c | c in s.tracker.outputs :: c in s.tracker.parentOf)
    && (forall e | e in s.log && e.Registered? && e.parent == r :: e.companion !in s.requests)
  }

  lemma GoneLeavesNoTrace(cfg: Config, s: Sys, r: ReqId)
    requires Inv(cfg, s) && r !in s.requests
    ensures NoTrace(s, r)
  {
    TrackerParts(s.tracker);
    forall e | e in s.log && e.Registered? && e.parent == r
      ensures e.companion !in s.requests
    {
      assert RegistrationOk(s, e);
    }
  }

  /** In every run at most one terminal message is emitted per id; once it is, nothing of
      the request remains and its later outputs change nothing. */
  lemma TerminalOnceThenGone(cfg: Config, calls: seq<Call>, r: ReqId, stage: nat, out: Output, inputs: nat)
    requires RunOk(cfg, Init(), calls)
    ensures var s := Run(cfg, Init(), calls);
            && Terminals(s.log, r) <= 1
            && (Terminals(s.log, r) == 1 ==>
                  && NoTrace(s, r)
                  && (out.req == r ==> Step(cfg, s, StageOutput(stage, out, inputs)) == s
                                       && Step(cfg, s, KvReady(stage, out, inputs)) == s))
  {
    var s := Run(cfg, Init(), calls);
    InitOk(cfg);
    RunKeeps(cfg, Init(), calls);
    assert TraceOk(s, r);
    if Terminals(s.log, r) == 1 {
      GoneLeavesNoTrace(cfg, s, r);
    }
  }
}
