/** What the first diffusion stage is given: the parent's output and one output per
    registered companion, in registration order. */
module OrchestratorBundle {
  import opened CfgTracker
  import opened OrchestratorSpec
  import opened OrchestratorSafety
  import opened OrchestratorFanIn

  // ---- the claim, read off the trace ---------------------------------------------------

  /** Companions registered for r, in order. */
  function RegisteredFor(log: seq<Event>, r: ReqId): seq<ReqId> {
    if log == [] then []
    else
      var rest := RegisteredFor(log[..|log| - 1], r);
      var e := log[|log| - 1];
      if e.Registered? && e.parent == r then rest + [e.companion] else rest
  }

  predicate IsDiffusion(cfg: Config, k: nat) {
    k < |cfg.stages| && cfg.stages[k].diffusion
  }

  predicate FirstDiffusion(cfg: Config, stage: nat) {
    1 <= stage && IsDiffusion(cfg, stage) && forall k: nat | 1 <= k < stage :: !IsDiffusion(cfg, k)
  }

  /** The finished output of the request, then the finished output of each of `ids`. */
  predicate Bundle(r: ReqId, sources: seq<Output>, ids: seq<ReqId>) {
    && |sources| == 1 + |ids|
    && sources[0].req == r && sources[0].finished
    && forall i | 0 <= i < |ids| :: sources[1 + i].req == ids[i] && sources[1 + i].finished
  }

  predicate EventBundled(cfg: Config, e: Event, before: seq<Event>) {
    e.Submitted? && FirstDiffusion(cfg, e.stage) ==>
      e.companions == RegisteredFor(before, e.req) && Bundle(e.req, e.sources, RegisteredFor(before, e.req))
  }

  ghost predicate LogBundled(cfg: Config, log: seq<Event>) {
    forall k | 0 <= k < |log| :: EventBundled(cfg, log[k], log[..k])
  }

  // ---- the invariant ----------------------------------------------------------------------

  ghost predicate NoneYet(cfg: Config, q: Request) {
    forall k: nat | k in q.submitted && 1 <= k :: !IsDiffusion(cfg, k)
  }

  /** Counted companions have their outputs stashed until a diffusion stage takes them. */
  ghost predicate StashFull(cfg: Config, s: Sys) {
    forall p | p in s.tracker.companions && p in s.tracker.done && p in s.requests && NoneYet(cfg, s.requests[p]) ::
      s.tracker.done[p] <= s.tracker.outputs.Keys
  }

  ghost predicate RolesLogged(s: Sys) {
    && (forall r | r in s.requests :: Ids(RoleMap(s.tracker, r)) == RegisteredFor(s.log, r))
    && (forall r | r !in Known(s.log) :: RegisteredFor(s.log, r) == [])
  }

  ghost predicate DeferredFinished(s: Sys) {
    forall p | p in s.tracker.pending :: s.tracker.pending[p].output.finished
  }

  ghost predicate BundleInv(cfg: Config, s: Sys) {
    StashFull(cfg, s) && RolesLogged(s) && DeferredFinished(s) && LogBundled(cfg, s.log)
  }

  // ---- changes that carry the invariant over ------------------------------------------------

  /** s1 keeps every surviving parent's companions and counts, submits no less, and keeps
      the stash of every parent no diffusion stage has been given yet. */
  ghost predicate Carries(cfg: Config, s: Sys, s1: Sys) {
    && s1.log == s.log
    && s1.requests.Keys <= s.requests.Keys
    && (forall p | p in s1.requests :: RoleMap(s1.tracker, p) == RoleMap(s.tracker, p) && s.requests[p].submitted <= s1.requests[p].submitted)
    && (forall p | p in s1.tracker.companions && p in s1.requests && p in s1.tracker.done && NoneYet(cfg, s1.requests[p]) ::
          CarriedStash(s.tracker, s1.tracker, p))
    && (forall p | p in s1.tracker.pending :: p in s.tracker.pending && s1.tracker.pending[p] == s.tracker.pending[p])
  }

  ghost predicate CarriedStash(t: Tracker, t1: Tracker, p: ReqId) {
    && p in t.companions && p in t.done
    && (t.done[p] <= t.outputs.Keys ==> p in t1.done && t1.done[p] <= t1.outputs.Keys)
  }

  lemma Carry(cfg: Config, s: Sys, s1: Sys)
    requires BundleInv(cfg, s) && Carries(cfg, s, s1)
    ensures BundleInv(cfg, s1)
  {
    hide LogBundled, Ids, RoleMap, RegisteredFor, Known;
    forall p | p in s1.tracker.companions && p in s1.tracker.done && p in s1.requests && NoneYet(cfg, s1.requests[p])
      ensures s1.tracker.done[p] <= s1.tracker.outputs.Keys
    {
      assert CarriedStash(s.tracker, s1.tracker, p);
      assert NoneYet(cfg, s.requests[p]);
    }
  }

  lemma Emitted(cfg: Config, s: Sys, e: Event)
    requires BundleInv(cfg, s) && !e.Registered? && !e.Admitted? && EventBundled(cfg, e, s.log)
    ensures BundleInv(cfg, Emit(s, e))
  {
    hide EventBundled, StashFull, Ids, RoleMap;
    var s1 := Emit(s, e);
    StillStashed(cfg, s, e);
    forall q
      ensures RegisteredFor(s1.log, q) == RegisteredFor(s.log, q) && Known(s1.log) == Known(s.log)
    {
      RegisteredAppend(s.log, e, q);
      Appended(s.log, e, q);
    }
    forall k | 0 <= k < |s1.log|
      ensures EventBundled(cfg, s1.log[k], s1.log[..k])
    {
      assert s1.log[..k] == s.log[..k];
    }
  }

  lemma StillStashed(cfg: Config, s: Sys, e: Event)
    requires StashFull(cfg, s)
    ensures StashFull(cfg, Emit(s, e))
  {
  }

  lemma FinishCarries(cfg: Config, s: Sys, r: ReqId)
    requires TrackerOk(s.tracker)
    ensures Carries(cfg, s, FinishRequest(s, r))
  {
    CleanupIsClean(s.tracker, r);
    CleanCarries(cfg, s, {r}, {r} + OwnedBy(s.tracker, {r}));
  }

  /** Cleaning some parents leaves the others' stash alone. */
  lemma CleanCarries(cfg: Config, s: Sys, gone: set<ReqId>, ids: set<ReqId>)
    requires TrackerOk(s.tracker) && gone <= ids
    ensures Carries(cfg, s, CleanupIds(s.(tracker := Clean(s.tracker, gone)), ids))
  {
    hide RolesDone, NoneYet, Ids, StashOk;
    var t, t1 := s.tracker, Clean(s.tracker, gone);
    forall p | p in t1.companions && p in t1.done
      ensures CarriedStash(t, t1, p)
    {
      CountedPointBack(t, p);
      assert forall c | c in t.done[p] :: t.parentOf[c] !in gone;
    }
  }

  lemma CountedPointBack(t: Tracker, p: ReqId)
    requires TrackerOk(t) && p in t.companions
    ensures p in t.done && forall c | c in t.done[p] :: c in t.parentOf && t.parentOf[c] == p
  {
    assert ParentOk(t.companions[p], t.done[p], t.companionIds, t.parentOf, p);
  }

  // ---- forwarding ---------------------------------------------------------------------------

  lemma {:induction false} CollectAll(outputs: map<ReqId, Output>, ids: seq<ReqId>)
    requires forall i | 0 <= i < |ids| :: ids[i] in outputs
    requires forall i, j | 0 <= i < j < |ids| :: ids[i] != ids[j]
    ensures |Collect(outputs, ids)| == |ids|
    ensures forall i | 0 <= i < |ids| :: Collect(outputs, ids)[i] == outputs[ids[i]]
    decreases |ids|
  {
    if ids == [] {
    } else {
      CollectAll(outputs - {ids[0]}, ids[1..]);
    }
  }

  /** All companions counted and none of their outputs taken: the bundle is complete. */
  lemma PopsAll(t: Tracker, r: ReqId, out: Output)
    requires TrackerOk(t) && AllDone(t, r) && out.req == r && out.finished
    requires r in t.companions ==> r in t.done && t.done[r] <= t.outputs.Keys
    ensures Bundle(r, [out] + PopOutputs(t, r).1, Ids(RoleMap(t, r)))
  {
    var ids := Ids(RoleMap(t, r));
    if r in t.companions {
      assert ParentOk(t.companions[r], t.done[r], t.companionIds, t.parentOf, r);
      forall i | 0 <= i < |ids|
        ensures ids[i] in t.outputs
      {
        assert RoleMap(t, r)[i].1 in DoneSet(t, r);
      }
    }
    CollectAll(t.outputs, ids);
  }

  lemma MarkCarries(cfg: Config, s: Sys, r: ReqId, stage: nat)
    requires r in s.requests && TrackerOk(s.tracker)
    ensures Carries(cfg, s, MarkSubmitted(s, r, stage))
  {
    hide IndexOk, StashOk, WaitingOk;
    SameKeys(s.tracker);
  }

  lemma SameKeys(t: Tracker)
    requires TrackerOk(t)
    ensures t.companions.Keys == t.done.Keys
  {
  }

  /** Once a diffusion stage is marked, the request's stash may go. */
  lemma PopCarries(cfg: Config, s: Sys, r: ReqId, stage: nat)
    requires TrackerOk(s.tracker) && r in s.requests && stage in s.requests[r].submitted && 1 <= stage && IsDiffusion(cfg, stage)
    ensures Carries(cfg, s, s.(tracker := PopOutputs(s.tracker, r).0))
  {
    hide RolesDone, StashOk, Collect;
    var t, t1 := s.tracker, PopOutputs(s.tracker, r).0;
    forall p | p in t1.companions && p in s.requests && NoneYet(cfg, s.requests[p])
      ensures CarriedStash(t, t1, p)
    {
      CountedPointBack(t, p);
      OwnCompanions(t, r);
    }
  }

  lemma OwnCompanions(t: Tracker, r: ReqId)
    requires TrackerOk(t)
    ensures forall c | c in Members(Ids(RoleMap(t, r))) :: c in t.parentOf && t.parentOf[c] == r
  {
    if r in t.companions {
      assert ParentOk(t.companions[r], t.done[r], t.companionIds, t.parentOf, r);
    }
  }

  lemma PopThenFinish(s: Sys, r: ReqId)
    ensures FinishRequest(s.(tracker := PopOutputs(s.tracker, r).0), r) == FinishRequest(s, r)
  {
    var ids := Ids(RoleMap(s.tracker, r));
    assert (s.tracker.outputs - Members(ids)) - Members(ids) == s.tracker.outputs - Members(ids);
  }

  lemma EarlyEndBundles(cfg: Config, s: Sys, r: ReqId, stage: nat)
    requires TrackerOk(s.tracker) && BundleInv(cfg, s)
    ensures BundleInv(cfg, TerminateEarly(s, r, stage))
  {
    hide BundleInv, TrackerOk, CleanupParent, Carries;
    Emitted(cfg, s, OutputMessage(r, stage, true));
    FinishCarries(cfg, Emit(s, OutputMessage(r, stage, true)), r);
    Carry(cfg, Emit(s, OutputMessage(r, stage, true)), TerminateEarly(s, r, stage));
  }

  lemma SubmitBundles(cfg: Config, s: Sys, r: ReqId, stage: nat, sources: seq<Output>, companions: seq<ReqId>)
    requires TrackerOk(s.tracker) && BundleInv(cfg, s) && r in s.requests
    requires EventBundled(cfg, Submitted(r, stage, sources, companions), s.log)
    ensures BundleInv(cfg, Submit(s, r, stage, sources, companions))
  {
    hide BundleInv, TrackerOk, Carries, EventBundled;
    var e := Submitted(r, stage, sources, companions);
    Emitted(cfg, s, e);
    MarkCarries(cfg, Emit(s, e), r, stage);
    Carry(cfg, Emit(s, e), MarkSubmitted(Emit(s, e), r, stage));
  }

  lemma DiffusionBundles(cfg: Config, s: Sys, r: ReqId, next: nat, out: Output)
    requires TrackerOk(s.tracker) && BundleInv(cfg, s) && r in s.requests && 1 <= next && IsDiffusion(cfg, next)
    requires EventBundled(cfg, Submitted(r, next, [out] + PopOutputs(s.tracker, r).1, Ids(RoleMap(s.tracker, r))), s.log)
    ensures BundleInv(cfg, Submit(s.(tracker := PopOutputs(s.tracker, r).0), r, next, [out] + PopOutputs(s.tracker, r).1, Ids(RoleMap(s.tracker, r))))
  {
    hide BundleInv, TrackerOk, Carries, EventBundled, Collect;
    var sources, ids := [out] + PopOutputs(s.tracker, r).1, Ids(RoleMap(s.tracker, r));
    SubmitBundles(cfg, s, r, next, sources, ids);
    var s1 := Submit(s, r, next, sources, ids);
    PopCarries(cfg, s1, r, next);
    Carry(cfg, s1, s1.(tracker := PopOutputs(s.tracker, r).0));
  }

  lemma ForwardBundles(cfg: Config, s: Sys, r: ReqId, src: nat, out: Output, inputs: nat)
    requires Inv(cfg, s) && BundleInv(cfg, s) && Forwardable(s, r, src) && src + 1 < |cfg.stages|
    requires AllDone(s.tracker, r) && out.req == r && out.finished
    ensures BundleInv(cfg, Forward(cfg, s, r, src, out, inputs))
  {
    hide TrackerOk, LogOk, LinksOk, BundleInv, FinishRequest, Carries, Bundle, AllDone, Submit, EventBundled, MarkSubmitted;
    if cfg.stages[src + 1].diffusion {
      if inputs == 0 {
        EarlyEndBundles(cfg, s, r, src + 1);
        PopThenFinish(Emit(s, OutputMessage(r, src + 1, true)), r);
      } else {
        FirstIsBundled(cfg, s, r, src, out);
        DiffusionBundles(cfg, s, r, src + 1, out);
      }
    } else if cfg.pdPair == Some((src, src + 1)) {
      var s1 := s.(pdKv := s.pdKv - {r});
      OnlyParams(cfg, s, s1.pdKv, s1.crashed);
      OnlyParams(cfg, s, s1.pdKv, true);
      NotDiffusion(cfg, r, src + 1, [out], s1.log);
      SubmitBundles(cfg, s1, r, src + 1, [out], []);
    } else if inputs == 0 {
      EarlyEndKeeps(cfg, s, r, s.requests[r].finalStage);
      EarlyEndBundles(cfg, s, r, s.requests[r].finalStage);
    } else {
      NotDiffusion(cfg, r, src + 1, [out], s.log);
      SubmitBundles(cfg, s, r, src + 1, [out], []);
    }
  }

  lemma OnlyParams(cfg: Config, s: Sys, pdKv: map<ReqId, bool>, crashed: bool)
    requires BundleInv(cfg, s)
    ensures BundleInv(cfg, s.(pdKv := pdKv, crashed := crashed))
  {
    hide LogBundled;
  }

  lemma NotDiffusion(cfg: Config, r: ReqId, stage: nat, sources: seq<Output>, log: seq<Event>)
    requires !IsDiffusion(cfg, stage)
    ensures EventBundled(cfg, Submitted(r, stage, sources, []), log)
  {
  }

  lemma FirstIsBundled(cfg: Config, s: Sys, r: ReqId, src: nat, out: Output)
    requires Inv(cfg, s) && BundleInv(cfg, s) && Forwardable(s, r, src)
    requires AllDone(s.tracker, r) && out.req == r && out.finished
    ensures EventBundled(cfg, Submitted(r, src + 1, [out] + PopOutputs(s.tracker, r).1, Ids(RoleMap(s.tracker, r))), s.log)
  {
    hide LogOk, TrackerOk, AllDone, Ids, PopOutputs, Bundle, RoleMap, LogBundled;
    if FirstDiffusion(cfg, src + 1) {
      var q := s.requests[r];
      assert RequestOk(cfg, q);
      NextStage(q, src, cfg);
      assert NoneYet(cfg, q);
      SameKeys(s.tracker);
      PopsAll(s.tracker, r, out);
    }
  }

  lemma ForwardOrDeferBundles(cfg: Config, s: Sys, r: ReqId, src: nat, out: Output, inputs: nat)
    requires Inv(cfg, s) && BundleInv(cfg, s) && Forwardable(s, r, src) && src + 1 < |cfg.stages|
    requires out.req == r && out.finished
    ensures BundleInv(cfg, ForwardOrDefer(cfg, s, r, src, out, inputs))
  {
    hide TrackerOk, LogOk, LinksOk, RolesDone, Forward, LogBundled, RegisteredFor, Known;
    if r in s.tracker.companions && !AllDone(s.tracker, r) {
      assert BundleInv(cfg, s.(tracker := Defer(s.tracker, r, Deferred(out, src))));
    } else {
      if r !in s.tracker.companions {
        NoCompanions(s.tracker, r);
      }
      ForwardBundles(cfg, s, r, src, out, inputs);
    }
  }

  lemma NoCompanions(t: Tracker, r: ReqId)
    requires r !in t.companions
    ensures AllDone(t, r)
  {
  }

  // ---- companions -------------------------------------------------------------------------

  lemma CountedBundles(cfg: Config, s: Sys, c: ReqId)
    requires TrackerOk(s.tracker) && BundleInv(cfg, s) && c in s.tracker.outputs
    ensures Carries(cfg, s, s.(tracker := OnCompleted(s.tracker, c).0))
  {
    hide RolesDone, IndexOk, WaitingOk, StashOk, NoneYet;
    SameKeys(s.tracker);
  }

  lemma ReadyBundles(cfg: Config, s: Sys, c: ReqId, inputs: nat)
    requires Inv(cfg, s) && BundleInv(cfg, s) && c in s.tracker.outputs
    ensures BundleInv(cfg, CompanionReady(cfg, s, c, inputs))
  {
    hide LogOk, LinksOk, TrackerOk, RolesDone, Forward, Carries, BundleInv;
    CompletedKeeps(s.tracker, c);
    CountedBundles(cfg, s, c);
    var (t, done) := OnCompleted(s.tracker, c);
    var s1 := s.(tracker := t);
    Carry(cfg, s, s1);
    if done.Release? {
      var p := done.parent;
      var d := t.pending[p];
      var t2 := t.(pending := t.pending - {p});
      var s2 := s.(tracker := t2);
      TrackerOnly(cfg, s, t2);
      ReleasedForwardable(cfg, s, p);
      Released(cfg, s1, p);
      if d.stage + 1 !in s2.requests[p].submitted {
        ForwardBundles(cfg, s2, p, d.stage, d.output, inputs);
      }
    }
  }

  lemma Released(cfg: Config, s: Sys, p: ReqId)
    requires BundleInv(cfg, s)  && p in s.tracker.pending
    ensures BundleInv(cfg, s.(tracker := s.tracker.(pending := s.tracker.pending - {p})))
    ensures s.tracker.pending[p].output.finished
  {
    hide LogBundled, RegisteredFor, Known, Ids;
  }

  lemma RouteCompanionBundles(cfg: Config, s: Sys, out: Output, inputs: nat)
    requires Inv(cfg, s) && BundleInv(cfg, s) && out.req in s.tracker.companionIds && out.finished
    ensures BundleInv(cfg, RouteCompanion(cfg, s, out, inputs))
  {
    hide LogOk, LinksOk, TrackerOk, CompanionReady, BundleInv;
    var s1 := s.(tracker := s.tracker.(outputs := s.tracker.outputs[out.req := out]));
    StashParts(s);
    OutputsOnly(cfg, s, s1.tracker.outputs);
    SameKeys(s.tracker);
    Carry(cfg, s, s1);
    ReadyBundles(cfg, s1, out.req, inputs);
    var s2 := CompanionReady(cfg, s1, out.req, inputs);
    Carry(cfg, s2, CleanupIds(s2, {out.req})) by {
      CompanionReadyKeeps(cfg, s1, out.req, inputs);
      InvKeys(cfg, s2);
    }
  }

  lemma InvKeys(cfg: Config, s: Sys)
    requires Inv(cfg, s)
    ensures s.tracker.companions.Keys == s.tracker.done.Keys
  {
  }

  // ---- routing --------------------------------------------------------------------------------

  lemma RouteBundles(cfg: Config, s: Sys, stage: nat, out: Output, inputs: nat)
    requires Inv(cfg, s) && BundleInv(cfg, s) && out.req in s.requests && stage < |cfg.stages|
    requires stage in s.requests[out.req].submitted && !s.crashed && (out.finished ==> out.req !in s.tracker.companionIds)
    ensures BundleInv(cfg, Route(cfg, s, stage, out, inputs))
  {
    hide TrackerOk, LogOk, LinksOk, FinishRequest, ForwardOrDefer, RolesDone, BundleInv, Carries, CapturePrefill, Announce;
    var r := out.req;
    var (s1, complete) := Announce(cfg, s, stage, out);
    var s2 := CapturePrefill(cfg, s1, stage, out);
    AnnounceBundles(cfg, s, stage, out);
    if complete {
      CompleteIsFinished(cfg, s, stage, out);
      CapturedSame(cfg, s, stage, out);
      if stage < s.requests[r].finalStage {
        NothingAfterComplete(cfg, s, stage, out);
      }
      FinishCarries(cfg, s2, r);
      Carry(cfg, s2, FinishRequest(s2, r));
    } else {
      CapturedSame(cfg, s, stage, out);
      OnlyParams(cfg, s2, s2.pdKv, true);
      if ShouldForward(cfg, s2, stage, out) && stage + 1 < |cfg.stages| {
        CapturedKeeps(cfg, s, stage, out);
        ForwardOrDeferBundles(cfg, s2, r, stage, out, inputs);
      }
    }
  }

  lemma CapturedSame(cfg: Config, s: Sys, stage: nat, out: Output)
    requires out.req in s.requests && stage < |cfg.stages|
    ensures var s2 := CapturePrefill(cfg, Announce(cfg, s, stage, out).0, stage, out);
            && s2.tracker == s.tracker && s2.requests.Keys == s.requests.Keys && s2.crashed == s.crashed
            && s2.requests[out.req].submitted == s.requests[out.req].submitted
            && s2.requests[out.req].finalStage == s.requests[out.req].finalStage
  {
  }

  lemma AnnounceBundles(cfg: Config, s: Sys, stage: nat, out: Output)
    requires TrackerOk(s.tracker) && BundleInv(cfg, s) && out.req in s.requests && stage < |cfg.stages|
    ensures BundleInv(cfg, CapturePrefill(cfg, Announce(cfg, s, stage, out).0, stage, out))
  {
    hide TrackerOk, BundleInv;
    var m := OrchestratorSafety.Marked(cfg, s, stage, out);
    SameKeys(s.tracker);
    Carry(cfg, s, m) by {
      assert forall p | p in s.requests :: m.requests[p].submitted == s.requests[p].submitted;
    }
    AnnounceParts(cfg, s, stage, out);
    var s1 := Announce(cfg, s, stage, out).0;
    if s1 != m {
      var e: Event :| s1 == Emit(m, e) && (e.OutputMessage? || e.MetricsMessage?);
      Emitted(cfg, m, e);
    }
    var s2 := CapturePrefill(cfg, s1, stage, out);
    OnlyParams(cfg, s1, s2.pdKv, s1.crashed);
  }

  lemma CapturedKeeps(cfg: Config, s: Sys, stage: nat, out: Output)
    requires Inv(cfg, s) && out.req in s.requests && stage < |cfg.stages| && stage in s.requests[out.req].submitted
    requires !Announce(cfg, s, stage, out).1
    ensures Inv(cfg, CapturePrefill(cfg, Announce(cfg, s, stage, out).0, stage, out))
  {
    hide TrackerOk, LogOk, LinksOk, Announce;
    var m := OrchestratorSafety.Marked(cfg, s, stage, out);
    MarkedKeeps(cfg, s, stage, out);
    AnnounceParts(cfg, s, stage, out);
    var s1 := Announce(cfg, s, stage, out).0;
    if s1 != m {
      var e: Event :| s1 == Emit(m, e) && (e.OutputMessage? || e.MetricsMessage?) && forall q | IsTerminal(e, q) :: q == out.req && false;
      EmitKeeps(cfg, m, e);
    }
    PdKeys(cfg, s1);
    PdKeeps(cfg, s1, CapturePrefill(cfg, s1, stage, out).pdKv, s1.crashed);
  }

  // ---- admission, registration, abort ---------------------------------------------------------

  lemma RegisteredAppend(log: seq<Event>, e: Event, r: ReqId)
    ensures RegisteredFor(log + [e], r) == RegisteredFor(log, r) + (if e.Registered? && e.parent == r then [e.companion] else [])
  {
    assert (log + [e])[..|log|] == log;
  }

  lemma LogAppend(cfg: Config, log: seq<Event>, e: Event)
    requires LogBundled(cfg, log) && !e.Submitted?
    ensures LogBundled(cfg, log + [e])
  {
    hide Bundle, FirstDiffusion;
    forall k | 0 <= k < |log + [e]|
      ensures EventBundled(cfg, (log + [e])[k], (log + [e])[..k])
    {
      assert k < |log| ==> (log + [e])[..k] == log[..k];
    }
  }

  lemma AdmitBundles(cfg: Config, s: Sys, r: ReqId, finalStage: nat, finalOutputs: set<nat>, hasTokens: bool)
    requires Inv(cfg, s) && BundleInv(cfg, s) && r !in Known(s.log) && !cfg.asyncChunk
    ensures BundleInv(cfg, Admit(cfg, s, r, finalStage, finalOutputs, hasTokens))
  {
    hide TrackerOk, LogBundled;
    var s1 := Admit(cfg, s, r, finalStage, finalOutputs, hasTokens);
    FreshId(cfg, s, r);
    assert s1.log == s.log + [Admitted(r)];
    LogAppend(cfg, s.log, Admitted(r));
    forall q
      ensures RegisteredFor(s1.log, q) == RegisteredFor(s.log, q)
      ensures Known(s1.log) == Known(s.log) + {r}
    {
      RegisteredAppend(s.log, Admitted(r), q);
      Appended(s.log, Admitted(r), q);
    }
    assert RegisteredFor(s1.log, r) == RegisteredFor(s.log, r);
  }

  lemma RegisterBundles(cfg: Config, s: Sys, p: ReqId, role: Role, c: ReqId)
    requires Inv(cfg, s) && BundleInv(cfg, s) && CallOk(cfg, s, AddCompanion(p, role, c)) && p in s.requests && !s.crashed
    ensures BundleInv(cfg, Step(cfg, s, AddCompanion(p, role, c)))
  {
    hide TrackerOk, LogBundled, LogOk, RolesLogged, PutRole, StashFull;
    FreshId(cfg, s, c);
    SameKeys(s.tracker);
    LogAppend(cfg, s.log, Registered(p, c));
    RegisterStash(cfg, s, p, role, c);
    LiveIsKnown(cfg, s);
    RegisterRoles(cfg, s, p, role, c);
  }

  lemma LiveIsKnown(cfg: Config, s: Sys)
    requires Inv(cfg, s)
    ensures s.requests.Keys <= Known(s.log)
  {
  }

  lemma RegisterStash(cfg: Config, s: Sys, p: ReqId, role: Role, c: ReqId)
    requires StashFull(cfg, s) && p in s.requests && !s.crashed && c !in s.tracker.companions && p != c
    requires s.tracker.companions.Keys == s.tracker.done.Keys
    ensures StashFull(cfg, Step(cfg, s, AddCompanion(p, role, c)))
  {
    hide PutRole, NoneYet;
  }

  lemma RegisterRoles(cfg: Config, s: Sys, p: ReqId, role: Role, c: ReqId)
    requires RolesLogged(s) && p in s.requests && !s.crashed && c !in s.tracker.companions && c !in Known(s.log)
    requires s.requests.Keys <= Known(s.log)
    requires forall i | 0 <= i < |RoleMap(s.tracker, p)| :: RoleMap(s.tracker, p)[i].0 != role
    ensures RolesLogged(Step(cfg, s, AddCompanion(p, role, c)))
  {
    hide PutRole, Ids, RegisteredFor, Known;
    var e := Registered(p, c);
    var s1 := Step(cfg, s, AddCompanion(p, role, c));
    PutNewRole(RoleMap(s.tracker, p), role, c);
    LongerRoles(RoleMap(s.tracker, p), (role, c), {});
    Appended(s.log, e, c);
    forall q
      ensures RegisteredFor(s1.log, q) == RegisteredFor(s.log, q) + if p == q then [c] else []
    {
      RegisteredAppend(s.log, e, q);
    }
    NoRoles(s.tracker, c);
    forall q | q in s1.requests
      ensures Ids(RoleMap(s1.tracker, q)) == RegisteredFor(s1.log, q)
    {
      assert q != p ==> RoleMap(s1.tracker, q) == RoleMap(s.tracker, q);
      assert RegisteredFor(s1.log, q) == RegisteredFor(s.log, q) + if p == q then [c] else [];
    }
  }

  lemma NoRoles(t: Tracker, c: ReqId)
    requires c !in t.companions
    ensures Ids(RoleMap(t, c)) == []
  {
  }

  lemma StepBundles(cfg: Config, s: Sys, call: Call)
    requires Inv(cfg, s) && CallOk(cfg, s, call) && BundleInv(cfg, s) && !cfg.asyncChunk && !call.KvReady?
    ensures BundleInv(cfg, Step(cfg, s, call))
  {
    hide TrackerOk, LogOk, LinksOk, Route, RouteCompanion, ForwardOrDefer, Known, BundleInv, CleanupParent, Carries, Admit;
    if s.crashed {
      return;
    }
    match call
    case AddRequest(r, finalStage, finalOutputs, hasTokens) =>
      AdmitBundles(cfg, s, r, finalStage, finalOutputs, hasTokens);
    case AddCompanion(p, role, c) =>
      if p in s.requests {
        RegisterBundles(cfg, s, p, role, c);
      }
    case Abort(reqs, order) =>
      AbortIsClean(s.tracker, order, reqs);
      CleanCarries(cfg, s, Members(order), Members(reqs) + OwnedBy(s.tracker, Members(order)));
      Carry(cfg, s, Step(cfg, s, call));
    case StageOutput(stage, out, inputs) =>
      if out.req in s.requests && stage < |cfg.stages| {
        if out.error {
          var p := if out.req in s.tracker.companionIds && out.req in s.tracker.parentOf then s.tracker.parentOf[out.req] else out.req;
          Emitted(cfg, s, ErrorMessage(p, stage));
          FinishCarries(cfg, Emit(s, ErrorMessage(p, stage)), p);
          Carry(cfg, Emit(s, ErrorMessage(p, stage)), Step(cfg, s, call));
        } else if out.finished && out.req in s.tracker.companionIds {
          RouteCompanionBundles(cfg, s, out, inputs);
          RouteOfCompanion(cfg, s, stage, out, inputs);
        } else {
          RouteBundles(cfg, s, stage, out, inputs);
        }
      }
  }

  lemma {:induction false} RunBundles(cfg: Config, s: Sys, calls: seq<Call>)
    requires Inv(cfg, s) && RunOk(cfg, s, calls) && BundleInv(cfg, s) && !cfg.asyncChunk
    requires forall i | 0 <= i < |calls| :: !calls[i].KvReady?
    ensures BundleInv(cfg, Run(cfg, s, calls))
    decreases |calls|
  {
    if calls == [] {
    } else {
      StepKeeps(cfg, s, calls[0]);
      StepBundles(cfg, s, calls[0]);
      RunBundles(cfg, Step(cfg, s, calls[0]), calls[1..]);
    }
  }

  /** Without kv-ready raw outputs, whenever a request is submitted to its pipeline's first
      diffusion stage it is given its own finished output followed by exactly one finished
      output per companion registered for it so far, in registration order. */
  lemma FirstDiffusionGetsBundle(cfg: Config, calls: seq<Call>, k: nat)
    requires RunOk(cfg, Init(), calls) && !cfg.asyncChunk
    requires forall i | 0 <= i < |calls| :: !calls[i].KvReady?
    requires var log := Run(cfg, Init(), calls).log; k < |log| && log[k].Submitted? && FirstDiffusion(cfg, log[k].stage)
    ensures var log := Run(cfg, Init(), calls).log;
            var ids := RegisteredFor(log[..k], log[k].req);
            log[k].companions == ids && Bundle(log[k].req, log[k].sources, ids)
  {
    hide Bundle;
    InitOk(cfg);
    RunBundles(cfg, Init(), calls);
    var log := Run(cfg, Init(), calls).log;
    assert EventBundled(cfg, log[k], log[..k]);
  }
}
