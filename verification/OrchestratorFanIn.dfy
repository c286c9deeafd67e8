/** CFG fan-in over whole runs: who a deferred parent waits for, and what the first
    diffusion stage is given. */
module OrchestratorFanIn {
  import opened CfgTracker
  import opened OrchestratorSpec
  import opened OrchestratorSafety

  // ---- a deferred parent waits for a companion that is still running ------------------

  /** A tracked companion is still running or has been counted. */
  ghost predicate Owed(s: Sys, c: ReqId) {
    c in s.tracker.parentOf ==> c in s.requests || c in DoneSet(s.tracker, s.tracker.parentOf[c])
  }

  ghost predicate AllOwed(s: Sys) {
    forall c :: Owed(s, c)
  }

  /** An abort that names a companion takes its parent along, or comes after the companion
      was counted. */
  ghost predicate Spares(s: Sys, call: Call) {
    s.crashed || (call.Abort? ==>
      forall c | c in call.reqs && c in s.tracker.parentOf && s.tracker.parentOf[c] !in call.reqs ::
        c in DoneSet(s.tracker, s.tracker.parentOf[c]))
  }

  ghost predicate RunSpares(cfg: Config, s: Sys, calls: seq<Call>)
    decreases |calls|
  {
    calls == [] || (Spares(s, calls[0]) && RunSpares(cfg, Step(cfg, s, calls[0]), calls[1..]))
  }

  /** From s to s1 nothing tracked is newly owed. */
  ghost predicate Settles(s: Sys, s1: Sys) {
    forall c | c in s1.tracker.parentOf ::
      && c in s.tracker.parentOf && s.tracker.parentOf[c] == s1.tracker.parentOf[c]
      && DoneSet(s.tracker, s.tracker.parentOf[c]) <= DoneSet(s1.tracker, s.tracker.parentOf[c])
      && (c in s.requests ==> c in s1.requests || c in DoneSet(s1.tracker, s.tracker.parentOf[c]))
  }

  lemma SettledOwes(s: Sys, s1: Sys)
    requires AllOwed(s) && Settles(s, s1)
    ensures AllOwed(s1)
  {
    forall c
      ensures Owed(s1, c)
    {
      assert Owed(s, c);
    }
  }

  lemma FinishSettles(s: Sys, r: ReqId)
    requires TrackerOk(s.tracker) && r !in s.tracker.companionIds
    ensures Settles(s, FinishRequest(s, r))
  {
    CleanupIsClean(s.tracker, r);
  }

  lemma ForwardSettles(cfg: Config, s: Sys, r: ReqId, src: nat, out: Output, inputs: nat)
    requires TrackerOk(s.tracker) && r in s.requests && r !in s.tracker.companionIds && src + 1 < |cfg.stages|
    ensures Settles(s, Forward(cfg, s, r, src, out, inputs))
  {
    hide RolesDone, TerminateEarly, TrackerOk, Collect, Ids, RoleMap;
    var q := s.requests[r];
    var s1 := s.(tracker := PopOutputs(s.tracker, r).0);
    StashedLess(s.tracker, r);
    EndSettles(s, s1, r, src + 1);
    EndSettles(s, MarkSubmitted(s, r, q.finalStage), r, q.finalStage);
  }

  /** Ending a request early from a state that only marked or unstashed settles. */
  lemma EndSettles(s: Sys, s1: Sys, r: ReqId, stage: nat)
    requires TrackerOk(s1.tracker) && r !in s1.tracker.companionIds
    requires s1.tracker == s.tracker.(outputs := s1.tracker.outputs) && s1.requests.Keys == s.requests.Keys
    ensures Settles(s, TerminateEarly(s1, r, stage))
  {
    CleanupIsClean(s1.tracker, r);
  }

  lemma StashedLess(t: Tracker, r: ReqId)
    requires TrackerOk(t)
    ensures TrackerOk(PopOutputs(t, r).0)
  {
    hide RolesDone;
  }

  lemma ForwardOrDeferSettles(cfg: Config, s: Sys, r: ReqId, src: nat, out: Output, inputs: nat)
    requires TrackerOk(s.tracker) && r in s.requests && r !in s.tracker.companionIds && src + 1 < |cfg.stages|
    ensures Settles(s, ForwardOrDefer(cfg, s, r, src, out, inputs))
  {
    hide RolesDone, Forward, TrackerOk;
    ForwardSettles(cfg, s, r, src, out, inputs);
  }

  lemma SettlesTrans(a: Sys, b: Sys, c: Sys)
    requires Settles(a, b) && Settles(b, c)
    ensures Settles(a, c)
  {
  }

  /** Completion settles; the companion that completed is counted as long as it is tracked. */
  lemma ReadySettles(cfg: Config, s: Sys, c: ReqId, inputs: nat)
    requires Inv(cfg, s)
    ensures var s1 := CompanionReady(cfg, s, c, inputs);
            && Settles(s, s1)
            && (c in s1.tracker.parentOf ==> c in DoneSet(s1.tracker, s1.tracker.parentOf[c]))
  {
    hide RolesDone, Forward, TrackerOk, LinksOk, LogOk;
    CompletedKeeps(s.tracker, c);
    var (t, done) := OnCompleted(s.tracker, c);
    var s1 := s.(tracker := t);
    assert Settles(s, s1);
    if done.Release? {
      var p := done.parent;
      var t2 := t.(pending := t.pending - {p});
      var s2 := s.(tracker := t2);
      TrackerOnly(cfg, s, t2);
      ReleasedForwardable(cfg, s, p);
      ForwardSettles(cfg, s2, p, t.pending[p].stage, t.pending[p].output, inputs);
    }
  }

  lemma RouteSettles(cfg: Config, s: Sys, stage: nat, out: Output, inputs: nat)
    requires Inv(cfg, s) && out.req in s.requests && stage < |cfg.stages| && stage in s.requests[out.req].submitted
    requires !(out.finished && out.req in s.tracker.companionIds)
    ensures Settles(s, Route(cfg, s, stage, out, inputs))
  {
    hide TrackerOk, LogOk, LinksOk, FinishRequest, ForwardOrDefer, RolesDone;
    var r := out.req;
    var (s1, complete) := Announce(cfg, s, stage, out);
    var s2 := CapturePrefill(cfg, s1, stage, out);
    assert s2.tracker == s.tracker && s2.requests.Keys == s.requests.Keys && s2.requests[r].submitted == s.requests[r].submitted;
    CompleteIsFinished(cfg, s, stage, out);
    if ShouldForward(cfg, s2, stage, out) && stage + 1 < |cfg.stages| {
      ForwardOrDeferSettles(cfg, s2, r, stage, out, inputs);
      if complete {
        NothingAfterComplete(cfg, s, stage, out);
      }
    } else if complete {
      FinishSettles(s2, r);
    }
  }

  lemma NothingAfterComplete(cfg: Config, s: Sys, stage: nat, out: Output)
    requires Inv(cfg, s) && out.req in s.requests && stage < |cfg.stages| && stage in s.requests[out.req].submitted
    requires Announce(cfg, s, stage, out).1 && stage < s.requests[out.req].finalStage
    ensures stage + 1 in s.requests[out.req].submitted
  {
    var m := OrchestratorSafety.Marked(cfg, s, stage, out);
    MarkedKeeps(cfg, s, stage, out);
    AnnounceParts(cfg, s, stage, out);
    RequestIsOk(cfg, m, out.req);
    CompleteHasNoNext(cfg, m.requests[out.req], stage);
  }

  lemma RouteCompanionOwes(cfg: Config, s: Sys, out: Output, inputs: nat)
    requires Inv(cfg, s) && AllOwed(s) && out.req in s.tracker.companionIds && out.finished
    ensures AllOwed(RouteCompanion(cfg, s, out, inputs))
  {
    hide LogOk, LinksOk, TrackerOk, CompanionReady;
    var s1 := s.(tracker := s.tracker.(outputs := s.tracker.outputs[out.req := out]));
    StashParts(s);
    OutputsOnly(cfg, s, s1.tracker.outputs);
    ReadySettles(cfg, s1, out.req, inputs);
    assert Settles(s, s1);
    SettlesTrans(s, s1, RouteCompanion(cfg, s, out, inputs));
    SettledOwes(s, RouteCompanion(cfg, s, out, inputs));
  }

  lemma AbortOwes(cfg: Config, s: Sys, reqs: seq<ReqId>, order: seq<ReqId>)
    requires Inv(cfg, s) && CallOk(cfg, s, Abort(reqs, order)) && AllOwed(s) && !s.crashed
    ensures AllOwed(Step(cfg, s, Abort(reqs, order))) <==> Spares(s, Abort(reqs, order))
  {
    hide LogOk, LinksOk, Ids;
    var t := s.tracker;
    AbortIsClean(t, order, reqs);
    var s1 := Step(cfg, s, Abort(reqs, order));
    forall c | c in t.parentOf
      ensures t.parentOf[c] in order <==> t.parentOf[c] in reqs
    {
      ParentIsClient(s, t.parentOf[c]);
    }
    if Spares(s, Abort(reqs, order)) {
      forall c
        ensures Owed(s1, c)
      {
        assert Owed(s, c);
      }
    }
    if AllOwed(s1) {
      forall c | c in reqs && c in t.parentOf && t.parentOf[c] !in reqs
        ensures c in DoneSet(t, t.parentOf[c])
      {
        assert Owed(s1, c);
      }
    }
  }

  lemma RegisterOwes(cfg: Config, s: Sys, p: ReqId, role: Role, c: ReqId)
    requires AllOwed(s) && IndexOk(s.tracker.companions, s.tracker.companionIds, s.tracker.parentOf, s.tracker.done)
    ensures AllOwed(Step(cfg, s, AddCompanion(p, role, c)))
  {
    hide IndexOk, PutRole;
    var s1 := Step(cfg, s, AddCompanion(p, role, c));
    forall d
      ensures Owed(s1, d)
    {
      assert Owed(s, d);
    }
  }

  /** Of all handler calls only an abort can orphan a companion, and exactly those do that
      name an uncounted one without its parent. */
  lemma StepOwes(cfg: Config, s: Sys, call: Call)
    requires Inv(cfg, s) && CallOk(cfg, s, call) && AllOwed(s)
    ensures AllOwed(Step(cfg, s, call)) <==> Spares(s, call)
  {
    hide TrackerOk, LogOk, LinksOk, Route, RouteCompanion, CompanionReady, ForwardOrDefer, FinishRequest, Known, AllOwed, Settles;
    if s.crashed {
      return;
    }
    match call
    case AddRequest(r, finalStage, finalOutputs, hasTokens) =>
      AdmitSettles(cfg, s, r, finalStage, finalOutputs, hasTokens);
      SettledOwes(s, Step(cfg, s, call));
    case AddCompanion(p, role, c) =>
      TrackerIndex(s.tracker);
      RegisterOwes(cfg, s, p, role, c);
    case Abort(reqs, order) =>
      AbortOwes(cfg, s, reqs, order);
    case StageOutput(stage, out, inputs) =>
      if out.req in s.requests && stage < |cfg.stages| {
        if out.error {
          ErrorSettles(cfg, s, stage, out.req);
          SettledOwes(s, Step(cfg, s, call));
        } else if out.finished && out.req in s.tracker.companionIds {
          RouteCompanionOwes(cfg, s, out, inputs);
          RouteOfCompanion(cfg, s, stage, out, inputs);
        } else {
          RouteSettles(cfg, s, stage, out, inputs);
          SettledOwes(s, Step(cfg, s, call));
        }
      }
    case KvReady(stage, out, inputs) =>
      if !cfg.asyncChunk && out.req in s.requests {
        if out.req in s.tracker.companionIds {
          ReadySettles(cfg, s, out.req, inputs);
          SettledOwes(s, Step(cfg, s, call));
        } else if stage < s.requests[out.req].finalStage && !NextSubmitted(s, out.req, stage) {
          RequestIsOk(cfg, s, out.req);
          ForwardOrDeferSettles(cfg, s, out.req, stage, out, inputs);
          SettledOwes(s, Step(cfg, s, call));
        }
      }
  }

  lemma TrackerIndex(t: Tracker)
    requires TrackerOk(t)
    ensures IndexOk(t.companions, t.companionIds, t.parentOf, t.done)
  {
  }

  lemma AdmitSettles(cfg: Config, s: Sys, r: ReqId, finalStage: nat, finalOutputs: set<nat>, hasTokens: bool)
    ensures Settles(s, Admit(cfg, s, r, finalStage, finalOutputs, hasTokens))
  {
  }

  lemma ErrorSettles(cfg: Config, s: Sys, stage: nat, r: ReqId)
    requires TrackerOk(s.tracker) && r in s.requests
    ensures Settles(s, StageError(s, stage, r))
  {
    hide Settles;
    var p := if r in s.tracker.companionIds && r in s.tracker.parentOf then s.tracker.parentOf[r] else r;
    if r in s.tracker.companionIds {
      ParentIsClient(s, p);
    }
    FinishSettles(Emit(s, ErrorMessage(p, stage)), p);
    SameTracker(s, Emit(s, ErrorMessage(p, stage)), FinishRequest(Emit(s, ErrorMessage(p, stage)), p));
  }

  lemma SameTracker(s: Sys, s1: Sys, s2: Sys)
    requires s1.tracker == s.tracker && s1.requests == s.requests && Settles(s1, s2)
    ensures Settles(s, s2)
  {
  }

  /** After every prefix of the run every tracked companion is live or counted, exactly when
      every abort on the way spares the others. */
  lemma {:induction false} RunOwes(cfg: Config, s: Sys, calls: seq<Call>)
    requires Inv(cfg, s) && RunOk(cfg, s, calls) && AllOwed(s)
    ensures (forall n: nat | n <= |calls| :: AllOwed(Run(cfg, s, calls[..n]))) <==> RunSpares(cfg, s, calls)
    decreases |calls|
  {
    hide AllOwed, Spares, Step, Inv;
    if calls == [] {
    } else {
      var s1, rest := Step(cfg, s, calls[0]), calls[1..];
      StepKeeps(cfg, s, calls[0]);
      StepOwes(cfg, s, calls[0]);
      forall n: nat | 1 <= n <= |calls|
        ensures Run(cfg, s, calls[..n]) == Run(cfg, s1, rest[..n - 1])
      {
        assert calls[..n][1..] == rest[..n - 1];
      }
      assert Run(cfg, s, calls[..1]) == s1;
      if AllOwed(s1) {
        RunOwes(cfg, s1, rest);
        if RunSpares(cfg, s, calls) {
          forall n: nat | n <= |calls|
            ensures AllOwed(Run(cfg, s, calls[..n]))
          {
            if n > 0 {
              assert AllOwed(Run(cfg, s1, rest[..n - 1]));
            }
          }
        }
        if forall n: nat | n <= |calls| :: AllOwed(Run(cfg, s, calls[..n])) {
          forall n: nat | n <= |rest|
            ensures AllOwed(Run(cfg, s1, rest[..n]))
          {
            assert AllOwed(Run(cfg, s, calls[..n + 1]));
          }
        }
      }
    }
  }

  lemma OwedMeansNoOrphan(s: Sys)
    ensures AllOwed(s) <==> forall p, c :: !Orphaned(s, p, c)
  {
    if forall p, c :: !Orphaned(s, p, c) {
      forall c
        ensures Owed(s, c)
      {
        if c in s.tracker.parentOf {
          assert !Orphaned(s, s.tracker.parentOf[c], c);
        }
      }
    }
    if AllOwed(s) {
      forall p, c
        ensures !Orphaned(s, p, c)
      {
        assert Owed(s, c);
      }
    }
  }

  /** When an abort strands somebody: no prefix of a run has an orphaned companion if and only
      if every abort that names an uncounted companion names its parent too. */
  lemma OrphanFreeIffAbortsSpare(cfg: Config, calls: seq<Call>)
    requires RunOk(cfg, Init(), calls)
    ensures (forall n: nat, p, c | n <= |calls| :: !Orphaned(Run(cfg, Init(), calls[..n]), p, c)) <==> RunSpares(cfg, Init(), calls)
  {
    hide Run, Step, Orphaned, AllOwed;
    InitOk(cfg);
    InitOwes();
    RunOwes(cfg, Init(), calls);
    forall n: nat | n <= |calls|
      ensures AllOwed(Run(cfg, Init(), calls[..n])) <==> forall p, c :: !Orphaned(Run(cfg, Init(), calls[..n]), p, c)
    {
      OwedMeansNoOrphan(Run(cfg, Init(), calls[..n]));
    }
  }

  lemma InitOwes()
    ensures AllOwed(Init())
  {
  }

  /** As long as aborts spare uncounted companions of parents that stay, a deferred parent
      always waits for a registered companion that is still live and not yet counted: its
      stage owes the output that will be counted. */
  lemma DeferredAwaitsLiveCompanion(cfg: Config, calls: seq<Call>, p: ReqId)
    requires RunOk(cfg, Init(), calls) && RunSpares(cfg, Init(), calls)
    requires p in Run(cfg, Init(), calls).tracker.pending
    ensures var s := Run(cfg, Init(), calls);
            exists i :: 0 <= i < |RoleMap(s.tracker, p)| && RoleMap(s.tracker, p)[i].1 !in DoneSet(s.tracker, p)
                        && RoleMap(s.tracker, p)[i].1 in s.requests
  {
    hide Run, RunOk, RunSpares, AllOwed, Inv, RoleMap, DoneSet;
    var s := Run(cfg, Init(), calls);
    InitOk(cfg);
    InitOwes();
    RunKeeps(cfg, Init(), calls);
    RunOwes(cfg, Init(), calls);
    assert calls[..|calls|] == calls;
    assert AllOwed(Run(cfg, Init(), calls[..|calls|]));
    AwaitsLive(cfg, s, p);
  }

  lemma AwaitsLive(cfg: Config, s: Sys, p: ReqId)
    requires Inv(cfg, s) && AllOwed(s) && p in s.tracker.pending
    ensures exists i :: 0 <= i < |RoleMap(s.tracker, p)| && RoleMap(s.tracker, p)[i].1 !in DoneSet(s.tracker, p)
                        && RoleMap(s.tracker, p)[i].1 in s.requests
  {
    hide LogOk, LinksOk;
    var t := s.tracker;
    assert ParentOk(t.companions[p], t.done[p], t.companionIds, t.parentOf, p);
    var i :| 0 <= i < |RoleMap(t, p)| && RoleMap(t, p)[i].1 !in DoneSet(t, p);
    assert Owed(s, RoleMap(t, p)[i].1);
  }

  // ---- a companion aborted on its own blocks its parent for good -----------------------

  /** The companion is gone without having been counted. */
  ghost predicate Orphaned(s: Sys, p: ReqId, c: ReqId) {
    c in s.tracker.parentOf && s.tracker.parentOf[c] == p && c !in s.requests && c !in DoneSet(s.tracker, p)
  }

  ghost predicate BlockedOrGone(s: Sys, p: ReqId, c: ReqId) {
    p in Known(s.log) && c in Known(s.log) && (p in s.requests ==> Orphaned(s, p, c))
  }

  lemma {:induction false} KnownGrows(a: seq<Event>, b: seq<Event>)
    requires a <= b
    ensures Known(a) <= Known(b)
    decreases |b|
  {
    if a == b {
    } else {
      assert b[..|b| - 1] + [b[|b| - 1]] == b;
      KnownGrows(a, b[..|b| - 1]);
    }
  }

  lemma {:induction false} PrewarmGrows(log: seq<Event>, r: ReqId, lo: nat, hi: nat)
    ensures log <= Prewarm(log, r, lo, hi)
    decreases hi - lo
  {
    if lo >= hi {
    } else {
      PrewarmGrows(log + [Submitted(r, lo, [], [])], r, lo + 1, hi);
    }
  }

  /** Every handler call only appends to the trace; all but admission and registration
      revive nobody. */
  ghost predicate Extends(s: Sys, s1: Sys) {
    s.log <= s1.log && s1.requests.Keys <= s.requests.Keys
  }

  lemma ForwardExtends(cfg: Config, s: Sys, r: ReqId, src: nat, out: Output, inputs: nat)
    requires r in s.requests && src + 1 < |cfg.stages|
    ensures Extends(s, Forward(cfg, s, r, src, out, inputs))
  {
    hide CleanupParent, Collect, Members;
  }

  lemma ForwardOrDeferExtends(cfg: Config, s: Sys, r: ReqId, src: nat, out: Output, inputs: nat)
    requires r in s.requests && src + 1 < |cfg.stages|
    ensures Extends(s, ForwardOrDefer(cfg, s, r, src, out, inputs))
  {
    hide Forward, RolesDone;
    ForwardExtends(cfg, s, r, src, out, inputs);
  }

  lemma ReadyExtends(cfg: Config, s: Sys, c: ReqId, inputs: nat)
    ensures Extends(s, CompanionReady(cfg, s, c, inputs))
  {
    hide RolesDone, Forward;
    var (t, done) := OnCompleted(s.tracker, c);
    if done.Release? && done.parent in t.pending {
      var p := done.parent;
      var d := t.pending[p];
      var s2 := s.(tracker := t.(pending := t.pending - {p}));
      if p in s2.requests && d.stage + 1 < |cfg.stages| {
        ForwardExtends(cfg, s2, p, d.stage, d.output, inputs);
      }
    }
  }

  lemma RouteExtends(cfg: Config, s: Sys, stage: nat, out: Output, inputs: nat)
    requires out.req in s.requests && stage < |cfg.stages|
    ensures Extends(s, Route(cfg, s, stage, out, inputs))
  {
    hide CleanupParent, Members, CompanionReady, ForwardOrDefer;
    if out.finished && out.req in s.tracker.companionIds {
      ReadyExtends(cfg, s.(tracker := s.tracker.(outputs := s.tracker.outputs[out.req := out])), out.req, inputs);
    } else {
      var s2 := CapturePrefill(cfg, Announce(cfg, s, stage, out).0, stage, out);
      assert Extends(s, s2);
      if ShouldForward(cfg, s2, stage, out) && stage + 1 < |cfg.stages| {
        ForwardOrDeferExtends(cfg, s2, out.req, stage, out, inputs);
      }
    }
  }

  lemma StepExtends(cfg: Config, s: Sys, call: Call)
    ensures s.log <= Step(cfg, s, call).log
    ensures forall p | p in Step(cfg, s, call).requests && p !in s.requests ::
              (call.AddRequest? && call.req == p) || (call.AddCompanion? && call.companion == p)
  {
    hide RolesDone, CompanionReady, ForwardOrDefer, Route, CleanupParent, AbortParents, Members, Below, PutRole;
    match call
    case AddRequest(r, finalStage, _, _) =>
      PrewarmGrows(s.log + [Admitted(r)], r, 1, finalStage + 1);
      PrewarmGrows(s.log + [Admitted(r)], r, 1, 1);
    case StageOutput(stage, out, inputs) =>
      if out.req in s.requests && stage < |cfg.stages| {
        RouteExtends(cfg, s, stage, out, inputs);
      }
    case KvReady(stage, out, inputs) =>
      ReadyExtends(cfg, s, out.req, inputs);
      if out.req in s.requests && stage + 1 < |cfg.stages| {
        ForwardOrDeferExtends(cfg, s, out.req, stage, out, inputs);
      }
    case _ =>
  }

  /** s1 tracks no more than s, revives nobody, counts no orphan, and drops a companion only
      with its parent. */
  ghost predicate Leaves(s: Sys, s1: Sys, p: ReqId, c: ReqId) {
    p in s1.requests && Orphaned(s, p, c) ==> Orphaned(s1, p, c)
  }

  lemma FinishLeaves(s: Sys, r: ReqId, p: ReqId, c: ReqId)
    requires TrackerOk(s.tracker)
    ensures Leaves(s, FinishRequest(s, r), p, c)
  {
    CleanupIsClean(s.tracker, r);
  }

  lemma ForwardLeaves(cfg: Config, s: Sys, r: ReqId, src: nat, out: Output, inputs: nat, p: ReqId, c: ReqId)
    requires TrackerOk(s.tracker) && r in s.requests && src + 1 < |cfg.stages|
    ensures Leaves(s, Forward(cfg, s, r, src, out, inputs), p, c)
  {
    hide RolesDone, TerminateEarly, TrackerOk, Collect, Ids, RoleMap;
    var q := s.requests[r];
    StashedLess(s.tracker, r);
    EndLeaves(s, s.(tracker := PopOutputs(s.tracker, r).0), r, src + 1, p, c);
    EndLeaves(s, MarkSubmitted(s, r, q.finalStage), r, q.finalStage, p, c);
  }

  lemma EndLeaves(s: Sys, s1: Sys, r: ReqId, stage: nat, p: ReqId, c: ReqId)
    requires TrackerOk(s1.tracker)
    requires s1.tracker == s.tracker.(outputs := s1.tracker.outputs) && s1.requests.Keys == s.requests.Keys
    ensures Leaves(s, TerminateEarly(s1, r, stage), p, c)
  {
    hide TrackerOk;
    CleanupIsClean(s1.tracker, r);
  }

  lemma ForwardOrDeferLeaves(cfg: Config, s: Sys, r: ReqId, src: nat, out: Output, inputs: nat, p: ReqId, c: ReqId)
    requires TrackerOk(s.tracker) && r in s.requests && src + 1 < |cfg.stages|
    ensures Leaves(s, ForwardOrDefer(cfg, s, r, src, out, inputs), p, c)
  {
    hide RolesDone, Forward, TrackerOk;
    ForwardLeaves(cfg, s, r, src, out, inputs, p, c);
  }

  lemma ReadyLeaves(cfg: Config, s: Sys, d: ReqId, inputs: nat, p: ReqId, c: ReqId)
    requires Inv(cfg, s) && d in s.requests
    ensures Leaves(s, CompanionReady(cfg, s, d, inputs), p, c)
  {
    hide RolesDone, Forward, TrackerOk, LinksOk, LogOk;
    CompletedKeeps(s.tracker, d);
    var (t, done) := OnCompleted(s.tracker, d);
    if done.Release? {
      var q := done.parent;
      var t2 := t.(pending := t.pending - {q});
      TrackerOnly(cfg, s, t2);
      ReleasedForwardable(cfg, s, q);
      ForwardLeaves(cfg, s.(tracker := t2), q, t.pending[q].stage, t.pending[q].output, inputs, p, c);
    }
  }

  lemma RouteLeaves(cfg: Config, s: Sys, stage: nat, out: Output, inputs: nat, p: ReqId, c: ReqId)
    requires Inv(cfg, s) && out.req in s.requests && stage < |cfg.stages| && stage in s.requests[out.req].submitted
    ensures Leaves(s, Route(cfg, s, stage, out, inputs), p, c)
  {
    hide TrackerOk, LogOk, LinksOk, FinishRequest, ForwardOrDefer, RolesDone, CompanionReady;
    var r := out.req;
    if out.finished && r in s.tracker.companionIds {
      var s1 := s.(tracker := s.tracker.(outputs := s.tracker.outputs[r := out]));
      StashParts(s);
      OutputsOnly(cfg, s, s1.tracker.outputs);
      ReadyLeaves(cfg, s1, r, inputs, p, c);
      RouteOfCompanion(cfg, s, stage, out, inputs);
      assert Orphaned(s, p, c) ==> Orphaned(s1, p, c);
    } else {
      var (s1, complete) := Announce(cfg, s, stage, out);
      var s2 := CapturePrefill(cfg, s1, stage, out);
      assert s2.tracker == s.tracker && s2.requests.Keys == s.requests.Keys && s2.requests[r].submitted == s.requests[r].submitted;
      CompleteIsFinished(cfg, s, stage, out);
      if ShouldForward(cfg, s2, stage, out) && stage + 1 < |cfg.stages| {
        ForwardOrDeferLeaves(cfg, s2, r, stage, out, inputs, p, c);
        if complete {
          NothingAfterComplete(cfg, s, stage, out);
        }
      } else if complete {
        FinishLeaves(s2, r, p, c);
      }
    }
  }

  lemma StepLeaves(cfg: Config, s: Sys, call: Call, p: ReqId, c: ReqId)
    requires Inv(cfg, s) && CallOk(cfg, s, call) && BlockedOrGone(s, p, c)
    ensures BlockedOrGone(Step(cfg, s, call), p, c)
  {
    hide TrackerOk, LogOk, LinksOk, Route, CompanionReady, ForwardOrDefer, FinishRequest, Known;
    var s1 := Step(cfg, s, call);
    StepExtends(cfg, s, call);
    KnownGrows(s.log, s1.log);
    if s.crashed || p !in s.requests {
      return;
    }
    match call
    case AddRequest(r, finalStage, finalOutputs, hasTokens) =>
    case AddCompanion(q, role, d) =>
      RegisterLeaves(cfg, s, q, role, d, p, c);
    case Abort(reqs, order) =>
      AbortIsClean(s.tracker, order, reqs);
    case StageOutput(stage, out, inputs) =>
      if out.req in s.requests && stage < |cfg.stages| {
        if out.error {
          FinishLeaves(Emit(s, ErrorMessage(if out.req in s.tracker.companionIds && out.req in s.tracker.parentOf then s.tracker.parentOf[out.req] else out.req, stage)),
                       if out.req in s.tracker.companionIds && out.req in s.tracker.parentOf then s.tracker.parentOf[out.req] else out.req, p, c);
        } else {
          RouteLeaves(cfg, s, stage, out, inputs, p, c);
        }
      }
    case KvReady(stage, out, inputs) =>
      if !cfg.asyncChunk && out.req in s.requests {
        if out.req in s.tracker.companionIds {
          ReadyLeaves(cfg, s, out.req, inputs, p, c);
        } else if stage < s.requests[out.req].finalStage && !NextSubmitted(s, out.req, stage) {
          RequestIsOk(cfg, s, out.req);
          ForwardOrDeferLeaves(cfg, s, out.req, stage, out, inputs, p, c);
        }
      }
  }

  lemma RegisterLeaves(cfg: Config, s: Sys, q: ReqId, role: Role, d: ReqId, p: ReqId, c: ReqId)
    requires c != d
    ensures Leaves(s, Step(cfg, s, AddCompanion(q, role, d)), p, c)
  {
    hide PutRole;
  }

  lemma {:induction false} RunLeaves(cfg: Config, s: Sys, calls: seq<Call>, p: ReqId, c: ReqId)
    requires Inv(cfg, s) && RunOk(cfg, s, calls) && BlockedOrGone(s, p, c)
    ensures BlockedOrGone(Run(cfg, s, calls), p, c)
    decreases |calls|
  {
    if calls == [] {
    } else {
      StepKeeps(cfg, s, calls[0]);
      StepLeaves(cfg, s, calls[0], p, c);
      RunLeaves(cfg, Step(cfg, s, calls[0]), calls[1..], p, c);
    }
  }

  /** Once a companion of a live parent is gone uncounted, no later run counts it, so the
      parent stays unreleased for as long as it lives: it can only be ended by an error, an
      abort or a message of its own. */
  lemma OrphanIsNeverCounted(cfg: Config, before: seq<Call>, after: seq<Call>, p: ReqId, c: ReqId)
    requires RunOk(cfg, Init(), before) && RunOk(cfg, Run(cfg, Init(), before), after)
    requires var s := Run(cfg, Init(), before); p in s.requests && Orphaned(s, p, c)
    ensures var s := Run(cfg, Run(cfg, Init(), before), after);
            p in s.requests ==> Orphaned(s, p, c) && !AllDone(s.tracker, p)
  {
    hide Run, Step;
    var s0 := Run(cfg, Init(), before);
    InitOk(cfg);
    RunKeeps(cfg, Init(), before);
    assert RegistrationKnown(s0, c);
    RunKeeps(cfg, s0, after);
    RunLeaves(cfg, s0, after, p, c);
    var t := Run(cfg, s0, after).tracker;
    if p in Run(cfg, s0, after).requests {
      var i :| 0 <= i < |Ids(t.companions[p])| && Ids(t.companions[p])[i] == c;
      assert RoleMap(t, p)[i].1 == c;
    }
  }

  ghost predicate RegistrationKnown(s: Sys, c: ReqId) {
    c in s.tracker.parentOf ==> c in Known(s.log)
  }

  /** It happens: aborting the companion alone leaves its deferred parent waiting for nobody. */
  lemma CompanionAbortStrands()
    ensures var cfg := Config([Stage(false, false), Stage(true, true)], false, None);
            var calls := [AddRequest("p", 1, {}, true), AddCompanion("p", "neg", "c"),
                          StageOutput(0, Output("p", true, false, None, 0), 1), Abort(["c"], [])];
            var s := Run(cfg, Init(), calls);
            RunOk(cfg, Init(), calls) && "p" in s.tracker.pending && "p" in s.requests && Orphaned(s, "p", "c")
  {
    var cfg := Config([Stage(false, false), Stage(true, true)], false, None);
    var out := Output("p", true, false, None, 0);
    var s1 := Step(cfg, Init(), AddRequest("p", 1, {}, true));
    assert Below(1) == {0};
    assert s1 == Sys(map["p" := Request(1, {1}, {}, {0})], map[], Init().tracker, [Admitted("p")], false);
    var s2 := Step(cfg, s1, AddCompanion("p", "neg", "c"));
    var t2 := s2.tracker;
    assert t2.companions == map["p" := [("neg", "c")]] && t2.parentOf == map["c" := "p"] && t2.companionIds == {"c"};
    var s3 := Step(cfg, s2, StageOutput(0, out, 1));
    assert !AllDone(t2, "p") by {
      assert RoleMap(t2, "p")[0].1 !in DoneSet(t2, "p");
    }
    assert "p" in s3.tracker.pending;
    var s4 := Step(cfg, s3, Abort(["c"], []));
    assert s4.tracker == s3.tracker;
    assert "c" in Members(["c"]) && "p" !in Members(["c"]);
    FourCalls(cfg, AddRequest("p", 1, {}, true), AddCompanion("p", "neg", "c"), StageOutput(0, out, 1), Abort(["c"], []));
    assert Known([Admitted("p")]) == {"p"};
    assert CallOk(cfg, s1, AddCompanion("p", "neg", "c"));
  }

  lemma FourCalls(cfg: Config, a: Call, b: Call, c: Call, d: Call)
    ensures Run(cfg, Init(), [a, b, c, d]) == Step(cfg, Step(cfg, Step(cfg, Step(cfg, Init(), a), b), c), d)
    ensures RunOk(cfg, Init(), [a, b, c, d]) <==>
              var s1 := Step(cfg, Init(), a);
              var s2 := Step(cfg, s1, b);
              var s3 := Step(cfg, s2, c);
              CallOk(cfg, Init(), a) && CallOk(cfg, s1, b) && CallOk(cfg, s2, c) && CallOk(cfg, s3, d)
  {
    hide Step;
    var s1 := Step(cfg, Init(), a);
    var s2 := Step(cfg, s1, b);
    var s3 := Step(cfg, s2, c);
    RunHead(cfg, Init(), a, [b, c, d]);
    RunHead(cfg, s1, b, [c, d]);
    RunHead(cfg, s2, c, [d]);
    RunHead(cfg, s3, d, []);
    assert [a] + [b, c, d] == [a, b, c, d] && [b] + [c, d] == [b, c, d] && [c] + [d] == [c, d] && [d] + [] == [d];
  }

  lemma RunHead(cfg: Config, s: Sys, a: Call, rest: seq<Call>)
    ensures Run(cfg, s, [a] + rest) == Run(cfg, Step(cfg, s, a), rest)
    ensures RunOk(cfg, s, [a] + rest) <==> CallOk(cfg, s, a) && RunOk(cfg, Step(cfg, s, a), rest)
  {
    assert ([a] + rest)[1..] == rest;
  }
}
