/** CFG fan-in wake-ups: who releases a deferred parent, and what a release does. */
module OrchestratorWakeup {
  import opened CfgTracker
  import opened OrchestratorSpec
  import opened OrchestratorSafety
  import opened OrchestratorBundle
  import FanIn = OrchestratorFanIn

  /** Counting c would finish p's companions. */
  ghost predicate LastOf(t: Tracker, p: ReqId, c: ReqId) {
    && c in t.parentOf && t.parentOf[c] == p && p in t.done && c !in t.done[p]
    && AllDone(t.(done := t.done[p := t.done[p] + {c}]), p)
  }

  /** The call counts a companion: its finished output, or its ready kv cache. */
  ghost predicate Counts(cfg: Config, s: Sys, call: Call, c: ReqId) {
    && !s.crashed && c in s.requests && c in s.tracker.companionIds
    && ((call.StageOutput? && call.output.req == c && call.stage < |cfg.stages| && !call.output.error && call.output.finished)
        || (call.KvReady? && call.output.req == c && !cfg.asyncChunk))
  }

  /** The parent moved on: submitted to the stage, ended with a message, or the orchestrator
      went down. */
  ghost predicate MovedOn(s: Sys, p: ReqId, stage: nat) {
    s.crashed || (p !in s.requests && Terminals(s.log, p) == 1) || (p in s.requests && stage in s.requests[p].submitted)
  }

  /** A forward of d makes the next stage's inputs, ends the request or fails; only an
      unfinished output without inputs is waited out. */
  predicate Effective(cfg: Config, d: Deferred, inputs: nat) {
    d.output.finished || inputs > 0 || IsDiffusion(cfg, d.stage + 1) || cfg.pdPair == Some((d.stage, d.stage + 1))
  }

  // ---- what a release does ---------------------------------------------------------------

  lemma EndMovesOn(s: Sys, r: ReqId, stage: nat)
    requires Terminals(s.log, r) == 0
    ensures var s1 := TerminateEarly(s, r, stage);
            r !in s1.requests && Terminals(s1.log, r) == 1 && s1.tracker.pending.Keys <= s.tracker.pending.Keys
  {
    hide Ids, RoleMap, Known, Submissions;
    Appended(s.log, OutputMessage(r, stage, true), r);
  }

  lemma ForwardMovesOn(cfg: Config, s: Sys, r: ReqId, src: nat, out: Output, inputs: nat)
    requires Inv(cfg, s) && Forwardable(s, r, src) && src + 1 < |cfg.stages| && !s.crashed
    ensures var s1 := Forward(cfg, s, r, src, out, inputs);
            && (MovedOn(s1, r, src + 1) <==> Effective(cfg, Deferred(out, src), inputs))
            && s1.tracker.pending.Keys <= s.tracker.pending.Keys
  {
    hide TrackerOk, LinksOk, LogOk, TerminateEarly, Terminals, Collect, Ids, RoleMap;
    NoMessageYet(s, r);
    EndMovesOn(s.(tracker := PopOutputs(s.tracker, r).0), r, src + 1);
    EndMovesOn(MarkSubmitted(s, r, s.requests[r].finalStage), r, s.requests[r].finalStage);
  }

  lemma NoMessageYet(s: Sys, r: ReqId)
    requires LogOk(s) && r in s.requests
    ensures Terminals(s.log, r) == 0
  {
    assert TraceOk(s, r);
  }

  /** The call that counts the last companion takes the parent out of waiting and moves it on
      exactly when the deferred output is effective. */
  lemma ReadyReleases(cfg: Config, s: Sys, p: ReqId, c: ReqId, inputs: nat)
    requires Inv(cfg, s) && !s.crashed && p in s.tracker.pending && LastOf(s.tracker, p, c)
    ensures var s1 := CompanionReady(cfg, s, c, inputs);
            var d := s.tracker.pending[p];
            && p !in s1.tracker.pending
            && (MovedOn(s1, p, d.stage + 1) <==> Effective(cfg, d, inputs) || NextSubmitted(s, p, d.stage))
  {
    hide LogOk, LinksOk, TrackerOk, RolesDone, Forward, Effective;
    CompletedKeeps(s.tracker, c);
    var (t, done) := OnCompleted(s.tracker, c);
    var d := t.pending[p];
    var t2 := t.(pending := t.pending - {p});
    var s2 := s.(tracker := t2);
    TrackerOnly(cfg, s, t2);
    ReleasedForwardable(cfg, s, p);
    if d.stage + 1 !in s2.requests[p].submitted {
      ForwardMovesOn(cfg, s2, p, d.stage, d.output, inputs);
    }
  }

  lemma OthersUnmoved(s: Sys, c: ReqId, p: ReqId, stage: nat)
    requires p != c
    ensures MovedOn(CleanupIds(s, {c}), p, stage) <==> MovedOn(s, p, stage)
    ensures CleanupIds(s, {c}).tracker == s.tracker && CleanupIds(s, {c}).crashed == s.crashed
  {
  }

  lemma CallReleases(cfg: Config, s: Sys, call: Call, p: ReqId, c: ReqId)
    requires Inv(cfg, s) && p in s.tracker.pending && LastOf(s.tracker, p, c) && Counts(cfg, s, call, c)
    ensures var s1 := Step(cfg, s, call);
            var d := s.tracker.pending[p];
            && p !in s1.tracker.pending
            && (MovedOn(s1, p, d.stage + 1) <==> Effective(cfg, d, call.inputs) || NextSubmitted(s, p, d.stage))
  {
    hide LogOk, LinksOk, TrackerOk, RolesDone, CompanionReady, Effective, MovedOn;
    if call.StageOutput? {
      var out := call.output;
      RouteOfCompanion(cfg, s, call.stage, out, call.inputs);
      var s1 := s.(tracker := s.tracker.(outputs := s.tracker.outputs[c := out]));
      StashParts(s);
      OutputsOnly(cfg, s, s1.tracker.outputs);
      assert AllDone(s1.tracker.(done := s1.tracker.done[p := s1.tracker.done[p] + {c}]), p);
      ReadyReleases(cfg, s1, p, c, call.inputs);
      PendingParent(s.tracker, p);
      ParentIsClient(s, p);
      OthersUnmoved(CompanionReady(cfg, s1, c, call.inputs), c, p, s.tracker.pending[p].stage + 1);
    } else {
      ReadyReleases(cfg, s, p, c, call.inputs);
    }
  }

  lemma PendingParent(t: Tracker, p: ReqId)
    requires TrackerOk(t) && p in t.pending
    ensures p in t.companions
  {
  }

  // ---- nothing else releases ----------------------------------------------------------------

  /** A deferred parent that is still live still waits. */
  ghost predicate Waits(s: Sys, s1: Sys, p: ReqId) {
    p in s.tracker.pending && p in s1.requests ==> p in s1.tracker.pending
  }

  lemma FinishWaits(s: Sys, r: ReqId, p: ReqId)
    ensures Waits(s, FinishRequest(s, r), p)
  {
    hide Ids, RoleMap;
  }

  lemma ForwardWaits(cfg: Config, s: Sys, r: ReqId, src: nat, out: Output, inputs: nat, p: ReqId)
    requires r in s.requests && src + 1 < |cfg.stages|
    ensures Waits(s, Forward(cfg, s, r, src, out, inputs), p)
  {
    hide FinishRequest, Collect, Ids, RoleMap;
    FinishWaits(Emit(s.(tracker := PopOutputs(s.tracker, r).0), OutputMessage(r, src + 1, true)), r, p);
    FinishWaits(Emit(MarkSubmitted(s, r, s.requests[r].finalStage), OutputMessage(r, s.requests[r].finalStage, true)), r, p);
  }

  lemma ForwardOrDeferWaits(cfg: Config, s: Sys, r: ReqId, src: nat, out: Output, inputs: nat, p: ReqId)
    requires r in s.requests && src + 1 < |cfg.stages|
    ensures Waits(s, ForwardOrDefer(cfg, s, r, src, out, inputs), p)
  {
    hide Forward, RolesDone;
    ForwardWaits(cfg, s, r, src, out, inputs, p);
  }

  lemma ReadyWaits(cfg: Config, s: Sys, c: ReqId, inputs: nat, p: ReqId)
    requires Inv(cfg, s) && (p in s.tracker.pending ==> !LastOf(s.tracker, p, c))
    ensures Waits(s, CompanionReady(cfg, s, c, inputs), p)
  {
    hide LogOk, LinksOk, TrackerOk, RolesDone, Forward;
    CompletedKeeps(s.tracker, c);
    var (t, done) := OnCompleted(s.tracker, c);
    if done.Release? {
      var q := done.parent;
      var t2 := t.(pending := t.pending - {q});
      TrackerOnly(cfg, s, t2);
      ReleasedForwardable(cfg, s, q);
      ForwardWaits(cfg, s.(tracker := t2), q, t.pending[q].stage, t.pending[q].output, inputs, p);
    }
  }

  lemma RouteWaits(cfg: Config, s: Sys, stage: nat, out: Output, inputs: nat, p: ReqId)
    requires Inv(cfg, s) && out.req in s.requests && stage < |cfg.stages|
    requires p in s.tracker.pending && out.finished && out.req in s.tracker.companionIds ==> !LastOf(s.tracker, p, out.req)
    ensures Waits(s, Route(cfg, s, stage, out, inputs), p)
  {
    hide TrackerOk, LogOk, LinksOk, FinishRequest, ForwardOrDefer, RolesDone, CompanionReady;
    var r := out.req;
    if out.finished && r in s.tracker.companionIds {
      var s1 := s.(tracker := s.tracker.(outputs := s.tracker.outputs[r := out]));
      StashParts(s);
      OutputsOnly(cfg, s, s1.tracker.outputs);
      assert LastOf(s1.tracker, p, r) ==> LastOf(s.tracker, p, r);
      ReadyWaits(cfg, s1, r, inputs, p);
      RouteOfCompanion(cfg, s, stage, out, inputs);
    } else {
      var (s1, complete) := Announce(cfg, s, stage, out);
      var s2 := CapturePrefill(cfg, s1, stage, out);
      CapturedSame(cfg, s, stage, out);
      var s3 := if !ShouldForward(cfg, s2, stage, out) then s2
                else if stage + 1 >= |cfg.stages| then s2.(crashed := true)
                else ForwardOrDefer(cfg, s2, r, stage, out, inputs);
      if ShouldForward(cfg, s2, stage, out) && stage + 1 < |cfg.stages| {
        ForwardOrDeferWaits(cfg, s2, r, stage, out, inputs, p);
      }
      FinishWaits(s3, r, p);
      FinishLess(s3, r, p);
    }
  }

  lemma FinishLess(s: Sys, r: ReqId, p: ReqId)
    ensures p in FinishRequest(s, r).requests ==> p in s.requests
  {
    hide Ids, RoleMap;
  }

  lemma StepWaits(cfg: Config, s: Sys, call: Call, p: ReqId)
    requires Inv(cfg, s) && CallOk(cfg, s, call) && p in s.tracker.pending
    requires forall c :: !(Counts(cfg, s, call, c) && LastOf(s.tracker, p, c))
    ensures Waits(s, Step(cfg, s, call), p)
  {
    hide TrackerOk, LogOk, LinksOk, Route, CompanionReady, ForwardOrDefer, FinishRequest, Known, LastOf, PutRole;
    if s.crashed {
      return;
    }
    match call
    case AddRequest(_, _, _, _) =>
    case AddCompanion(_, _, _) =>
    case Abort(reqs, order) =>
      AbortIsClean(s.tracker, order, reqs);
    case StageOutput(stage, out, inputs) =>
      if out.req in s.requests && stage < |cfg.stages| {
        if out.error {
          var q := if out.req in s.tracker.companionIds && out.req in s.tracker.parentOf then s.tracker.parentOf[out.req] else out.req;
          FinishWaits(Emit(s, ErrorMessage(q, stage)), q, p);
        } else {
          assert out.finished && out.req in s.tracker.companionIds ==> Counts(cfg, s, call, out.req);
          RouteWaits(cfg, s, stage, out, inputs, p);
        }
      }
    case KvReady(stage, out, inputs) =>
      if !cfg.asyncChunk && out.req in s.requests {
        if out.req in s.tracker.companionIds {
          assert Counts(cfg, s, call, out.req);
          ReadyWaits(cfg, s, out.req, inputs, p);
        } else if stage < s.requests[out.req].finalStage && !NextSubmitted(s, out.req, stage) {
          RequestIsOk(cfg, s, out.req);
          ForwardOrDeferWaits(cfg, s, out.req, stage, out, inputs, p);
        }
      }
  }

  // ---- whole runs ------------------------------------------------------------------------------

  ghost predicate CountsLast(cfg: Config, s: Sys, call: Call, p: ReqId) {
    exists c :: Counts(cfg, s, call, c) && LastOf(s.tracker, p, c)
  }

  /** A deferred parent before a call: it still has an uncounted companion; the call takes it
      out of waiting exactly when it counts the last companion or ends the parent; counting
      the last companion moves it on exactly when its deferred output is effective. */
  ghost predicate WokenOnlyByLast(cfg: Config, s: Sys, call: Call, p: ReqId) {
    var s1 := Step(cfg, s, call);
    && p in s.tracker.pending && p in s.requests
    && (exists i :: 0 <= i < |RoleMap(s.tracker, p)| && RoleMap(s.tracker, p)[i].1 !in DoneSet(s.tracker, p))
    && (p !in s1.tracker.pending <==> CountsLast(cfg, s, call, p) || p !in s1.requests)
    && (CountsLast(cfg, s, call, p) ==>
          var d := s.tracker.pending[p];
          MovedOn(s1, p, d.stage + 1) <==> Effective(cfg, d, call.inputs) || NextSubmitted(s, p, d.stage))
  }

  lemma StepWakes(cfg: Config, s: Sys, call: Call, p: ReqId)
    requires Inv(cfg, s) && CallOk(cfg, s, call) && p in s.tracker.pending
    ensures WokenOnlyByLast(cfg, s, call, p)
  {
    hide Step, Effective, MovedOn, LastOf, Inv, NextSubmitted, CallOk;
    StillWaiting(cfg, s, p);
    if CountsLast(cfg, s, call, p) {
      var c :| Counts(cfg, s, call, c) && LastOf(s.tracker, p, c);
      CallReleases(cfg, s, call, p, c);
    } else {
      StepWaits(cfg, s, call, p);
      StepKeeps(cfg, s, call);
      if p in Step(cfg, s, call).tracker.pending {
        StillWaiting(cfg, Step(cfg, s, call), p);
      }
    }
  }

  /** No lost wake-up: after every run no completion can trip the tracker's assertion, and the
      next call wakes a deferred parent only by counting its last companion, or ends it. */
  lemma NoLostWakeup(cfg: Config, calls: seq<Call>, call: Call, p: ReqId)
    requires RunOk(cfg, Init(), calls) && CallOk(cfg, Run(cfg, Init(), calls), call)
    ensures var s := Run(cfg, Init(), calls);
            && (forall c :: !OnCompleted(s.tracker, c).1.AssertionFailed?)
            && (p in s.tracker.pending ==> WokenOnlyByLast(cfg, s, call, p))
  {
    hide Step, Run, WokenOnlyByLast, CallOk, OnCompleted;
    var s := Run(cfg, Init(), calls);
    InitOk(cfg);
    RunKeeps(cfg, Init(), calls);
    InvTracker(cfg, s);
    forall c
      ensures !OnCompleted(s.tracker, c).1.AssertionFailed?
    {
      CompletedKeeps(s.tracker, c);
    }
    if p in s.tracker.pending {
      StepWakes(cfg, s, call, p);
    }
  }

  lemma InvTracker(cfg: Config, s: Sys)
    requires Inv(cfg, s)
    ensures TrackerOk(s.tracker)
  {
  }

  lemma StillWaiting(cfg: Config, s: Sys, p: ReqId)
    requires Inv(cfg, s) && p in s.tracker.pending
    ensures p in s.requests
    ensures exists i :: 0 <= i < |RoleMap(s.tracker, p)| && RoleMap(s.tracker, p)[i].1 !in DoneSet(s.tracker, p)
  {
    hide LogOk, IndexOk;
    assert DeferredOk(s, p, s.tracker.pending[p]);
  }

  /** In runs without kv-ready raw outputs only finished outputs are deferred, so the call that
      counts the last companion always moves the parent on. */
  lemma LastCompanionReleases(cfg: Config, calls: seq<Call>, call: Call, p: ReqId)
    requires RunOk(cfg, Init(), calls) && CallOk(cfg, Run(cfg, Init(), calls), call) && !cfg.asyncChunk
    requires forall i | 0 <= i < |calls| :: !calls[i].KvReady?
    requires p in Run(cfg, Init(), calls).tracker.pending && CountsLast(cfg, Run(cfg, Init(), calls), call, p)
    ensures var s := Run(cfg, Init(), calls);
            var s1 := Step(cfg, s, call);
            p !in s1.tracker.pending && MovedOn(s1, p, s.tracker.pending[p].stage + 1)
  {
    hide Step, Run, MovedOn, CountsLast, BundleInv, CallOk, Inv, RunOk;
    var s := Run(cfg, Init(), calls);
    InitOk(cfg);
    RunKeeps(cfg, Init(), calls);
    InitBundled(cfg);
    RunBundles(cfg, Init(), calls);
    PendingFinished(cfg, s, p);
    FinishedReleases(cfg, s, call, p);
  }

  lemma FinishedReleases(cfg: Config, s: Sys, call: Call, p: ReqId)
    requires Inv(cfg, s) && CallOk(cfg, s, call) && p in s.tracker.pending && s.tracker.pending[p].output.finished
    requires CountsLast(cfg, s, call, p)
    ensures p !in Step(cfg, s, call).tracker.pending && MovedOn(Step(cfg, s, call), p, s.tracker.pending[p].stage + 1)
  {
    hide Step, MovedOn, CountsLast, CallOk, Inv;
    StepWakes(cfg, s, call, p);
    CountsInputs(cfg, s, call, p);
  }

  lemma CountsInputs(cfg: Config, s: Sys, call: Call, p: ReqId)
    requires CountsLast(cfg, s, call, p)
    ensures call.StageOutput? || call.KvReady?
  {
    hide LastOf;
  }

  lemma PendingFinished(cfg: Config, s: Sys, p: ReqId)
    requires BundleInv(cfg, s) && p in s.tracker.pending
    ensures s.tracker.pending[p].output.finished
  {
    hide LogBundled, RolesLogged, StashFull;
  }

  lemma InitBundled(cfg: Config)
    ensures BundleInv(cfg, Init())
  {
  }

  // ---- a release that moves nothing ---------------------------------------------------------------

  /** It happens: the parent is deferred by an unfinished kv-ready output, and the output that
      counts its last companion yields no inputs.  The parent no longer waits, yet it was
      neither submitted to the next stage nor ended. */
  lemma ReleaseMovesNothing()
    ensures var cfg := Config([Stage(false, false), Stage(false, true)], false, None);
            var calls := [AddRequest("p", 1, {}, true), AddCompanion("p", "neg", "c"), KvReady(0, Output("p", false, false, None, 0), 1)];
            var call := StageOutput(0, Output("c", true, false, None, 0), 0);
            var s := Run(cfg, Init(), calls);
            var s1 := Step(cfg, s, call);
            && RunOk(cfg, Init(), calls) && CallOk(cfg, s, call)
            && "p" in s.tracker.pending && CountsLast(cfg, s, call, "p")
            && "p" in s1.requests && "p" !in s1.tracker.pending && !MovedOn(s1, "p", 1)
  {
    hide Run, RunOk, LastOf, Counts, Effective, CallOk, Step;
    var cfg := Config([Stage(false, false), Stage(false, true)], false, None);
    var a, b, c := AddRequest("p", 1, {}, true), AddCompanion("p", "neg", "c"), KvReady(0, Output("p", false, false, None, 0), 1);
    var call := StageOutput(0, Output("c", true, false, None, 0), 0);
    AdmitsParent(cfg);
    RegistersCompanion(cfg);
    DefersParent(cfg);
    ThreeCalls(cfg, a, b, c);
    ReleasesOnly(cfg);
    assert Counts(cfg, Held(), call, "c") && LastOf(Held().tracker, "p", "c");
  }

  function Parent(): Request {
    Request(1, {1}, {}, {0})
  }

  /** The parent and its companion are registered. */
  function Paired(): Sys {
    Sys(map["p" := Parent(), "c" := Request(0, {0}, {}, {0})], map[],
        Tracker(map["p" := [("neg", "c")]], {"c"}, map["c" := "p"], map["p" := {}], map[], map[]),
        [Admitted("p")] + [Registered("p", "c")], false)
  }

  /** The parent waits. */
  function Held(): Sys {
    Paired().(tracker := Paired().tracker.(pending := map["p" := Deferred(Output("p", false, false, None, 0), 0)]))
  }

  lemma AdmitsParent(cfg: Config)
    requires cfg == Config([Stage(false, false), Stage(false, true)], false, None)
    ensures Step(cfg, Init(), AddRequest("p", 1, {}, true)) == Sys(map["p" := Parent()], map[], Init().tracker, [Admitted("p")], false)
    ensures CallOk(cfg, Init(), AddRequest("p", 1, {}, true))
  {
    assert Below(1) == {0};
  }

  lemma RegistersCompanion(cfg: Config)
    ensures var s := Sys(map["p" := Parent()], map[], Init().tracker, [Admitted("p")], false);
            var call := AddCompanion("p", "neg", "c");
            Step(cfg, s, call) == Paired() && CallOk(cfg, s, call)
  {
    var s := Sys(map["p" := Parent()], map[], Init().tracker, [Admitted("p")], false);
    var t := RegisterCompanion(s.tracker, "p", "neg", "c");
    assert t == Paired().tracker;
    assert [Admitted("p")][..0] == [] && Known([Admitted("p")]) == {"p"};
  }

  lemma DefersParent(cfg: Config)
    requires cfg == Config([Stage(false, false), Stage(false, true)], false, None)
    ensures var call := KvReady(0, Output("p", false, false, None, 0), 1);
            Step(cfg, Paired(), call) == Held() && CallOk(cfg, Paired(), call)
  {
    var t := Paired().tracker;
    assert RoleMap(t, "p")[0].1 !in DoneSet(t, "p");
  }

  lemma ReleasesOnly(cfg: Config)
    requires cfg == Config([Stage(false, false), Stage(false, true)], false, None)
    ensures var call := StageOutput(0, Output("c", true, false, None, 0), 0);
            var s1 := Step(cfg, Held(), call);
            && CallOk(cfg, Held(), call) && Counts(cfg, Held(), call, "c") && LastOf(Held().tracker, "p", "c")
            && s1.requests == map["p" := Parent()] && "p" !in s1.tracker.pending && !s1.crashed
  {
    var call := StageOutput(0, Output("c", true, false, None, 0), 0);
    var t := Held().tracker;
    var t1 := t.(outputs := t.outputs["c" := call.output], done := t.done["p" := t.done["p"] + {"c"}]);
    assert AllDone(t1, "p");
    assert LastOf(t, "p", "c");
    var s1 := Held().(tracker := t1.(pending := map[]));
    assert CompanionReady(cfg, Held().(tracker := t.(outputs := t.outputs["c" := call.output])), "c", 0) == s1;
    assert CleanupIds(s1, {"c"}).requests == map["p" := Parent()];
  }

  lemma ThreeCalls(cfg: Config, a: Call, b: Call, c: Call)
    ensures var s1 := Step(cfg, Init(), a);
            var s2 := Step(cfg, s1, b);
            && Run(cfg, Init(), [a, b, c]) == Step(cfg, s2, c)
            && (RunOk(cfg, Init(), [a, b, c]) <==> CallOk(cfg, Init(), a) && CallOk(cfg, s1, b) && CallOk(cfg, s2, c))
  {
    hide Step, CallOk;
    var s1 := Step(cfg, Init(), a);
    var s2 := Step(cfg, s1, b);
    FanIn.RunHead(cfg, Init(), a, [b, c]);
    FanIn.RunHead(cfg, s1, b, [c]);
    FanIn.RunHead(cfg, s2, c, []);
    assert [a] + [b, c] == [a, b, c] && [b] + [c] == [b, c] && [c] + [] == [c];
  }
}
