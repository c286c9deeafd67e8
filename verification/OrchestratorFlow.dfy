/** What the stages are given: every submission carries an output that the stage before it
    produced for the same request. */
module OrchestratorFlow {
  import opened CfgTracker
  import opened OrchestratorSpec
  import opened OrchestratorSafety
  import opened OrchestratorBundle
  import opened OrchestratorMessages

  /** A call brings this output of this stage. */
  predicate Carries(call: Call, stage: nat, out: Output) {
    (call.StageOutput? && call.stage == stage && call.output == out && !out.error)
    || (call.KvReady? && call.stage == stage && call.output == out)
  }

  ghost predicate Produced(calls: seq<Call>, stage: nat, out: Output) {
    exists i :: 0 <= i < |calls| && Carries(calls[i], stage, out)
  }

  /** A submission is given what the stage before it produced for the request: that output alone
      in front of any stage but diffusion, where companions' outputs may follow it.  Only in
      async-chunk mode a stage is submitted to ahead of its input. */
  ghost predicate Sourced(cfg: Config, calls: seq<Call>, e: Event) {
    e.Submitted? ==>
      && 1 <= e.stage
      && (if e.sources == [] then cfg.asyncChunk && e.companions == []
          else e.sources[0].req == e.req && Produced(calls, e.stage - 1, e.sources[0])
               && (!IsDiffusion(cfg, e.stage) ==> |e.sources| == 1 && e.companions == [])
               && forall i | 1 <= i < |e.sources| :: Answered(calls, e.sources[i]))
  }

  /** The output was brought as a stage's finished one. */
  ghost predicate Answered(calls: seq<Call>, out: Output) {
    exists i :: 0 <= i < |calls| && calls[i].StageOutput? && calls[i].output == out && out.finished && !out.error
  }

  /** What waits for companions was produced for the parent that waits. */
  ghost predicate HeldSourced(calls: seq<Call>, s: Sys) {
    forall p | p in s.tracker.pending :: HeldAt(calls, p, s.tracker.pending[p])
  }

  ghost predicate HeldAt(calls: seq<Call>, p: ReqId, d: Deferred) {
    d.output.req == p && Produced(calls, d.stage, d.output)
  }

  ghost predicate FlowInv(cfg: Config, calls: seq<Call>, s: Sys) {
    && (forall e | e in s.log :: Sourced(cfg, calls, e))
    && HeldSourced(calls, s)
    && forall c | c in s.tracker.outputs :: Answered(calls, s.tracker.outputs[c])
  }

  lemma AnsweredMore(calls: seq<Call>, call: Call, out: Output)
    ensures Answered(calls, out) ==> Answered(calls + [call], out)
    ensures call.StageOutput? && call.output == out && out.finished && !out.error ==> Answered(calls + [call], out)
  {
    if i :| 0 <= i < |calls| && calls[i].StageOutput? && calls[i].output == out && out.finished && !out.error {
      assert (calls + [call])[i] == calls[i];
    }
    assert (calls + [call])[|calls|] == call;
  }

  lemma ProducedMore(calls: seq<Call>, call: Call, stage: nat, out: Output)
    ensures Produced(calls, stage, out) || Carries(call, stage, out) ==> Produced(calls + [call], stage, out)
  {
    hide Carries;
    if i :| 0 <= i < |calls| && Carries(calls[i], stage, out) {
      assert (calls + [call])[i] == calls[i];
    }
    assert (calls + [call])[|calls|] == call;
  }

  lemma SourcedMore(cfg: Config, calls: seq<Call>, call: Call, e: Event)
    requires Sourced(cfg, calls, e)
    ensures Sourced(cfg, calls + [call], e)
  {
    hide Produced, Answered;
    if e.Submitted? && e.sources != [] && 1 <= e.stage {
      ProducedMore(calls, call, e.stage - 1, e.sources[0]);
      forall i | 1 <= i < |e.sources|
        ensures Answered(calls + [call], e.sources[i])
      {
        AnsweredMore(calls, call, e.sources[i]);
      }
    }
  }

  /** New events are sourced, and what waits afterwards waited before or is the call's. */
  ghost predicate Flows(cfg: Config, calls: seq<Call>, s: Sys, s1: Sys) {
    && (forall e | e in s1.log :: e in s.log || Sourced(cfg, calls, e))
    && (forall p | p in s1.tracker.pending ::
          (p in s.tracker.pending && s1.tracker.pending[p] == s.tracker.pending[p]) || HeldAt(calls, p, s1.tracker.pending[p]))
    && (forall c | c in s1.tracker.outputs ::
          (c in s.tracker.outputs && s1.tracker.outputs[c] == s.tracker.outputs[c]) || Answered(calls, s1.tracker.outputs[c]))
  }

  /** The stash loses entries at most. */
  ghost predicate Kept(t: Tracker, t1: Tracker) {
    forall c | c in t1.outputs :: c in t.outputs && t1.outputs[c] == t.outputs[c]
  }

  lemma MovesFlow(cfg: Config, calls: seq<Call>, s: Sys, s1: Sys, r: ReqId, src: nat, out: Output, inputs: nat, remote: bool, news: seq<Event>)
    requires r in s.requests && Moves(cfg, s, s1, r, src, out, inputs, remote, news)
    requires out.req == r && Produced(calls, src, out)
    requires forall c | c in s.tracker.outputs :: Answered(calls, s.tracker.outputs[c])
    ensures forall e | e in news :: Sourced(cfg, calls, e)
  {
    hide Produced, Answered;
  }

  lemma FlowStep(cfg: Config, calls: seq<Call>, call: Call, s: Sys, s1: Sys)
    requires FlowInv(cfg, calls, s) && Flows(cfg, calls + [call], s, s1)
    ensures FlowInv(cfg, calls + [call], s1)
  {
    hide Sourced, Produced, Answered;
    forall e | e in s1.log
      ensures Sourced(cfg, calls + [call], e)
    {
      if e in s.log {
        SourcedMore(cfg, calls, call, e);
      }
    }
    forall p | p in s1.tracker.pending
      ensures HeldAt(calls + [call], p, s1.tracker.pending[p])
    {
      if p in s.tracker.pending && s1.tracker.pending[p] == s.tracker.pending[p] {
        assert HeldAt(calls, p, s.tracker.pending[p]);
        ProducedMore(calls, call, s.tracker.pending[p].stage, s.tracker.pending[p].output);
      }
    }
    forall c | c in s1.tracker.outputs
      ensures Answered(calls + [call], s1.tracker.outputs[c])
    {
      AnsweredMore(calls, call, s1.tracker.outputs[c]);
    }
  }

  // ---- what a call may leave waiting -----------------------------------------------------------

  lemma ForwardHolds(cfg: Config, s: Sys, r: ReqId, src: nat, out: Output, inputs: nat)
    requires r in s.requests && src + 1 < |cfg.stages|
    ensures var t1 := Forward(cfg, s, r, src, out, inputs).tracker;
            Kept(s.tracker, t1) && forall p | p in t1.pending :: p in s.tracker.pending && t1.pending[p] == s.tracker.pending[p]
  {
    hide RoleMap, Ids, Collect;
  }

  lemma ReadyHolds(cfg: Config, s: Sys, c: ReqId, inputs: nat)
    ensures var t1 := CompanionReady(cfg, s, c, inputs).tracker;
            Kept(s.tracker, t1) && forall p | p in t1.pending :: p in s.tracker.pending && t1.pending[p] == s.tracker.pending[p]
  {
    hide Forward, RolesDone, RoleMap;
    var (t, done) := OnCompleted(s.tracker, c);
    if done.Release? && done.parent in t.pending {
      var p := done.parent;
      var d := t.pending[p];
      var s2 := s.(tracker := t.(pending := t.pending - {p}));
      assert t.outputs == s.tracker.outputs && t.pending == s.tracker.pending;
      if p in s2.requests && d.stage + 1 < |cfg.stages| {
        ForwardHolds(cfg, s2, p, d.stage, d.output, inputs);
      }
    }
  }

  lemma ForwardOrDeferHolds(cfg: Config, s: Sys, r: ReqId, src: nat, out: Output, inputs: nat)
    requires r in s.requests && src + 1 < |cfg.stages|
    ensures var t1 := ForwardOrDefer(cfg, s, r, src, out, inputs).tracker;
            Kept(s.tracker, t1) && forall p | p in t1.pending ::
              (p in s.tracker.pending && t1.pending[p] == s.tracker.pending[p]) || (p == r && t1.pending[p] == Deferred(out, src))
  {
    hide Forward, AllDone;
    ForwardHolds(cfg, s, r, src, out, inputs);
  }

  lemma RouteHolds(cfg: Config, s: Sys, stage: nat, out: Output, inputs: nat)
    requires out.req in s.requests && stage < |cfg.stages| && (out.finished ==> out.req !in s.tracker.companionIds)
    ensures var t1 := Route(cfg, s, stage, out, inputs).tracker;
            Kept(s.tracker, t1) && forall p | p in t1.pending ::
              (p in s.tracker.pending && t1.pending[p] == s.tracker.pending[p]) || (p == out.req && t1.pending[p] == Deferred(out, stage))
  {
    hide Forward, AllDone, ForwardOrDefer, RoleMap, Ids, Announce;
    CapturedSame(cfg, s, stage, out);
    var s2 := CapturePrefill(cfg, Announce(cfg, s, stage, out).0, stage, out);
    if ShouldForward(cfg, s2, stage, out) && stage + 1 < |cfg.stages| {
      ForwardOrDeferHolds(cfg, s2, out.req, stage, out, inputs);
    }
  }

  // ---- one call --------------------------------------------------------------------------------

  lemma NewsFlow(cfg: Config, calls: seq<Call>, s: Sys, s1: Sys, news: seq<Event>)
    requires s1.log == s.log + news && forall e | e in news :: Sourced(cfg, calls, e)
    ensures forall e | e in s1.log :: e in s.log || Sourced(cfg, calls, e)
  {
    hide Sourced;
  }

  lemma CallProduces(calls: seq<Call>, call: Call)
    requires (call.StageOutput? && !call.output.error) || call.KvReady?
    ensures Produced(calls + [call], call.stage, call.output)
  {
    ProducedMore(calls, call, call.stage, call.output);
  }

  /** A companion counted: its waiting parent may go on with the output that was held. */
  lemma ReadyFlows(cfg: Config, calls: seq<Call>, call: Call, s: Sys, c: ReqId, inputs: nat)
    requires Inv(cfg, s) && !s.crashed && HeldSourced(calls, s)
    requires forall c | c in s.tracker.outputs :: Answered(calls + [call], s.tracker.outputs[c])
    ensures Flows(cfg, calls + [call], s, CompanionReady(cfg, s, c, inputs))
  {
    hide Inv, CompanionReady, Moves, Sourced, Produced, Answered;
    var s1 := CompanionReady(cfg, s, c, inputs);
    ReadyTells(cfg, s, c, inputs);
    ReadyHolds(cfg, s, c, inputs);
    if News(s, s1) != [] {
      var p :| p in s.tracker.pending && p in s.requests
               && var d := s.tracker.pending[p];
                  Moves(cfg, s, s1, p, d.stage, d.output, inputs, KnowsRemote(s, p), News(s, s1));
      var d := s.tracker.pending[p];
      assert HeldAt(calls, p, d);
      ProducedMore(calls, call, d.stage, d.output);
      MovesFlow(cfg, calls + [call], s, s1, p, d.stage, d.output, inputs, KnowsRemote(s, p), News(s, s1));
    }
    NewsFlow(cfg, calls + [call], s, s1, News(s, s1));
  }

  lemma CompanionFlows(cfg: Config, calls: seq<Call>, call: Call, s: Sys, out: Output, inputs: nat)
    requires Inv(cfg, s) && !s.crashed && FlowInv(cfg, calls, s) && out.req in s.tracker.companionIds && out.finished
    requires call.StageOutput? && call.output == out && !out.error
    ensures Flows(cfg, calls + [call], s, RouteCompanion(cfg, s, out, inputs))
  {
    hide Inv, CompanionReady, Sourced, TrackerOk, HeldAt, Answered;
    var s1 := s.(tracker := s.tracker.(outputs := s.tracker.outputs[out.req := out]));
    forall c | c in s1.tracker.outputs
      ensures Answered(calls + [call], s1.tracker.outputs[c])
    {
      AnsweredMore(calls, call, s1.tracker.outputs[c]);
    }
    StashAll(cfg, s);
    OutputsOnly(cfg, s, s1.tracker.outputs);
    ReadyFlows(cfg, calls, call, s1, out.req, inputs);
  }

  lemma StashAll(cfg: Config, s: Sys)
    requires Inv(cfg, s)
    ensures StashOk(s.tracker.companionIds, s.tracker.outputs)
  {
  }

  lemma OutputFlows(cfg: Config, calls: seq<Call>, s: Sys, stage: nat, out: Output, inputs: nat)
    requires Inv(cfg, s) && !s.crashed && out.req in s.requests && stage < |cfg.stages| && stage in s.requests[out.req].submitted
    requires !out.error && (out.finished ==> out.req !in s.tracker.companionIds) && FlowInv(cfg, calls, s)
    ensures Flows(cfg, calls + [StageOutput(stage, out, inputs)], s, Route(cfg, s, stage, out, inputs))
  {
    hide Inv, Route, Moves, Sourced, Produced, Awaits, Answered, FlowInv;
    var now := calls + [StageOutput(stage, out, inputs)];
    StashStill(cfg, calls, StageOutput(stage, out, inputs), s);
    var s1 := Route(cfg, s, stage, out, inputs);
    CallProduces(calls, StageOutput(stage, out, inputs));
    OutputTells(cfg, s, stage, out, inputs);
    RouteHolds(cfg, s, stage, out, inputs);
    var told := Announced(cfg, s.requests[out.req], stage, out);
    AnnouncedSourced(cfg, now, s.requests[out.req], stage, out);
    var more :| s1.log == s.log + told + more && Follows(cfg, s, s1, stage, out, inputs, more);
    if more != [] {
      MovesFlow(cfg, now, s, s1, out.req, stage, out, inputs, RemoteAfter(cfg, s, stage, out), more);
    }
    NewsFlow(cfg, now, s, s.(log := s.log + told), told);
    NewsFlow(cfg, now, s.(log := s.log + told), s1, more);
  }

  lemma AnnouncedSourced(cfg: Config, calls: seq<Call>, q: Request, stage: nat, out: Output)
    requires stage < |cfg.stages|
    ensures forall e | e in Announced(cfg, q, stage, out) :: Sourced(cfg, calls, e)
  {
  }

  lemma KvFlows(cfg: Config, calls: seq<Call>, s: Sys, stage: nat, out: Output, inputs: nat)
    requires Inv(cfg, s) && !s.crashed && out.req in s.requests && out.req !in s.tracker.companionIds && FlowInv(cfg, calls, s)
    ensures Flows(cfg, calls + [KvReady(stage, out, inputs)], s, Step(cfg, s, KvReady(stage, out, inputs)))
  {
    hide Inv, Moves, Sourced, Produced, Awaits, ForwardOrDefer, Answered, FlowInv;
    var call := KvReady(stage, out, inputs);
    StashStill(cfg, calls, call, s);
    var s1 := Step(cfg, s, call);
    CallProduces(calls, call);
    KvReadyTells(cfg, s, stage, out, inputs);
    RequestIsOk(cfg, s, out.req);
    StageInRange(cfg, s.requests[out.req], stage);
    if Due(cfg, s.requests[out.req], stage) {
      ForwardOrDeferHolds(cfg, s, out.req, stage, out, inputs);
      if News(s, s1) != [] {
        MovesFlow(cfg, calls + [call], s, s1, out.req, stage, out, inputs, KnowsRemote(s, out.req), News(s, s1));
      }
    }
    NewsFlow(cfg, calls + [call], s, s1, News(s, s1));
  }

  lemma StashStill(cfg: Config, calls: seq<Call>, call: Call, s: Sys)
    requires FlowInv(cfg, calls, s)
    ensures forall c | c in s.tracker.outputs :: Answered(calls + [call], s.tracker.outputs[c])
  {
    hide Answered, Sourced, HeldAt;
    forall c | c in s.tracker.outputs
      ensures Answered(calls + [call], s.tracker.outputs[c])
    {
      AnsweredMore(calls, call, s.tracker.outputs[c]);
    }
  }

  lemma AdmitFlows(cfg: Config, calls: seq<Call>, s: Sys, r: ReqId, finalStage: nat, finalOutputs: set<nat>, hasTokens: bool)
    requires !s.crashed
    ensures Flows(cfg, calls, s, Step(cfg, s, AddRequest(r, finalStage, finalOutputs, hasTokens)))
  {
    hide Step;
    AdmissionTells(cfg, s, r, finalStage, finalOutputs, hasTokens);
  }

  lemma StepFlows(cfg: Config, calls: seq<Call>, s: Sys, call: Call)
    requires Inv(cfg, s) && CallOk(cfg, s, call) && FlowInv(cfg, calls, s)
    ensures FlowInv(cfg, calls + [call], Step(cfg, s, call))
  {
    hide TrackerOk, LogOk, LinksOk, Route, RouteCompanion, CompanionReady, ForwardOrDefer, CleanupParent, Admit, Known, Sourced, Produced, PutRole, HeldAt, AbortParents, Answered;
    var s1 := Step(cfg, s, call);
    if !s.crashed {
      match call
      case AddRequest(r, finalStage, finalOutputs, hasTokens) =>
        AdmitFlows(cfg, calls + [call], s, r, finalStage, finalOutputs, hasTokens);
      case AddCompanion(p, role, c) =>
        Unsourced(cfg, calls + [call], Registered(p, c));
      case Abort(reqs, order) =>
        AbortIsClean(s.tracker, order, reqs);
      case StageOutput(stage, out, inputs) =>
        if out.req in s.requests && stage < |cfg.stages| {
          if out.error {
            ErrorFlows(cfg, calls + [call], s, stage, out.req);
          } else if out.finished && out.req in s.tracker.companionIds {
            RouteOfCompanion(cfg, s, stage, out, inputs);
            CompanionFlows(cfg, calls, call, s, out, inputs);
          } else {
            OutputFlows(cfg, calls, s, stage, out, inputs);
          }
        }
      case KvReady(stage, out, inputs) =>
        if !cfg.asyncChunk && out.req in s.requests {
          if out.req in s.tracker.companionIds {
            StashStill(cfg, calls, call, s);
            ReadyFlows(cfg, calls, call, s, out.req, inputs);
          } else {
            KvFlows(cfg, calls, s, stage, out, inputs);
          }
        }
    }
    FlowStep(cfg, calls, call, s, s1);
  }

  lemma Unsourced(cfg: Config, calls: seq<Call>, e: Event)
    requires !e.Submitted?
    ensures Sourced(cfg, calls, e)
  {
  }

  lemma ErrorFlows(cfg: Config, calls: seq<Call>, s: Sys, stage: nat, r: ReqId)
    ensures Flows(cfg, calls, s, StageError(s, stage, r))
  {
    hide RoleMap, Ids, Produced, Answered;
  }

  // ---- whole runs ------------------------------------------------------------------------------

  lemma {:induction false} RunFlows(cfg: Config, past: seq<Call>, s: Sys, calls: seq<Call>)
    requires Inv(cfg, s) && RunOk(cfg, s, calls) && FlowInv(cfg, past, s)
    ensures FlowInv(cfg, past + calls, Run(cfg, s, calls))
    decreases |calls|
  {
    hide Step, CallOk, Inv, FlowInv;
    if calls == [] {
      assert past + calls == past;
    } else {
      StepKeeps(cfg, s, calls[0]);
      StepFlows(cfg, past, s, calls[0]);
      RunFlows(cfg, past + [calls[0]], Step(cfg, s, calls[0]), calls[1..]);
      assert past + [calls[0]] + calls[1..] == past + calls;
    }
  }

  /** In every run, every submission to a later stage carries first an output that a call of the
      run brought from the stage before, for the same request, whether it was forwarded at once
      or held for companions; in front of any stage but diffusion it carries nothing else, and
      there only finished outputs that calls of the run brought. */
  lemma SubmissionsAreSourced(cfg: Config, calls: seq<Call>, e: Event)
    requires RunOk(cfg, Init(), calls) && e in Run(cfg, Init(), calls).log
    ensures Sourced(cfg, calls, e)
  {
    hide Sourced, Run, RunOk;
    InitOk(cfg);
    assert FlowInv(cfg, [], Init());
    RunFlows(cfg, [], Init(), calls);
    assert [] + calls == calls;
  }
}
