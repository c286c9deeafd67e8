/** The orchestrator object: its handlers change the request map, the captured prefill
    parameters, the tracker and the output trace in place, and each is one step of the
    state machine in OrchestratorSpec. */
module Orchestrator {
  import opened CfgTracker
  import opened OrchestratorSpec
  import opened OrchestratorRuns
  import Safety = OrchestratorSafety

  lemma MembersSplit(ids: seq<ReqId>, i: nat)
    requires i < |ids|
    ensures Members(ids[..i + 1]) == Members(ids[..i]) + {ids[i]}
  {
  }

  class Orchestrator {
    const cfg: Config
    const tracker: CfgCompanionTracker
    var requests: map<ReqId, Request>
    var pdKv: map<ReqId, bool>
    var log: seq<Event>
    var crashed: bool

    function State(): Sys
      reads this, tracker
    {
      Sys(requests, pdKv, tracker.State(), log, crashed)
    }

    constructor (cfg: Config)
      ensures this.cfg == cfg && fresh(tracker)
      ensures State() == Init()
    {
      this.cfg := cfg;
      tracker := new CfgCompanionTracker();
      requests, pdKv, log, crashed := map[], map[], [], false;
    }

    method Put(e: Event)
      modifies this`log
      ensures State() == Emit(old(State()), e)
    {
      log := log + [e];
    }

    /** Release every id; ids that are not live are skipped. */
    method CleanupRequestIds(ids: seq<ReqId>)
      modifies this`requests, this`pdKv
      ensures State() == CleanupIds(old(State()), Members(ids))
    {
      for i := 0 to |ids|
        invariant requests == old(requests) - Members(ids[..i])
        invariant pdKv == old(pdKv) - Members(ids[..i])
      {
        MembersSplit(ids, i);
        pdKv := pdKv - {ids[i]};
        if ids[i] in requests {
          requests := requests - {ids[i]};
        } else {
          assert requests - {ids[i]} == requests;
        }
      }
      assert ids[..|ids|] == ids;
    }

    /** Drop a request and everything tracked for it. */
    method Finish(r: ReqId)
      modifies this`requests, this`pdKv, tracker
      ensures State() == FinishRequest(old(State()), r)
    {
      var ids := tracker.Cleanup(r);
      CleanupRequestIds([r] + ids);
      assert Members([r] + ids) == {r} + Members(ids);
    }

    method HandleAddRequest(r: ReqId, finalStage: nat, finalOutputs: set<nat>, hasTokens: bool)
      requires !crashed
      modifies this`requests, this`log
      ensures State() == Step(cfg, old(State()), AddRequest(r, finalStage, finalOutputs, hasTokens))
    {
      var wanted := if finalOutputs == {} then {finalStage} else finalOutputs;
      Put(Admitted(r));
      requests := requests[r := Request(finalStage, wanted, {}, {0})];
      assert Below(1) == {0};
      if cfg.asyncChunk && finalStage > 0 && hasTokens {
        ghost var log0 := log;
        for k := 1 to finalStage + 1
          invariant requests == old(requests)[r := Request(finalStage, wanted, {}, Below(k))]
          invariant Prewarm(log, r, k, finalStage + 1) == Prewarm(log0, r, 1, finalStage + 1)
        {
          requests := requests[r := requests[r].(submitted := requests[r].submitted + {k})];
          Put(Submitted(r, k, [], []));
        }
      }
    }

    method HandleAddCompanion(p: ReqId, role: Role, c: ReqId)
      requires !crashed
      modifies this`requests, this`log, tracker
      ensures State() == Step(cfg, old(State()), AddCompanion(p, role, c))
    {
      if p !in requests {
        return;
      }
      tracker.AddCompanion(p, role, c);
      Put(Registered(p, c));
      requests := requests[c := Request(0, {0}, {}, {0})];
    }

    method HandleAbort(reqs: seq<ReqId>) returns (ghost order: seq<ReqId>)
      requires !crashed
      modifies this`requests, this`pdKv, tracker
      ensures Safety.CallOk(cfg, old(State()), Abort(reqs, order))
      ensures State() == Step(cfg, old(State()), Abort(reqs, order))
    {
      var all;
      all, order := tracker.AbortAll(reqs);
      CleanupRequestIds(all);
    }

    method HandleStageError(stage: nat, r: ReqId)
      modifies this`requests, this`pdKv, this`log, tracker
      ensures State() == StageError(old(State()), stage, r)
    {
      var p := r;
      if r in tracker.companionIds && r in tracker.parentOf {
        p := tracker.parentOf[r];
      }
      Put(ErrorMessage(p, stage));
      Finish(p);
    }

    method Record(r: ReqId, stage: nat, sources: seq<Output>, companions: seq<ReqId>)
      requires r in requests
      modifies this`requests, this`log
      ensures State() == Submit(old(State()), r, stage, sources, companions)
    {
      Put(Submitted(r, stage, sources, companions));
      requests := requests[r := requests[r].(submitted := requests[r].submitted + {stage})];
    }

    method EndEarly(r: ReqId, stage: nat)
      modifies this`requests, this`pdKv, this`log, tracker
      ensures State() == TerminateEarly(old(State()), r, stage)
    {
      Put(OutputMessage(r, stage, true));
      Finish(r);
    }

    method ForwardToNextStage(r: ReqId, src: nat, out: Output, inputs: nat)
      requires r in requests && src + 1 < |cfg.stages|
      modifies this, tracker
      ensures State() == Forward(cfg, old(State()), r, src, out, inputs)
    {
      hide FinishRequest;
      var next := src + 1;
      if cfg.stages[next].diffusion {
        var popped := tracker.PopCompanionOutputs(r);
        if inputs == 0 {
          EndEarly(r, next);
        } else {
          Record(r, next, [out] + popped, Ids(RoleMap(tracker.State(), r)));
        }
      } else if cfg.pdPair == Some((src, next)) {
        var params := if r in pdKv then Some(pdKv[r]) else None;
        pdKv := pdKv - {r};
        if params.None? || !params.value {
          crashed := true;
          return;
        }
        Record(r, next, [out], []);
      } else if inputs == 0 {
        if !out.finished {
          return;
        }
        var final := requests[r].finalStage;
        requests := requests[r := requests[r].(submitted := requests[r].submitted + {final})];
        EndEarly(r, final);
      } else {
        Record(r, next, [out], []);
      }
    }

    method HandleForwardOrDefer(r: ReqId, src: nat, out: Output, inputs: nat)
      requires r in requests && src + 1 < |cfg.stages|
      modifies this, tracker
      ensures State() == ForwardOrDefer(cfg, old(State()), r, src, out, inputs)
    {
      if r in tracker.companions && !AllDone(tracker.State(), r) {
        tracker.DeferParent(r, out, src);
      } else {
        ForwardToNextStage(r, src, out, inputs);
      }
    }

    method HandleCompanionReady(c: ReqId, inputs: nat)
      modifies this, tracker
      ensures State() == CompanionReady(cfg, old(State()), c, inputs)
    {
      hide RolesDone, Forward;
      var done := tracker.OnCompanionCompleted(c);
      if done.AssertionFailed? {
        crashed := true;
        return;
      }
      if !done.Release? {
        return;
      }
      var p := done.parent;
      var d := tracker.PopPendingParent(p);
      if d.None? {
        return;
      }
      if p !in requests || d.value.stage + 1 in requests[p].submitted {
        return;
      }
      if d.value.stage + 1 >= |cfg.stages| {
        crashed := true;
        return;
      }
      ForwardToNextStage(p, d.value.stage, d.value.output, inputs);
    }

    method AnnounceOutput(stage: nat, out: Output) returns (complete: bool)
      requires out.req in requests && stage < |cfg.stages|
      modifies this`requests, this`log
      ensures (State(), complete) == Announce(cfg, old(State()), stage, out)
    {
      var r := out.req;
      complete := false;
      assert requests[r := requests[r]] == requests;
      if out.finished && cfg.stages[stage].finalOutput {
        requests := requests[r := requests[r].(finishedOutputs := requests[r].finishedOutputs + {stage})];
        complete := WantedOutputs(requests[r]) <= requests[r].finishedOutputs;
      }
      if cfg.stages[stage].finalOutput {
        Put(OutputMessage(r, stage, complete));
      } else if out.finished {
        Put(MetricsMessage(r, stage));
      }
    }

    method RouteOutput(stage: nat, out: Output, inputs: nat)
      requires out.req in requests && stage < |cfg.stages| && !crashed
      modifies this, tracker
      ensures State() == Route(cfg, old(State()), stage, out, inputs)
    {
      hide Announce, ForwardOrDefer, FinishRequest, CompanionReady;
      var r := out.req;
      if out.finished && r in tracker.companionIds {
        tracker.SetCompanionOutput(r, out);
        HandleCompanionReady(r, inputs);
        if !crashed {
          CleanupRequestIds([r]);
          assert Members([r]) == {r};
        }
        return;
      }
      ghost var s0 := State();
      var complete := AnnounceOutput(stage, out);
      StillLive(cfg, s0, stage, out);
      if cfg.pdPair.Some? && out.finished && stage == cfg.pdPair.value.0 && out.kv.Some? {
        pdKv := pdKv[r := out.kv.value];
      }
      if out.finished && stage < requests[r].finalStage && !cfg.asyncChunk && stage + 1 !in requests[r].submitted {
        if stage + 1 >= |cfg.stages| {
          crashed := true;
          return;
        }
        HandleForwardOrDefer(r, stage, out, inputs);
      }
      if complete && !crashed {
        Finish(r);
      }
    }

    /** Outputs of one stage poll; unknown requests are dropped. */
    method HandleProcessedOutputs(stage: nat, outs: seq<(Output, nat)>)
      requires stage < |cfg.stages| && !crashed
      modifies this, tracker
      ensures State() == Run(cfg, old(State()), OutputCalls(stage, outs))
    {
      hide Route, StageError;
      ghost var s0 := State();
      ghost var calls := OutputCalls(stage, outs);
      for i := 0 to |outs|
        invariant State() == Run(cfg, s0, calls[..i])
      {
        var (out, inputs) := outs[i];
        RunOne(cfg, s0, calls[..i], calls[i]);
        assert calls[..i + 1] == calls[..i] + [calls[i]];
        if crashed || out.req !in requests {
          continue;
        }
        if out.error {
          HandleStageError(stage, out.req);
        } else {
          RouteOutput(stage, out, inputs);
        }
      }
      assert calls[..|outs|] == calls;
    }

    /** Raw outputs that announce a ready kv cache. */
    method HandleKvReadyRawOutputs(stage: nat, outs: seq<(Output, nat)>)
      modifies this, tracker
      ensures State() == Run(cfg, old(State()), KvReadyCalls(stage, outs))
    {
      hide ForwardOrDefer, CompanionReady;
      ghost var s0 := State();
      ghost var calls := KvReadyCalls(stage, outs);
      for i := 0 to |outs|
        invariant State() == Run(cfg, s0, calls[..i])
      {
        var (out, inputs) := outs[i];
        RunOne(cfg, s0, calls[..i], calls[i]);
        assert calls[..i + 1] == calls[..i] + [calls[i]];
        if crashed || cfg.asyncChunk || out.req !in requests {
          continue;
        }
        if out.req in tracker.companionIds {
          HandleCompanionReady(out.req, inputs);
        } else if stage < requests[out.req].finalStage && stage + 1 !in requests[out.req].submitted {
          if stage + 1 >= |cfg.stages| {
            crashed := true;
          } else {
            HandleForwardOrDefer(out.req, stage, out, inputs);
          }
        }
      }
      assert calls[..|outs|] == calls;
    }
  }

  lemma StillLive(cfg: Config, s: Sys, stage: nat, out: Output)
    requires out.req in s.requests && stage < |cfg.stages|
    ensures out.req in Announce(cfg, s, stage, out).0.requests
  {
  }
}
