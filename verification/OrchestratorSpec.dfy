/** Request progression over stages, one handler call per step, as functions on values. */
module OrchestratorSpec {
  import opened CfgTracker

  datatype Stage = Stage(diffusion: bool, finalOutput: bool)

  datatype Config = Config(stages: seq<Stage>, asyncChunk: bool, pdPair: Option<(nat, nat)>)

  /** `submitted` are the keys of stage_submit_ts. */
  datatype Request = Request(finalStage: nat, finalOutputs: set<nat>, finishedOutputs: set<nat>, submitted: set<nat>)

  /** What the orchestrator makes visible: admissions, submissions to stage pools with the
      source outputs bundled for them and the companion ids named in their sampling
      parameters, and messages to the frontend. */
  datatype Event =
    | Admitted(req: ReqId)
    | Registered(parent: ReqId, companion: ReqId)
    | Submitted(req: ReqId, stage: nat, sources: seq<Output>, companions: seq<ReqId>)
    | OutputMessage(req: ReqId, stage: nat, finished: bool)
    | MetricsMessage(req: ReqId, stage: nat)
    | ErrorMessage(req: ReqId, stage: nat)

  /** `pdKv` maps a request to whether its captured prefill parameters name a remote
      request.  `crashed` is an exception that ends the orchestrator. */
  datatype Sys = Sys(requests: map<ReqId, Request>, pdKv: map<ReqId, bool>, tracker: Tracker, log: seq<Event>, crashed: bool)

  /** Handler calls.  `inputs` is how many next-stage inputs the stage's input processor
      yields if the call forwards. */
  datatype Call =
    | AddRequest(req: ReqId, finalStage: nat, finalOutputs: set<nat>, hasTokens: bool)
    | AddCompanion(parent: ReqId, role: Role, companion: ReqId)
    | Abort(reqs: seq<ReqId>, order: seq<ReqId>)
    | StageOutput(stage: nat, output: Output, inputs: nat)
    | KvReady(stage: nat, output: Output, inputs: nat)

  function Init(): Sys {
    Sys(map[], map[], Tracker(map[], {}, map[], map[], map[], map[]), [], false)
  }

  function Emit(s: Sys, e: Event): Sys {
    s.(log := s.log + [e])
  }

  // ---- cleanup -------------------------------------------------------------------

  function CleanupIds(s: Sys, ids: set<ReqId>): Sys {
    s.(requests := s.requests - ids, pdKv := s.pdKv - ids)
  }

  /** Drop a request together with everything tracked for it. */
  function FinishRequest(s: Sys, r: ReqId): Sys {
    var (t, ids) := CleanupParent(s.tracker, r);
    CleanupIds(s.(tracker := t), {r} + Members(ids))
  }

  // ---- forwarding ------------------------------------------------------------------

  function MarkSubmitted(s: Sys, r: ReqId, stage: nat): Sys
    requires r in s.requests
  {
    s.(requests := s.requests[r := s.requests[r].(submitted := s.requests[r].submitted + {stage})])
  }

  function NextSubmitted(s: Sys, r: ReqId, stage: nat): bool
    requires r in s.requests
  {
    stage + 1 in s.requests[r].submitted
  }

  function Submit(s: Sys, r: ReqId, stage: nat, sources: seq<Output>, companions: seq<ReqId>): Sys
    requires r in s.requests
  {
    MarkSubmitted(Emit(s, Submitted(r, stage, sources, companions)), r, stage)
  }

  /** End the request with a message although its final stage never ran. */
  function TerminateEarly(s: Sys, r: ReqId, stage: nat): Sys {
    FinishRequest(Emit(s, OutputMessage(r, stage, true)), r)
  }

  /** _forward_to_next_stage. */
  function Forward(cfg: Config, s: Sys, r: ReqId, src: nat, out: Output, inputs: nat): Sys
    requires r in s.requests && src + 1 < |cfg.stages|
  {
    var next := src + 1;
    if cfg.stages[next].diffusion then
      var (t, popped) := PopOutputs(s.tracker, r);
      var s1 := s.(tracker := t);
      if inputs == 0 then TerminateEarly(s1, r, next) else Submit(s1, r, next, [out] + popped, Ids(RoleMap(s.tracker, r)))
    else if cfg.pdPair == Some((src, next)) then
      var s1 := s.(pdKv := s.pdKv - {r});
      if r !in s.pdKv || !s.pdKv[r] then s1.(crashed := true) else Submit(s1, r, next, [out], [])
    else if inputs == 0 then
      if !out.finished then s else TerminateEarly(MarkSubmitted(s, r, s.requests[r].finalStage), r, s.requests[r].finalStage)
    else Submit(s, r, next, [out], [])
  }

  /** Forward now, or hold the parent until its companions are done. */
  function ForwardOrDefer(cfg: Config, s: Sys, r: ReqId, src: nat, out: Output, inputs: nat): Sys
    requires r in s.requests && src + 1 < |cfg.stages|
  {
    if r in s.tracker.companions && !AllDone(s.tracker, r) then s.(tracker := Defer(s.tracker, r, Deferred(out, src)))
    else Forward(cfg, s, r, src, out, inputs)
  }

  /** _handle_cfg_companion_ready. */
  function CompanionReady(cfg: Config, s: Sys, c: ReqId, inputs: nat): Sys {
    var (t, done) := OnCompleted(s.tracker, c);
    var s1 := s.(tracker := t);
    match done
    case AssertionFailed => s1.(crashed := true)
    case Release(p) =>
      if p !in t.pending then s1
      else
        var d := t.pending[p];
        var s2 := s1.(tracker := t.(pending := t.pending - {p}));
        if p !in s2.requests || d.stage + 1 in s2.requests[p].submitted then s2
        else if d.stage + 1 >= |cfg.stages| then s2.(crashed := true)
        else Forward(cfg, s2, p, d.stage, d.output, inputs)
    case _ => s1
  }

  // ---- routing -----------------------------------------------------------------------

  function WantedOutputs(q: Request): set<nat> {
    if q.finalOutputs == {} then {q.finalStage} else q.finalOutputs
  }

  /** Frontend messages for a parent's output, and whether it completes the request. */
  function Announce(cfg: Config, s: Sys, stage: nat, out: Output): (Sys, bool)
    requires out.req in s.requests && stage < |cfg.stages|
  {
    var q := s.requests[out.req];
    if !cfg.stages[stage].finalOutput then
      (if out.finished then Emit(s, MetricsMessage(out.req, stage)) else s, false)
    else
      var q1 := if out.finished then q.(finishedOutputs := q.finishedOutputs + {stage}) else q;
      var complete := out.finished && WantedOutputs(q1) <= q1.finishedOutputs;
      (Emit(s.(requests := s.requests[out.req := q1]), OutputMessage(out.req, stage, complete)), complete)
  }

  function CapturePrefill(cfg: Config, s: Sys, stage: nat, out: Output): Sys {
    if cfg.pdPair.Some? && out.finished && stage == cfg.pdPair.value.0 && out.kv.Some?
    then s.(pdKv := s.pdKv[out.req := out.kv.value]) else s
  }

  function RouteCompanion(cfg: Config, s: Sys, out: Output, inputs: nat): Sys {
    var s1 := s.(tracker := s.tracker.(outputs := s.tracker.outputs[out.req := out]));
    var s2 := CompanionReady(cfg, s1, out.req, inputs);
    if s2.crashed then s2 else CleanupIds(s2, {out.req})
  }

  predicate ShouldForward(cfg: Config, s: Sys, stage: nat, out: Output)
    requires out.req in s.requests
  {
    && out.finished
    && stage < s.requests[out.req].finalStage
    && !cfg.asyncChunk
    && !NextSubmitted(s, out.req, stage)
  }

  /** _route_output. */
  function Route(cfg: Config, s: Sys, stage: nat, out: Output, inputs: nat): Sys
    requires out.req in s.requests && stage < |cfg.stages|
  {
    if out.finished && out.req in s.tracker.companionIds then RouteCompanion(cfg, s, out, inputs)
    else
      var (s1, complete) := Announce(cfg, s, stage, out);
      var s2 := CapturePrefill(cfg, s1, stage, out);
      var s3 := if !ShouldForward(cfg, s2, stage, out) then s2
                else if stage + 1 >= |cfg.stages| then s2.(crashed := true)
                else ForwardOrDefer(cfg, s2, out.req, stage, out, inputs);
      if complete && !s3.crashed then FinishRequest(s3, out.req) else s3
  }

  /** _handle_stage_error. */
  function StageError(s: Sys, stage: nat, r: ReqId): Sys {
    var p := if r in s.tracker.companionIds && r in s.tracker.parentOf then s.tracker.parentOf[r] else r;
    FinishRequest(Emit(s, ErrorMessage(p, stage)), p)
  }

  // ---- one handler call -----------------------------------------------------------------

  /** {0, .., n - 1}. */
  function Below(n: nat): (b: set<nat>)
    ensures forall k: nat :: k in b <==> k < n
  {
    if n == 0 then {} else Below(n - 1) + {n - 1}
  }

  /** Prewarm submits stages lo.. hi-1 at admission. */
  function Prewarm(log: seq<Event>, r: ReqId, lo: nat, hi: nat): seq<Event>
    decreases hi - lo
  {
    if lo >= hi then log else Prewarm(log + [Submitted(r, lo, [], [])], r, lo + 1, hi)
  }

  function Admit(cfg: Config, s: Sys, r: ReqId, finalStage: nat, finalOutputs: set<nat>, hasTokens: bool): Sys {
    var wanted := if finalOutputs == {} then {finalStage} else finalOutputs;
    var top := if cfg.asyncChunk && hasTokens then finalStage + 1 else 1;
    var s1 := Emit(s, Admitted(r));
    s1.(requests := s1.requests[r := Request(finalStage, wanted, {}, Below(top))],
        log := Prewarm(s1.log, r, 1, top))
  }

  function Step(cfg: Config, s: Sys, call: Call): Sys {
    if s.crashed then s else
    match call
    case AddRequest(r, finalStage, finalOutputs, hasTokens) => Admit(cfg, s, r, finalStage, finalOutputs, hasTokens)
    case AddCompanion(p, role, c) =>
      if p !in s.requests then s
      else
        var s1 := Emit(s.(tracker := RegisterCompanion(s.tracker, p, role, c)), Registered(p, c));
        s1.(requests := s1.requests[c := Request(0, {0}, {}, {0})])
    case Abort(reqs, order) =>
      var (t, all) := AbortParents(s.tracker, order, reqs);
      CleanupIds(s.(tracker := t), Members(all))
    case StageOutput(stage, out, inputs) =>
      if out.req !in s.requests || stage >= |cfg.stages| then s
      else if out.error then StageError(s, stage, out.req)
      else Route(cfg, s, stage, out, inputs)
    case KvReady(stage, out, inputs) =>
      if cfg.asyncChunk || out.req !in s.requests then s
      else if out.req in s.tracker.companionIds then CompanionReady(cfg, s, out.req, inputs)
      else if stage >= s.requests[out.req].finalStage || NextSubmitted(s, out.req, stage) then s
      else if stage + 1 >= |cfg.stages| then s.(crashed := true)
      else ForwardOrDefer(cfg, s, out.req, stage, out, inputs)
  }

  function Run(cfg: Config, s: Sys, calls: seq<Call>): Sys
    decreases |calls|
  {
    if calls == [] then s else Run(cfg, Step(cfg, s, calls[0]), calls[1..])
  }
}
