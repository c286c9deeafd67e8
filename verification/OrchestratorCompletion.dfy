/** When a client request is complete, over whole runs: it lives exactly as long as a wanted
    output is missing, unless it is aborted or ended with a message. */
module OrchestratorCompletion {
  import opened CfgTracker
  import opened OrchestratorSpec
  import opened OrchestratorSafety
  import opened OrchestratorBundle
  import opened OrchestratorMessages
  import opened OrchestratorRuns
  import FanIn = OrchestratorFanIn

  // ---- read off the calls --------------------------------------------------------------------

  /** The call brings r's finished output of final-output stage k. */
  predicate Brings(cfg: Config, call: Call, r: ReqId, k: nat) {
    && call.StageOutput? && call.stage == k && k < |cfg.stages| && cfg.stages[k].finalOutput
    && call.output.req == r && call.output.finished && !call.output.error
  }

  ghost predicate Brought(cfg: Config, calls: seq<Call>, r: ReqId, k: nat) {
    exists i :: 0 <= i < |calls| && Brings(cfg, calls[i], r, k)
  }

  /** The final-output stages whose finished output the calls bring. */
  ghost function DoneIn(cfg: Config, calls: seq<Call>, r: ReqId): set<nat> {
    set k: nat | k < |cfg.stages| && Brought(cfg, calls, r, k)
  }

  ghost function DoneBy(cfg: Config, call: Call, r: ReqId): set<nat> {
    set k: nat | k < |cfg.stages| && Brings(cfg, call, r, k)
  }

  lemma DoneSplit(cfg: Config, a: seq<Call>, b: seq<Call>, r: ReqId)
    ensures DoneIn(cfg, a + b, r) == DoneIn(cfg, a, r) + DoneIn(cfg, b, r)
  {
    hide Brings;
    forall k: nat
      ensures Brought(cfg, a + b, r, k) <==> Brought(cfg, a, r, k) || Brought(cfg, b, r, k)
    {
      if i :| 0 <= i < |a| && Brings(cfg, a[i], r, k) {
        assert (a + b)[i] == a[i];
      }
      if i :| 0 <= i < |b| && Brings(cfg, b[i], r, k) {
        assert (a + b)[|a| + i] == b[i];
      }
      if i :| 0 <= i < |a + b| && Brings(cfg, (a + b)[i], r, k) {
        assert if i < |a| then Brings(cfg, a[i], r, k) else Brings(cfg, b[i - |a|], r, k);
      }
    }
  }

  lemma DoneOne(cfg: Config, call: Call, r: ReqId)
    ensures DoneIn(cfg, [call], r) == DoneBy(cfg, call, r)
  {
    hide Brings;
    forall k: nat
      ensures Brought(cfg, [call], r, k) <==> Brings(cfg, call, r, k)
    {
      assert [call][0] == call;
    }
  }

  // ---- one call --------------------------------------------------------------------------------

  predicate Client(s: Sys, r: ReqId) {
    r in s.requests && r !in s.tracker.companionIds
  }

  /** A client that is live afterwards was so before, and its record is unchanged. */
  ghost predicate Unmarked(s: Sys, s1: Sys, r: ReqId) {
    Client(s, r) && r in s1.requests ==>
      && r !in s1.tracker.companionIds
      && s1.requests[r].finishedOutputs == s.requests[r].finishedOutputs
      && s1.requests[r].finalOutputs == s.requests[r].finalOutputs
  }

  /** A client that is gone afterwards got a terminal message. */
  ghost predicate Ended(s: Sys, s1: Sys, r: ReqId) {
    Client(s, r) && r !in s1.requests ==> Terminals(s1.log, r) > 0
  }

  lemma FinishUnmarked(s: Sys, x: ReqId, r: ReqId)
    requires TrackerOk(s.tracker)
    ensures Unmarked(s, FinishRequest(s, x), r)
    ensures Client(s, r) && r != x ==> r in FinishRequest(s, x).requests
    ensures FinishRequest(s, x).log == s.log
  {
    hide StashOk, WaitingOk;
    if Client(s, r) && r != x && x in s.tracker.companions {
      assert ParentOk(s.tracker.companions[x], s.tracker.done[x], s.tracker.companionIds, s.tracker.parentOf, x);
      forall i | 0 <= i < |RoleMap(s.tracker, x)|
        ensures RoleMap(s.tracker, x)[i].1 != r
      {
        assert RoleMap(s.tracker, x)[i].1 in s.tracker.parentOf;
      }
    }
  }

  lemma EndTells(s: Sys, x: ReqId, e: Event, r: ReqId)
    requires TrackerOk(s.tracker) && IsTerminal(e, x)
    ensures var s1 := FinishRequest(Emit(s, e), x); Unmarked(s, s1, r) && Ended(s, s1, r)
  {
    hide TrackerOk, IsTerminal, CleanupParent, Unmarked;
    FinishUnmarked(Emit(s, e), x, r);
    Appended(s.log, e, x);
    SameClient(s, Emit(s, e), FinishRequest(Emit(s, e), x), r);
  }

  lemma SameClient(s: Sys, t: Sys, s1: Sys, r: ReqId)
    requires s.requests == t.requests && s.tracker.companionIds == t.tracker.companionIds
    ensures Unmarked(t, s1, r) ==> Unmarked(s, s1, r)
    ensures Ended(t, s1, r) ==> Ended(s, s1, r)
  {
  }

  lemma ForwardUnmarked(cfg: Config, s: Sys, x: ReqId, src: nat, out: Output, inputs: nat, r: ReqId)
    requires TrackerOk(s.tracker) && x in s.requests && src + 1 < |cfg.stages|
    ensures var s1 := Forward(cfg, s, x, src, out, inputs); Unmarked(s, s1, r) && Ended(s, s1, r)
  {
    hide TrackerOk, FinishRequest, Collect, Ids, RoleMap, Terminals;
    var popped := s.(tracker := PopOutputs(s.tracker, x).0);
    PoppedOk(s.tracker, x);
    EndTells(popped, x, OutputMessage(x, src + 1, true), r);
    SameClient(s, popped, TerminateEarly(popped, x, src + 1), r);
    var last := s.requests[x].finalStage;
    var m := MarkSubmitted(s, x, last);
    EndTells(m, x, OutputMessage(x, last, true), r);
  }

  lemma PoppedOk(t: Tracker, x: ReqId)
    requires TrackerOk(t)
    ensures TrackerOk(PopOutputs(t, x).0)
  {
  }

  lemma ForwardOrDeferUnmarked(cfg: Config, s: Sys, x: ReqId, src: nat, out: Output, inputs: nat, r: ReqId)
    requires TrackerOk(s.tracker) && x in s.requests && src + 1 < |cfg.stages|
    ensures var s1 := ForwardOrDefer(cfg, s, x, src, out, inputs); Unmarked(s, s1, r) && Ended(s, s1, r)
  {
    hide TrackerOk, Forward, AllDone, Terminals;
    ForwardUnmarked(cfg, s, x, src, out, inputs, r);
  }

  lemma ReadyUnmarked(cfg: Config, s: Sys, c: ReqId, inputs: nat, r: ReqId)
    requires Inv(cfg, s)
    ensures var s1 := CompanionReady(cfg, s, c, inputs); Unmarked(s, s1, r) && Ended(s, s1, r)
  {
    hide LogOk, LinksOk, TrackerOk, RolesDone, Forward, Terminals;
    CompletedKeeps(s.tracker, c);
    var (t, done) := OnCompleted(s.tracker, c);
    if done.Release? {
      var p := done.parent;
      var d := t.pending[p];
      var s2 := s.(tracker := t.(pending := t.pending - {p}));
      TrackerOnly(cfg, s, s2.tracker);
      InvParts(cfg, s2);
      ReleasedForwardable(cfg, s, p);
      if d.stage + 1 !in s2.requests[p].submitted {
        ForwardUnmarked(cfg, s2, p, d.stage, d.output, inputs, r);
        SameClient(s, s2, CompanionReady(cfg, s, c, inputs), r);
      }
    }
  }

  lemma InvParts(cfg: Config, s: Sys)
    requires Inv(cfg, s)
    ensures TrackerOk(s.tracker)
  {
  }

  lemma CompanionUnmarked(cfg: Config, s: Sys, out: Output, inputs: nat, r: ReqId)
    requires Inv(cfg, s) && out.req in s.tracker.companionIds && out.finished
    ensures var s1 := RouteCompanion(cfg, s, out, inputs); Unmarked(s, s1, r) && Ended(s, s1, r)
  {
    hide LogOk, LinksOk, TrackerOk, CompanionReady, Terminals;
    var s1 := s.(tracker := s.tracker.(outputs := s.tracker.outputs[out.req := out]));
    StashParts(s);
    OutputsOnly(cfg, s, s1.tracker.outputs);
    ReadyUnmarked(cfg, s1, out.req, inputs, r);
    SameClient(s, s1, CompanionReady(cfg, s1, out.req, inputs), r);
  }

  /** How a client's own output changes its record. */
  ghost predicate MarkedBy(cfg: Config, s: Sys, s1: Sys, call: Call, r: ReqId) {
    Client(s, r) && r in s1.requests ==>
      && r !in s1.tracker.companionIds
      && s1.requests[r].finalOutputs == s.requests[r].finalOutputs
      && s1.requests[r].finishedOutputs == s.requests[r].finishedOutputs + DoneBy(cfg, call, r)
      && (DoneBy(cfg, call, r) != {} ==> !(s.requests[r].finalOutputs <= s1.requests[r].finishedOutputs))
  }

  lemma OutputMarks(cfg: Config, s: Sys, stage: nat, out: Output, inputs: nat, r: ReqId)
    requires Inv(cfg, s) && !s.crashed && out.req in s.requests && stage < |cfg.stages| && stage in s.requests[out.req].submitted
    requires !out.error && (out.finished ==> out.req !in s.tracker.companionIds)
    ensures var s1 := Route(cfg, s, stage, out, inputs);
            MarkedBy(cfg, s, s1, StageOutput(stage, out, inputs), r) && Ended(s, s1, r)
  {
    hide TrackerOk, LogOk, LinksOk, Announce, ForwardOrDefer, RolesDone, RequestOk, CleanupParent, Terminals, FinishRequest;
    var x, q := out.req, s.requests[out.req];
    var call := StageOutput(stage, out, inputs);
    RequestIsOk(cfg, s, x);
    InvParts(cfg, s);
    StageInRange(cfg, q, stage);
    var (s1, complete) := Announce(cfg, s, stage, out);
    AnnounceTells(cfg, s, stage, out);
    var m := OrchestratorSafety.Marked(cfg, s, stage, out);
    MarkedKeeps(cfg, s, stage, out);
    RequestIsOk(cfg, m, x);
    var s2 := CapturePrefill(cfg, s1, stage, out);
    var end := Route(cfg, s, stage, out, inputs);
    assert DoneBy(cfg, call, r) == if r == x && cfg.stages[stage].finalOutput && out.finished then {stage} else {};
    if complete {
      CompleteHasNoNext(cfg, m.requests[x], stage);
      FinishUnmarked(s2, x, r);
      assert end == FinishRequest(s2, x);
      GoneAfterFinish(s2, x);
      Appended(s.log, OutputMessage(x, stage, true), x);
    } else if out.finished && Due(cfg, q, stage) {
      ForwardOrDeferUnmarked(cfg, s2, x, stage, out, inputs, r);
      assert end == ForwardOrDefer(cfg, s2, x, stage, out, inputs);
    } else {
      assert end == s2;
    }
  }

  lemma GoneAfterFinish(s: Sys, x: ReqId)
    ensures x !in FinishRequest(s, x).requests
  {
  }

  lemma UnmarkedMarks(cfg: Config, s: Sys, s1: Sys, call: Call, r: ReqId)
    requires Unmarked(s, s1, r) && DoneBy(cfg, call, r) == {}
    ensures MarkedBy(cfg, s, s1, call, r)
  {
  }

  /** The call aborts the request. */
  predicate Aborts(call: Call, r: ReqId) {
    call.Abort? && r in call.reqs
  }

  /** One call: a client's record gains exactly the final-output stage whose finished output the
      call brings, and then still misses a wanted one; a client leaves only by an abort naming
      it or with a terminal message. */
  lemma StepMarks(cfg: Config, s: Sys, call: Call, r: ReqId)
    requires Inv(cfg, s) && CallOk(cfg, s, call) && !s.crashed
    ensures MarkedBy(cfg, s, Step(cfg, s, call), call, r)
    ensures Aborts(call, r) || Ended(s, Step(cfg, s, call), r)
  {
    hide TrackerOk, LogOk, LinksOk, Route, RouteCompanion, CompanionReady, ForwardOrDefer, StageError, Admit, Known, Terminals, PutRole, AbortParents;
    var s1 := Step(cfg, s, call);
    InvParts(cfg, s);
    match call
    case AddRequest(q, finalStage, finalOutputs, hasTokens) =>
      FreshId(cfg, s, q);
      AdmissionTells(cfg, s, q, finalStage, finalOutputs, hasTokens);
      AdmitOthers(cfg, s, q, finalStage, finalOutputs, hasTokens, r);
      UnmarkedMarks(cfg, s, s1, call, r);
    case AddCompanion(p, role, c) =>
      FreshId(cfg, s, c);
      assert Unmarked(s, s1, r);
      UnmarkedMarks(cfg, s, s1, call, r);
    case Abort(reqs, order) =>
      AbortMarks(cfg, s, reqs, order, r);
      UnmarkedMarks(cfg, s, s1, call, r);
    case StageOutput(stage, out, inputs) =>
      if out.req !in s.requests || stage >= |cfg.stages| {
        NothingDone(cfg, s, call, r);
      } else if out.error {
        ErrorMarks(cfg, s, stage, out.req, r);
        UnmarkedMarks(cfg, s, s1, call, r);
      } else if out.finished && out.req in s.tracker.companionIds {
        CompanionUnmarked(cfg, s, out, inputs, r);
        RouteOfCompanion(cfg, s, stage, out, inputs);
        NothingDone(cfg, s, call, r);
      } else {
        OutputMarks(cfg, s, stage, out, inputs, r);
      }
    case KvReady(stage, out, inputs) =>
      if !cfg.asyncChunk && out.req in s.requests {
        if out.req in s.tracker.companionIds {
          ReadyUnmarked(cfg, s, out.req, inputs, r);
        } else if stage < s.requests[out.req].finalStage && !NextSubmitted(s, out.req, stage) {
          RequestIsOk(cfg, s, out.req);
          ForwardOrDeferUnmarked(cfg, s, out.req, stage, out, inputs, r);
        }
      }
      UnmarkedMarks(cfg, s, s1, call, r);
  }

  lemma NothingDone(cfg: Config, s: Sys, call: Call, r: ReqId)
    requires call.StageOutput? && (Client(s, r) ==> call.output.req != r || call.stage >= |cfg.stages|)
    ensures Client(s, r) ==> DoneBy(cfg, call, r) == {}
  {
  }

  lemma AdmitOthers(cfg: Config, s: Sys, q: ReqId, finalStage: nat, finalOutputs: set<nat>, hasTokens: bool, r: ReqId)
    ensures r != q ==> var s1 := Admit(cfg, s, q, finalStage, finalOutputs, hasTokens);
                       (r in s1.requests <==> r in s.requests) && (r in s.requests ==> s1.requests[r] == s.requests[r])
  {
  }

  lemma AbortMarks(cfg: Config, s: Sys, reqs: seq<ReqId>, order: seq<ReqId>, r: ReqId)
    requires Inv(cfg, s) && CallOk(cfg, s, Abort(reqs, order)) && !s.crashed
    ensures var s1 := Step(cfg, s, Abort(reqs, order));
            Unmarked(s, s1, r) && (Client(s, r) && r !in s1.requests ==> r in reqs)
  {
    hide LogOk, LinksOk, TrackerOk;
    AbortIsClean(s.tracker, order, reqs);
    InvIndex(s.tracker);
    InvParts(cfg, s);
  }

  lemma InvIndex(t: Tracker)
    ensures TrackerOk(t) ==> t.companionIds == t.parentOf.Keys
  {
  }

  lemma ErrorMarks(cfg: Config, s: Sys, stage: nat, x: ReqId, r: ReqId)
    requires Inv(cfg, s)
    ensures var s1 := StageError(s, stage, x); Unmarked(s, s1, r) && Ended(s, s1, r)
  {
    hide LogOk, LinksOk, TrackerOk, FinishRequest, Terminals;
    var p := if x in s.tracker.companionIds && x in s.tracker.parentOf then s.tracker.parentOf[x] else x;
    InvParts(cfg, s);
    EndTells(s, p, ErrorMessage(p, stage), r);
  }

  // ---- whole runs --------------------------------------------------------------------------------

  lemma {:induction false} CrashStays(cfg: Config, s: Sys, calls: seq<Call>)
    requires s.crashed
    ensures Run(cfg, s, calls) == s
    decreases |calls|
  {
    if calls == [] {
    } else {
      CrashStays(cfg, s, calls[1..]);
    }
  }

  /** An id that is known and gone does not come back. */
  lemma {:induction false} GoneStaysGone(cfg: Config, s: Sys, calls: seq<Call>, r: ReqId)
    requires Inv(cfg, s) && RunOk(cfg, s, calls) && r in Known(s.log) && r !in s.requests
    ensures r !in Run(cfg, s, calls).requests && Terminals(s.log, r) <= Terminals(Run(cfg, s, calls).log, r)
    decreases |calls|
  {
    hide Step, Known, CallOk, Inv, Terminals;
    if calls == [] {
    } else {
      var s1 := Step(cfg, s, calls[0]);
      StepKeeps(cfg, s, calls[0]);
      NoReturn(cfg, s, calls[0], r);
      GoneStaysGone(cfg, s1, calls[1..], r);
    }
  }

  lemma NoReturn(cfg: Config, s: Sys, call: Call, r: ReqId)
    requires Inv(cfg, s) && CallOk(cfg, s, call) && r in Known(s.log) && r !in s.requests
    ensures var s1 := Step(cfg, s, call);
            r !in s1.requests && r in Known(s1.log) && Terminals(s.log, r) <= Terminals(s1.log, r)
  {
    hide Step, Known, Terminals, Inv;
    var s1 := Step(cfg, s, call);
    FanIn.StepExtends(cfg, s, call);
    FanIn.KnownGrows(s.log, s1.log);
    TerminalsGrow(s.log, s1.log, r);
  }

  lemma {:induction false} TerminalsGrow(a: seq<Event>, b: seq<Event>, r: ReqId)
    requires a <= b
    ensures Terminals(a, r) <= Terminals(b, r)
  {
    if a == b {
    } else {
      assert a <= b[..|b| - 1];
      TerminalsGrow(a, b[..|b| - 1], r);
    }
  }

  lemma InvKnown(cfg: Config, s: Sys, r: ReqId)
    requires Inv(cfg, s) && r in s.requests
    ensures r in Known(s.log)
  {
  }

  lemma NoneDone(cfg: Config, r: ReqId)
    ensures DoneIn(cfg, [], r) == {}
  {
  }

  /** A client's record over a run: it gains the stages whose finished output the calls bring and
      still misses a wanted one; or the client is gone, aborted by name or with a message. */
  lemma {:induction false} ClientRun(cfg: Config, s: Sys, calls: seq<Call>, r: ReqId)
    requires Inv(cfg, s) && RunOk(cfg, s, calls) && Client(s, r) && !Run(cfg, s, calls).crashed
    requires !(s.requests[r].finalOutputs <= s.requests[r].finishedOutputs)
    ensures var end := Run(cfg, s, calls);
            if r in end.requests then
              && r !in end.tracker.companionIds
              && end.requests[r].finalOutputs == s.requests[r].finalOutputs
              && end.requests[r].finishedOutputs == s.requests[r].finishedOutputs + DoneIn(cfg, calls, r)
              && !(end.requests[r].finalOutputs <= end.requests[r].finishedOutputs)
            else Terminals(end.log, r) > 0 || exists i :: 0 <= i < |calls| && Aborts(calls[i], r)
    decreases |calls|
  {
    hide Step, Known, CallOk, Inv, Terminals, DoneIn, DoneBy, Aborts;
    if calls == [] {
      NoneDone(cfg, r);
    } else {
      var call := calls[0];
      var s1 := Step(cfg, s, call);
      var end := Run(cfg, s1, calls[1..]);
      if s.crashed {
        CrashStays(cfg, s, calls);
      }
      StepKeeps(cfg, s, call);
      StepMarks(cfg, s, call, r);
      assert calls == [call] + calls[1..];
      DoneSplit(cfg, [call], calls[1..], r);
      DoneOne(cfg, call, r);
      if r in s1.requests {
        ClientRun(cfg, s1, calls[1..], r);
        if i :| 0 <= i < |calls[1..]| && Aborts(calls[1..][i], r) {
          assert calls[i + 1] == calls[1..][i];
        }
      } else {
        InvKnown(cfg, s, r);
        FanIn.StepExtends(cfg, s, call);
        FanIn.KnownGrows(s.log, s1.log);
        GoneStaysGone(cfg, s1, calls[1..], r);
        if Aborts(call, r) {
          assert Aborts(calls[0], r);
        }
      }
    }
  }

  /** The client's record right after its admission. */
  lemma AdmittedClient(cfg: Config, s: Sys, add: Call)
    requires Inv(cfg, s) && !s.crashed && add.AddRequest? && CallOk(cfg, s, add)
    ensures var s1 := Step(cfg, s, add);
            && Inv(cfg, s1) && !s1.crashed && Client(s1, add.req) && s1.requests[add.req].finishedOutputs == {}
            && s1.requests[add.req].finalOutputs == Wanted(add) && Wanted(add) != {}
  {
    hide Known, Prewarm, Below;
    StepKeeps(cfg, s, add);
    FreshId(cfg, s, add.req);
    AdmissionTells(cfg, s, add.req, add.finalStage, add.finalOutputs, add.hasTokens);
  }

  /** The outputs a request wants, by its admission. */
  function Wanted(add: Call): set<nat>
    requires add.AddRequest?
  {
    if add.finalOutputs == {} then {add.finalStage} else add.finalOutputs
  }

  /** In every run a live client request has exactly the final-output stages marked whose
      finished output was brought since its admission, and misses a wanted one.  A client that
      is gone was aborted by name or got a terminal message; none is dropped silently. */
  lemma LiveMissesOutput(cfg: Config, before: seq<Call>, add: Call, after: seq<Call>)
    requires RunOk(cfg, Init(), before) && add.AddRequest? && CallOk(cfg, Run(cfg, Init(), before), add)
    requires RunOk(cfg, Step(cfg, Run(cfg, Init(), before), add), after)
    requires !Run(cfg, Step(cfg, Run(cfg, Init(), before), add), after).crashed
    ensures var r, end := add.req, Run(cfg, Step(cfg, Run(cfg, Init(), before), add), after);
            if r in end.requests then
              Client(end, r) && end.requests[r].finalOutputs == Wanted(add) && end.requests[r].finishedOutputs == DoneIn(cfg, after, r)
              && !(Wanted(add) <= DoneIn(cfg, after, r))
            else Terminals(end.log, r) == 1 || exists i :: 0 <= i < |after| && Aborts(after[i], r)
  {
    hide Step, Known, CallOk, Inv, Terminals, DoneIn, Aborts, Run;
    var s := Run(cfg, Init(), before);
    InitOk(cfg);
    RunKeeps(cfg, Init(), before);
    NotCrashedBefore(cfg, s, add, after);
    AdmittedClient(cfg, s, add);
    var s1 := Step(cfg, s, add);
    ClientRun(cfg, s1, after, add.req);
    assert {} + DoneIn(cfg, after, add.req) == DoneIn(cfg, after, add.req);
    RunKeeps(cfg, s1, after);
    OneTerminal(cfg, Run(cfg, s1, after), add.req);
  }

  lemma NotCrashedBefore(cfg: Config, s: Sys, add: Call, after: seq<Call>)
    ensures s.crashed ==> Run(cfg, Step(cfg, s, add), after).crashed
  {
    if s.crashed {
      CrashStays(cfg, s, after);
    }
  }

  lemma OneTerminal(cfg: Config, s: Sys, r: ReqId)
    requires Inv(cfg, s)
    ensures Terminals(s.log, r) <= 1
  {
    assert TraceOk(s, r);
  }

  /** The call that brings an output of a final-output stage to a live client is answered by
      exactly one message of that stage, marked as the last if and only if every wanted output
      has now been brought.  The request is then gone; otherwise it goes only if its forward ends
      it early, with a message of a later stage. */
  lemma LastOutputCompletes(cfg: Config, before: seq<Call>, add: Call, after: seq<Call>, stage: nat, out: Output, inputs: nat)
    requires RunOk(cfg, Init(), before) && add.AddRequest? && CallOk(cfg, Run(cfg, Init(), before), add)
    requires RunOk(cfg, Step(cfg, Run(cfg, Init(), before), add), after)
    requires var s := Run(cfg, Step(cfg, Run(cfg, Init(), before), add), after);
             && !s.crashed && add.req in s.requests && out.req == add.req && !out.error
             && CallOk(cfg, s, StageOutput(stage, out, inputs)) && stage < |cfg.stages| && cfg.stages[stage].finalOutput
    ensures var call, r := StageOutput(stage, out, inputs), add.req;
            var s := Run(cfg, Step(cfg, Run(cfg, Init(), before), add), after);
            var s1 := Step(cfg, s, call);
            var done := Wanted(add) <= DoneIn(cfg, after + [call], r);
            exists more: seq<Event> ::
              && s1.log == s.log + [OutputMessage(r, stage, done)] + more
              && (done ==> more == [] && r !in s1.requests)
              && (!done && r !in s1.requests ==> s1.crashed || (|more| == 1 && more[0].OutputMessage?))
              && forall e | e in more && e.OutputMessage? :: e.req == r && e.stage != stage && e.finished
  {
    hide Known, CallOk, Inv, Terminals, DoneIn, Aborts, Run, Announced, Route, Awaits;
    var call, r := StageOutput(stage, out, inputs), add.req;
    var s0 := Run(cfg, Init(), before);
    var s := Run(cfg, Step(cfg, s0, add), after);
    LiveMissesOutput(cfg, before, add, after);
    InitOk(cfg);
    RunKeeps(cfg, Init(), before);
    StepKeeps(cfg, s0, add);
    RunKeeps(cfg, Step(cfg, s0, add), after);
    RequestIsOk(cfg, s, r);
    PoolOwes(cfg, s, stage, out, inputs);
    OutputTells(cfg, s, stage, out, inputs);
    DoneSplit(cfg, after, [call], r);
    DoneOne(cfg, call, r);
    OneBrings(cfg, call, r);
    MessagesOfMore(cfg, s, Step(cfg, s, call), stage, out, inputs);
    assert Completes(cfg, s.requests[r], stage, out) == (Wanted(add) <= DoneIn(cfg, after + [call], r));
  }

  lemma OneBrings(cfg: Config, call: Call, r: ReqId)
    requires call.StageOutput? && call.output.req == r && !call.output.error && call.stage < |cfg.stages| && cfg.stages[call.stage].finalOutput
    ensures DoneBy(cfg, call, r) == if call.output.finished then {call.stage} else {}
  {
  }

  lemma PoolOwes(cfg: Config, s: Sys, stage: nat, out: Output, inputs: nat)
    requires CallOk(cfg, s, StageOutput(stage, out, inputs)) && out.req in s.requests && !s.crashed && stage < |cfg.stages| && !out.error
    ensures stage in s.requests[out.req].submitted
    ensures Step(cfg, s, StageOutput(stage, out, inputs)) == Route(cfg, s, stage, out, inputs)
  {
  }

  /** Beyond the announcement only an early end tells the frontend of an output, of a later
      stage. */
  lemma MessagesOfMore(cfg: Config, s: Sys, s1: Sys, stage: nat, out: Output, inputs: nat)
    requires out.req in s.requests && stage < |cfg.stages| && cfg.stages[stage].finalOutput && RequestOk(cfg, s.requests[out.req])
    requires OutputTold(cfg, s, s1, stage, out, inputs)
    ensures var done := Completes(cfg, s.requests[out.req], stage, out);
            exists more: seq<Event> ::
              && s1.log == s.log + [OutputMessage(out.req, stage, done)] + more
              && (done ==> more == [] && out.req !in s1.requests)
              && (!done && out.req !in s1.requests ==> s1.crashed || (|more| == 1 && more[0].OutputMessage?))
              && forall e | e in more && e.OutputMessage? :: e.req == out.req && e.stage != stage && e.finished
  {
    hide Awaits, RequestOk, Follows;
    var told := Announced(cfg, s.requests[out.req], stage, out);
    var more :| s1.log == s.log + told + more && Follows(cfg, s, s1, stage, out, inputs, more);
    MoreIs(cfg, s, s1, stage, out, inputs, more);
  }

  lemma MoreIs(cfg: Config, s: Sys, s1: Sys, stage: nat, out: Output, inputs: nat, more: seq<Event>)
    requires out.req in s.requests && stage < |cfg.stages| && RequestOk(cfg, s.requests[out.req])
    requires Follows(cfg, s, s1, stage, out, inputs, more)
    ensures Completes(cfg, s.requests[out.req], stage, out) ==> more == [] && out.req !in s1.requests
    ensures out.req !in s1.requests && !Completes(cfg, s.requests[out.req], stage, out) ==>
              s1.crashed || (|more| == 1 && more[0].OutputMessage?)
    ensures forall e | e in more && e.OutputMessage? :: e.req == out.req && e.stage != stage && e.finished
  {
    hide Awaits;
  }
}
