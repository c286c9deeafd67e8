/** CFG companion bookkeeping: six interlocking indices, as a value and as the object
    that updates them in place. */
module CfgTracker {

  type ReqId = string
  type Role = string

  datatype Option<T> = None | Some(value: T)

  /** An engine output.  `kv` says whether it carries kv transfer parameters, and whether
      they name a remote request. */
  datatype Output = Output(req: ReqId, finished: bool, error: bool, kv: Option<bool>, tag: int)

  datatype Deferred = Deferred(output: Output, stage: nat)

  /** `companions` keeps each parent's role map in registration order. */
  datatype Tracker = Tracker(
    companions: map<ReqId, seq<(Role, ReqId)>>,
    companionIds: set<ReqId>,
    parentOf: map<ReqId, ReqId>,
    done: map<ReqId, set<ReqId>>,
    pending: map<ReqId, Deferred>,
    outputs: map<ReqId, Output>)

  // ---- operations on the value ---------------------------------------------------

  function RoleMap(t: Tracker, p: ReqId): seq<(Role, ReqId)> {
    if p in t.companions then t.companions[p] else []
  }

  function DoneSet(t: Tracker, p: ReqId): set<ReqId> {
    if p in t.done then t.done[p] else {}
  }

  function Ids(roles: seq<(Role, ReqId)>): (ids: seq<ReqId>)
    ensures |ids| == |roles|
  {
    seq(|roles|, i requires 0 <= i < |roles| => roles[i].1)
  }

  /** `role_map[role] = id`: an existing role keeps its position. */
  function PutRole(roles: seq<(Role, ReqId)>, role: Role, id: ReqId): seq<(Role, ReqId)> {
    if roles == [] then [(role, id)]
    else if roles[0].0 == role then [(role, id)] + roles[1..]
    else [roles[0]] + PutRole(roles[1..], role, id)
  }

  predicate RolesDone(roles: seq<(Role, ReqId)>, done: set<ReqId>) {
    forall i | 0 <= i < |roles| :: roles[i].1 in done
  }

  predicate AllDone(t: Tracker, p: ReqId) {
    RolesDone(RoleMap(t, p), DoneSet(t, p))
  }

  function RegisterParent(t: Tracker, p: ReqId): Tracker {
    t.(companions := if p in t.companions then t.companions else t.companions[p := []],
       done := if p in t.done then t.done else t.done[p := {}])
  }

  function RegisterCompanion(t: Tracker, p: ReqId, role: Role, c: ReqId): Tracker {
    var t1 := RegisterParent(t, p);
    t1.(companions := t1.companions[p := PutRole(t1.companions[p], role, c)],
        companionIds := t1.companionIds + {c},
        parentOf := t1.parentOf[c := p])
  }

  function Collect(outputs: map<ReqId, Output>, ids: seq<ReqId>): seq<Output> {
    if ids == [] then []
    else (if ids[0] in outputs then [outputs[ids[0]]] else []) + Collect(outputs - {ids[0]}, ids[1..])
  }

  function Members(ids: seq<ReqId>): set<ReqId> {
    set c | c in ids
  }

  /** Outputs of a parent's companions in role-registration order; they are dropped from the stash. */
  function PopOutputs(t: Tracker, p: ReqId): (Tracker, seq<Output>) {
    var ids := Ids(RoleMap(t, p));
    (t.(outputs := t.outputs - Members(ids)), Collect(t.outputs, ids))
  }

  datatype Completion = Untracked | AssertionFailed | Repeated | Marked | Release(parent: ReqId)

  function OnCompleted(t: Tracker, c: ReqId): (Tracker, Completion) {
    if c !in t.parentOf then (t, Untracked)
    else
      var p := t.parentOf[c];
      if p !in t.done then (t, AssertionFailed)
      else if c in t.done[p] then (t, Repeated)
      else
        var t1 := t.(done := t.done[p := t.done[p] + {c}]);
        (t1, if p in t.pending && AllDone(t1, p) then Release(p) else Marked)
  }

  function Defer(t: Tracker, p: ReqId, d: Deferred): Tracker {
    t.(pending := t.pending[p := d])
  }

  function CleanupParent(t: Tracker, p: ReqId): (Tracker, seq<ReqId>) {
    var ids := Ids(RoleMap(t, p));
    (Tracker(t.companions - {p}, t.companionIds - Members(ids), t.parentOf - Members(ids), t.done - {p},
             t.pending - {p}, t.outputs - Members(ids)), ids)
  }

  /** Clean up every aborted id that is not itself a companion; collect the companions
      that go with it.  Companion status is decided before anything is cleaned. */
  function AbortParents(t: Tracker, parents: seq<ReqId>, seen: seq<ReqId>): (Tracker, seq<ReqId>)
    decreases |parents|
  {
    if parents == [] then (t, seen)
    else
      var (t1, ids) := CleanupParent(t, parents[0]);
      AbortParents(t1, parents[1..], AppendNew(seen, ids))
  }

  function AppendNew(seen: seq<ReqId>, ids: seq<ReqId>): seq<ReqId>
    decreases |ids|
  {
    if ids == [] then seen
    else AppendNew(if ids[0] in seen then seen else seen + [ids[0]], ids[1..])
  }

  // ---- the object ------------------------------------------------------------------

  class CfgCompanionTracker {
    var companions: map<ReqId, seq<(Role, ReqId)>>
    var companionIds: set<ReqId>
    var parentOf: map<ReqId, ReqId>
    var done: map<ReqId, set<ReqId>>
    var pending: map<ReqId, Deferred>
    var outputs: map<ReqId, Output>

    function State(): Tracker
      reads this
    {
      Tracker(companions, companionIds, parentOf, done, pending, outputs)
    }

    constructor ()
      ensures State() == Tracker(map[], {}, map[], map[], map[], map[])
    {
      companions, companionIds, parentOf, done, pending, outputs := map[], {}, map[], map[], map[], map[];
    }

    method AddParent(p: ReqId)
      modifies this
      ensures State() == RegisterParent(old(State()), p)
    {
      if p !in companions {
        companions := companions[p := []];
      }
      if p !in done {
        done := done[p := {}];
      }
    }

    method AddCompanion(p: ReqId, role: Role, c: ReqId)
      modifies this
      ensures State() == RegisterCompanion(old(State()), p, role, c)
    {
      AddParent(p);
      companions := companions[p := PutRole(companions[p], role, c)];
      companionIds := companionIds + {c};
      parentOf := parentOf[c := p];
    }

    method SetCompanionOutput(c: ReqId, out: Output)
      modifies this
      ensures State() == old(State()).(outputs := old(outputs)[c := out])
    {
      outputs := outputs[c := out];
    }

    method PopCompanionOutputs(p: ReqId) returns (result: seq<Output>)
      modifies this
      ensures (State(), result) == PopOutputs(old(State()), p)
    {
      var roles := if p in companions then companions[p] else [];
      var ids := Ids(roles);
      result := [];
      for i := 0 to |ids|
        invariant State() == old(State()).(outputs := outputs)
        invariant outputs == old(outputs) - Members(ids[..i])
        invariant result + Collect(outputs, ids[i..]) == Collect(old(outputs), ids)
      {
        var c := ids[i];
        assert ids[i..][0] == c && ids[i..][1..] == ids[i + 1..];
        assert Members(ids[..i + 1]) == Members(ids[..i]) + {c};
        if c in outputs {
          result := result + [outputs[c]];
          outputs := outputs - {c};
        } else {
          assert outputs - {c} == outputs;
        }
      }
      assert ids[..|ids|] == ids && ids[|ids|..] == [];
      assert result + Collect(outputs, []) == result;
    }

    method OnCompanionCompleted(c: ReqId) returns (r: Completion)
      modifies this
      ensures (State(), r) == OnCompleted(old(State()), c)
    {
      if c !in parentOf {
        return Untracked;
      }
      var p := parentOf[c];
      if p !in done {
        return AssertionFailed;
      }
      if c in done[p] {
        return Repeated;
      }
      done := done[p := done[p] + {c}];
      r := if p in pending && AllDone(State(), p) then Release(p) else Marked;
    }

    method DeferParent(p: ReqId, out: Output, stage: nat)
      modifies this
      ensures State() == Defer(old(State()), p, Deferred(out, stage))
    {
      pending := pending[p := Deferred(out, stage)];
    }

    method PopPendingParent(p: ReqId) returns (d: Option<Deferred>)
      modifies this
      ensures State() == old(State()).(pending := old(pending) - {p})
      ensures d == if p in old(pending) then Some(old(pending)[p]) else None
    {
      d := if p in pending then Some(pending[p]) else None;
      pending := pending - {p};
    }

    method Cleanup(p: ReqId) returns (ids: seq<ReqId>)
      modifies this
      ensures (State(), ids) == CleanupParent(old(State()), p)
    {
      ids := Ids(if p in companions then companions[p] else []);
      companions := companions - {p};
      for i := 0 to |ids|
        invariant State() == old(State()).(companions := old(companions) - {p}, companionIds := companionIds,
                                           parentOf := parentOf, outputs := outputs)
        invariant companionIds == old(companionIds) - Members(ids[..i])
        invariant parentOf == old(parentOf) - Members(ids[..i])
        invariant outputs == old(outputs) - Members(ids[..i])
      {
        assert Members(ids[..i + 1]) == Members(ids[..i]) + {ids[i]};
        companionIds := companionIds - {ids[i]};
        parentOf := parentOf - {ids[i]};
        outputs := outputs - {ids[i]};
      }
      assert ids[..|ids|] == ids;
      done := done - {p};
      pending := pending - {p};
    }

    /** The parents in `reqs`, each once, in some order. */
    method AbortAll(reqs: seq<ReqId>) returns (all: seq<ReqId>, ghost order: seq<ReqId>)
      modifies this
      ensures forall p :: p in order <==> p in reqs && p !in old(companionIds)
      ensures (State(), all) == AbortParents(old(State()), order, reqs)
    {
      var parents: set<ReqId> := set r | r in reqs && r !in companionIds;
      all, order := reqs, [];
      ghost var t0 := State();
      while parents != {}
        invariant forall p :: p in order || p in parents <==> p in reqs && p !in old(companionIds)
        invariant (State(), all) == AbortParents(t0, order, reqs)
      {
        var p :| p in parents;
        parents := parents - {p};
        AbortLast(t0, order, p, reqs);
        var ids := Cleanup(p);
        all := AppendNew(all, ids);
        order := order + [p];
      }
    }
  }

  lemma {:induction false} AbortLast(t: Tracker, order: seq<ReqId>, p: ReqId, seen: seq<ReqId>)
    ensures var (t1, all) := AbortParents(t, order, seen);
            var (t2, ids) := CleanupParent(t1, p);
            AbortParents(t, order + [p], seen) == (t2, AppendNew(all, ids))
    decreases |order|
  {
    if order == [] {
      assert order + [p] == [p] && [p][1..] == [];
    } else {
      var (t1, ids) := CleanupParent(t, order[0]);
      AbortLast(t1, order[1..], p, AppendNew(seen, ids));
      assert (order + [p])[1..] == order[1..] + [p];
    }
  }
}
