/** The request state that accumulates output: lists of tensors updated in place. */
module OutputState {
  import opened OutputAccumulation

  /** A Python list of tensors: everyone who holds it sees it grow. */
  class ChunkList {
    var items: seq<Tensor>

    constructor (a: Tensor, b: Tensor)
      ensures items == [a, b]
    {
      items := [a, b];
    }
  }

  datatype Pending = One(t: Tensor) | Many(list: ChunkList)

  /** An entry of a snapshot handed to a caller. */
  datatype Held = HeldTensor(p: Pending) | HeldMeta(id: int)

  /** The chunks a pending entry stands for at the moment. */
  function View(p: Pending): seq<Tensor>
    reads if p.Many? then {p.list} else {}
  {
    match p
    case One(t) => [t]
    case Many(list) => list.items
  }

  /** What the holder of a snapshot sees now. */
  ghost function Shown(s: map<string, Held>): Snapshot
    reads set k | k in s && s[k].HeldTensor? && s[k].p.Many? :: s[k].p.list
  {
    map k | k in s :: match s[k] case HeldMeta(id) => Meta(id) case HeldTensor(p) => Chunks(View(p))
  }

  lemma MergeNothing(a: Acc)
    ensures Merge(a, map[]) == a
  {
    assert MergeTensors(a.tensors, map[]) == a.tensors;
    assert MergeMetadata(a.metadata, map[]) == a.metadata;
  }

  lemma MergeTensor(a: Acc, done: map<string, Value>, k: string, t: Tensor)
    requires k !in done
    ensures var b := Merge(a, done);
            Merge(a, done[k := TensorValue(t)]) == b.(tensors := b.tensors[k := ChunksAt(b.tensors, k) + [t]])
  {
    OneTensor(a.tensors, done, k, t);
    SameMetadata(a.metadata, done, k, t);
  }

  lemma OneTensor(m: map<string, seq<Tensor>>, done: map<string, Value>, k: string, t: Tensor)
    requires k !in done
    ensures var b := MergeTensors(m, done);
            MergeTensors(m, done[k := TensorValue(t)]) == b[k := ChunksAt(b, k) + [t]]
  {
    var b, c := MergeTensors(m, done), MergeTensors(m, done[k := TensorValue(t)]);
    assert ChunksAt(b, k) == ChunksAt(m, k);
    assert c == b[k := ChunksAt(m, k) + [t]];
  }

  lemma SameMetadata(m: map<string, int>, done: map<string, Value>, k: string, t: Tensor)
    requires k !in done
    ensures MergeMetadata(m, done[k := TensorValue(t)]) == MergeMetadata(m, done)
  {
  }

  lemma MergeMeta(a: Acc, done: map<string, Value>, k: string, id: int)
    requires k !in done
    ensures var b := Merge(a, done);
            Merge(a, done[k := Other(id)]) == b.(metadata := b.metadata[k := id])
  {
    SameTensors(a.tensors, done, k, id);
    OneMeta(a.metadata, done, k, id);
  }

  lemma SameTensors(m: map<string, seq<Tensor>>, done: map<string, Value>, k: string, id: int)
    requires k !in done
    ensures MergeTensors(m, done[k := Other(id)]) == MergeTensors(m, done)
  {
  }

  lemma OneMeta(m: map<string, int>, done: map<string, Value>, k: string, id: int)
    requires k !in done
    ensures MergeMetadata(m, done[k := Other(id)]) == MergeMetadata(m, done)[k := id]
  {
  }

  class OmniRequestState {
    const kind: Kind
    var mmType: Option<string>
    var tensors: map<string, Pending>
    var metadata: map<string, int>
    ghost var repr: set<ChunkList>

    /** `repr` holds the lists in use; no list serves two keys, and none is empty. */
    ghost predicate Valid()
      reads this, repr
    {
      && (forall k | k in tensors && tensors[k].Many? :: tensors[k].list in repr && tensors[k].list.items != [])
      && (forall k, l | k in tensors && l in tensors && k != l && tensors[k].Many? && tensors[l].Many? ::
            tensors[k].list != tensors[l].list)
    }

    ghost function State(): Acc
      reads this, repr
      requires Valid()
    {
      Acc(mmType, map k | k in tensors :: View(tensors[k]), metadata)
    }

    constructor (kind: Kind)
      ensures Valid() && repr == {} && State() == EMPTY && this.kind == kind
    {
      this.kind := kind;
      mmType, tensors, metadata, repr := None, map[], map[], {};
    }

    /** A tensor under a key: the first is stored, the second starts a list, later ones are
        appended to it. */
    method AppendTensor(k: string, t: Tensor)
      requires Valid()
      modifies this`tensors, this`repr, repr
      ensures Valid() && fresh(repr - old(repr))
      ensures State() == old(State()).(tensors := old(State()).tensors[k := ChunksAt(old(State()).tensors, k) + [t]])
      ensures forall l | l in old(tensors) && old(tensors)[l].Many? :: l in tensors && tensors[l] == old(tensors)[l]
    {
      assert [] + [t] == [t];
      if k !in tensors {
        StoreFirst(k, t);
      } else if tensors[k].One? {
        StartList(k, t);
      } else {
        GrowList(k, t);
      }
    }

    method StoreFirst(k: string, t: Tensor)
      requires Valid() && k !in tensors
      modifies this`tensors
      ensures Valid() && State() == old(State()).(tensors := old(State()).tensors[k := [t]])
      ensures k in tensors && tensors == old(tensors)[k := tensors[k]]
    {
      tensors := tensors[k := One(t)];
      assert State().tensors == old(State()).tensors[k := [t]];
    }

    method StartList(k: string, t: Tensor)
      requires Valid() && k in tensors && tensors[k].One?
      modifies this`tensors, this`repr
      ensures Valid() && fresh(repr - old(repr))
      ensures State() == old(State()).(tensors := old(State()).tensors[k := old(State()).tensors[k] + [t]])
      ensures k in tensors && tensors == old(tensors)[k := tensors[k]]
    {
      ghost var before := State().tensors;
      assert before[k] == [tensors[k].t];
      var list := new ChunkList(tensors[k].t, t);
      repr := repr + {list};
      tensors := tensors[k := Many(list)];
      assert forall l | l in tensors && l != k && tensors[l].Many? :: tensors[l].list != list;
      assert list.items == before[k] + [t];
      assert forall l | l in tensors && l != k :: View(tensors[l]) == before[l];
      assert State().tensors == before[k := before[k] + [t]];
    }

    method GrowList(k: string, t: Tensor)
      requires Valid() && k in tensors && tensors[k].Many?
      modifies repr
      ensures Valid() && State() == old(State()).(tensors := old(State()).tensors[k := old(State()).tensors[k] + [t]])
    {
      var list := tensors[k].list;
      list.items := list.items + [t];
      assert forall l | l in tensors && l != k :: View(tensors[l]) == old(View(tensors[l]));
      assert State().tensors == old(State()).tensors[k := old(State()).tensors[k] + [t]];
    }

    method MergeEntry(k: string, v: Value, ghost a: Acc, ghost done: map<string, Value>)
      requires Valid() && k !in done && State() == Merge(a, done)
      modifies this`tensors, this`metadata, this`repr, repr
      ensures Valid() && fresh(repr - old(repr)) && State() == Merge(a, done[k := v])
      ensures forall l | l in old(tensors) && old(tensors)[l].Many? :: l in tensors && tensors[l] == old(tensors)[l]
    {
      hide Merge, ChunksAt;
      match v {
        case TensorValue(t) =>
          MergeTensor(a, done, k, t);
          AppendTensor(k, t);
        case Other(id) =>
          MergeMeta(a, done, k, id);
          metadata := metadata[k := id];
      }
    }

    /** _merge_payload. */
    method MergePayload(incoming: map<string, Value>)
      requires Valid()
      modifies this`tensors, this`metadata, this`repr, repr
      ensures Valid() && fresh(repr - old(repr))
      ensures State() == Merge(old(State()), incoming)
      ensures forall l | l in old(tensors) && old(tensors)[l].Many? :: l in tensors && tensors[l] == old(tensors)[l]
    {
      hide Merge, ChunksAt;
      ghost var a := State();
      var keys := incoming.Keys;
      ghost var done: map<string, Value> := map[];
      MergeNothing(a);
      while keys != {}
        invariant keys <= incoming.Keys && done == map k | k in incoming && k !in keys :: incoming[k]
        invariant Valid() && fresh(repr - old(repr))
        invariant State() == Merge(a, done)
        invariant forall l | l in old(tensors) && old(tensors)[l].Many? :: l in tensors && tensors[l] == old(tensors)[l]
      {
        var k :| k in keys;
        keys := keys - {k};
        MergeEntry(k, incoming[k], a, done);
        done := done[k := incoming[k]];
      }
      assert done == incoming;
    }

    /** add_multimodal_tensor. */
    method AddMultimodalTensor(items: seq<(string, Value)>, mmType: string)
      requires Valid()
      modifies this`mmType, this`tensors, this`metadata, this`repr, repr
      ensures Valid() && fresh(repr - old(repr))
      ensures State() == Add(old(State()), items, mmType)
      ensures forall l | l in old(tensors) && old(tensors)[l].Many? :: l in tensors && tensors[l] == old(tensors)[l]
    {
      hide Merge;
      ghost var a := State();
      if mmType != "" {
        this.mmType := Some(Lower(mmType));
      }
      var target := TargetKey(this.mmType);
      var remapped := Rename(items, target);
      assert State() == a.(mmType := TypeAfter(a, mmType));
      MergePayload(remapped);
    }

    /** Joins every key; lists already handed out are left as they are. */
    method ConsolidateMultimodalTensors()
      requires Valid()
      modifies this`tensors, this`repr
      ensures Valid() && repr == {}
      ensures State() == Consolidate(old(State()))
    {
      hide Joined;
      var joined: map<string, Pending> := map[];
      var keys := tensors.Keys;
      while keys != {}
        invariant keys <= tensors.Keys && tensors == old(tensors) && joined.Keys == tensors.Keys - keys
        invariant forall k | k in joined :: joined[k] == One(Joined(k, View(tensors[k])))
      {
        var k :| k in keys;
        keys := keys - {k};
        joined := joined[k := One(Joined(k, View(tensors[k])))];
      }
      tensors, repr := joined, {};
      assert State().tensors == Consolidate(old(State())).tensors;
    }

    /** Every entry as it is, lists included: nothing is copied. */
    method TakeSnapshot() returns (out: map<string, Held>)
      requires Valid()
      ensures Shown(out) == SnapshotOf(State())
      ensures forall k | k in out && out[k].HeldTensor? :: k in tensors && out[k].p == tensors[k]
    {
      out := map k | k in tensors.Keys + metadata.Keys :: if k in metadata then HeldMeta(metadata[k]) else HeldTensor(tensors[k]);
      assert Shown(out) == SnapshotOf(State());
    }

    method DrainTensors()
      requires Valid()
      modifies this`tensors, this`repr
      ensures Valid() && repr <= old(repr) && tensors == old(tensors) - DRAINABLE
      ensures State() == Drain(old(State()), true)
      ensures forall k | k in old(tensors) && k in DRAINABLE && old(tensors)[k].Many? :: old(tensors)[k].list !in repr
    {
      repr := repr - set k | k in DRAINABLE && k in tensors && tensors[k].Many? :: tensors[k].list;
      tensors := tensors - DRAINABLE;
      assert State().tensors == Drain(old(State()), true).tensors;
    }

    /** The completion output's snapshot and drain.  What a snapshot holds of a drained key is
        no longer reachable from the accumulator, so nothing done here later can change it. */
    method NewCompletionOutput() returns (out: map<string, Held>)
      requires Valid()
      modifies this`tensors, this`repr
      ensures Valid() && repr <= old(repr)
      ensures var b := old(State());
              if b.tensors == map[] && b.metadata == map[] then State() == b && out == map[]
              else State() == Drain(b, kind.Delta?) && Shown(out) == SnapshotOf(b)
      ensures forall k | k in out && out[k].HeldTensor? ::
                && k in old(tensors) && out[k].p == old(tensors)[k]
                && (Drains(kind, k) && out[k].p.Many? ==> out[k].p.list !in repr)
      ensures forall k | k in old(tensors) && !Drains(kind, k) :: k in tensors && tensors[k] == old(tensors)[k]
    {
      hide SnapshotOf, Drain;
      EmptyViews();
      NoDrain(State());
      if tensors == map[] && metadata == map[] {
        return map[];
      }
      out := TakeSnapshot();
      if kind.Delta? {
        DrainTensors();
      }
    }

    lemma EmptyViews()
      requires Valid()
      ensures State().tensors == map[] <==> tensors == map[]
    {
      assert State().tensors.Keys == tensors.Keys;
      assert State().tensors == map[] <==> State().tensors.Keys == {};
      assert tensors == map[] <==> tensors.Keys == {};
    }

    /** make_request_output. */
    method MakeRequestOutput(finished: bool, held: bool) returns (out: Option<map<string, Held>>)
      requires Valid()
      modifies this`tensors, this`repr
      ensures Valid() && repr <= old(repr)
      ensures var (a, o) := Output(old(State()), kind, finished, held);
              && State() == a && (out.Some? <==> o.Some?) && (out.Some? ==> Shown(out.value) == o.value)
      ensures out.Some? ==> forall k | k in out.value && out.value[k].HeldTensor? && out.value[k].p.Many? && Drains(kind, k) ::
                out.value[k].p.list !in repr
      ensures Joins(kind, OutputOp(finished, held)) ==> repr == {}
      ensures !Joins(kind, OutputOp(finished, held)) ==> forall l | l in old(tensors) && !Drains(kind, l) :: l in tensors && tensors[l] == old(tensors)[l]
    {
      hide Consolidate, Drain, SnapshotOf;
      if !finished && kind.FinalOnly? {
        return None;
      }
      if finished || !kind.Delta? {
        ConsolidateMultimodalTensors();
      }
      if held && !finished {
        return None;
      }
      var snapshot := NewCompletionOutput();
      out := Some(snapshot);
    }
  }

  lemma NoDrain(a: Acc)
    ensures Drain(a, false) == a
  {
  }

  method Rename(items: seq<(string, Value)>, target: string) returns (remapped: map<string, Value>)
    ensures remapped == Remap(items, target)
  {
    remapped := map[];
    for i := 0 to |items|
      invariant remapped == Remap(items[..i], target)
    {
      var (k, v) := items[i];
      assert items[..i + 1][..i] == items[..i];
      remapped := remapped[(if k == "model_outputs" || k == "hidden" then target else k) := v];
    }
    assert items[..|items|] == items;
  }

  // ---- what a handed-out snapshot shows later ------------------------------------------------

  /** Tensors added under a key that is not drained until its list is next joined. */
  function Later(a: Acc, kind: Kind, ops: seq<Op>, k: string): seq<Tensor>
    decreases |ops|
  {
    if ops == [] || Joins(kind, ops[0]) then []
    else
      var b := Brought(a, ops[0], k);
      (if b.Some? && b.value.TensorValue? then [b.value.t] else []) + Later(Step(a, kind, ops[0]).0, kind, ops[1..], k)
  }

  /** The snapshot taken now shares the accumulator's list of this key. */
  ghost predicate Shared(r: OmniRequestState, k: string)
    reads r
  {
    !Drains(r.kind, k) && k !in r.metadata && k in r.tensors && r.tensors[k].Many?
  }

  lemma ShownTensor(a: Acc, k: string)
    ensures k in a.tensors && k !in a.metadata ==> k in SnapshotOf(a) && SnapshotOf(a)[k] == Chunks(a.tensors[k])
  {
  }

  /** One operation on the request state. */
  method Apply(r: OmniRequestState, op: Op)
    requires r.Valid()
    modifies r, r.repr
    ensures r.Valid() && fresh(r.repr - old(r.repr))
    ensures r.State() == Step(old(r.State()), r.kind, op).0
    ensures Joins(r.kind, op) ==> r.repr == {}
    ensures op.OutputOp? ==> forall l | l in old(r.repr) :: l.items == old(l.items)
    ensures !Joins(r.kind, op) ==>
              forall l | l in old(r.tensors) && !Drains(r.kind, l) && old(r.tensors)[l].Many? :: l in r.tensors && r.tensors[l] == old(r.tensors)[l]
  {
    hide Add, Output;
    match op {
      case AddOp(items, mmType) => r.AddMultimodalTensor(items, mmType);
      case OutputOp(finished, held) => var out := r.MakeRequestOutput(finished, held);
    }
  }

  /** What an operation adds to an undrained key's chunks, unless it joins them. */
  lemma StepAppends(a: Acc, kind: Kind, op: Op, k: string)
    requires k in a.tensors && !Drains(kind, k) && !Joins(kind, op)
    ensures var a1 := Step(a, kind, op).0;
            var b := Brought(a, op, k);
            k in a1.tensors && a1.tensors[k] == a.tensors[k] + if b.Some? && b.value.TensorValue? then [b.value.t] else []
  {
    hide Incoming;
    if op.AddOp? {
      hide Merge;
      MergeKeeps(a.(mmType := TypeAfter(a, op.mmType)), Incoming(a, op.items, op.mmType), k);
    } else {
      assert a.tensors[k] + [] == a.tensors[k];
    }
  }

  lemma MergeKeeps(a: Acc, incoming: map<string, Value>, k: string)
    requires k in a.tensors
    ensures var a1 := Merge(a, incoming);
            k in a1.tensors && a1.tensors[k] == a.tensors[k] + if k in incoming && incoming[k].TensorValue? then [incoming[k].t] else []
  {
    assert a.tensors[k] + [] == a.tensors[k];
  }

  /** One operation on a state that uses a list: the list grows by what the operation adds, or
      the state lets go of it. */
  method ApplyAttached(r: OmniRequestState, op: Op, ghost rest: seq<Op>, ghost k: string, ghost list: ChunkList)
    returns (attached: bool)
    requires r.Valid() && !Drains(r.kind, k) && k in r.tensors && r.tensors[k] == Many(list)
    modifies r, r.repr
    ensures r.Valid() && fresh(r.repr - old(r.repr))
    ensures attached ==> k in r.tensors && r.tensors[k] == Many(list)
                         && list.items + Later(r.State(), r.kind, rest, k) == old(list.items) + Later(old(r.State()), r.kind, [op] + rest, k)
    ensures !attached ==> list !in r.repr && list.items == old(list.items) && Later(old(r.State()), r.kind, [op] + rest, k) == []
  {
    hide Step, Brought;
    ghost var before := r.State();
    assert list.items == before.tensors[k];
    assert ([op] + rest)[1..] == rest;
    attached := !Joins(r.kind, op);
    if attached {
      StepAppends(before, r.kind, op, k);
    }
    Apply(r, op);
    if attached {
      ghost var b := Brought(before, op, k);
      ghost var more := if b.Some? && b.value.TensorValue? then [b.value.t] else [];
      ghost var later := Later(r.State(), r.kind, rest, k);
      assert list.items == r.State().tensors[k];
      assert before.tensors[k] + more + later == before.tensors[k] + (more + later);
    }
  }

  /** A list in use grows by exactly what arrives before it is next joined; then it is left
      alone for good. */
  method RunLater(r: OmniRequestState, ops: seq<Op>, ghost k: string, ghost list: ChunkList)
    requires r.Valid() && !Drains(r.kind, k) && k in r.tensors && r.tensors[k] == Many(list)
    modifies r, r.repr
    ensures r.Valid() && list.items == old(list.items) + Later(old(r.State()), r.kind, ops, k)
  {
    hide Later;
    var attached := true;
    assert ops[0..] == ops;
    var i := 0;
    while i < |ops| && attached
      invariant 0 <= i <= |ops| && r.Valid() && fresh(r.repr - old(r.repr))
      invariant if attached then k in r.tensors && r.tensors[k] == Many(list)
                                 && list.items + Later(r.State(), r.kind, ops[i..], k) == old(list.items) + Later(old(r.State()), r.kind, ops, k)
                else list !in r.repr && list.items == old(list.items) + Later(old(r.State()), r.kind, ops, k)
    {
      assert ops[i..] == [ops[i]] + ops[i + 1..];
      attached := ApplyAttached(r, ops[i], ops[i + 1..], k, list);
      i := i + 1;
    }
    if attached {
      assert ops[i..] == [];
      NothingLater(r.State(), r.kind, k);
    } else {
      RunOps(r, ops[i..]);
    }
  }

  lemma NothingLater(a: Acc, kind: Kind, k: string)
    ensures Later(a, kind, [], k) == []
  {
  }

  method RunOps(r: OmniRequestState, ops: seq<Op>)
    requires r.Valid()
    modifies r, r.repr
    ensures r.Valid()
  {
    for i := 0 to |ops|
      invariant r.Valid() && fresh(r.repr - old(r.repr))
    {
      Apply(r, ops[i]);
    }
  }

  /** A snapshot is not a copy.  After any later run, an entry handed out now shows what it
      showed, except that an entry sharing the accumulator's list also shows the tensors that
      arrived before the next join.  So it changes exactly if it is shared and one arrived. */
  method SnapshotAfterRun(r: OmniRequestState, ops: seq<Op>, k: string) returns (out: map<string, Held>, ghost left: Acc)
    requires r.Valid()
    modifies r, r.repr
    ensures left == Drain(old(r.State()), r.kind.Delta?)
    ensures k in out <==> k in SnapshotOf(old(r.State()))
    ensures k in out ==>
              && k in SnapshotOf(old(r.State()))
              && Shown(out)[k] == (if old(Shared(r, k)) then Chunks(old(View(r.tensors[k])) + Later(left, r.kind, ops, k))
                                   else SnapshotOf(old(r.State()))[k])
              && (Shown(out)[k] != SnapshotOf(old(r.State()))[k] <==> old(Shared(r, k)) && Later(left, r.kind, ops, k) != [])
  {
    out := r.NewCompletionOutput();
    left := r.State();
    if k in out && out[k].HeldTensor? && out[k].p.Many? && !Drains(r.kind, k) {
      RunLater(r, ops, k, out[k].p.list);
    } else {
      RunOps(r, ops);
    }
  }

  lemma AddUnderZ(a: Acc, t: Tensor)
    requires a.mmType.None?
    ensures Brought(a, AddOp([("z", TensorValue(t))], ""), "z") == Some(TensorValue(t))
    ensures Add(a, [("z", TensorValue(t))], "") == a.(tensors := a.tensors["z" := ChunksAt(a.tensors, "z") + [t]])
  {
    var items := [("z", TensorValue(t))];
    assert items[..0] == [];
    assert Remap(items, "hidden") == map["z" := TensorValue(t)];
    assert MergeTensors(a.tensors, map["z" := TensorValue(t)]) == a.tensors["z" := ChunksAt(a.tensors, "z") + [t]];
    assert MergeMetadata(a.metadata, map["z" := TensorValue(t)]) == a.metadata;
  }

  lemma TwoUnderZ(t: Tensor)
    ensures var a := Acc(None, map["z" := [t, t]], map[]);
            var items := [("z", TensorValue(t))];
            && Add(Add(EMPTY, items, ""), items, "") == a
            && Drain(a, true) == a && "z" in SnapshotOf(a) && SnapshotOf(a)["z"] == Chunks([t, t])
            && Later(a, Delta, [AddOp(items, "")], "z") == [t]
  {
    hide Add, Brought;
    var items := [("z", TensorValue(t))];
    var a := Acc(None, map["z" := [t, t]], map[]);
    AddUnderZ(EMPTY, t);
    assert ChunksAt(EMPTY.tensors, "z") + [t] == [t] && [t] + [t] == [t, t];
    AddUnderZ(Add(EMPTY, items, ""), t);
    AddUnderZ(a, t);
    assert a.tensors - DRAINABLE == a.tensors;
    var op := AddOp(items, "");
    assert [op][1..] == [] && [t] + [] == [t];
    NothingLater(Step(a, Delta, op).0, Delta, "z");
  }

  /** It happens: after two chunks of a key that delta mode does not drain, the entry handed out
      shows a chunk that arrives later. */
  method SnapshotChanges(t: Tensor) returns (out: map<string, Held>, ghost handed: Snapshot)
    ensures "z" in handed && handed["z"] == Chunks([t, t])
    ensures "z" in out && Shown(out)["z"] == Chunks([t, t, t])
  {
    hide Add, Drain, SnapshotOf, Later, Shown;
    var items := [("z", TensorValue(t))];
    TwoUnderZ(t);
    var r := new OmniRequestState(Delta);
    r.AddMultimodalTensor(items, "");
    r.AddMultimodalTensor(items, "");
    ghost var a := r.State();
    assert a == Acc(None, map["z" := [t, t]], map[]);
    assert a.tensors["z"] == View(r.tensors["z"]) == [t, t];
    assert Shared(r, "z");
    handed := SnapshotOf(a);
    ghost var left;
    out, left := SnapshotAfterRun(r, [AddOp(items, "")], "z");
    assert [t, t] + [t] == [t, t, t];
  }
}
