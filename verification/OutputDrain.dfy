/** What delta-mode draining delivers over whole runs, and when a chunk is lost. */
module OutputDrain {
  import opened OutputAccumulation
  import opened OutputLedger

  /** Values that arrived since the last output was handed out. */
  function Since(ops: seq<Op>, k: string): seq<Value> {
    if ops == [] || Hands(Delta, ops[|ops| - 1]) then []
    else
      var b := Brought(State(Delta, ops[..|ops| - 1]), ops[|ops| - 1], k);
      Since(ops[..|ops| - 1], k) + if b.Some? then [b.value] else []
  }

  /** The step hands out chunks after a value that is not a tensor arrived, or joins chunks that
      do not fit. */
  predicate LosesDrainedAt(ops: seq<Op>, k: string, n: nat)
    requires n < |ops|
  {
    var chunks := TensorsIn(Since(ops[..n], k));
    && Hands(Delta, ops[n])
    && ((HasOther(Arrived(Delta, ops[..n], k)) && Slices(chunks) != []) || (ops[n].finished && Lossy(chunks)))
  }

  predicate LosesDrained(ops: seq<Op>, k: string) {
    exists n: nat :: n < |ops| && LosesDrainedAt(ops, k, n)
  }

  lemma SinceUnfolds(ops: seq<Op>, k: string)
    requires ops != []
    ensures var n := |ops| - 1;
            var b := Brought(State(Delta, ops[..n]), ops[n], k);
            Since(ops, k) == if Hands(Delta, ops[n]) then [] else Since(ops[..n], k) + if b.Some? then [b.value] else []
  {
    hide Brought, Hands;
  }

  // ---- what waits is what arrived since --------------------------------------------------------

  predicate Waits(a: Acc, k: string, since: seq<Value>) {
    (k in a.tensors ==> a.tensors[k] != []) && ChunksAt(a.tensors, k) == TensorsIn(since)
  }

  lemma StepWaits(a: Acc, k: string, since: seq<Value>, op: Op)
    requires Waits(a, k, since) && k in DRAINABLE
    ensures var b := Brought(a, op, k);
            Waits(Step(a, Delta, op).0, k, if Hands(Delta, op) then [] else since + if b.Some? then [b.value] else [])
  {
    hide Joined, HasOther, Incoming;
    assert since + [] == since && ChunksAt(a.tensors, k) + [] == ChunksAt(a.tensors, k);
    if op.AddOp? {
      hide Merge;
      MergeAt(a.(mmType := TypeAfter(a, op.mmType)), Incoming(a, op.items, op.mmType), k);
      var b := Brought(a, op, k);
      if b.Some? {
        TensorsInAppend(since, b.value);
      }
    } else {
      hide Step;
      OutputAt(a, Delta, k, op);
    }
  }

  /** What waits under a drained key is exactly what arrived since the last output. */
  lemma {:induction false} WaitsForSince(ops: seq<Op>, k: string)
    requires k in DRAINABLE
    ensures Waits(State(Delta, ops), k, Since(ops, k))
  {
    hide Step, Brought, Hands;
    if ops == [] {
      assert ChunksAt(EMPTY.tensors, k) == [];
    } else {
      hide Waits, State, Since;
      var n := |ops| - 1;
      WaitsForSince(ops[..n], k);
      StepWaits(State(Delta, ops[..n]), k, Since(ops[..n], k), ops[n]);
      SinceUnfolds(ops, k);
      RunUnfolds(Delta, ops, k);
    }
  }

  lemma SameLoss(ops: seq<Op>, k: string, n: nat)
    requires k in DRAINABLE && n < |ops|
    ensures LosesDrainedAt(ops, k, n) <==> LosesAt(Delta, ops, k, n)
  {
    hide HasOther, Arrived, Slices, TensorsIn, Since, Lossy, State;
    WaitsForSince(ops[..n], k);
  }

  // ---- exactly once, exactly when --------------------------------------------------------------

  /** In delta mode the pieces of a drained key across all outputs, followed by what still
      waits, are every chunk that arrived exactly once and in order, if and only if no output
      was handed out after a value that is not a tensor with a chunk waiting, and no finishing
      one had to join chunks that do not fit. */
  lemma DrainedOnceIff(ops: seq<Op>, k: string)
    requires k in DRAINABLE && Countable(k, Arrived(Delta, ops, k))
    ensures Pieces(Emitted(Delta, ops), k) + Slices(ChunksAt(State(Delta, ops).tensors, k)) == Slices(TensorsIn(Arrived(Delta, ops, k)))
            <==> !LosesDrained(ops, k)
  {
    hide State, Emitted, Arrived, FramesAgree, HasOther, Pieces, Slices, LosesAt, LosesDrainedAt, Countable;
    RunLedger(Delta, ops, k);
    LedgerSum(State(Delta, ops), Delta, Emitted(Delta, ops), k, Arrived(Delta, ops, k), Loses(Delta, ops, k));
    forall n: nat | n < |ops|
      ensures LosesDrainedAt(ops, k, n) <==> LosesAt(Delta, ops, k, n)
    {
      SameLoss(ops, k, n);
    }
    if n: nat :| n < |ops| && LosesAt(Delta, ops, k, n) {
      assert LosesDrainedAt(ops, k, n);
    }
  }

  /** With tensors only, all of one frame, every chunk is delivered exactly once and in order,
      and after an output nothing waits. */
  lemma DrainedOnceInOrder(ops: seq<Op>, k: string)
    requires k in DRAINABLE && FramesAgree(TensorsIn(Arrived(Delta, ops, k))) && !HasOther(Arrived(Delta, ops, k))
    ensures Pieces(Emitted(Delta, ops), k) + Slices(ChunksAt(State(Delta, ops).tensors, k)) == Slices(TensorsIn(Arrived(Delta, ops, k)))
    ensures ops != [] && Hands(Delta, ops[|ops| - 1]) ==> Pieces(Emitted(Delta, ops), k) == Slices(TensorsIn(Arrived(Delta, ops, k)))
  {
    hide State, Emitted, Arrived, FramesAgree, HasOther, Pieces, Loses, Hands;
    RunLedger(Delta, ops, k);
    LedgerSum(State(Delta, ops), Delta, Emitted(Delta, ops), k, Arrived(Delta, ops, k), Loses(Delta, ops, k));
    NoLoss(Delta, ops, k);
    WaitsForSince(ops, k);
  }

  /** It happens: a chunk, then a value that is not a tensor, then an output. */
  lemma MixedRunLoses(t: Tensor, id: int)
    requires t.slices != []
    ensures LosesDrained([AddOp([("audio", TensorValue(t))], "audio"), AddOp([("audio", Other(id))], "audio"), OutputOp(false, false)], "audio")
  {
    hide *;
    var v, o := TensorValue(t), Other(id);
    var x, y, z := AddOp([("audio", v)], "audio"), AddOp([("audio", o)], "audio"), OutputOp(false, false);
    var ops := [x, y, z];
    assert ops[..2] == [x, y];
    FirstArrives("audio", v);
    SecondArrives("audio", v, o);
    MixedSlices(t, o);
    LosesHere(ops, "audio", 2);
  }

  /** It happens too: two images of different frames, then the finishing output. */
  lemma MismatchedRunLoses(t: Tensor, u: Tensor)
    requires t.slices != [] && u.slices != [] && t.frame != u.frame
    ensures LosesDrained([AddOp([("image", TensorValue(t))], "image"), AddOp([("image", TensorValue(u))], "image"), OutputOp(true, false)], "image")
  {
    hide *;
    var v, o := TensorValue(t), TensorValue(u);
    var x, y, z := AddOp([("image", v)], "image"), AddOp([("image", o)], "image"), OutputOp(true, false);
    var ops := [x, y, z];
    assert ops[..2] == [x, y];
    FirstArrives("image", v);
    SecondArrives("image", v, o);
    TwoFramesLossy(t, u);
    LosesHere(ops, "image", 2);
  }

  lemma FirstArrives(k: string, v: Value)
    requires k == "audio" || k == "image"
    ensures var ops := [AddOp([(k, v)], k)];
            Arrived(Delta, ops, k) == [v] && Since(ops, k) == [v]
  {
    hide Step, Brought;
    var x := AddOp([(k, v)], k);
    assert [x][..0] == [];
    OneBrought(EMPTY, k, v);
    SinceUnfolds([x], k);
    RunUnfolds(Delta, [x], k);
    assert [] + [v] == [v];
  }

  lemma SecondArrives(k: string, v: Value, o: Value)
    requires k == "audio" || k == "image"
    requires var ops := [AddOp([(k, v)], k)]; Arrived(Delta, ops, k) == [v] && Since(ops, k) == [v]
    ensures var ops := [AddOp([(k, v)], k), AddOp([(k, o)], k)];
            Arrived(Delta, ops, k) == [v] + [o] && Since(ops, k) == [v] + [o]
  {
    hide Step, Brought, Arrived, Since, State;
    var x, y := AddOp([(k, v)], k), AddOp([(k, o)], k);
    assert [x, y][..1] == [x];
    OneBrought(State(Delta, [x]), k, o);
    SinceUnfolds([x, y], k);
    RunUnfolds(Delta, [x, y], k);
  }

  lemma MixedSlices(t: Tensor, o: Value)
    requires o.Other? && t.slices != []
    ensures HasOther([TensorValue(t)] + [o]) && Slices(TensorsIn([TensorValue(t)] + [o])) != []
  {
    TensorsInAppend([], TensorValue(t));
    TensorsInAppend([TensorValue(t)], o);
    assert [] + [TensorValue(t)] == [TensorValue(t)] && TensorsIn([]) + [t] == [t] && [t] + [] == [t];
    SlicesOne(t);
  }

  lemma TwoFramesLossy(t: Tensor, u: Tensor)
    requires t.slices != [] && u.slices != [] && t.frame != u.frame
    ensures Lossy(TensorsIn([TensorValue(t)] + [TensorValue(u)]))
  {
    hide HasOther, TensorsIn, Real;
    TensorsInAppend([], TensorValue(t));
    TensorsInAppend([TensorValue(t)], TensorValue(u));
    NoTensors();
    assert [] + [TensorValue(t)] == [TensorValue(t)] && [] + [t] == [t];
    TwoReal(t, u);
    var ts := [t] + [u];
    assert ts[0].slices != [];
  }

  lemma NoTensors()
    ensures TensorsIn([]) == []
  {
  }

  lemma TwoReal(t: Tensor, u: Tensor)
    requires t.slices != [] && u.slices != [] && t.frame != u.frame
    ensures !FramesAgree([t] + [u])
  {
    hide Real;
    RealAppend([t], u);
    RealOne(t);
    var ts := Real([t] + [u]);
    assert ts[0] == t && ts[1] == u;
  }

  lemma LosesHere(ops: seq<Op>, k: string, n: nat)
    requires n < |ops| && ops[n].OutputOp? && !ops[n].held
    requires var chunks := TensorsIn(Since(ops[..n], k));
             (HasOther(Arrived(Delta, ops[..n], k)) && Slices(chunks) != []) || (ops[n].finished && Lossy(chunks))
    ensures LosesDrained(ops, k)
  {
    hide HasOther, Arrived, Slices, TensorsIn, Since, Lossy;
    assert LosesDrainedAt(ops, k, n);
  }

  lemma OneBrought(a: Acc, k: string, v: Value)
    requires k == "audio" || k == "image"
    ensures Brought(a, AddOp([(k, v)], k), k) == Some(v)
  {
    var items := [(k, v)];
    assert items[..0] == [] && Lower(k) == k;
    assert Remap(items, k) == map[k := v];
  }
}
