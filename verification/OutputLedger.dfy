/** What becomes of every chunk of one key over whole runs of the accumulator: it waits, it was
    handed out, or it was lost at a join or behind a value that is not a tensor. */
module OutputLedger {
  import opened OutputAccumulation

  // ---- when a step loses a chunk -----------------------------------------------------------------

  /** The step joins chunks that do not fit, or drains chunks that metadata hides. */
  predicate LosesNow(kind: Kind, k: string, op: Op, waiting: seq<Tensor>, shadowed: bool) {
    || (Joins(kind, op) && Lossy(waiting))
    || (Drains(kind, k) && Hands(kind, op) && shadowed && Slices(waiting) != [])
  }

  predicate LosesAt(kind: Kind, ops: seq<Op>, k: string, n: nat)
    requires n < |ops|
  {
    LosesNow(kind, k, ops[n], ChunksAt(State(kind, ops[..n]).tensors, k), HasOther(Arrived(kind, ops[..n], k)))
  }

  predicate Loses(kind: Kind, ops: seq<Op>, k: string) {
    exists n: nat :: n < |ops| && LosesAt(kind, ops, k, n)
  }

  lemma LosesStep(kind: Kind, ops: seq<Op>, k: string)
    requires ops != []
    ensures var n := |ops| - 1;
            Loses(kind, ops, k) <==> Loses(kind, ops[..n], k) || LosesAt(kind, ops, k, n)
  {
    hide LosesNow, State, Arrived;
    var n := |ops| - 1;
    forall m: nat | m < n
      ensures LosesAt(kind, ops, k, m) <==> LosesAt(kind, ops[..n], k, m)
    {
      assert ops[..n][..m] == ops[..m];
    }
    if Loses(kind, ops, k) {
      var m: nat :| m < |ops| && LosesAt(kind, ops, k, m);
      assert m == n || LosesAt(kind, ops[..n], k, m);
    }
    if Loses(kind, ops[..n], k) {
      var m: nat :| m < n && LosesAt(kind, ops[..n], k, m);
      assert LosesAt(kind, ops, k, m);
    }
  }

  // ---- frames -------------------------------------------------------------------------------------

  /** If everything that arrived can be concatenated, so can what waits, in the same frame. */
  predicate Fits(ts: seq<Tensor>, all: seq<Tensor>, whole: bool) {
    FramesAgree(all) ==>
      && FramesAgree(ts)
      && (Real(ts) != [] ==> Real(all) != [] && Real(ts)[0].frame == Real(all)[0].frame)
      && (whole && Real(all) != [] ==> Real(ts) != [])
  }

  lemma FewerAgree(ts: seq<Tensor>, t: Tensor)
    requires FramesAgree(ts + [t])
    ensures FramesAgree(ts) && (Real(ts) != [] && !Skipped(t) ==> t.frame == Real(ts)[0].frame)
  {
    hide Real, Skipped;
    RealAppend(ts, t);
    var all := Real(ts + [t]);
    assert forall i | 0 <= i < |Real(ts)| :: all[i] == Real(ts)[i];
    if !Skipped(t) {
      assert all[|Real(ts)|] == t;
    }
  }

  lemma FitsAdd(ts: seq<Tensor>, all: seq<Tensor>, whole: bool, t: Tensor)
    requires Fits(ts, all, whole)
    ensures Fits(ts + [t], all + [t], whole)
  {
    hide Real, Skipped;
    RealAppend(ts, t);
    RealAppend(all, t);
    if FramesAgree(all + [t]) {
      FewerAgree(all, t);
    }
  }

  lemma FitsJoin(k: string, ts: seq<Tensor>, all: seq<Tensor>, whole: bool)
    requires Fits(ts, all, whole) && ts != []
    ensures Fits([Joined(k, ts)], all, whole)
  {
    if FramesAgree(all) {
      RealOne(Joined(k, ts));
      RealSkipped(ts);
    }
  }

  /** A concatenation is itself skipped only if every tensor in it is. */
  lemma {:induction false} RealSkipped(ts: seq<Tensor>)
    ensures Real(ts) == [] ==> Slices(ts) == []
    ensures Real(ts) != [] && Real(ts)[0].frame == [] ==> Slices(ts) != []
  {
    if ts == [] {
    } else {
      RealSkipped(ts[..|ts| - 1]);
    }
  }

  // ---- the ledger of one key ------------------------------------------------------------------

  /** Handed out and waiting slices are never more than all that arrived, and are all of it in
      order exactly if none is lost. */
  ghost predicate Ledger(waiting: seq<Tensor>, handed: seq<Slice>, shadowed: bool, vs: seq<Value>, whole: bool, lost: bool) {
    var all := TensorsIn(vs);
    && (shadowed <==> HasOther(vs))
    && (whole ==> (waiting == [] <==> all == []))
    && Fits(waiting, all, whole)
    && |handed| + |Slices(waiting)| <= |Slices(all)|
    && (lost <==> |handed| + |Slices(waiting)| < |Slices(all)|)
    && (!lost ==> handed + Slices(waiting) == Slices(all))
  }

  lemma LedgerAdd(waiting: seq<Tensor>, handed: seq<Slice>, shadowed: bool, vs: seq<Value>, whole: bool, lost: bool, v: Value)
    requires Ledger(waiting, handed, shadowed, vs, whole, lost)
    ensures Ledger(waiting + (if v.TensorValue? then [v.t] else []), handed, shadowed || v.Other?, vs + [v], whole, lost)
  {
    hide HasOther, Slices, TensorsIn, Fits;
    var all := TensorsIn(vs);
    TensorsInAppend(vs, v);
    if v.TensorValue? {
      FitsAdd(waiting, all, whole, v.t);
      SlicesAppend(waiting, [v.t]);
      SlicesAppend(all, [v.t]);
      assert handed + (Slices(waiting) + Slices([v.t])) == handed + Slices(waiting) + Slices([v.t]);
    } else {
      assert waiting + [] == waiting && all + [] == all;
    }
  }

  lemma LedgerJoin(k: string, waiting: seq<Tensor>, handed: seq<Slice>, shadowed: bool, vs: seq<Value>, whole: bool, lost: bool)
    requires Ledger(waiting, handed, shadowed, vs, whole, lost) && waiting != []
    requires k == "audio" ==> FramesAgree(TensorsIn(vs))
    ensures Ledger([Joined(k, waiting)], handed, shadowed, vs, whole, lost || Lossy(waiting))
  {
    hide HasOther, Slices, TensorsIn, Joined, Lossy, Real;
    FitsJoin(k, waiting, TensorsIn(vs), whole);
    JoinKeepsIff(k, waiting);
  }

  /** Handing out and draining: shadowed chunks are lost, others delivered. */
  lemma LedgerHand(waiting: seq<Tensor>, handed: seq<Slice>, shadowed: bool, vs: seq<Value>, lost: bool)
    requires Ledger(waiting, handed, shadowed, vs, false, lost)
    ensures Ledger([], handed + (if shadowed then [] else Slices(waiting)), shadowed, vs, false, lost || (shadowed && Slices(waiting) != []))
  {
    hide HasOther;
    assert Slices([]) == [] && Real([]) == [];
  }

  // ---- one step --------------------------------------------------------------------------------

  function Rejoined(k: string, ts: seq<Tensor>, joins: bool): seq<Tensor> {
    if joins && ts != [] then [Joined(k, ts)] else ts
  }

  /** What an output call does to one key. */
  lemma OutputAt(a: Acc, kind: Kind, k: string, op: Op)
    requires op.OutputOp? && (k in a.tensors ==> a.tensors[k] != [])
    ensures var ts := Rejoined(k, ChunksAt(a.tensors, k), Joins(kind, op));
            var (a1, out) := Step(a, kind, op);
            && (out.Some? <==> Hands(kind, op))
            && (k in a1.tensors ==> a1.tensors[k] != []) && (k in a1.metadata <==> k in a.metadata)
            && ChunksAt(a1.tensors, k) == (if Drains(kind, k) && Hands(kind, op) then [] else ts)
            && (out.Some? ==> PieceAt(out.value, k) == if k in a.metadata then [] else ts)
  {
    hide Joined;
  }

  ghost predicate LedgerOf(a: Acc, kind: Kind, outs: seq<Snapshot>, k: string, vs: seq<Value>, lost: bool) {
    && (k in a.tensors ==> a.tensors[k] != [])
    && Ledger(ChunksAt(a.tensors, k), if Drains(kind, k) then Pieces(outs, k) else [], k in a.metadata, vs, !Drains(kind, k), lost)
  }

  /** Audio whose frames disagree is flattened, so its slices are counted otherwise. */
  predicate Countable(k: string, vs: seq<Value>) {
    k == "audio" ==> FramesAgree(TensorsIn(vs))
  }

  lemma AddLedger(a: Acc, kind: Kind, outs: seq<Snapshot>, k: string, vs: seq<Value>, lost: bool, op: Op)
    requires LedgerOf(a, kind, outs, k, vs, lost) && op.AddOp?
    ensures var b := Brought(a, op, k);
            LedgerOf(Step(a, kind, op).0, kind, outs, k, vs + (if b.Some? then [b.value] else []), lost)
  {
    hide Incoming, Ledger, Merge, Pieces;
    var b := Brought(a, op, k);
    MergeAt(a.(mmType := TypeAfter(a, op.mmType)), Incoming(a, op.items, op.mmType), k);
    if b.Some? {
      LedgerAdd(ChunksAt(a.tensors, k), if Drains(kind, k) then Pieces(outs, k) else [], k in a.metadata, vs, !Drains(kind, k), lost, b.value);
    } else {
      assert vs + [] == vs && ChunksAt(a.tensors, k) + [] == ChunksAt(a.tensors, k);
    }
  }

  lemma RejoinLedger(k: string, waiting: seq<Tensor>, handed: seq<Slice>, shadowed: bool, vs: seq<Value>, whole: bool, lost: bool, joins: bool)
    requires Ledger(waiting, handed, shadowed, vs, whole, lost) && Countable(k, vs)
    ensures Ledger(Rejoined(k, waiting, joins), handed, shadowed, vs, whole, lost || (joins && Lossy(waiting)))
    ensures (joins && Lossy(waiting)) || (Slices(Rejoined(k, waiting, joins)) == [] <==> Slices(waiting) == [])
  {
    hide HasOther, Slices, TensorsIn, Joined, Real, Ledger, Fits;
    if joins && waiting != [] {
      AudioFits(k, waiting, handed, shadowed, vs, whole, lost);
      LedgerJoin(k, waiting, handed, shadowed, vs, whole, lost);
      JoinKeepsIff(k, waiting);
    } else {
      assert waiting == [] ==> !Lossy(waiting);
    }
  }

  lemma AudioFits(k: string, waiting: seq<Tensor>, handed: seq<Slice>, shadowed: bool, vs: seq<Value>, whole: bool, lost: bool)
    requires Ledger(waiting, handed, shadowed, vs, whole, lost) && Countable(k, vs)
    ensures k == "audio" ==> FramesAgree(waiting)
  {
    hide HasOther, Slices, TensorsIn, Real;
  }

  lemma CallLedger(a: Acc, kind: Kind, outs: seq<Snapshot>, k: string, vs: seq<Value>, lost: bool, op: Op)
    requires LedgerOf(a, kind, outs, k, vs, lost) && op.OutputOp? && Countable(k, vs)
    ensures var (a1, out) := Step(a, kind, op);
            LedgerOf(a1, kind, outs + (if out.Some? then [out.value] else []), k, vs,
                     lost || LosesNow(kind, k, op, ChunksAt(a.tensors, k), HasOther(vs)))
  {
    hide Step, Joined, Pieces, HasOther, Ledger, Rejoined, Countable, Lossy, Slices, Joins, Hands, PieceAt;
    var w := ChunksAt(a.tensors, k);
    var ts := Rejoined(k, w, Joins(kind, op));
    var shadowed := k in a.metadata;
    var handed := if Drains(kind, k) then Pieces(outs, k) else [];
    var lost1 := lost || (Joins(kind, op) && Lossy(w));
    OutputAt(a, kind, k, op);
    Shadowed(w, handed, shadowed, vs, !Drains(kind, k), lost);
    RejoinLedger(k, w, handed, shadowed, vs, !Drains(kind, k), lost, Joins(kind, op));
    var out := Step(a, kind, op).1;
    assert outs + [] == outs;
    if out.Some? {
      PiecesAppend(outs, out.value, k);
      NoneSliced();
      if Drains(kind, k) {
        LedgerHand(ts, handed, shadowed, vs, lost1);
      }
    }
  }

  lemma NoneSliced()
    ensures Slices([]) == []
  {
  }

  lemma Shadowed(waiting: seq<Tensor>, handed: seq<Slice>, shadowed: bool, vs: seq<Value>, whole: bool, lost: bool)
    requires Ledger(waiting, handed, shadowed, vs, whole, lost)
    ensures shadowed <==> HasOther(vs)
  {
    hide HasOther, Slices, TensorsIn, Fits;
  }

  lemma StepLedger(a: Acc, kind: Kind, outs: seq<Snapshot>, k: string, vs: seq<Value>, lost: bool, op: Op)
    requires LedgerOf(a, kind, outs, k, vs, lost) && Countable(k, vs)
    ensures var b := Brought(a, op, k);
            var (a1, out) := Step(a, kind, op);
            LedgerOf(a1, kind, outs + (if out.Some? then [out.value] else []), k, vs + (if b.Some? then [b.value] else []),
                     lost || LosesNow(kind, k, op, ChunksAt(a.tensors, k), HasOther(vs)))
  {
    hide LedgerOf, Slices, HasOther, Countable, Lossy, Add, Output, Incoming;
    assert outs + [] == outs && vs + [] == vs;
    if op.AddOp? {
      AddLedger(a, kind, outs, k, vs, lost, op);
    } else {
      CallLedger(a, kind, outs, k, vs, lost, op);
    }
  }

  // ---- over runs -------------------------------------------------------------------------------

  lemma FewerCountable(k: string, vs: seq<Value>, b: Option<Value>)
    requires Countable(k, vs + if b.Some? then [b.value] else [])
    ensures Countable(k, vs)
  {
    hide FramesAgree;
    FewerFrames(vs, b);
  }

  lemma FewerFrames(vs: seq<Value>, b: Option<Value>)
    ensures FramesAgree(TensorsIn(vs + if b.Some? then [b.value] else [])) ==> FramesAgree(TensorsIn(vs))
  {
    hide FramesAgree, HasOther, TensorsIn;
    if b.Some? {
      TensorsInAppend(vs, b.value);
      if b.value.TensorValue? && FramesAgree(TensorsIn(vs) + [b.value.t]) {
        FewerAgree(TensorsIn(vs), b.value.t);
      } else {
        assert TensorsIn(vs) + [] == TensorsIn(vs);
      }
    } else {
      assert vs + [] == vs;
    }
  }

  lemma RunUnfolds(kind: Kind, ops: seq<Op>, k: string)
    requires ops != []
    ensures var n := |ops| - 1;
            var a := State(kind, ops[..n]);
            var b := Brought(a, ops[n], k);
            var (a1, out) := Step(a, kind, ops[n]);
            && State(kind, ops) == a1
            && Emitted(kind, ops) == Emitted(kind, ops[..n]) + (if out.Some? then [out.value] else [])
            && Arrived(kind, ops, k) == Arrived(kind, ops[..n], k) + (if b.Some? then [b.value] else [])
  {
    hide Step, Brought;
  }

  /** The ledger holds throughout every run. */
  lemma {:induction false} RunLedger(kind: Kind, ops: seq<Op>, k: string)
    requires Countable(k, Arrived(kind, ops, k))
    ensures LedgerOf(State(kind, ops), kind, Emitted(kind, ops), k, Arrived(kind, ops, k), Loses(kind, ops, k))
  {
    hide LedgerOf, Step, Countable, HasOther, Brought, State, Emitted, Arrived, LosesNow, Loses;
    if ops == [] {
      EmptyLedger(kind, k);
    } else {
      var n := |ops| - 1;
      var a, vs := State(kind, ops[..n]), Arrived(kind, ops[..n], k);
      RunUnfolds(kind, ops, k);
      FewerCountable(k, vs, Brought(a, ops[n], k));
      RunLedger(kind, ops[..n], k);
      LosesStep(kind, ops, k);
      StepLedger(a, kind, Emitted(kind, ops[..n]), k, vs, Loses(kind, ops[..n], k), ops[n]);
    }
  }

  lemma EmptyLedger(kind: Kind, k: string)
    ensures LedgerOf(State(kind, []), kind, Emitted(kind, []), k, Arrived(kind, [], k), Loses(kind, [], k))
  {
    assert ChunksAt(EMPTY.tensors, k) == [];
  }

  /** Frames that agree lose nothing, as long as no metadata comes before a drain. */
  lemma {:induction false} NoLoss(kind: Kind, ops: seq<Op>, k: string)
    requires FramesAgree(TensorsIn(Arrived(kind, ops, k)))
    requires Drains(kind, k) ==> !HasOther(Arrived(kind, ops, k))
    ensures !Loses(kind, ops, k)
  {
    if ops == [] {
    } else {
      hide LedgerOf, Step, FramesAgree, TensorsIn, HasOther, Brought, State, Emitted, Arrived, Slices, Loses, Joins, Hands;
      var n := |ops| - 1;
      var a, vs := State(kind, ops[..n]), Arrived(kind, ops[..n], k);
      var b := Brought(a, ops[n], k);
      RunUnfolds(kind, ops, k);
      FewerFrames(vs, b);
      FewerOthers(vs, b);
      NoLoss(kind, ops[..n], k);
      RunLedger(kind, ops[..n], k);
      WaitingFits(a, kind, Emitted(kind, ops[..n]), k, vs, false);
      LosesStep(kind, ops, k);
    }
  }

  lemma FewerOthers(vs: seq<Value>, b: Option<Value>)
    ensures HasOther(vs) ==> HasOther(vs + if b.Some? then [b.value] else [])
  {
    hide HasOther;
    if b.Some? {
      TensorsInAppend(vs, b.value);
    } else {
      assert vs + [] == vs;
    }
  }

  lemma WaitingFits(a: Acc, kind: Kind, outs: seq<Snapshot>, k: string, vs: seq<Value>, lost: bool)
    requires LedgerOf(a, kind, outs, k, vs, lost) && FramesAgree(TensorsIn(vs))
    ensures FramesAgree(ChunksAt(a.tensors, k))
    ensures !Drains(kind, k) ==> (k in a.tensors <==> TensorsIn(vs) != [])
    ensures !Drains(kind, k) && k in a.tensors ==> FrameOf(a.tensors[k]) == FrameOf(TensorsIn(vs))
  {
    hide HasOther, Slices, TensorsIn, Real, Pieces;
    if FramesAgree(TensorsIn(vs)) {
      assert Fits(ChunksAt(a.tensors, k), TensorsIn(vs), !Drains(kind, k));
    }
  }

  // ---- undrained keys: deferred is eager --------------------------------------------------------

  /** A key that is not drained denotes all its chunks in arrival order exactly if no join met
      chunks that do not fit. */
  lemma WaitsForAllIff(kind: Kind, ops: seq<Op>, k: string)
    requires !Drains(kind, k) && Countable(k, Arrived(kind, ops, k))
    ensures Slices(ChunksAt(State(kind, ops).tensors, k)) == Slices(TensorsIn(Arrived(kind, ops, k))) <==> !Loses(kind, ops, k)
  {
    hide State, Emitted, Arrived, Loses, Countable;
    RunLedger(kind, ops, k);
    LedgerSum(State(kind, ops), kind, Emitted(kind, ops), k, Arrived(kind, ops, k), Loses(kind, ops, k));
  }

  lemma LedgerSum(a: Acc, kind: Kind, outs: seq<Snapshot>, k: string, vs: seq<Value>, lost: bool)
    requires LedgerOf(a, kind, outs, k, vs, lost)
    ensures var handed := if Drains(kind, k) then Pieces(outs, k) else [];
            handed + Slices(ChunksAt(a.tensors, k)) == Slices(TensorsIn(vs)) <==> !lost
  {
    hide HasOther, Pieces, Slices, TensorsIn, Fits;
  }

  /** Deferred lists stand for eager concatenation: whatever was joined or handed out on the
      way, a key that is not drained denotes all its chunks in arrival order, and joining it
      now gives exactly their concatenation. */
  lemma DeferredIsEager(kind: Kind, ops: seq<Op>, k: string)
    requires !Drains(kind, k) && FramesAgree(TensorsIn(Arrived(kind, ops, k)))
    ensures var a := State(kind, ops);
            var all := TensorsIn(Arrived(kind, ops, k));
            && Slices(ChunksAt(a.tensors, k)) == Slices(all)
            && (k in a.tensors <==> all != [])
            && (k in a.tensors ==> k in Consolidate(a).tensors && Consolidate(a).tensors[k] == [Tensor(FrameOf(all), Slices(all))])
  {
    hide State, Emitted, Arrived, Loses, FramesAgree, TensorsIn, HasOther, Joined, LedgerOf, Slices, FrameOf;
    var a := State(kind, ops);
    var all := TensorsIn(Arrived(kind, ops, k));
    NoLoss(kind, ops, k);
    WaitsForAllIff(kind, ops, k);
    RunLedger(kind, ops, k);
    WaitingFits(a, kind, Emitted(kind, ops), k, Arrived(kind, ops, k), false);
    if k in a.tensors {
      Nonempty(a, kind, Emitted(kind, ops), k, Arrived(kind, ops, k), false);
      JoinKeeps(k, a.tensors[k]);
    }
  }

  lemma Nonempty(a: Acc, kind: Kind, outs: seq<Snapshot>, k: string, vs: seq<Value>, lost: bool)
    requires LedgerOf(a, kind, outs, k, vs, lost)
    ensures k in a.tensors ==> a.tensors[k] != []
  {
    hide Ledger;
  }

  /** An output shows all of a key that is not drained exactly if no metadata shadows it and no
      join up to and including its own met chunks that do not fit. */
  lemma OutputShowsAllIff(kind: Kind, ops: seq<Op>, k: string, finished: bool, held: bool)
    requires !Drains(kind, k) && Countable(k, Arrived(kind, ops, k))
    ensures var vs, out := Arrived(kind, ops, k), Output(State(kind, ops), kind, finished, held).1;
            out.Some? ==>
              (Slices(PieceAt(out.value, k)) == Slices(TensorsIn(vs))
               <==> Slices(TensorsIn(vs)) == [] || (!HasOther(vs) && !Loses(kind, ops + [OutputOp(finished, held)], k)))
  {
    hide Output, State, Emitted, Arrived, Loses, Countable, TensorsIn, HasOther, Slices, Ledger, LosesNow, PieceAt, Rejoined, Joins, Hands;
    var a, outs, vs, op := State(kind, ops), Emitted(kind, ops), Arrived(kind, ops, k), OutputOp(finished, held);
    var ts := ChunksAt(a.tensors, k);
    var ops1 := ops + [op];
    assert ops1[..|ops|] == ops && ops1[|ops|] == op;
    RunLedger(kind, ops, k);
    LosesStep(kind, ops1, k);
    LosesNowIs(kind, k, op, ts, HasOther(vs));
    OutputAt(a, kind, k, op);
    Shadowed(ts, [], k in a.metadata, vs, true, Loses(kind, ops, k));
    RejoinLedger(k, ts, [], k in a.metadata, vs, true, Loses(kind, ops, k), Joins(kind, op));
    ShownIff(Rejoined(k, ts, Joins(kind, op)), k in a.metadata, vs, Loses(kind, ops1, k));
    NoneSliced();
  }

  lemma LosesNowIs(kind: Kind, k: string, op: Op, waiting: seq<Tensor>, shadowed: bool)
    requires !Drains(kind, k)
    ensures LosesNow(kind, k, op, waiting, shadowed) <==> Joins(kind, op) && Lossy(waiting)
  {
  }

  lemma ShownIff(ts: seq<Tensor>, shadowed: bool, vs: seq<Value>, lost: bool)
    requires Ledger(ts, [], shadowed, vs, true, lost)
    ensures Slices(ts) == Slices(TensorsIn(vs)) <==> !lost
    ensures Slices(TensorsIn(vs)) == [] ==> !lost
  {
    hide HasOther, Slices, TensorsIn, Fits;
    assert [] + Slices(ts) == Slices(ts);
  }

  /** If all frames agree, only metadata keeps an output from showing everything. */
  lemma OutputShowsAll(kind: Kind, ops: seq<Op>, k: string, finished: bool, held: bool)
    requires !Drains(kind, k) && FramesAgree(TensorsIn(Arrived(kind, ops, k)))
    ensures var vs, out := Arrived(kind, ops, k), Output(State(kind, ops), kind, finished, held).1;
            out.Some? ==> (Slices(PieceAt(out.value, k)) == Slices(TensorsIn(vs)) <==> !HasOther(vs) || Slices(TensorsIn(vs)) == [])
  {
    hide Output, State, Arrived, Loses, FramesAgree, TensorsIn, HasOther, Slices, PieceAt;
    var op := OutputOp(finished, held);
    var ops1 := ops + [op];
    assert ops1[..|ops|] == ops && ops1[|ops|] == op;
    RunUnfolds(kind, ops1, k);
    assert Brought(State(kind, ops), op, k).None?;
    assert Arrived(kind, ops, k) + [] == Arrived(kind, ops, k);
    NoLoss(kind, ops1, k);
    OutputShowsAllIff(kind, ops, k, finished, held);
  }

  // ---- audio: flattened or not, no element is lost ---------------------------------------------

  function Size(frame: seq<nat>): nat {
    if frame == [] then 1 else frame[0] * Size(frame[1..])
  }

  /** Every slice has as many elements as the frame says. */
  predicate Sound(t: Tensor) {
    forall c | 0 <= c < |t.slices| :: |t.slices[c]| == Size(t.frame)
  }

  predicate AllSound(ts: seq<Tensor>) {
    forall i | 0 <= i < |ts| :: Sound(ts[i])
  }

  lemma {:induction false} ConcatSound(ts: seq<Tensor>, frame: seq<nat>)
    requires AllSound(ts) && forall i | 0 <= i < |Real(ts)| :: Real(ts)[i].frame == frame
    ensures Sound(Tensor(frame, Slices(ts)))
  {
    if ts == [] {
    } else {
      var n := |ts| - 1;
      var front, t := ts[..n], ts[n];
      assert Real(ts) == Real(front) + if Skipped(t) then [] else [t];
      assert forall i | 0 <= i < |Real(front)| :: Real(ts)[i] == Real(front)[i];
      ConcatSound(front, frame);
      assert t.slices != [] ==> Real(ts)[|Real(front)|] == t;
    }
  }

  lemma {:induction false} FlatSound(ts: seq<Tensor>)
    ensures Sound(Tensor([], Flat(ts)))
  {
    if ts == [] {
    } else {
      hide Rows;
      var t := ts[|ts| - 1];
      FlatSound(ts[..|ts| - 1]);
      if t.slices != [] {
        RowsSound(t, |t.slices[0]|);
      }
    }
  }

  lemma {:induction false} RowsSound(t: Tensor, n: nat)
    ensures Sound(Tensor([], Rows(t, n)))
  {
    if n == 0 {
    } else {
      RowsSound(t, n - 1);
    }
  }

  lemma AudioJoin(ts: seq<Tensor>)
    requires ts != [] && AllSound(ts)
    ensures AllSound([Joined("audio", ts)]) && Elements(Slices([Joined("audio", ts)])) == Elements(Slices(ts))
  {
    hide Slices, Elements, Flat, Real;
    var j := Joined("audio", ts);
    SlicesOne(j);
    if FramesAgree(ts) {
      ConcatSound(ts, FrameOf(ts));
    } else {
      FlatSound(ts);
      FlatKeepsElements(ts);
    }
  }

  ghost predicate Kept(a: Acc, kind: Kind, outs: seq<Snapshot>, vs: seq<Value>) {
    var handed := if Drains(kind, "audio") then Pieces(outs, "audio") else [];
    var waiting := ChunksAt(a.tensors, "audio");
    && ("audio" in a.tensors ==> waiting != []) && AllSound(waiting)
    && Elements(handed) + Elements(Slices(waiting)) == Elements(Slices(TensorsIn(vs)))
  }

  lemma AddKept(a: Acc, kind: Kind, outs: seq<Snapshot>, vs: seq<Value>, op: Op)
    requires Kept(a, kind, outs, vs) && op.AddOp?
    requires var b := Brought(a, op, "audio"); AllSound(TensorsIn(vs + if b.Some? then [b.value] else []))
    ensures var b := Brought(a, op, "audio");
            Kept(Step(a, kind, op).0, kind, outs, vs + if b.Some? then [b.value] else [])
  {
    hide Incoming, Merge, Pieces, Elements, Slices, TensorsIn, HasOther, Sound;
    var b := Brought(a, op, "audio");
    var waiting, all := ChunksAt(a.tensors, "audio"), TensorsIn(vs);
    MergeAt(a.(mmType := TypeAfter(a, op.mmType)), Incoming(a, op.items, op.mmType), "audio");
    assert vs + [] == vs && waiting + [] == waiting && all + [] == all;
    if b.Some? {
      TensorsInAppend(vs, b.value);
      if b.value.TensorValue? {
        var t := b.value.t;
        assert (all + [t])[|all|] == t;
        SlicesAppend(waiting, [t]);
        SlicesAppend(all, [t]);
        ElementsAppend(Slices(waiting), Slices([t]));
        ElementsAppend(Slices(all), Slices([t]));
      }
    }
  }

  lemma CallKept(a: Acc, kind: Kind, outs: seq<Snapshot>, vs: seq<Value>, op: Op)
    requires Kept(a, kind, outs, vs) && op.OutputOp? && (Drains(kind, "audio") ==> "audio" !in a.metadata)
    ensures var (a1, out) := Step(a, kind, op);
            Kept(a1, kind, outs + (if out.Some? then [out.value] else []), vs)
  {
    hide Step, Joined, Pieces, Elements, Slices, TensorsIn, Sound, Joins, Hands, PieceAt;
    var waiting := ChunksAt(a.tensors, "audio");
    OutputAt(a, kind, "audio", op);
    if waiting != [] {
      AudioJoin(waiting);
    }
    var out := Step(a, kind, op).1;
    assert outs + [] == outs;
    if out.Some? {
      PiecesAppend(outs, out.value, "audio");
      NoneSliced();
      NoElements([]);
      ElementsAppend(Pieces(outs, "audio"), Slices(PieceAt(out.value, "audio")));
    }
  }

  /** Whatever the frames, no element of audio is lost or added over any run, as long as no
      metadata hides a chunk that is drained. */
  lemma {:induction false} AudioKeepsElements(kind: Kind, ops: seq<Op>)
    requires AllSound(TensorsIn(Arrived(kind, ops, "audio")))
    requires Drains(kind, "audio") ==> !HasOther(Arrived(kind, ops, "audio"))
    ensures Kept(State(kind, ops), kind, Emitted(kind, ops), Arrived(kind, ops, "audio"))
  {
    if ops == [] {
      assert ChunksAt(EMPTY.tensors, "audio") == [];
    } else {
      hide Kept, Step, TensorsIn, HasOther, Brought, State, Emitted, Arrived, Slices, AllSound;
      var n := |ops| - 1;
      var a, outs, vs := State(kind, ops[..n]), Emitted(kind, ops[..n]), Arrived(kind, ops[..n], "audio");
      var b := Brought(a, ops[n], "audio");
      RunUnfolds(kind, ops, "audio");
      FewerSound(vs, b);
      FewerOthers(vs, b);
      AudioKeepsElements(kind, ops[..n]);
      if ops[n].AddOp? {
        AddKept(a, kind, outs, vs, ops[n]);
        NoOutput(a, kind, ops[n], "audio");
        assert outs + [] == outs;
      } else {
        MetadataShadows(kind, ops[..n], "audio");
        CallKept(a, kind, outs, vs, ops[n]);
        NoOutput(a, kind, ops[n], "audio");
        assert vs + [] == vs;
      }
    }
  }

  lemma NoOutput(a: Acc, kind: Kind, op: Op, k: string)
    ensures op.AddOp? ==> Step(a, kind, op).1.None?
    ensures op.OutputOp? ==> Brought(a, op, k).None?
  {
  }

  lemma FewerSound(vs: seq<Value>, b: Option<Value>)
    requires AllSound(TensorsIn(vs + if b.Some? then [b.value] else []))
    ensures AllSound(TensorsIn(vs))
  {
    hide Sound, HasOther, TensorsIn;
    if b.Some? {
      TensorsInAppend(vs, b.value);
      var all := TensorsIn(vs + [b.value]);
      assert forall i | 0 <= i < |TensorsIn(vs)| :: all[i] == TensorsIn(vs)[i];
    } else {
      assert vs + [] == vs;
    }
  }

  /** A key has metadata exactly if a value that is not a tensor arrived. */
  lemma MetadataShadows(kind: Kind, ops: seq<Op>, k: string)
    ensures k in State(kind, ops).metadata <==> HasOther(Arrived(kind, ops, k))
  {
    hide State, Arrived;
    MetadataIsLatest(kind, ops, k);
    LatestIffOther(Arrived(kind, ops, k));
  }

  lemma {:induction false} LatestIffOther(vs: seq<Value>)
    ensures Latest(vs).Some? <==> HasOther(vs)
  {
    if vs == [] {
    } else {
      var n := |vs| - 1;
      LatestIffOther(vs[..n]);
      assert forall i | 0 <= i < n :: vs[..n][i] == vs[i];
      assert vs[n].Other? || (HasOther(vs) ==> HasOther(vs[..n]));
    }
  }
}
