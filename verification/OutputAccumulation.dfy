/** Accumulation of multimodal output: tensors are kept as lists and concatenated late;
    in delta mode each emitted output drains the audio and image tensors. */
module OutputAccumulation {

  datatype Option<+T> = None | Some(value: T)

  /** The elements at one index of the concatenation dimension, in row-major order. */
  type Slice = seq<int>

  /** A tensor cut along the dimension it is concatenated on: the other dimensions, and the
      slices. */
  datatype Tensor = Tensor(frame: seq<nat>, slices: seq<Slice>)

  datatype Value = TensorValue(t: Tensor) | Other(id: int)

  const DRAINABLE := {"audio", "image"}

  // ---- concatenation ---------------------------------------------------------------------

  predicate SameFrame(ts: seq<Tensor>) {
    forall i | 0 <= i < |ts| :: ts[i].frame == ts[0].frame
  }

  function Slices(ts: seq<Tensor>): seq<Slice> {
    if ts == [] then [] else Slices(ts[..|ts| - 1]) + ts[|ts| - 1].slices
  }

  /** torch.cat skips one-dimensional empty tensors, whatever the others' shape. */
  predicate Skipped(t: Tensor) {
    t.frame == [] && t.slices == []
  }

  function Real(ts: seq<Tensor>): seq<Tensor> {
    if ts == [] then []
    else Real(ts[..|ts| - 1]) + if Skipped(ts[|ts| - 1]) then [] else [ts[|ts| - 1]]
  }

  /** The tensors can be concatenated. */
  predicate FramesAgree(ts: seq<Tensor>) {
    SameFrame(Real(ts))
  }

  function FrameOf(ts: seq<Tensor>): seq<nat> {
    if Real(ts) == [] then [] else Real(ts)[0].frame
  }

  /** Row r of an audio tensor, whose slices are its columns. */
  function Row(t: Tensor, r: nat): seq<Slice> {
    seq(|t.slices|, c requires 0 <= c < |t.slices| => [if r < |t.slices[c]| then t.slices[c][r] else 0])
  }

  function Rows(t: Tensor, n: nat): seq<Slice> {
    if n == 0 then [] else Rows(t, n - 1) + Row(t, n - 1)
  }

  /** All elements row by row, one to a slice. */
  function Flat(ts: seq<Tensor>): seq<Slice> {
    if ts == [] then []
    else
      var t := ts[|ts| - 1];
      Flat(ts[..|ts| - 1]) + if t.slices == [] then [] else Rows(t, |t.slices[0]|)
  }

  /** One tensor for a list: the concatenation where the frames allow it; else audio is
      flattened and any other key keeps its last tensor. */
  function Joined(k: string, ts: seq<Tensor>): Tensor
    requires ts != []
  {
    if FramesAgree(ts) then Tensor(FrameOf(ts), Slices(ts))
    else if k == "audio" then Tensor([], Flat(ts))
    else ts[|ts| - 1]
  }

  // ---- the accumulator as a value ----------------------------------------------------------

  /** `tensors` holds each key's chunks since they were last joined. */
  datatype Acc = Acc(mmType: Option<string>, tensors: map<string, seq<Tensor>>, metadata: map<string, int>)

  /** What a caller is handed: metadata shadows a tensor of the same key. */
  datatype Piece = Chunks(ts: seq<Tensor>) | Meta(id: int)

  type Snapshot = map<string, Piece>

  /** Producer keys are renamed to the modality; later items win. */
  function Remap(items: seq<(string, Value)>, target: string): map<string, Value> {
    if items == [] then map[]
    else
      var (k, v) := items[|items| - 1];
      Remap(items[..|items| - 1], target)[(if k == "model_outputs" || k == "hidden" then target else k) := v]
  }

  /** str.lower on ASCII letters. */
  function Lower(s: string): (r: string)
    ensures |r| == |s|
  {
    seq(|s|, i requires 0 <= i < |s| => if 'A' <= s[i] <= 'Z' then s[i] - 'A' + 'a' else s[i])
  }

  function TypeAfter(a: Acc, mmType: string): Option<string> {
    if mmType != "" then Some(Lower(mmType)) else a.mmType
  }

  function TargetKey(mmType: Option<string>): string {
    if mmType.Some? && mmType.value != "" then mmType.value else "hidden"
  }

  function Incoming(a: Acc, items: seq<(string, Value)>, mmType: string): map<string, Value> {
    Remap(items, TargetKey(TypeAfter(a, mmType)))
  }

  function ChunksAt(tensors: map<string, seq<Tensor>>, k: string): seq<Tensor> {
    if k in tensors then tensors[k] else []
  }

  function MergeTensors(tensors: map<string, seq<Tensor>>, incoming: map<string, Value>): map<string, seq<Tensor>> {
    map k | k in tensors.Keys + incoming.Keys && (k in tensors || incoming[k].TensorValue?) ::
      if k in incoming && incoming[k].TensorValue? then ChunksAt(tensors, k) + [incoming[k].t] else tensors[k]
  }

  function MergeMetadata(metadata: map<string, int>, incoming: map<string, Value>): map<string, int> {
    map k | k in metadata.Keys + incoming.Keys && (k in metadata || incoming[k].Other?) ::
      if k in incoming && incoming[k].Other? then incoming[k].id else metadata[k]
  }

  function Merge(a: Acc, incoming: map<string, Value>): Acc {
    a.(tensors := MergeTensors(a.tensors, incoming), metadata := MergeMetadata(a.metadata, incoming))
  }

  function Add(a: Acc, items: seq<(string, Value)>, mmType: string): Acc {
    Merge(a.(mmType := TypeAfter(a, mmType)), Incoming(a, items, mmType))
  }

  function Consolidate(a: Acc): Acc {
    a.(tensors := map k | k in a.tensors && a.tensors[k] != [] :: [Joined(k, a.tensors[k])])
  }

  function SnapshotOf(a: Acc): Snapshot {
    map k | k in a.tensors.Keys + a.metadata.Keys :: if k in a.metadata then Meta(a.metadata[k]) else Chunks(a.tensors[k])
  }

  function Drain(a: Acc, delta: bool): Acc {
    if delta then a.(tensors := a.tensors - DRAINABLE) else a
  }

  datatype Kind = Delta | Cumulative | FinalOnly

  /** One make_request_output call: `held` is the stream interval's verdict. */
  function Output(a: Acc, kind: Kind, finished: bool, held: bool): (Acc, Option<Snapshot>) {
    if !finished && kind.FinalOnly? then (a, None)
    else
      var b := if finished || !kind.Delta? then Consolidate(a) else a;
      if held && !finished then (b, None)
      else if b.tensors == map[] && b.metadata == map[] then (b, Some(map[]))
      else (Drain(b, kind.Delta?), Some(SnapshotOf(b)))
  }

  // ---- runs -----------------------------------------------------------------------------------

  datatype Op =
    | AddOp(items: seq<(string, Value)>, mmType: string)
    | OutputOp(finished: bool, held: bool)

  function Step(a: Acc, kind: Kind, op: Op): (Acc, Option<Snapshot>) {
    match op
    case AddOp(items, mmType) => (Add(a, items, mmType), None)
    case OutputOp(finished, held) => Output(a, kind, finished, held)
  }

  /** The call joins every key's chunks. */
  predicate Joins(kind: Kind, op: Op) {
    op.OutputOp? && (op.finished || kind.Cumulative?)
  }

  /** The call hands out an output. */
  predicate Hands(kind: Kind, op: Op) {
    op.OutputOp? && (op.finished || (!op.held && !kind.FinalOnly?))
  }

  predicate Drains(kind: Kind, k: string) {
    kind.Delta? && k in DRAINABLE
  }

  /** What a step brings in under a key. */
  function Brought(a: Acc, op: Op, k: string): Option<Value> {
    if op.AddOp? && k in Incoming(a, op.items, op.mmType) then Some(Incoming(a, op.items, op.mmType)[k]) else None
  }

  const EMPTY := Acc(None, map[], map[])

  function State(kind: Kind, ops: seq<Op>): Acc {
    if ops == [] then EMPTY else Step(State(kind, ops[..|ops| - 1]), kind, ops[|ops| - 1]).0
  }

  /** Values added under a key, in arrival order. */
  function Arrived(kind: Kind, ops: seq<Op>, k: string): seq<Value> {
    if ops == [] then []
    else
      var b := Brought(State(kind, ops[..|ops| - 1]), ops[|ops| - 1], k);
      Arrived(kind, ops[..|ops| - 1], k) + if b.Some? then [b.value] else []
  }

  /** The tensors among the values, in order. */
  function TensorsIn(vs: seq<Value>): seq<Tensor> {
    if vs == [] then []
    else
      var v := vs[|vs| - 1];
      TensorsIn(vs[..|vs| - 1]) + if v.TensorValue? then [v.t] else []
  }

  predicate HasOther(vs: seq<Value>) {
    exists i :: 0 <= i < |vs| && vs[i].Other?
  }

  /** The outputs handed out, in order. */
  function Emitted(kind: Kind, ops: seq<Op>): seq<Snapshot> {
    if ops == [] then []
    else
      var out := Step(State(kind, ops[..|ops| - 1]), kind, ops[|ops| - 1]).1;
      Emitted(kind, ops[..|ops| - 1]) + if out.Some? then [out.value] else []
  }

  function PieceAt(s: Snapshot, k: string): seq<Tensor> {
    if k in s && s[k].Chunks? then s[k].ts else []
  }

  /** The slices of a key over a sequence of outputs. */
  function Pieces(outs: seq<Snapshot>, k: string): seq<Slice> {
    if outs == [] then [] else Pieces(outs[..|outs| - 1], k) + Slices(PieceAt(outs[|outs| - 1], k))
  }

  // ---- lemmas on slices ---------------------------------------------------------------------

  lemma {:induction false} SlicesAppend(a: seq<Tensor>, b: seq<Tensor>)
    ensures Slices(a + b) == Slices(a) + Slices(b)
  {
    if b == [] {
      assert a + b == a;
    } else {
      assert (a + b)[..|a + b| - 1] == a + b[..|b| - 1];
      SlicesAppend(a, b[..|b| - 1]);
    }
  }

  lemma SlicesOne(t: Tensor)
    ensures Slices([t]) == t.slices
  {
    assert [t][..0] == [];
  }

  lemma TensorsInAppend(vs: seq<Value>, v: Value)
    ensures TensorsIn(vs + [v]) == TensorsIn(vs) + if v.TensorValue? then [v.t] else []
    ensures HasOther(vs + [v]) <==> HasOther(vs) || v.Other?
  {
    var vs1 := vs + [v];
    assert vs1[..|vs|] == vs && vs1[|vs|] == v;
    if i :| 0 <= i < |vs| && vs[i].Other? {
      assert vs1[i].Other?;
    }
  }

  lemma RealAppend(ts: seq<Tensor>, t: Tensor)
    ensures Real(ts + [t]) == Real(ts) + if Skipped(t) then [] else [t]
  {
    assert (ts + [t])[..|ts|] == ts;
  }

  lemma RealOne(t: Tensor)
    ensures Real([t]) == if Skipped(t) then [] else [t]
  {
    assert [t][..0] == [];
  }

  lemma PiecesAppend(outs: seq<Snapshot>, s: Snapshot, k: string)
    ensures Pieces(outs + [s], k) == Pieces(outs, k) + Slices(PieceAt(s, k))
  {
    assert (outs + [s])[..|outs|] == outs;
  }

  /** How merging changes one key. */
  lemma MergeAt(a: Acc, incoming: map<string, Value>, k: string)
    ensures var a1 := Merge(a, incoming);
            && ChunksAt(a1.tensors, k) == ChunksAt(a.tensors, k) + (if k in incoming && incoming[k].TensorValue? then [incoming[k].t] else [])
            && (k in a1.metadata <==> k in a.metadata || (k in incoming && incoming[k].Other?))
            && (k in a1.metadata ==> a1.metadata[k] == if k in incoming && incoming[k].Other? then incoming[k].id else a.metadata[k])
            && (k in a1.tensors && (k in a.tensors ==> a.tensors[k] != []) ==> a1.tensors[k] != [])
  {
  }

  // ---- joining -------------------------------------------------------------------------------

  /** Tensors that fit are joined to their concatenation. */
  lemma JoinKeeps(k: string, ts: seq<Tensor>)
    requires ts != [] && FramesAgree(ts)
    ensures Joined(k, ts) == Tensor(FrameOf(ts), Slices(ts)) && Slices([Joined(k, ts)]) == Slices(ts)
  {
    hide FramesAgree, FrameOf, Slices;
    SlicesOne(Joined(k, ts));
  }

  lemma {:induction false} NoSlices(ts: seq<Tensor>)
    ensures Slices(ts) == [] <==> forall i | 0 <= i < |ts| :: ts[i].slices == []
  {
    if ts == [] {
    } else {
      NoSlices(ts[..|ts| - 1]);
    }
  }

  /** Joining drops slices: the frames disagree, and not only the last tensor has any. */
  predicate Lossy(ts: seq<Tensor>) {
    !FramesAgree(ts) && exists i :: 0 <= i < |ts| - 1 && ts[i].slices != []
  }

  /** Joining a key other than audio keeps every slice exactly when the frames agree or only
      the last tensor has any; it never invents one. */
  lemma JoinKeepsIff(k: string, ts: seq<Tensor>)
    requires ts != [] && (k == "audio" ==> FramesAgree(ts))
    ensures Slices([Joined(k, ts)]) == Slices(ts) <==> !Lossy(ts)
    ensures |Slices([Joined(k, ts)])| <= |Slices(ts)|
    ensures |Slices([Joined(k, ts)])| == |Slices(ts)| <==> !Lossy(ts)
  {
    hide FramesAgree;
    if FramesAgree(ts) {
      JoinKeeps(k, ts);
    } else {
      var front, last := ts[..|ts| - 1], ts[|ts| - 1];
      SlicesOne(last);
      NoSlices(front);
      assert Slices(ts) == Slices(front) + last.slices;
      assert forall i | 0 <= i < |front| :: front[i] == ts[i];
      if Slices(front) == [] {
        assert Slices(ts) == last.slices;
      }
    }
  }

  // ---- flattening keeps every element ----------------------------------------------------------

  function Elements(slices: seq<Slice>): multiset<int> {
    if slices == [] then multiset{} else Elements(slices[..|slices| - 1]) + multiset(slices[|slices| - 1])
  }

  function Heads(slices: seq<Slice>, n: nat): (h: seq<Slice>)
    requires Tall(slices, n)
    ensures |h| == |slices|
  {
    seq(|slices|, c requires 0 <= c < |slices| => slices[c][..n])
  }

  lemma {:induction false} ElementsAppend(a: seq<Slice>, b: seq<Slice>)
    ensures Elements(a + b) == Elements(a) + Elements(b)
  {
    if b == [] {
      assert a + b == a;
    } else {
      assert (a + b)[..|a + b| - 1] == a + b[..|b| - 1];
      ElementsAppend(a, b[..|b| - 1]);
    }
  }

  lemma {:induction false} NoElements(slices: seq<Slice>)
    requires forall c | 0 <= c < |slices| :: slices[c] == []
    ensures Elements(slices) == multiset{}
  {
    if slices == [] {
    } else {
      NoElements(slices[..|slices| - 1]);
    }
  }

  predicate Tall(slices: seq<Slice>, n: nat) {
    forall c | 0 <= c < |slices| :: n <= |slices[c]|
  }

  lemma ElementsLast(slices: seq<Slice>, s: Slice)
    ensures Elements(slices + [s]) == Elements(slices) + multiset(s)
  {
    assert (slices + [s])[..|slices|] == slices;
  }

  lemma ColumnLast(slices: seq<Slice>, s: Slice, r: nat)
    requires r < |s| && Tall(slices + [s], r + 1) && Tall(slices, r + 1)
    ensures Heads(slices + [s], r + 1) == Heads(slices, r + 1) + [s[..r] + [s[r]]]
    ensures Heads(slices + [s], r) == Heads(slices, r) + [s[..r]]
    ensures Row(Tensor([], slices + [s]), r) == Row(Tensor([], slices), r) + [[s[r]]]
  {
    assert s == (slices + [s])[|slices|];
    assert s[..r + 1] == s[..r] + [s[r]];
  }

  /** One row takes one element of every column. */
  lemma {:induction false} RowElements(slices: seq<Slice>, r: nat)
    requires Tall(slices, r + 1)
    ensures Elements(Heads(slices, r + 1)) == Elements(Heads(slices, r)) + Elements(Row(Tensor([], slices), r))
  {
    if slices == [] {
    } else {
      hide Elements, Heads, Row;
      var n := |slices| - 1;
      var front, last := slices[..n], slices[n];
      assert slices == front + [last] && r < |last|;
      RowElements(front, r);
      ColumnLast(front, last, r);
      ElementsLast(Heads(front, r + 1), last[..r] + [last[r]]);
      ElementsLast(Heads(front, r), last[..r]);
      ElementsLast(Row(Tensor([], front), r), [last[r]]);
    }
  }

  lemma {:induction false} RowsElements(slices: seq<Slice>, n: nat)
    requires Tall(slices, n)
    ensures Elements(Rows(Tensor([], slices), n)) == Elements(Heads(slices, n))
  {
    hide Elements, Heads, Row;
    if n == 0 {
      NoHeads(slices);
    } else {
      RowsElements(slices, n - 1);
      RowElements(slices, n - 1);
      ElementsAppend(Rows(Tensor([], slices), n - 1), Row(Tensor([], slices), n - 1));
    }
  }

  lemma NoHeads(slices: seq<Slice>)
    ensures Elements(Heads(slices, 0)) == Elements([])
  {
    NoElements(Heads(slices, 0));
  }

  /** All columns of a tensor are equally long. */
  predicate Rectangular(t: Tensor) {
    forall c | 0 <= c < |t.slices| :: |t.slices[c]| == |t.slices[0]|
  }

  lemma {:induction false} SameRows(t: Tensor, n: nat)
    ensures Rows(t, n) == Rows(Tensor([], t.slices), n)
  {
    if n == 0 {
    } else {
      SameRows(t, n - 1);
    }
  }

  lemma AllHeads(slices: seq<Slice>, h: nat)
    requires forall c | 0 <= c < |slices| :: |slices[c]| == h
    ensures Tall(slices, h) && Heads(slices, h) == slices
  {
    assert forall c | 0 <= c < |slices| :: slices[c][..h] == slices[c];
  }

  lemma OneKeepsElements(t: Tensor)
    requires Rectangular(t) && t.slices != []
    ensures Elements(Rows(t, |t.slices[0]|)) == Elements(t.slices)
  {
    hide Elements, Rows;
    var h := |t.slices[0]|;
    SameRows(t, h);
    RowsElements(t.slices, h);
    AllHeads(t.slices, h);
  }

  /** Flattened audio has exactly the elements of the tensors flattened, one to a slice. */
  lemma {:induction false} FlatKeepsElements(ts: seq<Tensor>)
    requires forall i | 0 <= i < |ts| :: Rectangular(ts[i])
    ensures Elements(Flat(ts)) == Elements(Slices(ts))
  {
    hide Elements, Rows, Rectangular;
    if ts == [] {
      assert Flat(ts) == Slices(ts);
    } else {
      var n := |ts| - 1;
      var t := ts[n];
      FlatKeepsElements(ts[..n]);
      ElementsAppend(Slices(ts[..n]), t.slices);
      if t.slices == [] {
        assert Slices(ts) == Slices(ts[..n]) && Flat(ts) == Flat(ts[..n]);
      } else {
        OneKeepsElements(t);
        ElementsAppend(Flat(ts[..n]), Rows(t, |t.slices[0]|));
      }
    }
  }

  lemma {:induction false} RowsAt(t: Tensor, n: nat, r: nat, c: nat, w: nat)
    requires r < n && c < w == |t.slices|
    ensures |Rows(t, n)| == n * w && 0 <= r * w + c < n * w
    ensures Rows(t, n)[r * w + c] == Row(t, r)[c]
  {
    hide Row;
    assert n * w == (n - 1) * w + w;
    RowLength(t, n - 1);
    if n == 1 {
      assert Rows(t, 0) == [] && r * w == 0;
    } else if r == n - 1 {
      RowsAt(t, n - 1, 0, 0, w);
    } else {
      RowsAt(t, n - 1, r, c, w);
    }
  }

  lemma RowLength(t: Tensor, r: nat)
    ensures |Row(t, r)| == |t.slices|
  {
  }

  lemma {:induction false} FlatExtends(ts: seq<Tensor>, n: nat)
    requires n <= |ts|
    ensures Flat(ts[..n]) <= Flat(ts)
  {
    hide Rows;
    if n == |ts| {
      assert ts[..n] == ts;
    } else {
      FlatExtends(ts[..|ts| - 1], n);
      assert ts[..|ts| - 1][..n] == ts[..n];
    }
  }

  lemma FlatPart(ts: seq<Tensor>, i: nat, x: nat)
    requires i < |ts| && ts[i].slices != [] && x < |Rows(ts[i], |ts[i].slices[0]|)|
    ensures |Flat(ts[..i])| + x < |Flat(ts)| && Flat(ts)[|Flat(ts[..i])| + x] == Rows(ts[i], |ts[i].slices[0]|)[x]
  {
    hide Rows;
    FlatExtends(ts, i + 1);
    assert ts[..i + 1][..i] == ts[..i];
    assert Flat(ts[..i + 1]) == Flat(ts[..i]) + Rows(ts[i], |ts[i].slices[0]|);
  }

  /** Flattened audio lists the tensors one after another, each row by row: this is where row r of
      column c of tensor i stands. */
  lemma FlatAt(ts: seq<Tensor>, i: nat, r: nat, c: nat, x: nat)
    requires i < |ts| && c < |ts[i].slices| && r < |ts[i].slices[0]| && r < |ts[i].slices[c]|
    requires x == r * |ts[i].slices| + c
    ensures |Flat(ts[..i])| + x < |Flat(ts)| && Flat(ts)[|Flat(ts[..i])| + x] == [ts[i].slices[c][r]]
  {
    hide Rows, Flat;
    RowsAt(ts[i], |ts[i].slices[0]|, r, c, |ts[i].slices|);
    FlatPart(ts, i, x);
  }

  // ---- metadata ------------------------------------------------------------------------------

  /** The last value of a key that is not a tensor. */
  function Latest(vs: seq<Value>): Option<int> {
    if vs == [] then None
    else if vs[|vs| - 1].Other? then Some(vs[|vs| - 1].id)
    else Latest(vs[..|vs| - 1])
  }

  function MetaAt(a: Acc, k: string): Option<int> {
    if k in a.metadata then Some(a.metadata[k]) else None
  }

  lemma LatestAppend(vs: seq<Value>, v: Value)
    ensures Latest(vs + [v]) == if v.Other? then Some(v.id) else Latest(vs)
  {
    assert (vs + [v])[..|vs|] == vs;
  }

  lemma StepMetadata(a: Acc, kind: Kind, op: Op, k: string)
    ensures var b := Brought(a, op, k);
            MetaAt(Step(a, kind, op).0, k) == if b.Some? && b.value.Other? then Some(b.value.id) else MetaAt(a, k)
  {
    hide Incoming, Joined;
    if op.AddOp? {
      hide Merge;
      MergeAt(a.(mmType := TypeAfter(a, op.mmType)), Incoming(a, op.items, op.mmType), k);
    }
  }

  /** Metadata is always the latest value. */
  lemma {:induction false} MetadataIsLatest(kind: Kind, ops: seq<Op>, k: string)
    ensures MetaAt(State(kind, ops), k) == Latest(Arrived(kind, ops, k))
  {
    if ops != [] {
      hide Step, Brought, MetaAt, Latest;
      var n := |ops| - 1;
      MetadataIsLatest(kind, ops[..n], k);
      var a, vs := State(kind, ops[..n]), Arrived(kind, ops[..n], k);
      StepMetadata(a, kind, ops[n], k);
      var b := Brought(a, ops[n], k);
      if b.Some? {
        LatestAppend(vs, b.value);
      } else {
        assert vs + [] == vs;
      }
    } else {
      assert MetaAt(EMPTY, k) == None;
    }
  }

  /** An output in the middle of a run hands out a drained key's waiting chunks exactly when
      no value that is not a tensor shadows them; either way they are gone afterwards. */
  lemma DeliversIffUnshadowed(a: Acc, k: string)
    requires k in DRAINABLE && k in a.tensors
    ensures var (a1, out) := Output(a, Delta, false, false);
            && out.Some? && k !in a1.tensors
            && (PieceAt(out.value, k) == a.tensors[k] <==> k !in a.metadata || a.tensors[k] == [])
  {
    hide Consolidate;
  }
}
