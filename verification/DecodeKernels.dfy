/** The three decode kernels, one program (grid cell) at a time.  Only lanes below
    KV_GROUP are run: lanes masked by `mask_h` never reach memory. */
module DecodeKernels {
  import opened Arithmetic
  import opened OnlineSoftmax
  import opened DecodeProblem

  // ---- state shared by the two streaming kernels ---------------------------

  /** Lane i of KV head g has streamed tokens [begin, begin + width). */
  ghost predicate Streamed(e: real -> real, p: Problem, b: nat, g: nat, begin: nat, width: nat, lanes: seq<Lane>)
    requires Ready(p) && b < p.batch && g < p.numKv
  {
    && |lanes| == Group(p)
    && forall i | 0 <= i < |lanes| :: LaneStreamed(e, p, b, g, i, begin, width, lanes[i])
  }

  ghost predicate LaneStreamed(e: real -> real, p: Problem, b: nat, g: nat, i: nat, begin: nat, width: nat, lane: Lane)
    requires Ready(p) && b < p.batch && g < p.numKv && i < Group(p)
  {
    HeadInRange(g, p.numKv, Group(p), i);
    Summarises(e, lane, BlockLogits(p, b, g * Group(p) + i, begin, width), BlockRows(p, b, g, begin, width), HEAD_DIM)
  }

  /** One iteration of the block loop over all lanes.  The first column is live or
      some earlier one was, so no lane computes exp(-inf - -inf). */
  method StreamBlock(e: real -> real, p: Problem, b: nat, g: nat, ghost begin: nat, cur: nat, lanes: seq<Lane>)
    returns (next: seq<Lane>)
    requires IsExp(e) && Ready(p) && b < p.batch && g < p.numKv
    requires begin < p.lens[b] && begin <= cur
    requires Streamed(e, p, b, g, begin, cur - begin, lanes)
    ensures Streamed(e, p, b, g, begin, cur - begin + BLOCK_N, next)
  {
    var grp := Group(p);
    hide LaneStreamed, BlockLogits, BlockRows, MaxOf, Absorb;
    forall i | 0 <= i < grp
      ensures g * grp + i < p.numQ
      ensures |lanes[i].acc| == HEAD_DIM
      ensures MaxL(lanes[i].m, MaxOf(BlockLogits(p, b, g * grp + i, cur, BLOCK_N))).Fin?
    {
      LaneReady(e, p, b, g, i, begin, cur, lanes[i]);
    }
    var rows := BlockRows(p, b, g, cur, BLOCK_N);
    next := seq(grp, i requires 0 <= i < grp =>
      Absorb(e, lanes[i], BlockLogits(p, b, g * grp + i, cur, BLOCK_N), rows, HEAD_DIM));
    forall i | 0 <= i < grp
      ensures LaneStreamed(e, p, b, g, i, begin, cur - begin + BLOCK_N, next[i])
    {
      LaneAbsorbs(e, p, b, g, i, begin, cur, lanes[i]);
    }
  }

  lemma LaneReady(e: real -> real, p: Problem, b: nat, g: nat, i: nat, begin: nat, cur: nat, lane: Lane)
    requires Ready(p) && b < p.batch && g < p.numKv && i < Group(p) && begin < p.lens[b] && begin <= cur
    requires LaneStreamed(e, p, b, g, i, begin, cur - begin, lane)
    ensures g * Group(p) + i < p.numQ && |lane.acc| == HEAD_DIM
    ensures MaxL(lane.m, MaxOf(BlockLogits(p, b, g * Group(p) + i, cur, BLOCK_N))).Fin?
  {
    HeadInRange(g, p.numKv, Group(p), i);
    if cur == begin {
      MaxOfFinite(BlockLogits(p, b, g * Group(p) + i, cur, BLOCK_N), 0);
    } else {
      MaxOfFinite(BlockLogits(p, b, g * Group(p) + i, begin, cur - begin), 0);
    }
  }

  lemma LaneAbsorbs(e: real -> real, p: Problem, b: nat, g: nat, i: nat, begin: nat, cur: nat, lane: Lane)
    requires IsExp(e) && Ready(p) && b < p.batch && g < p.numKv && i < Group(p) && begin < p.lens[b] && begin <= cur
    requires LaneStreamed(e, p, b, g, i, begin, cur - begin, lane)
    ensures g * Group(p) + i < p.numQ && |lane.acc| == HEAD_DIM
    ensures MaxL(lane.m, MaxOf(BlockLogits(p, b, g * Group(p) + i, cur, BLOCK_N))).Fin?
    ensures LaneStreamed(e, p, b, g, i, begin, cur - begin + BLOCK_N,
                         Absorb(e, lane, BlockLogits(p, b, g * Group(p) + i, cur, BLOCK_N), BlockRows(p, b, g, cur, BLOCK_N), HEAD_DIM))
  {
    hide BlockLogits, BlockRows, MaxOf, Absorb;
    LaneReady(e, p, b, g, i, begin, cur, lane);
    HeadInRange(g, p.numKv, Group(p), i);
    var h := g * Group(p) + i;
    AbsorbSummarises(e, lane, BlockLogits(p, b, h, begin, cur - begin), BlockRows(p, b, g, begin, cur - begin),
                     BlockLogits(p, b, h, cur, BLOCK_N), BlockRows(p, b, g, cur, BLOCK_N), HEAD_DIM);
    BlocksConcat(p, b, h, g, begin, cur - begin, BLOCK_N);
    assert begin + (cur - begin) == cur;
  }

  function InitLanes(p: Problem): seq<Lane>
    requires Supported(p)
  {
    seq(Group(p), _ => EmptyLane(HEAD_DIM))
  }

  /** A range without live tokens is summarised by the stored (-inf, 0, 0). */
  lemma EmptyRangeStreamed(e: real -> real, p: Problem, b: nat, g: nat, begin: nat, width: nat)
    requires Ready(p) && b < p.batch && g < p.numKv
    requires p.lens[b] <= begin || width == 0
    ensures Streamed(e, p, b, g, begin, width, InitLanes(p))
  {
    forall i | 0 <= i < Group(p)
      ensures LaneStreamed(e, p, b, g, i, begin, width, InitLanes(p)[i])
    {
      HeadInRange(g, p.numKv, Group(p), i);
      MaxOfMasked(BlockLogits(p, b, g * Group(p) + i, begin, width));
    }
  }

  // ---- stores into OUT -----------------------------------------------------

  /** First row of the tile written by program (b, g). */
  function TileBase(p: Problem, b: nat, g: nat): nat
    requires Supported(p)
  {
    b * p.numQ + g * Group(p)
  }

  ghost predicate OutHolds(e: real -> real, p: Problem, b: nat, h: nat, out: seq<real>)
    requires IsExp(e) && Ready(p) && b < p.batch && h < p.numQ && |out| == p.batch * p.numQ * HEAD_DIM
  {
    forall d | 0 <= d < HEAD_DIM ::
      QOffsetInRange(p, b, h, d);
      out[QOffset(p, b, h, d)] == Attention(e, p, b, h, d)
  }

  /** Row r of a flat (rows, 128) tensor holds the finished lane. */
  ghost predicate RowHolds(out: seq<real>, r: nat, lane: Lane) {
    && |lane.acc| == HEAD_DIM
    && (r + 1) * HEAD_DIM <= |out|
    && forall d {:trigger Finish(lane, d)} | 0 <= d < HEAD_DIM :: out[r * HEAD_DIM + d] == Finish(lane, d)
  }

  /** Everything outside [lo, hi) is as before. */
  ghost predicate Kept<T>(before: seq<T>, after: seq<T>, lo: nat, hi: nat) {
    && |before| == |after|
    && forall x | 0 <= x < |after| :: x < lo || hi <= x ==> after[x] == before[x]
  }

  /** Everything outside rows [r, r + count) of a (rows, 128) tensor is as before. */
  ghost predicate OnlyRows(before: seq<real>, after: seq<real>, r: nat, count: nat) {
    Kept(before, after, r * HEAD_DIM, (r + count) * HEAD_DIM)
  }

  method StoreRow(p: Problem, b: nat, h: nat, lane: Lane, out: array<real>)
    requires b < p.batch && h < p.numQ
    requires out.Length == p.batch * p.numQ * HEAD_DIM
    requires |lane.acc| == HEAD_DIM
    modifies out
    ensures RowHolds(out[..], RowOf(p, b, h), lane)
    ensures OnlyRows(old(out[..]), out[..], RowOf(p, b, h), 1)
  {
    ghost var r := RowOf(p, b, h);
    QOffsetInRange(p, b, h, 0);
    for d := 0 to HEAD_DIM
      invariant forall d' {:trigger Finish(lane, d')} | 0 <= d' < d :: out[r * HEAD_DIM + d'] == Finish(lane, d')
      invariant OnlyRows(old(out[..]), out[..], r, 1)
    {
      out[QOffset(p, b, h, d)] := Finish(lane, d);
    }
  }

  method StoreTile(p: Problem, b: nat, g: nat, lanes: seq<Lane>, out: array<real>)
    requires Ready(p) && b < p.batch && g < p.numKv
    requires out.Length == p.batch * p.numQ * HEAD_DIM
    requires |lanes| == Group(p) && forall i | 0 <= i < |lanes| :: |lanes[i].acc| == HEAD_DIM
    modifies out
    ensures forall i | 0 <= i < |lanes| :: RowHolds(out[..], TileBase(p, b, g) + i, lanes[i])
    ensures OnlyRows(old(out[..]), out[..], TileBase(p, b, g), Group(p))
  {
    ghost var base := TileBase(p, b, g);
    for i := 0 to Group(p)
      invariant forall i' | 0 <= i' < i :: RowHolds(out[..], base + i', lanes[i'])
      invariant OnlyRows(old(out[..]), out[..], base, Group(p))
    {
      ghost var prev := out[..];
      HeadInRange(g, p.numKv, Group(p), i);
      StoreRow(p, b, g * Group(p) + i, lanes[i], out);
      forall i' | 0 <= i' < i
        ensures RowHolds(out[..], base + i', lanes[i'])
      {
        RowKept(prev, out[..], base + i, 1, base + i', lanes[i']);
      }
    }
  }

  lemma RowKept(before: seq<real>, after: seq<real>, r: nat, count: nat, r': nat, lane: Lane)
    requires OnlyRows(before, after, r, count) && (r' < r || r + count <= r')
    requires RowHolds(before, r', lane)
    ensures RowHolds(after, r', lane)
  {
    forall d | 0 <= d < HEAD_DIM
      ensures after[r' * HEAD_DIM + d] == Finish(lane, d)
    {
      assert after[r' * HEAD_DIM + d] == before[r' * HEAD_DIM + d];
    }
  }

  /** Lanes covering the sequence, once stored, leave attention in the program's tile. */
  lemma TileHolds(e: real -> real, p: Problem, b: nat, g: nat, width: nat, lanes: seq<Lane>, out: seq<real>)
    requires IsExp(e) && Ready(p) && b < p.batch && g < p.numKv && |out| == p.batch * p.numQ * HEAD_DIM
    requires p.lens[b] <= width && Streamed(e, p, b, g, 0, width, lanes)
    requires forall i | 0 <= i < |lanes| :: RowHolds(out, TileBase(p, b, g) + i, lanes[i])
    ensures forall h | 0 <= h < p.numQ && h / Group(p) == g :: OutHolds(e, p, b, h, out)
  {
    forall h | 0 <= h < p.numQ && h / Group(p) == g
      ensures OutHolds(e, p, b, h, out)
    {
      var i := h - g * Group(p);
      assert 0 <= i < Group(p);
      assert LaneStreamed(e, p, b, g, i, 0, width, lanes[i]);
      assert RowHolds(out, RowOf(p, b, h), lanes[i]);
      StoredLaneHolds(e, p, b, g, i, h, width, lanes[i], out);
    }
  }

  lemma StoredLaneHolds(e: real -> real, p: Problem, b: nat, g: nat, i: nat, h: nat, width: nat, lane: Lane, out: seq<real>)
    requires IsExp(e) && Ready(p) && b < p.batch && g < p.numKv && |out| == p.batch * p.numQ * HEAD_DIM
    requires i < Group(p) && h == g * Group(p) + i && h < p.numQ && h / Group(p) == g
    requires p.lens[b] <= width && LaneStreamed(e, p, b, g, i, 0, width, lane)
    requires RowHolds(out, RowOf(p, b, h), lane)
    ensures OutHolds(e, p, b, h, out)
  {
    forall d | 0 <= d < HEAD_DIM
      ensures (QOffsetInRange(p, b, h, d); out[QOffset(p, b, h, d)] == Attention(e, p, b, h, d))
    {
      QOffsetInRange(p, b, h, d);
      CoveringLaneStoresAttention(e, p, b, h, lane, width, d);
    }
  }

  lemma StreamedDims(e: real -> real, p: Problem, b: nat, g: nat, begin: nat, width: nat, lanes: seq<Lane>)
    requires Ready(p) && b < p.batch && g < p.numKv && Streamed(e, p, b, g, begin, width, lanes)
    ensures forall i | 0 <= i < |lanes| :: |lanes[i].acc| == HEAD_DIM
  {
    forall i | 0 <= i < |lanes|
      ensures |lanes[i].acc| == HEAD_DIM
    {
      assert LaneStreamed(e, p, b, g, i, begin, width, lanes[i]);
    }
  }

  // ---- _small_decode_kernel --------------------------------------------------

  predicate GuardSkips(p: Problem, b: nat, guard: nat)
    requires Shaped(p) && b < p.batch
  {
    guard != 0 && p.lens[b] > guard
  }

  method SmallDecode(e: real -> real, p: Problem, b: nat, g: nat, guard: nat, out: array<real>)
    requires IsExp(e) && Ready(p) && b < p.batch && g < p.numKv
    requires out.Length == p.batch * p.numQ * HEAD_DIM
    modifies out
    ensures GuardSkips(p, b, guard) ==> out[..] == old(out[..])
    ensures !GuardSkips(p, b, guard) ==>
              forall h | 0 <= h < p.numQ && h / Group(p) == g :: OutHolds(e, p, b, h, out[..])
    ensures OnlyRows(old(out[..]), out[..], TileBase(p, b, g), Group(p))
  {
    var seqLen := p.lens[b];
    if guard != 0 && seqLen > guard {
      return;
    }
    var lanes := InitLanes(p);
    EmptyRangeStreamed(e, p, b, g, 0, 0);
    var start := 0;
    while start < seqLen
      invariant 0 <= start && out[..] == old(out[..])
      invariant Streamed(e, p, b, g, 0, start, lanes)
    {
      lanes := StreamBlock(e, p, b, g, 0, start, lanes);
      start := start + BLOCK_N;
    }
    StreamedDims(e, p, b, g, 0, start, lanes);
    StoreTile(p, b, g, lanes, out);
    TileHolds(e, p, b, g, start, lanes, out[..]);
  }
}
