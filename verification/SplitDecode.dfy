/** The long-sequence path: per-split partial triples in a reused workspace, then
    a combine pass over all splits. */
module SplitDecode {
  import opened Arithmetic
  import opened OnlineSoftmax
  import opened DecodeProblem
  import opened DecodeKernels

  /** The cached scratch tensors; `m` and `l` are (numSplits, batch, numQ), `acc`
      has a trailing head dimension.  Their contents are whatever was left there. */
  datatype Workspace = Workspace(numSplits: nat, batch: nat, numQ: nat, headDim: nat,
                                 m: array<Logit>, l: array<real>, acc: array<real>)

  predicate Sized(ws: Workspace) {
    && ws.m.Length == ws.numSplits * ws.batch * ws.numQ
    && ws.l.Length == ws.numSplits * ws.batch * ws.numQ
    && ws.acc.Length == ws.numSplits * ws.batch * ws.numQ * ws.headDim
    && ws.l != ws.acc
  }

  predicate Fits(ws: Workspace, p: Problem, numSplits: nat) {
    Sized(ws) && ws.numSplits == numSplits && ws.batch == p.batch && ws.numQ == p.numQ && ws.headDim == p.headDim
  }

  /** Row of (split, b, h) in the partial tensors. */
  function PartialRow(p: Problem, s: nat, b: nat, h: nat): nat {
    (s * p.batch + b) * p.numQ + h
  }

  function PartialBase(p: Problem, s: nat, b: nat, g: nat): nat
    requires Supported(p)
  {
    PartialRow(p, s, b, g * Group(p))
  }

  lemma PartialTileInRange(p: Problem, numSplits: nat, s: nat, b: nat, g: nat)
    requires Supported(p) && s < numSplits && b < p.batch && g < p.numKv
    ensures PartialBase(p, s, b, g) + Group(p) <= numSplits * p.batch * p.numQ
  {
    CellIndex(s, numSplits, b, p.batch);
    Succ(s * p.batch + b, numSplits * p.batch, p.numQ);
    Succ(g, p.numKv, Group(p));
  }

  /** Row r exists in the three partial tensors. */
  predicate RowExists(ms: seq<Logit>, ls: seq<real>, accs: seq<real>, r: nat) {
    r < |ms| && r < |ls| && (r + 1) * HEAD_DIM <= |accs|
  }

  function CellLane(ms: seq<Logit>, ls: seq<real>, accs: seq<real>, r: nat): Lane
    requires RowExists(ms, ls, accs, r)
  {
    Lane(ms[r], ls[r], accs[r * HEAD_DIM..(r + 1) * HEAD_DIM])
  }

  ghost predicate CellHolds(ms: seq<Logit>, ls: seq<real>, accs: seq<real>, r: nat, lane: Lane) {
    RowExists(ms, ls, accs, r) && CellLane(ms, ls, accs, r) == lane
  }

  /** Columns the block loop of one split visits: a split that blocks do not tile runs over
      into the next. */
  function Span(splitTokens: nat): nat {
    (splitTokens + BLOCK_N - 1) / BLOCK_N * BLOCK_N
  }

  lemma SpanCovers(splitTokens: nat)
    ensures splitTokens <= Span(splitTokens) < splitTokens + BLOCK_N && Span(splitTokens) % BLOCK_N == 0
    ensures Span(splitTokens) == splitTokens <==> splitTokens % BLOCK_N == 0
  {
  }

  /** The partial cells of program (s, b, g) summarise the columns of split s exactly. */
  ghost predicate SplitStored(e: real -> real, p: Problem, s: nat, b: nat, g: nat, splitTokens: nat,
                              ms: seq<Logit>, ls: seq<real>, accs: seq<real>)
    requires Ready(p) && b < p.batch && g < p.numKv
  {
    forall i | 0 <= i < Group(p) :: LaneStored(e, p, s, b, g, i, splitTokens, ms, ls, accs)
  }

  ghost predicate LaneStored(e: real -> real, p: Problem, s: nat, b: nat, g: nat, i: nat, splitTokens: nat,
                             ms: seq<Logit>, ls: seq<real>, accs: seq<real>)
    requires Ready(p) && b < p.batch && g < p.numKv && i < Group(p)
  {
    && RowExists(ms, ls, accs, PartialBase(p, s, b, g) + i)
    && LaneStreamed(e, p, b, g, i, s * splitTokens, Span(splitTokens), CellLane(ms, ls, accs, PartialBase(p, s, b, g) + i))
  }

  lemma TileStored(e: real -> real, p: Problem, s: nat, b: nat, g: nat, splitTokens: nat,
                   ms: seq<Logit>, ls: seq<real>, accs: seq<real>, lanes: seq<Lane>)
    requires Ready(p) && b < p.batch && g < p.numKv
    requires Streamed(e, p, b, g, s * splitTokens, Span(splitTokens), lanes)
    requires forall i | 0 <= i < |lanes| :: CellHolds(ms, ls, accs, PartialBase(p, s, b, g) + i, lanes[i])
    ensures SplitStored(e, p, s, b, g, splitTokens, ms, ls, accs)
  {
    hide Span;
    forall i | 0 <= i < Group(p)
      ensures LaneStored(e, p, s, b, g, i, splitTokens, ms, ls, accs)
    {
      assert CellHolds(ms, ls, accs, PartialBase(p, s, b, g) + i, lanes[i]);
      assert LaneStreamed(e, p, b, g, i, s * splitTokens, Span(splitTokens), lanes[i]);
    }
  }

  method StorePartialRow(ws: Workspace, r: nat, lane: Lane)
    requires Sized(ws) && ws.headDim == HEAD_DIM && r < ws.numSplits * ws.batch * ws.numQ && |lane.acc| == HEAD_DIM
    modifies ws.m, ws.l, ws.acc
    ensures CellHolds(ws.m[..], ws.l[..], ws.acc[..], r, lane)
    ensures Kept(old(ws.m[..]), ws.m[..], r, r + 1)
    ensures Kept(old(ws.l[..]), ws.l[..], r, r + 1)
    ensures OnlyRows(old(ws.acc[..]), ws.acc[..], r, 1)
  {
    assert (r + 1) * HEAD_DIM <= ws.acc.Length;
    for d := 0 to HEAD_DIM
      invariant forall d' | 0 <= d' < d :: ws.acc[r * HEAD_DIM + d'] == lane.acc[d']
      invariant OnlyRows(old(ws.acc[..]), ws.acc[..], r, 1)
      invariant ws.m[..] == old(ws.m[..]) && ws.l[..] == old(ws.l[..])
    {
      ws.acc[r * HEAD_DIM + d] := lane.acc[d];
    }
    ws.m[r] := lane.m;
    ws.l[r] := lane.l;
  }

  method StorePartialTile(p: Problem, numSplits: nat, s: nat, b: nat, g: nat, lanes: seq<Lane>, ws: Workspace)
    requires Ready(p) && s < numSplits && b < p.batch && g < p.numKv && Fits(ws, p, numSplits)
    requires |lanes| == Group(p) && forall i | 0 <= i < |lanes| :: |lanes[i].acc| == HEAD_DIM
    modifies ws.m, ws.l, ws.acc
    ensures forall i | 0 <= i < |lanes| ::
              CellHolds(ws.m[..], ws.l[..], ws.acc[..], PartialBase(p, s, b, g) + i, lanes[i])
    ensures TileOnly(p, s, b, g, old(ws.m[..]), ws.m[..], old(ws.l[..]), ws.l[..], old(ws.acc[..]), ws.acc[..])
  {
    var base := PartialBase(p, s, b, g);
    PartialTileInRange(p, numSplits, s, b, g);
    for i := 0 to Group(p)
      invariant forall i' | 0 <= i' < i :: CellHolds(ws.m[..], ws.l[..], ws.acc[..], base + i', lanes[i'])
      invariant TileOnly(p, s, b, g, old(ws.m[..]), ws.m[..], old(ws.l[..]), ws.l[..], old(ws.acc[..]), ws.acc[..])
    {
      hide CellHolds, PartialBase;
      ghost var pm, pl, pa := ws.m[..], ws.l[..], ws.acc[..];
      StorePartialRow(ws, base + i, lanes[i]);
      forall i' | 0 <= i' < i
        ensures CellHolds(ws.m[..], ws.l[..], ws.acc[..], base + i', lanes[i'])
      {
        CellKept(pm, pl, pa, ws.m[..], ws.l[..], ws.acc[..], base + i, 1, base + i', lanes[i']);
      }
    }
  }

  /** Only the tile of program (s, b, g) may differ. */
  ghost predicate TileOnly(p: Problem, s: nat, b: nat, g: nat, m0: seq<Logit>, m1: seq<Logit>,
                           l0: seq<real>, l1: seq<real>, a0: seq<real>, a1: seq<real>)
    requires Supported(p)
  {
    var base := PartialBase(p, s, b, g);
    && Kept(m0, m1, base, base + Group(p))
    && Kept(l0, l1, base, base + Group(p))
    && OnlyRows(a0, a1, base, Group(p))
  }

  lemma CellKept(m0: seq<Logit>, l0: seq<real>, a0: seq<real>, m1: seq<Logit>, l1: seq<real>, a1: seq<real>,
                 r: nat, count: nat, r': nat, lane: Lane)
    requires Kept(m0, m1, r, r + count) && Kept(l0, l1, r, r + count) && OnlyRows(a0, a1, r, count)
    requires r' < r || r + count <= r'
    requires CellHolds(m0, l0, a0, r', lane)
    ensures CellHolds(m1, l1, a1, r', lane)
  {
    assert a1[r' * HEAD_DIM..(r' + 1) * HEAD_DIM] == a0[r' * HEAD_DIM..(r' + 1) * HEAD_DIM];
  }

  // ---- _split_partial_decode_kernel --------------------------------------------

  /** The block loop over one split. */
  method StreamSplit(e: real -> real, p: Problem, b: nat, g: nat, begin: nat, splitTokens: nat) returns (lanes: seq<Lane>)
    requires IsExp(e) && Ready(p) && b < p.batch && g < p.numKv
    requires begin < p.lens[b]
    ensures Streamed(e, p, b, g, begin, Span(splitTokens), lanes)
  {
    hide Span, Streamed;
    SpanCovers(splitTokens);
    lanes := InitLanes(p);
    EmptyRangeStreamed(e, p, b, g, begin, 0);
    var offset := 0;
    while offset < splitTokens
      invariant 0 <= offset <= Span(splitTokens) && offset % BLOCK_N == 0
      invariant Streamed(e, p, b, g, begin, offset, lanes)
    {
      lanes := StreamBlock(e, p, b, g, begin, begin + offset, lanes);
      offset := offset + BLOCK_N;
    }
  }

  method SplitPartial(e: real -> real, p: Problem, b: nat, g: nat, s: nat, numSplits: nat,
                      splitTokens: nat, minSeqLen: nat, ws: Workspace)
    requires IsExp(e) && Ready(p) && b < p.batch && g < p.numKv && s < numSplits
    requires Fits(ws, p, numSplits)
    modifies ws.m, ws.l, ws.acc
    ensures minSeqLen == 0 || p.lens[b] >= minSeqLen ==>
              SplitStored(e, p, s, b, g, splitTokens, ws.m[..], ws.l[..], ws.acc[..])
    ensures TileOnly(p, s, b, g, old(ws.m[..]), ws.m[..], old(ws.l[..]), ws.l[..], old(ws.acc[..]), ws.acc[..])
  {
    hide Span;
    var seqLen := p.lens[b];
    if minSeqLen != 0 && seqLen < minSeqLen {
      return;
    }
    var lanes;
    var begin := s * splitTokens;
    if begin >= seqLen {
      lanes := InitLanes(p);
      EmptyRangeStreamed(e, p, b, g, begin, Span(splitTokens));
    } else {
      lanes := StreamSplit(e, p, b, g, begin, splitTokens);
    }
    StreamedDims(e, p, b, g, begin, Span(splitTokens), lanes);
    StorePartialTile(p, numSplits, s, b, g, lanes, ws);
    TileStored(e, p, s, b, g, splitTokens, ws.m[..], ws.l[..], ws.acc[..], lanes);
  }

  // ---- _split_combine_decode_kernel --------------------------------------------

  /** The partial cells of one program, loaded back as lanes. */
  method LoadPartialTile(p: Problem, numSplits: nat, s: nat, b: nat, g: nat, ws: Workspace) returns (parts: seq<Lane>)
    requires Ready(p) && s < numSplits && b < p.batch && g < p.numKv && Fits(ws, p, numSplits)
    ensures |parts| == Group(p)
    ensures forall i | 0 <= i < |parts| ::
              CellHolds(ws.m[..], ws.l[..], ws.acc[..], PartialBase(p, s, b, g) + i, parts[i])
  {
    var base, grp := PartialBase(p, s, b, g), Group(p);
    PartialTileInRange(p, numSplits, s, b, g);
    var ms, ls, accs := ws.m[..], ws.l[..], ws.acc[..];
    parts := seq(grp, i requires 0 <= i < grp => CellLane(ms, ls, accs, base + i));
  }

  lemma LoadedIsStreamed(e: real -> real, p: Problem, s: nat, b: nat, g: nat, splitTokens: nat,
                         ms: seq<Logit>, ls: seq<real>, accs: seq<real>, parts: seq<Lane>)
    requires Ready(p) && b < p.batch && g < p.numKv
    requires SplitStored(e, p, s, b, g, splitTokens, ms, ls, accs)
    requires |parts| == Group(p)
    requires forall i | 0 <= i < |parts| :: CellHolds(ms, ls, accs, PartialBase(p, s, b, g) + i, parts[i])
    ensures Streamed(e, p, b, g, s * splitTokens, Span(splitTokens), parts)
  {
    hide Span;
    forall i | 0 <= i < |parts|
      ensures LaneStreamed(e, p, b, g, i, s * splitTokens, Span(splitTokens), parts[i])
    {
      assert LaneStored(e, p, s, b, g, i, splitTokens, ms, ls, accs);
    }
  }

  /** Everything the first n splits read, in order; tokens two splits read occur twice. */
  function SplitLogits(p: Problem, b: nat, h: nat, splitTokens: nat, n: nat): (s: seq<Logit>)
    requires Ready(p) && b < p.batch && h < p.numQ
  {
    if n == 0 then []
    else SplitLogits(p, b, h, splitTokens, n - 1) + BlockLogits(p, b, h, (n - 1) * splitTokens, Span(splitTokens))
  }

  function SplitRows(p: Problem, b: nat, g: nat, splitTokens: nat, n: nat): (vs: seq<seq<real>>)
    requires Ready(p) && b < p.batch && g < p.numKv
  {
    if n == 0 then []
    else SplitRows(p, b, g, splitTokens, n - 1) + BlockRows(p, b, g, (n - 1) * splitTokens, Span(splitTokens))
  }

  // ---- what the splits together visit --------------------------------------------

  function Tokens(start: nat, width: nat): (ts: seq<nat>)
    ensures |ts| == width
  {
    seq(width, i requires 0 <= i < width => start + i)
  }

  /** The token of every column of the first n splits, in order. */
  function Visits(splitTokens: nat, n: nat): seq<nat> {
    if n == 0 then []
    else Visits(splitTokens, n - 1) + Tokens((n - 1) * splitTokens, Span(splitTokens))
  }

  /** What the split path leaves in a cell of OUT: the softmax average in which a token counts
      as often as a split reads it. */
  function SplitAttention(e: real -> real, p: Problem, b: nat, h: nat, d: nat, splitTokens: nat, n: nat): real
    requires Ready(p) && b < p.batch && h < p.numQ && d < HEAD_DIM
  {
    KvHeadInRange(p, h);
    CountedAttend(e, Scores(p, b, h), Values(p, b, h / Group(p), d), multiset(Visits(splitTokens, n)))
  }

  ghost predicate SplitHolds(e: real -> real, p: Problem, b: nat, h: nat, splitTokens: nat, n: nat, out: seq<real>)
    requires Ready(p) && b < p.batch && h < p.numQ && |out| == p.batch * p.numQ * HEAD_DIM
  {
    forall d | 0 <= d < HEAD_DIM ::
      QOffsetInRange(p, b, h, d);
      out[QOffset(p, b, h, d)] == SplitAttention(e, p, b, h, d, splitTokens, n)
  }

  lemma VisitingConcat(s: seq<Logit>, t: seq<Logit>, vs: seq<seq<real>>, ws: seq<seq<real>>, a: seq<nat>, b: seq<nat>,
                       d: nat, scores: seq<real>, vals: seq<real>)
    requires |scores| == |vals| && Visiting(s, vs, a, d, scores, vals) && Visiting(t, ws, b, d, scores, vals)
    ensures Visiting(s + t, vs + ws, a + b, d, scores, vals)
  {
  }

  lemma BlockVisits(p: Problem, b: nat, h: nat, g: nat, d: nat, start: nat, width: nat)
    requires Ready(p) && b < p.batch && h < p.numQ && g < p.numKv && d < HEAD_DIM
    ensures Visiting(BlockLogits(p, b, h, start, width), BlockRows(p, b, g, start, width), Tokens(start, width), d,
                     Scores(p, b, h), Values(p, b, g, d))
  {
    hide Score;
    var vs := BlockRows(p, b, g, start, width);
    forall j | 0 <= j < width
      ensures |vs[j]| == HEAD_DIM && (start + j < p.lens[b] ==> vs[j][d] == Values(p, b, g, d)[start + j])
    {
      assert vs[j] == LoadRow(p, b, g, start + j);
    }
  }

  lemma {:induction false} SplitsVisit(p: Problem, b: nat, h: nat, g: nat, d: nat, splitTokens: nat, n: nat)
    requires Ready(p) && b < p.batch && h < p.numQ && g < p.numKv && d < HEAD_DIM
    ensures Visiting(SplitLogits(p, b, h, splitTokens, n), SplitRows(p, b, g, splitTokens, n), Visits(splitTokens, n), d,
                     Scores(p, b, h), Values(p, b, g, d))
  {
    if n == 0 {
    } else {
      hide Visiting, BlockLogits, BlockRows, Span, Scores, Values, Tokens;
      var w := (n - 1) * splitTokens;
      SplitsVisit(p, b, h, g, d, splitTokens, n - 1);
      BlockVisits(p, b, h, g, d, w, Span(splitTokens));
      VisitingConcat(SplitLogits(p, b, h, splitTokens, n - 1), BlockLogits(p, b, h, w, Span(splitTokens)),
                     SplitRows(p, b, g, splitTokens, n - 1), BlockRows(p, b, g, w, Span(splitTokens)),
                     Visits(splitTokens, n - 1), Tokens(w, Span(splitTokens)), d, Scores(p, b, h), Values(p, b, g, d));
    }
  }

  /** How many of the first n splits read token t. */
  function Reads(splitTokens: nat, n: nat, t: nat): nat {
    if n == 0 then 0
    else
      var w := (n - 1) * splitTokens;
      Reads(splitTokens, n - 1, t) + if w <= t < w + Span(splitTokens) then 1 else 0
  }

  lemma {:induction false} TokenCount(start: nat, width: nat, t: nat)
    ensures multiset(Tokens(start, width))[t] == if start <= t < start + width then 1 else 0
  {
    if width == 0 {
    } else {
      TokenCount(start, width - 1, t);
      assert Tokens(start, width) == Tokens(start, width - 1) + [start + width - 1];
    }
  }

  lemma CountConcat(a: seq<nat>, b: seq<nat>, t: nat)
    ensures multiset(a + b)[t] == multiset(a)[t] + multiset(b)[t]
  {
    assert multiset(a + b) == multiset(a) + multiset(b);
  }

  lemma SplitUnfolds(splitTokens: nat, n: nat, w: nat, t: nat)
    requires w == n * splitTokens
    ensures Visits(splitTokens, n + 1) == Visits(splitTokens, n) + Tokens(w, Span(splitTokens))
    ensures Reads(splitTokens, n + 1, t) == Reads(splitTokens, n, t) + if w <= t < w + Span(splitTokens) then 1 else 0
  {
  }

  lemma {:induction false} VisitCount(splitTokens: nat, n: nat, t: nat)
    ensures multiset(Visits(splitTokens, n))[t] == Reads(splitTokens, n, t)
  {
    if n == 0 {
      assert Visits(splitTokens, 0) == [];
    } else {
      hide Visits, Reads, Tokens, Span;
      var w := (n - 1) * splitTokens;
      SplitUnfolds(splitTokens, n - 1, w, t);
      VisitCount(splitTokens, n - 1, t);
      TokenCount(w, Span(splitTokens), t);
      CountConcat(Visits(splitTokens, n - 1), Tokens(w, Span(splitTokens)), t);
    }
  }

  lemma {:induction false} ReadAtLeastOnce(splitTokens: nat, n: nat, t: nat)
    requires t < n * splitTokens
    ensures Reads(splitTokens, n, t) >= 1
  {
    hide Span;
    SpanCovers(splitTokens);
    if n == 0 {
    } else {
      var w := (n - 1) * splitTokens;
      assert n * splitTokens == w + splitTokens;
      if t < w {
        ReadAtLeastOnce(splitTokens, n - 1, t);
      }
    }
  }

  /** Tokens of split s are read by no split before it if blocks tile a split. */
  lemma {:induction false} AlignedReads(splitTokens: nat, n: nat, t: nat)
    requires splitTokens % BLOCK_N == 0
    ensures Reads(splitTokens, n, t) == if t < n * splitTokens then 1 else 0
  {
    hide Span;
    SpanCovers(splitTokens);
    if n == 0 {
      assert n * splitTokens == 0;
    } else {
      AlignedReads(splitTokens, n - 1, t);
      assert n * splitTokens == (n - 1) * splitTokens + splitTokens;
    }
  }

  /** Tokens of the first split are read by no later one. */
  lemma {:induction false} FirstSplitReads(splitTokens: nat, n: nat, t: nat)
    requires t < splitTokens && n > 0
    ensures Reads(splitTokens, n, t) == 1
  {
    hide Span;
    SpanCovers(splitTokens);
    if n == 1 {
      assert Reads(splitTokens, 0, t) == 0 && 0 * splitTokens == 0;
    } else {
      FirstSplitReads(splitTokens, n - 1, t);
      assert (n - 1) * splitTokens == splitTokens + (n - 2) * splitTokens;
    }
  }

  /** The first token of the second split is read by the first one too. */
  lemma {:induction false} OverrunReadsTwice(splitTokens: nat, n: nat)
    requires splitTokens % BLOCK_N != 0 && n >= 2
    ensures Reads(splitTokens, n, splitTokens) >= 2
  {
    SpanCovers(splitTokens);
    hide Span;
    if n == 2 {
      assert Reads(splitTokens, 0, splitTokens) == 0 && 0 * splitTokens == 0 && 1 * splitTokens == splitTokens;
      assert Reads(splitTokens, 1, splitTokens) == 1;
    } else {
      OverrunReadsTwice(splitTokens, n - 1);
    }
  }

  /** Each token of a sequence is read exactly once if and only if blocks tile a split or one
      split holds the sequence: the last block of any other split re-reads its successor's. */
  lemma ReadOnceIff(splitTokens: nat, n: nat, len: nat)
    requires len <= n * splitTokens
    ensures (forall t: nat | t < len :: Reads(splitTokens, n, t) == 1) <==> splitTokens % BLOCK_N == 0 || len <= splitTokens
    ensures forall t: nat | t < len :: Reads(splitTokens, n, t) >= 1
  {
    hide Reads;
    forall t: nat | t < len
      ensures Reads(splitTokens, n, t) >= 1
      ensures splitTokens % BLOCK_N == 0 || len <= splitTokens ==> Reads(splitTokens, n, t) == 1
    {
      ReadAtLeastOnce(splitTokens, n, t);
      if splitTokens % BLOCK_N == 0 {
        AlignedReads(splitTokens, n, t);
      } else if len <= splitTokens {
        FirstSplitReads(splitTokens, n, t);
      }
    }
    if splitTokens % BLOCK_N != 0 && len > splitTokens {
      assert n >= 2;
      OverrunReadsTwice(splitTokens, n);
    }
  }

  /** Where every token is read once, the split path leaves attention over the whole sequence. */
  lemma ReadOnceHolds(e: real -> real, p: Problem, b: nat, h: nat, splitTokens: nat, n: nat, out: seq<real>)
    requires IsExp(e) && Ready(p) && b < p.batch && h < p.numQ && |out| == p.batch * p.numQ * HEAD_DIM
    requires p.lens[b] <= n * splitTokens && (splitTokens % BLOCK_N == 0 || p.lens[b] <= splitTokens)
    requires SplitHolds(e, p, b, h, splitTokens, n, out)
    ensures OutHolds(e, p, b, h, out)
  {
    ReadOnceIff(splitTokens, n, p.lens[b]);
    forall t: nat | t < p.lens[b]
      ensures multiset(Visits(splitTokens, n))[t] == 1
    {
      VisitCount(splitTokens, n, t);
    }
    forall d | 0 <= d < HEAD_DIM
      ensures (QOffsetInRange(p, b, h, d); out[QOffset(p, b, h, d)] == Attention(e, p, b, h, d))
    {
      hide CountedAttend, Attend, Scores, Values, Visits;
      QOffsetInRange(p, b, h, d);
      KvHeadInRange(p, h);
      AttentionOnce(e, p, b, h, d, multiset(Visits(splitTokens, n)));
    }
  }

  lemma AttentionOnce(e: real -> real, p: Problem, b: nat, h: nat, d: nat, visits: multiset<nat>)
    requires IsExp(e) && Ready(p) && b < p.batch && h < p.numQ && d < HEAD_DIM && Group(p) > 0 && h / Group(p) < p.numKv
    requires forall t: nat | t < p.lens[b] :: visits[t] == 1
    ensures CountedAttend(e, Scores(p, b, h), Values(p, b, h / Group(p), d), visits) == Attention(e, p, b, h, d)
  {
    hide CountedAttend, Attend;
    CountedOnce(e, Scores(p, b, h), Values(p, b, h / Group(p), d), visits);
  }

  /** Lane maxima over the first n splits. */
  ghost predicate MaximaOf(p: Problem, b: nat, g: nat, splitTokens: nat, n: nat, gm: seq<Logit>)
    requires Ready(p) && b < p.batch && g < p.numKv
  {
    |gm| == Group(p) && forall i | 0 <= i < |gm| :: LaneMax(p, b, g, i, splitTokens, n, gm[i])
  }

  ghost predicate LaneMax(p: Problem, b: nat, g: nat, i: nat, splitTokens: nat, n: nat, m: Logit)
    requires Ready(p) && b < p.batch && g < p.numKv && i < Group(p)
  {
    HeadInRange(g, p.numKv, Group(p), i);
    m == MaxOf(SplitLogits(p, b, g * Group(p) + i, splitTokens, n))
  }

  ghost predicate LaneSums(e: real -> real, p: Problem, b: nat, g: nat, i: nat, splitTokens: nat, n: nat, lane: Lane)
    requires Ready(p) && b < p.batch && g < p.numKv && i < Group(p)
  {
    HeadInRange(g, p.numKv, Group(p), i);
    SumsAt(e, lane, SplitLogits(p, b, g * Group(p) + i, splitTokens, n), SplitRows(p, b, g, splitTokens, n), HEAD_DIM)
  }

  /** First combine loop: the maximum over all splits. */
  method CombineMaxima(e: real -> real, p: Problem, b: nat, g: nat, numSplits: nat,
                       ghost splitTokens: nat, ws: Workspace) returns (gm: seq<Logit>)
    requires Ready(p) && b < p.batch && g < p.numKv && Fits(ws, p, numSplits)
    requires forall s | 0 <= s < numSplits ::
               SplitStored(e, p, s, b, g, splitTokens, ws.m[..], ws.l[..], ws.acc[..])
    ensures MaximaOf(p, b, g, splitTokens, numSplits, gm)
  {
    var grp := Group(p);
    gm := seq(grp, _ => NegInf);
    for s := 0 to numSplits
      invariant MaximaOf(p, b, g, splitTokens, s, gm)
    {
      var parts := LoadPartialTile(p, numSplits, s, b, g, ws);
      LoadedIsStreamed(e, p, s, b, g, splitTokens, ws.m[..], ws.l[..], ws.acc[..], parts);
      var next: seq<Logit> := seq(grp, i requires 0 <= i < grp => MaxL(gm[i], parts[i].m));
      MaximaGrow(e, p, b, g, s, splitTokens, gm, parts, next);
      gm := next;
    }
  }

  /** Lane i of the second combine loop after n splits.  Without a live token its weights are
      exp(-inf - -inf), a NaN that no later comparison finds positive: zeros stand for it. */
  ghost predicate LaneCombined(e: real -> real, p: Problem, b: nat, g: nat, i: nat, splitTokens: nat, n: nat, m: Logit, lane: Lane)
    requires Ready(p) && b < p.batch && g < p.numKv && i < Group(p)
  {
    if m.NegInf? then lane == EmptyLane(HEAD_DIM) else lane.m == m && LaneSums(e, p, b, g, i, splitTokens, n, lane)
  }

  /** Second combine loop: weighted sums relative to the global maximum. */
  method CombineSums(e: real -> real, p: Problem, b: nat, g: nat, numSplits: nat,
                     ghost splitTokens: nat, ws: Workspace, gm: seq<Logit>) returns (lanes: seq<Lane>)
    requires IsExp(e) && Ready(p) && b < p.batch && g < p.numKv && Fits(ws, p, numSplits)
    requires |gm| == Group(p)
    requires forall s | 0 <= s < numSplits ::
               SplitStored(e, p, s, b, g, splitTokens, ws.m[..], ws.l[..], ws.acc[..])
    ensures |lanes| == Group(p)
    ensures forall i | 0 <= i < |lanes| :: LaneCombined(e, p, b, g, i, splitTokens, numSplits, gm[i], lanes[i])
  {
    var grp := Group(p);
    lanes := seq(grp, i requires 0 <= i < grp => Lane(gm[i], 0.0, seq(HEAD_DIM, _ => 0.0)));
    for s := 0 to numSplits
      invariant |lanes| == grp
      invariant forall i | 0 <= i < grp :: LaneCombined(e, p, b, g, i, splitTokens, s, gm[i], lanes[i])
    {
      var parts := LoadPartialTile(p, numSplits, s, b, g, ws);
      LoadedIsStreamed(e, p, s, b, g, splitTokens, ws.m[..], ws.l[..], ws.acc[..], parts);
      SumsGrow(e, p, b, g, s, splitTokens, gm, lanes, parts);
      lanes := seq(grp, i requires 0 <= i < grp => if gm[i].NegInf? then lanes[i] else AddSplit(e, lanes[i], parts[i], HEAD_DIM));
    }
  }

  /** The stored quotients are the softmax average in which a token counts as often as the
      splits read it. */
  method SplitCombine(e: real -> real, p: Problem, b: nat, g: nat, numSplits: nat,
                      ghost splitTokens: nat, minSeqLen: nat, ws: Workspace, out: array<real>)
    requires IsExp(e) && Ready(p) && b < p.batch && g < p.numKv
    requires Fits(ws, p, numSplits) && out.Length == p.batch * p.numQ * HEAD_DIM
    requires p.lens[b] >= minSeqLen ==> forall s | 0 <= s < numSplits ::
               SplitStored(e, p, s, b, g, splitTokens, ws.m[..], ws.l[..], ws.acc[..])
    modifies out
    ensures p.lens[b] < minSeqLen ==> out[..] == old(out[..])
    ensures p.lens[b] >= minSeqLen ==>
              forall h | 0 <= h < p.numQ && h / Group(p) == g :: SplitHolds(e, p, b, h, splitTokens, numSplits, out[..])
    ensures OnlyRows(old(out[..]), out[..], TileBase(p, b, g), Group(p))
  {
    var seqLen := p.lens[b];
    if minSeqLen != 0 && seqLen < minSeqLen {
      return;
    }
    var gm := CombineMaxima(e, p, b, g, numSplits, splitTokens, ws);
    var lanes := CombineSums(e, p, b, g, numSplits, splitTokens, ws, gm);
    CombinedDims(e, p, b, g, splitTokens, numSplits, gm, lanes);
    StoreTile(p, b, g, lanes, out);
    CombinedHolds(e, p, b, g, splitTokens, numSplits, gm, lanes, out[..]);
  }

  lemma CombinedDims(e: real -> real, p: Problem, b: nat, g: nat, splitTokens: nat, n: nat, gm: seq<Logit>, lanes: seq<Lane>)
    requires Ready(p) && b < p.batch && g < p.numKv && |gm| == |lanes| == Group(p)
    requires forall i | 0 <= i < |lanes| :: LaneCombined(e, p, b, g, i, splitTokens, n, gm[i], lanes[i])
    ensures forall i | 0 <= i < |lanes| :: |lanes[i].acc| == HEAD_DIM
  {
    forall i | 0 <= i < |lanes|
      ensures |lanes[i].acc| == HEAD_DIM
    {
      assert LaneCombined(e, p, b, g, i, splitTokens, n, gm[i], lanes[i]);
    }
  }

  /** A combined lane stores the counted average. */
  lemma CombinedStores(e: real -> real, p: Problem, b: nat, g: nat, i: nat, h: nat, splitTokens: nat, n: nat, m: Logit, lane: Lane, d: nat)
    requires IsExp(e) && Ready(p) && b < p.batch && g < p.numKv && d < HEAD_DIM && |lane.acc| == HEAD_DIM
    requires i < Group(p) && h == g * Group(p) + i && h < p.numQ && h / Group(p) == g
    requires LaneMax(p, b, g, i, splitTokens, n, m) && LaneCombined(e, p, b, g, i, splitTokens, n, m, lane)
    ensures Finish(lane, d) == SplitAttention(e, p, b, h, d, splitTokens, n)
  {
    hide Visiting, CountedAttend, Score, LoadRow, SplitLogits, SplitRows, Visits, SumsAt;
    var s, vs := SplitLogits(p, b, h, splitTokens, n), SplitRows(p, b, g, splitTokens, n);
    SplitsVisit(p, b, h, g, d, splitTokens, n);
    if m.NegInf? {
      NothingCounted(e, s, vs, Visits(splitTokens, n), d, Scores(p, b, h), Values(p, b, g, d));
    } else {
      FinishIsCounted(e, lane, s, vs, Visits(splitTokens, n), HEAD_DIM, d, Scores(p, b, h), Values(p, b, g, d));
    }
  }

  lemma CombinedHolds(e: real -> real, p: Problem, b: nat, g: nat, splitTokens: nat, n: nat, gm: seq<Logit>, lanes: seq<Lane>, out: seq<real>)
    requires IsExp(e) && Ready(p) && b < p.batch && g < p.numKv && |out| == p.batch * p.numQ * HEAD_DIM
    requires MaximaOf(p, b, g, splitTokens, n, gm) && |lanes| == Group(p)
    requires forall i | 0 <= i < |lanes| :: |lanes[i].acc| == HEAD_DIM && LaneCombined(e, p, b, g, i, splitTokens, n, gm[i], lanes[i])
    requires forall i | 0 <= i < |lanes| :: RowHolds(out, TileBase(p, b, g) + i, lanes[i])
    ensures forall h | 0 <= h < p.numQ && h / Group(p) == g :: SplitHolds(e, p, b, h, splitTokens, n, out)
  {
    hide LaneMax, LaneCombined;
    forall h | 0 <= h < p.numQ && h / Group(p) == g
      ensures SplitHolds(e, p, b, h, splitTokens, n, out)
    {
      var i := h - g * Group(p);
      assert 0 <= i < Group(p);
      assert LaneMax(p, b, g, i, splitTokens, n, gm[i]);
      assert RowHolds(out, RowOf(p, b, h), lanes[i]);
      forall d | 0 <= d < HEAD_DIM
        ensures (QOffsetInRange(p, b, h, d); out[QOffset(p, b, h, d)] == SplitAttention(e, p, b, h, d, splitTokens, n))
      {
        QOffsetInRange(p, b, h, d);
        CombinedStores(e, p, b, g, i, h, splitTokens, n, gm[i], lanes[i], d);
      }
    }
  }

  lemma MaximaGrow(e: real -> real, p: Problem, b: nat, g: nat, s: nat, splitTokens: nat,
                   gm: seq<Logit>, parts: seq<Lane>, next: seq<Logit>)
    requires Ready(p) && b < p.batch && g < p.numKv
    requires MaximaOf(p, b, g, splitTokens, s, gm)
    requires Streamed(e, p, b, g, s * splitTokens, Span(splitTokens), parts)
    requires |next| == Group(p) && forall i | 0 <= i < |next| :: next[i] == MaxL(gm[i], parts[i].m)
    ensures MaximaOf(p, b, g, splitTokens, s + 1, next)
  {
    hide Span, BlockLogits, BlockRows;
    forall i | 0 <= i < |next|
      ensures LaneMax(p, b, g, i, splitTokens, s + 1, next[i])
    {
      HeadInRange(g, p.numKv, Group(p), i);
      var h := g * Group(p) + i;
      assert LaneMax(p, b, g, i, splitTokens, s, gm[i]);
      assert LaneStreamed(e, p, b, g, i, s * splitTokens, Span(splitTokens), parts[i]);
      MaxConcat(SplitLogits(p, b, h, splitTokens, s), BlockLogits(p, b, h, s * splitTokens, Span(splitTokens)));
    }
  }

  lemma SumsGrow(e: real -> real, p: Problem, b: nat, g: nat, s: nat, splitTokens: nat,
                 gm: seq<Logit>, lanes: seq<Lane>, parts: seq<Lane>)
    requires IsExp(e) && Ready(p) && b < p.batch && g < p.numKv
    requires |gm| == |lanes| == Group(p)
    requires forall i | 0 <= i < Group(p) :: LaneCombined(e, p, b, g, i, splitTokens, s, gm[i], lanes[i])
    requires Streamed(e, p, b, g, s * splitTokens, Span(splitTokens), parts)
    ensures forall i | 0 <= i < Group(p) && gm[i].Fin? ::
              && lanes[i].m == gm[i] && |lanes[i].acc| == |parts[i].acc| == HEAD_DIM
              && LaneCombined(e, p, b, g, i, splitTokens, s + 1, gm[i], AddSplit(e, lanes[i], parts[i], HEAD_DIM))
    ensures forall i | 0 <= i < Group(p) && gm[i].NegInf? :: LaneCombined(e, p, b, g, i, splitTokens, s + 1, gm[i], lanes[i])
  {
    hide Span;
    forall i | 0 <= i < Group(p)
      ensures gm[i].Fin? ==>
                && lanes[i].m == gm[i] && |lanes[i].acc| == |parts[i].acc| == HEAD_DIM
                && LaneCombined(e, p, b, g, i, splitTokens, s + 1, gm[i], AddSplit(e, lanes[i], parts[i], HEAD_DIM))
      ensures gm[i].NegInf? ==> LaneCombined(e, p, b, g, i, splitTokens, s + 1, gm[i], lanes[i])
    {
      assert LaneCombined(e, p, b, g, i, splitTokens, s, gm[i], lanes[i]);
      if gm[i].Fin? {
        HeadInRange(g, p.numKv, Group(p), i);
        var h, w := g * Group(p) + i, s * splitTokens;
        assert LaneStreamed(e, p, b, g, i, w, Span(splitTokens), parts[i]);
        assert LaneSums(e, p, b, g, i, splitTokens, s, lanes[i]);
        AddSplitSums(e, lanes[i], SplitLogits(p, b, h, splitTokens, s), SplitRows(p, b, g, splitTokens, s),
                     parts[i], BlockLogits(p, b, h, w, Span(splitTokens)), BlockRows(p, b, g, w, Span(splitTokens)), HEAD_DIM);
      }
    }
  }
}
