/** The inputs of one paged decode-attention call, the flat layouts the kernels
    address, and the attention each (batch, query head, dim) cell must hold. */
module DecodeProblem {
  import opened Arithmetic
  import opened OnlineSoftmax

  const BLOCK_SIZE := 16
  const HEAD_DIM := 128
  const BLOCK_N := 128

  /** Contiguous tensors as flat sequences.  `table` is (batch, maxBlocks), `q` is
      (batch, numQ, headDim), `k` and `v` are (physBlocks, blockSize, numKv, headDim). */
  datatype Problem = Problem(
    batch: nat, numQ: nat, numKv: nat, headDim: nat, blockSize: nat,
    physBlocks: nat, maxBlocks: nat, scale: real,
    q: seq<real>, k: seq<real>, v: seq<real>, table: seq<int>, lens: seq<int>)

  predicate Supported(p: Problem) {
    p.headDim == HEAD_DIM && p.blockSize == BLOCK_SIZE && p.numKv > 0 && p.numQ % p.numKv == 0
  }

  predicate Shaped(p: Problem) {
    && |p.q| == p.batch * p.numQ * p.headDim
    && |p.k| == |p.v| == p.physBlocks * p.blockSize * p.numKv * p.headDim
    && |p.table| == p.batch * p.maxBlocks
    && |p.lens| == p.batch
    && (forall b | 0 <= b < p.batch :: 0 <= p.lens[b])
  }

  /** The block table names an existing block for every block a sequence uses. */
  predicate TableCovers(p: Problem)
    requires Shaped(p)
  {
    forall b | 0 <= b < p.batch :: RowCovers(p, b)
  }

  predicate RowCovers(p: Problem, b: nat)
    requires Shaped(p) && b < p.batch
  {
    p.lens[b] <= p.maxBlocks * BLOCK_SIZE && RowEntries(p, b)
  }

  /** The table entries that sequence b reads name physical blocks. */
  predicate RowEntries(p: Problem, b: nat)
    requires Shaped(p) && b < p.batch
  {
    forall j | 0 <= j < p.maxBlocks && j * BLOCK_SIZE < p.lens[b] ::
      CellIndex(b, p.batch, j, p.maxBlocks);
      0 <= p.table[b * p.maxBlocks + j] < p.physBlocks
  }

  predicate Ready(p: Problem) {
    Supported(p) && Shaped(p) && TableCovers(p)
  }

  function Group(p: Problem): (g: nat)
    requires Supported(p)
    ensures p.numQ == p.numKv * g
  {
    p.numQ / p.numKv
  }

  // ---- flat index arithmetic ---------------------------------------------

  lemma HeadInRange(g: nat, numKv: nat, grp: nat, i: nat)
    requires g < numKv && i < grp
    ensures 0 <= g * grp + i < numKv * grp
    ensures (g * grp + i) / grp == g
  {
    CellIndex(g, numKv, i, grp);
    DivUnique(g * grp + i, grp, g);
  }

  /** Row of (b, h) in a (batch, numQ, 128) tensor. */
  function RowOf(p: Problem, b: nat, h: nat): nat {
    b * p.numQ + h
  }

  /** The address expression of the kernels for Q and OUT. */
  function QOffset(p: Problem, b: nat, h: nat, d: nat): (o: nat)
    ensures o == RowOf(p, b, h) * HEAD_DIM + d
  {
    b * p.numQ * HEAD_DIM + h * HEAD_DIM + d
  }

  lemma QOffsetInRange(p: Problem, b: nat, h: nat, d: nat)
    requires b < p.batch && h < p.numQ && d < HEAD_DIM
    ensures RowOf(p, b, h) < p.batch * p.numQ
    ensures QOffset(p, b, h, d) < p.batch * p.numQ * HEAD_DIM
  {
    CellIndex(b, p.batch, h, p.numQ);
  }

  function LogicalBlock(n: nat): nat { n / BLOCK_SIZE }

  /** The address of key/value element (n, d) of KV head g, through the block table. */
  function KvOffset(p: Problem, b: nat, g: nat, n: nat, d: nat): (o: nat)
    requires Ready(p) && b < p.batch && g < p.numKv && n < p.lens[b] && d < HEAD_DIM
    ensures o < |p.k| == |p.v|
  {
    var logical := LogicalBlock(n);
    var offset := n - logical * BLOCK_SIZE;
    assert RowCovers(p, b);
    CellIndex(b, p.batch, logical, p.maxBlocks);
    var physical := p.table[b * p.maxBlocks + logical];
    CellIndex(physical, p.physBlocks, offset, BLOCK_SIZE);
    CellIndex(physical * BLOCK_SIZE + offset, p.physBlocks * BLOCK_SIZE, g, p.numKv);
    ((physical * BLOCK_SIZE + offset) * p.numKv + g) * HEAD_DIM + d
  }

  // ---- logical views and the specification --------------------------------

  function Dot(p: Problem, b: nat, h: nat, n: nat, dims: nat): real
    requires Ready(p) && b < p.batch && h < p.numQ && n < p.lens[b] && dims <= HEAD_DIM
  {
    if dims == 0 then 0.0
    else
      QOffsetInRange(p, b, h, dims - 1);
      KvHeadInRange(p, h);
      Dot(p, b, h, n, dims - 1)
      + p.q[QOffset(p, b, h, dims - 1)] * p.k[KvOffset(p, b, h / Group(p), n, dims - 1)]
  }

  lemma KvHeadInRange(p: Problem, h: nat)
    requires Supported(p) && h < p.numQ
    ensures Group(p) > 0 && h / Group(p) < p.numKv
  {
    var g := Group(p);
    assert g > 0;
    assert (h / g) * g <= h < p.numKv * g;
    FactorLess(h / g, p.numKv, g);
  }

  /** Scaled score of token n for query head h, which reads KV head h / group. */
  function Score(p: Problem, b: nat, h: nat, n: nat): real
    requires Ready(p) && b < p.batch && h < p.numQ && n < p.lens[b]
  {
    Dot(p, b, h, n, HEAD_DIM) * p.scale
  }

  function Scores(p: Problem, b: nat, h: nat): seq<real>
    requires Ready(p) && b < p.batch && h < p.numQ
  {
    seq(p.lens[b], n requires 0 <= n < p.lens[b] => Score(p, b, h, n))
  }

  function Values(p: Problem, b: nat, g: nat, d: nat): seq<real>
    requires Ready(p) && b < p.batch && g < p.numKv && d < HEAD_DIM
  {
    seq(p.lens[b], n requires 0 <= n < p.lens[b] => p.v[KvOffset(p, b, g, n, d)])
  }

  /** What OUT must hold: softmax attention over the whole logical sequence. */
  function Attention(e: real -> real, p: Problem, b: nat, h: nat, d: nat): real
    requires IsExp(e) && Ready(p) && b < p.batch && h < p.numQ && d < HEAD_DIM
  {
    KvHeadInRange(p, h);
    Attend(e, Scores(p, b, h), Values(p, b, h / Group(p), d))
  }

  // ---- masked block loads -------------------------------------------------

  function BlockLogits(p: Problem, b: nat, h: nat, start: nat, width: nat): (s: seq<Logit>)
    requires Ready(p) && b < p.batch && h < p.numQ
    ensures |s| == width
  {
    seq(width, i requires 0 <= i < width =>
      if start + i < p.lens[b] then Fin(Score(p, b, h, start + i)) else NegInf)
  }

  function LoadRow(p: Problem, b: nat, g: nat, n: nat): (r: seq<real>)
    requires Ready(p) && b < p.batch && g < p.numKv
    ensures |r| == HEAD_DIM
  {
    seq(HEAD_DIM, d requires 0 <= d < HEAD_DIM =>
      if n < p.lens[b] then p.v[KvOffset(p, b, g, n, d)] else 0.0)
  }

  function BlockRows(p: Problem, b: nat, g: nat, start: nat, width: nat): (vs: seq<seq<real>>)
    requires Ready(p) && b < p.batch && g < p.numKv
    ensures |vs| == width && Rows(vs, HEAD_DIM)
  {
    var vs := seq(width, i requires 0 <= i < width => LoadRow(p, b, g, start + i));
    assert forall j | 0 <= j < width :: vs[j] == LoadRow(p, b, g, start + j);
    vs
  }

  lemma BlocksConcat(p: Problem, b: nat, h: nat, g: nat, start: nat, w: nat, w': nat)
    requires Ready(p) && b < p.batch && h < p.numQ && g < p.numKv
    ensures BlockLogits(p, b, h, start, w) + BlockLogits(p, b, h, start + w, w')
         == BlockLogits(p, b, h, start, w + w')
    ensures BlockRows(p, b, g, start, w) + BlockRows(p, b, g, start + w, w')
         == BlockRows(p, b, g, start, w + w')
  {
  }

  /** A lane that summarises any range covering the sequence stores its attention. */
  lemma CoveringLaneStoresAttention(e: real -> real, p: Problem, b: nat, h: nat, lane: Lane, width: nat, d: nat)
    requires IsExp(e) && Ready(p) && b < p.batch && h < p.numQ && d < HEAD_DIM
    requires p.lens[b] <= width
    requires Group(p) > 0 && h / Group(p) < p.numKv
    requires Summarises(e, lane, BlockLogits(p, b, h, 0, width), BlockRows(p, b, h / Group(p), 0, width), HEAD_DIM)
    ensures Finish(lane, d) == Attention(e, p, b, h, d)
  {
    hide Attend, Finish, Summarises, Padded;
    var g := h / Group(p);
    var s, vs := BlockLogits(p, b, h, 0, width), BlockRows(p, b, g, 0, width);
    PaddedBlock(p, b, h, g, width, d);
    FinishIsAttention(e, lane, s, vs, HEAD_DIM, d, Scores(p, b, h), Values(p, b, g, d));
  }

  lemma PaddedBlock(p: Problem, b: nat, h: nat, g: nat, width: nat, d: nat)
    requires Ready(p) && b < p.batch && h < p.numQ && g < p.numKv && d < HEAD_DIM
    requires p.lens[b] <= width
    ensures Padded(BlockLogits(p, b, h, 0, width), Scores(p, b, h))
    ensures forall j | 0 <= j < p.lens[b] :: Values(p, b, g, d)[j] == BlockRows(p, b, g, 0, width)[j][d]
  {
    forall j | 0 <= j < p.lens[b]
      ensures Values(p, b, g, d)[j] == BlockRows(p, b, g, 0, width)[j][d]
    {
      assert BlockRows(p, b, g, 0, width)[j] == LoadRow(p, b, g, 0 + j);
    }
  }
}
