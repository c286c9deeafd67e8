/** Host side: the launch plan over small and long sequences, the workspace cache,
    the usability guard and the choice of dispatch length. */
module FishDecode {
  import opened Arithmetic
  import opened OnlineSoftmax
  import opened DecodeProblem
  import opened DecodeKernels
  import opened SplitDecode

  const LONG_SPLIT_TOKENS := 1024
  const SMALL_PATH_MAX_SEQ_LEN := 1024

  // ---- tiles of different programs are disjoint ---------------------------------

  /** Row (b', h') lies outside the tile of program (b, g) unless it belongs to it. */
  lemma RowsApart(p: Problem, b: nat, g: nat, b': nat, h': nat)
    requires Supported(p) && g < p.numKv && h' < p.numQ && Group(p) > 0
    requires b != b' || h' / Group(p) != g
    ensures b' * p.numQ + h' < b * p.numQ + g * Group(p)
         || b * p.numQ + g * Group(p) + Group(p) <= b' * p.numQ + h'
  {
    TileApart(p.numQ, p.numKv, Group(p), b, g, b', h', h' / Group(p));
  }

  lemma TileApart(numQ: nat, numKv: nat, grp: nat, b: nat, g: nat, b': nat, h': nat, g': nat)
    requires numQ == numKv * grp && g < numKv && h' < numQ
    requires g' * grp <= h' < g' * grp + grp
    requires b != b' || g' != g
    ensures b' * numQ + h' < b * numQ + g * grp || b * numQ + g * grp + grp <= b' * numQ + h'
  {
    var row, row', tile := b * numQ, b' * numQ, g * grp;
    Succ(g, numKv, grp);
    if b' < b {
      Succ(b', b, numQ);
      assert row' + h' < row;
    } else if b < b' {
      Succ(b, b', numQ);
      assert row + tile + grp <= row';
    } else if g' < g {
      Succ(g', g, grp);
    } else {
      Succ(g, g', grp);
    }
  }

  lemma SplitRowsApart(batch: nat, s: nat, b: nat, s': nat, b': nat)
    requires b < batch && b' < batch
    requires s * batch + b == s' * batch + b'
    ensures s == s' && b == b'
  {
    DivUnique(s * batch + b, batch, s);
    DivUnique(s' * batch + b', batch, s');
  }

  ghost predicate RowSame(before: seq<real>, after: seq<real>, r: nat) {
    |before| == |after| && forall x | r * HEAD_DIM <= x < (r + 1) * HEAD_DIM && x < |after| :: after[x] == before[x]
  }

  /** The kernel that owns a row reads every token once, or goes by splits. */
  datatype Path = Whole | BySplits(tokens: nat, count: nat)

  /** The row of (b, h) is final. */
  ghost predicate Holds(e: real -> real, p: Problem, path: Path, b: nat, h: nat, out: seq<real>)
    requires IsExp(e) && Ready(p) && b < p.batch && h < p.numQ && |out| == p.batch * p.numQ * HEAD_DIM
  {
    match path
    case Whole => OutHolds(e, p, b, h, out)
    case BySplits(tokens, count) => SplitHolds(e, p, b, h, tokens, count, out)
  }

  lemma HoldsKept(e: real -> real, p: Problem, path: Path, b: nat, h: nat, before: seq<real>, after: seq<real>)
    requires IsExp(e) && Ready(p) && b < p.batch && h < p.numQ && |before| == p.batch * p.numQ * HEAD_DIM
    requires RowSame(before, after, RowOf(p, b, h)) && Holds(e, p, path, b, h, before)
    ensures Holds(e, p, path, b, h, after)
  {
    forall d | 0 <= d < HEAD_DIM
      ensures (QOffsetInRange(p, b, h, d); after[QOffset(p, b, h, d)] == before[QOffset(p, b, h, d)])
    {
      QOffsetInRange(p, b, h, d);
    }
  }

  /** A program leaves the rows of every other (b', h') as they were. */
  lemma OtherRowsKept(e: real -> real, p: Problem, path: Path, b: nat, g: nat, b': nat, h': nat, before: seq<real>, after: seq<real>)
    requires IsExp(e) && Ready(p) && g < p.numKv && b' < p.batch && h' < p.numQ && Group(p) > 0
    requires |before| == p.batch * p.numQ * HEAD_DIM
    requires b != b' || h' / Group(p) != g
    requires OnlyRows(before, after, TileBase(p, b, g), Group(p))
    ensures Holds(e, p, path, b', h', before) ==> Holds(e, p, path, b', h', after)
    ensures RowSame(before, after, RowOf(p, b', h'))
  {
    hide Holds;
    RowsApart(p, b, g, b', h');
    if Holds(e, p, path, b', h', before) {
      HoldsKept(e, p, path, b', h', before, after);
    }
  }

  // ---- launches: programs of a grid run in an arbitrary order --------------------

  /** After the programs outside `todo` have run: rows they own are final when
      `owned`, all other rows are untouched. */
  ghost predicate Progress(e: real -> real, p: Problem, path: Path, todo: set<(nat, nat)>, owned: set<nat>,
                           before: seq<real>, out: seq<real>)
    requires IsExp(e) && Ready(p)
  {
    && |before| == |out| == p.batch * p.numQ * HEAD_DIM
    && forall b, h | 0 <= b < p.batch && 0 <= h < p.numQ :: RowProgress(e, p, path, todo, owned, before, out, b, h)
  }

  ghost predicate RowProgress(e: real -> real, p: Problem, path: Path, todo: set<(nat, nat)>, owned: set<nat>,
                              before: seq<real>, out: seq<real>, b: nat, h: nat)
    requires IsExp(e) && Ready(p) && b < p.batch && h < p.numQ
    requires |out| == p.batch * p.numQ * HEAD_DIM
  {
    KvHeadInRange(p, h);
    if b in owned && (b, h / Group(p)) !in todo then Holds(e, p, path, b, h, out)
    else RowSame(before, out, RowOf(p, b, h))
  }

  lemma ProgressStep(e: real -> real, p: Problem, path: Path, todo: set<(nat, nat)>, owned: set<nat>, b: nat, g: nat,
                     start: seq<real>, before: seq<real>, after: seq<real>)
    requires IsExp(e) && Ready(p) && b < p.batch && g < p.numKv
    requires Progress(e, p, path, todo, owned, start, before)
    requires OnlyRows(before, after, TileBase(p, b, g), Group(p))
    requires b in owned ==> Group(p) > 0 ==>
               forall h | 0 <= h < p.numQ && h / Group(p) == g :: Holds(e, p, path, b, h, after)
    requires b !in owned ==> after == before
    ensures Progress(e, p, path, todo - {(b, g)}, owned, start, after)
  {
    hide Holds;
    forall b', h' | 0 <= b' < p.batch && 0 <= h' < p.numQ
      ensures RowProgress(e, p, path, todo - {(b, g)}, owned, start, after, b', h')
    {
      KvHeadInRange(p, h');
      assert RowProgress(e, p, path, todo, owned, start, before, b', h');
      if b != b' || h' / Group(p) != g {
        OtherRowsKept(e, p, path, b, g, b', h', before, after);
      }
    }
  }

  function Grid(p: Problem): set<(nat, nat)> {
    set b: nat, g: nat | b < p.batch && g < p.numKv :: (b, g)
  }

  function NotGuarded(p: Problem, guard: nat): set<nat>
    requires Shaped(p)
  {
    set b: nat | b < p.batch && !GuardSkips(p, b, guard)
  }

  function AtLeast(p: Problem, minSeqLen: nat): set<nat>
    requires Shaped(p)
  {
    set b: nat | b < p.batch && p.lens[b] >= minSeqLen
  }

  lemma NothingDone(e: real -> real, p: Problem, path: Path, owned: set<nat>, out: seq<real>)
    requires IsExp(e) && Ready(p) && |out| == p.batch * p.numQ * HEAD_DIM
    ensures Progress(e, p, path, Grid(p), owned, out, out)
  {
    forall b, h | 0 <= b < p.batch && 0 <= h < p.numQ
      ensures RowProgress(e, p, path, Grid(p), owned, out, out, b, h)
    {
      KvHeadInRange(p, h);
      assert (b, h / Group(p)) in Grid(p);
    }
  }

  method LaunchSmall(e: real -> real, p: Problem, guard: nat, out: array<real>)
    requires IsExp(e) && Ready(p) && out.Length == p.batch * p.numQ * HEAD_DIM
    modifies out
    ensures Progress(e, p, Whole, {}, NotGuarded(p, guard), old(out[..]), out[..])
  {
    var todo := Grid(p);
    NothingDone(e, p, Whole, NotGuarded(p, guard), out[..]);
    while todo != {}
      invariant todo <= Grid(p)
      invariant Progress(e, p, Whole, todo, NotGuarded(p, guard), old(out[..]), out[..])
    {
      var prog :| prog in todo;
      ghost var prev := out[..];
      SmallDecode(e, p, prog.0, prog.1, guard, out);
      ProgressStep(e, p, Whole, todo, NotGuarded(p, guard), prog.0, prog.1, old(out[..]), prev, out[..]);
      todo := todo - {prog};
    }
  }

  ghost predicate AllSplitsStored(e: real -> real, p: Problem, todo: set<(nat, nat, nat)>, numSplits: nat,
                                  splitTokens: nat, minSeqLen: nat, ms: seq<Logit>, ls: seq<real>, accs: seq<real>)
    requires Ready(p)
  {
    forall s, b, g | 0 <= s < numSplits && 0 <= b < p.batch && 0 <= g < p.numKv && (s, b, g) !in todo ::
      p.lens[b] >= minSeqLen ==> SplitStored(e, p, s, b, g, splitTokens, ms, ls, accs)
  }

  lemma OtherCellKept(p: Problem, s: nat, b: nat, g: nat, s': nat, b': nat, g': nat, i: nat,
                      m0: seq<Logit>, m1: seq<Logit>, l0: seq<real>, l1: seq<real>, a0: seq<real>, a1: seq<real>)
    requires Supported(p) && b < p.batch && g < p.numKv && b' < p.batch && g' < p.numKv && i < Group(p)
    requires (s, b, g) != (s', b', g')
    requires TileOnly(p, s, b, g, m0, m1, l0, l1, a0, a1)
    requires RowExists(m0, l0, a0, PartialBase(p, s', b', g') + i)
    ensures RowExists(m1, l1, a1, PartialBase(p, s', b', g') + i)
    ensures CellLane(m1, l1, a1, PartialBase(p, s', b', g') + i) == CellLane(m0, l0, a0, PartialBase(p, s', b', g') + i)
  {
    if s * p.batch + b == s' * p.batch + b' {
      SplitRowsApart(p.batch, s, b, s', b');
    }
    HeadInRange(g', p.numKv, Group(p), i);
    TileApart(p.numQ, p.numKv, Group(p), s * p.batch + b, g, s' * p.batch + b', g' * Group(p) + i, g');
    var r := PartialBase(p, s', b', g') + i;
    CellKept(m0, l0, a0, m1, l1, a1, PartialBase(p, s, b, g), Group(p), r, CellLane(m0, l0, a0, r));
  }

  /** Partial cells of different programs never collide. */
  lemma OtherSplitsKept(e: real -> real, p: Problem, s: nat, b: nat, g: nat, s': nat, b': nat, g': nat, splitTokens: nat,
                        m0: seq<Logit>, m1: seq<Logit>, l0: seq<real>, l1: seq<real>, a0: seq<real>, a1: seq<real>)
    requires Ready(p) && b < p.batch && g < p.numKv && b' < p.batch && g' < p.numKv
    requires (s, b, g) != (s', b', g')
    requires TileOnly(p, s, b, g, m0, m1, l0, l1, a0, a1)
    requires SplitStored(e, p, s', b', g', splitTokens, m0, l0, a0)
    ensures SplitStored(e, p, s', b', g', splitTokens, m1, l1, a1)
  {
    forall i | 0 <= i < Group(p)
      ensures LaneStored(e, p, s', b', g', i, splitTokens, m1, l1, a1)
    {
      assert LaneStored(e, p, s', b', g', i, splitTokens, m0, l0, a0);
      OtherCellKept(p, s, b, g, s', b', g', i, m0, m1, l0, l1, a0, a1);
    }
  }

  method LaunchPartial(e: real -> real, p: Problem, numSplits: nat, splitTokens: nat, minSeqLen: nat, ws: Workspace)
    requires IsExp(e) && Ready(p) && Fits(ws, p, numSplits)
    modifies ws.m, ws.l, ws.acc
    ensures AllSplitsStored(e, p, {}, numSplits, splitTokens, minSeqLen, ws.m[..], ws.l[..], ws.acc[..])
  {
    var grid := set s: nat, b: nat, g: nat | s < numSplits && b < p.batch && g < p.numKv :: (s, b, g);
    var todo := grid;
    while todo != {}
      invariant todo <= grid
      invariant AllSplitsStored(e, p, todo, numSplits, splitTokens, minSeqLen, ws.m[..], ws.l[..], ws.acc[..])
    {
      var prog :| prog in todo;
      ghost var m0, l0, a0 := ws.m[..], ws.l[..], ws.acc[..];
      SplitPartial(e, p, prog.1, prog.2, prog.0, numSplits, splitTokens, minSeqLen, ws);
      forall s, b, g | 0 <= s < numSplits && 0 <= b < p.batch && 0 <= g < p.numKv && (s, b, g) !in todo - {prog}
        ensures p.lens[b] >= minSeqLen ==> SplitStored(e, p, s, b, g, splitTokens, ws.m[..], ws.l[..], ws.acc[..])
      {
        if (s, b, g) != prog && p.lens[b] >= minSeqLen {
          OtherSplitsKept(e, p, prog.0, prog.1, prog.2, s, b, g, splitTokens,
                          m0, ws.m[..], l0, ws.l[..], a0, ws.acc[..]);
        }
      }
      todo := todo - {prog};
    }
  }

  method LaunchCombine(e: real -> real, p: Problem, numSplits: nat, ghost splitTokens: nat, minSeqLen: nat,
                       ws: Workspace, out: array<real>)
    requires IsExp(e) && Ready(p) && Fits(ws, p, numSplits) && out.Length == p.batch * p.numQ * HEAD_DIM
    requires out != ws.l && out != ws.acc
    requires AllSplitsStored(e, p, {}, numSplits, splitTokens, minSeqLen, ws.m[..], ws.l[..], ws.acc[..])
    modifies out
    ensures Progress(e, p, BySplits(splitTokens, numSplits), {}, AtLeast(p, minSeqLen), old(out[..]), out[..])
  {
    var todo := Grid(p);
    ghost var path := BySplits(splitTokens, numSplits);
    NothingDone(e, p, path, AtLeast(p, minSeqLen), out[..]);
    while todo != {}
      invariant todo <= Grid(p)
      invariant ws.m[..] == old(ws.m[..]) && ws.l[..] == old(ws.l[..]) && ws.acc[..] == old(ws.acc[..])
      invariant Progress(e, p, path, todo, AtLeast(p, minSeqLen), old(out[..]), out[..])
    {
      var prog :| prog in todo;
      ghost var prev := out[..];
      SplitCombine(e, p, prog.0, prog.1, numSplits, splitTokens, minSeqLen, ws, out);
      ProgressStep(e, p, path, todo, AtLeast(p, minSeqLen), prog.0, prog.1, old(out[..]), prev, out[..]);
      todo := todo - {prog};
    }
  }

  // ---- fish_decode_kvcache_attn_triton --------------------------------------------

  datatype LaunchResult = Launched | Raised(message: string)

  function CeilDiv(a: nat, b: nat): nat
    requires b > 0
  {
    (a + b - 1) / b
  }

  lemma CeilDivCovers(a: nat, b: nat)
    requires b > 0
    ensures a <= CeilDiv(a, b) * b
  {
  }

  /** Every cell of OUT holds attention over its whole logical sequence. */
  ghost predicate AllHold(e: real -> real, p: Problem, out: seq<real>)
    requires IsExp(e) && Ready(p) && |out| == p.batch * p.numQ * HEAD_DIM
  {
    forall b, h | 0 <= b < p.batch && 0 <= h < p.numQ :: OutHolds(e, p, b, h, out)
  }

  lemma AllOwnedHold(e: real -> real, p: Problem, owned: set<nat>, before: seq<real>, out: seq<real>)
    requires IsExp(e) && Ready(p) && Progress(e, p, Whole, {}, owned, before, out)
    requires forall b: nat | b < p.batch :: b in owned
    ensures AllHold(e, p, out)
  {
    forall b, h | 0 <= b < p.batch && 0 <= h < p.numQ
      ensures OutHolds(e, p, b, h, out)
    {
      assert RowProgress(e, p, Whole, {}, owned, before, out, b, h);
    }
  }

  /** Every row is left to exactly one launch, except that a bound of zero switches the guard
      off and leaves the non-empty rows to both. */
  lemma OnePathPerRow(p: Problem, small: nat)
    requires Shaped(p)
    ensures forall b: nat :: b in NotGuarded(p, small) || b in AtLeast(p, small + 1) <==> b < p.batch
    ensures NotGuarded(p, small) !! AtLeast(p, small + 1) <==> small > 0 || AtLeast(p, 1) == {}
  {
    if small == 0 {
      assert AtLeast(p, 1) <= NotGuarded(p, 0);
    }
  }

  /** The row of b is attention if the small path owns it or its splits read every token once. */
  predicate ReadsOnce(p: Problem, b: nat, small: nat, splitTokens: nat)
    requires Shaped(p) && b < p.batch
  {
    p.lens[b] <= small || splitTokens % BLOCK_N == 0 || p.lens[b] <= splitTokens
  }

  function Max(a: nat, b: nat): nat { if a < b then b else a }

  /** The guarded small launch and the combine launch together: short rows hold attention, long
      ones what their splits read, which is attention where every token is read once. */
  lemma BothPathsHold(e: real -> real, p: Problem, small: nat, splitTokens: nat, numSplits: nat, start: seq<real>, mid: seq<real>, out: seq<real>,
                      b: nat, h: nat)
    requires IsExp(e) && Ready(p) && b < p.batch && h < p.numQ
    requires Progress(e, p, Whole, {}, NotGuarded(p, small), start, mid)
    requires Progress(e, p, BySplits(splitTokens, numSplits), {}, AtLeast(p, small + 1), mid, out)
    ensures p.lens[b] > small ==> SplitHolds(e, p, b, h, splitTokens, numSplits, out)
    ensures ReadsOnce(p, b, small, splitTokens) && p.lens[b] <= Max(small, numSplits * splitTokens) ==> OutHolds(e, p, b, h, out)
  {
    hide OutHolds, SplitHolds;
    assert RowProgress(e, p, Whole, {}, NotGuarded(p, small), start, mid, b, h);
    assert RowProgress(e, p, BySplits(splitTokens, numSplits), {}, AtLeast(p, small + 1), mid, out, b, h);
    if p.lens[b] <= small {
      HoldsKept(e, p, Whole, b, h, mid, out);
    } else if p.lens[b] <= numSplits * splitTokens && ReadsOnce(p, b, small, splitTokens) {
      ReadOnceHolds(e, p, b, h, splitTokens, numSplits, out);
    }
  }

  /** Dispatch between the small kernel alone and small + partial + combine.
      `out` and the workspace start with arbitrary contents; `mid` is `out` after the small
      launch. */
  method FishDecodeTriton(e: real -> real, p: Problem, maxSeqLen: nat, smallMax: nat, splitTokens: nat,
                          ws: Workspace, out: array<real>) returns (r: LaunchResult, ghost mid: seq<real>)
    requires IsExp(e) && Shaped(p) && p.numKv > 0
    requires out.Length == p.batch * p.numQ * p.headDim
    requires Supported(p) ==> TableCovers(p)
    requires splitTokens > 0
    requires Sized(ws) && out != ws.l && out != ws.acc
    requires maxSeqLen > smallMax ==>
               forall b | 0 <= b < p.batch :: p.lens[b] <= CeilDiv(maxSeqLen, splitTokens) * splitTokens
    modifies out, ws.m, ws.l, ws.acc
    ensures r.Launched? <==> Supported(p) && (maxSeqLen <= smallMax || Fits(ws, p, CeilDiv(maxSeqLen, splitTokens)))
    ensures r.Launched? && maxSeqLen <= smallMax ==> AllHold(e, p, out[..])
    ensures r.Launched? && maxSeqLen > smallMax ==> forall b, h | 0 <= b < p.batch && 0 <= h < p.numQ ::
              && (ReadsOnce(p, b, smallMax, splitTokens) ==> OutHolds(e, p, b, h, out[..]))
              && (p.lens[b] > smallMax ==> SplitHolds(e, p, b, h, splitTokens, CeilDiv(maxSeqLen, splitTokens), out[..]))
    ensures !Supported(p) ==> out[..] == old(out[..])
    ensures Supported(p) && maxSeqLen > smallMax ==> Progress(e, p, Whole, {}, NotGuarded(p, smallMax), old(out[..]), mid)
    ensures r.Raised? && Supported(p) ==> out[..] == mid
  {
    mid := out[..];
    if p.headDim != HEAD_DIM || p.blockSize != BLOCK_SIZE {
      return Raised("Fish Triton attention only supports head_dim=128 and block_size=16"), mid;
    }
    if p.numQ % p.numKv != 0 {
      return Raised("num_q_heads must be divisible by num_kv_heads"), mid;
    }
    if maxSeqLen <= smallMax {
      LaunchSmall(e, p, 0, out);
      AllOwnedHold(e, p, NotGuarded(p, 0), old(out[..]), out[..]);
      return Launched, mid;
    }
    LaunchSmall(e, p, smallMax, out);
    mid := out[..];
    var numSplits := CeilDiv(maxSeqLen, splitTokens);
    if ws.numSplits != numSplits || ws.batch != p.batch || ws.numQ != p.numQ || ws.headDim != p.headDim {
      return Raised("Fish Triton long attention workspace shape mismatch"), mid;
    }
    LaunchPartial(e, p, numSplits, splitTokens, smallMax + 1, ws);
    LaunchCombine(e, p, numSplits, splitTokens, smallMax + 1, ws, out);
    forall b, h | 0 <= b < p.batch && 0 <= h < p.numQ
      ensures ReadsOnce(p, b, smallMax, splitTokens) ==> OutHolds(e, p, b, h, out[..])
      ensures p.lens[b] > smallMax ==> SplitHolds(e, p, b, h, splitTokens, numSplits, out[..])
    {
      BothPathsHold(e, p, smallMax, splitTokens, numSplits, old(out[..]), mid, out[..], b, h);
    }
    return Launched, mid;
  }

  // ---- workspace cache (_get_decode_workspace) ----------------------------------------

  datatype WorkspaceKey = EmptyKey | LongKey(batch: nat, numQ: nat, headDim: nat, numSplits: nat)

  datatype Fetch = Fetched(ws: Workspace) | CaptureMiss

  function KeyFor(batch: nat, numQ: nat, headDim: nat, maxSeqLen: nat): WorkspaceKey {
    if maxSeqLen <= SMALL_PATH_MAX_SEQ_LEN then EmptyKey
    else LongKey(batch, numQ, headDim, (maxSeqLen + LONG_SPLIT_TOKENS - 1) / LONG_SPLIT_TOKENS)
  }

  predicate KeyMatches(key: WorkspaceKey, ws: Workspace) {
    && Sized(ws)
    && (key.LongKey? ==> ws.numSplits == key.numSplits && ws.batch == key.batch
                         && ws.numQ == key.numQ && ws.headDim == key.headDim)
  }

  class WorkspaceCache {
    var entries: map<WorkspaceKey, Workspace>

    ghost predicate Valid()
      reads this
    {
      forall key | key in entries :: KeyMatches(key, entries[key])
    }

    ghost function Buffers(): set<object>
      reads this
    {
      (set key | key in entries :: entries[key].m as object)
      + (set key | key in entries :: entries[key].l as object)
      + (set key | key in entries :: entries[key].acc as object)
    }

    constructor ()
      ensures Valid() && entries == map[]
    {
      entries := map[];
    }

    /** A cached workspace is reused as it is; a miss allocates, except while capturing. */
    method GetDecodeWorkspace(batch: nat, numQ: nat, headDim: nat, maxSeqLen: nat, capturing: bool) returns (f: Fetch)
      requires Valid()
      modifies this
      ensures Valid()
      ensures var key := KeyFor(batch, numQ, headDim, maxSeqLen);
              && (f.CaptureMiss? <==> capturing && key !in old(entries))
              && (f.Fetched? ==> KeyMatches(key, f.ws) && entries == old(entries)[key := f.ws])
              && (f.CaptureMiss? ==> entries == old(entries))
              && (key in old(entries) ==> f == Fetched(old(entries)[key]))
              && (f.Fetched? && key !in old(entries) ==> fresh({f.ws.m as object, f.ws.l, f.ws.acc}))
      ensures fresh(Buffers() - old(Buffers()))
    {
      var key := KeyFor(batch, numQ, headDim, maxSeqLen);
      if key in entries {
        return Fetched(entries[key]);
      }
      if capturing {
        return CaptureMiss;
      }
      var splits := if key.EmptyKey? then 0 else key.numSplits;
      var m := new Logit[splits * batch * numQ](_ => NegInf);
      var l := new real[splits * batch * numQ];
      var acc := new real[splits * batch * numQ * headDim];
      var ws := Workspace(splits, batch, numQ, headDim, m, l, acc);
      entries := entries[key := ws];
      f := Fetched(ws);
    }

    /** fish_decode_kvcache_attn: whatever the cached workspace last held, a launch that
        is not refused leaves attention in every cell of `out`. */
    method FishDecodeAttn(e: real -> real, p: Problem, maxSeqLen: nat, capturing: bool, out: array<real>)
      returns (r: LaunchResult)
      requires Valid() && out !in Buffers()
      requires IsExp(e) && Shaped(p) && p.numKv > 0 && out.Length == p.batch * p.numQ * p.headDim
      requires Supported(p) ==> TableCovers(p)
      requires maxSeqLen > SMALL_PATH_MAX_SEQ_LEN ==> forall b | 0 <= b < p.batch :: p.lens[b] <= maxSeqLen
      modifies this, out, Buffers()
      ensures Valid()
      ensures r.Launched? ==> Supported(p) && AllHold(e, p, out[..])
      ensures r.Raised? <==>
              (!Supported(p) || (capturing && KeyFor(p.batch, p.numQ, p.headDim, maxSeqLen) !in old(entries)))
      ensures forall key | key in old(entries) :: key in entries && entries[key] == old(entries)[key]
    {
      hide OutHolds, SplitHolds, Progress, Ready, TableCovers;
      var f := GetDecodeWorkspace(p.batch, p.numQ, p.headDim, maxSeqLen, capturing);
      if f.CaptureMiss? {
        return Raised("Fish kvcache attention workspace was not prewarmed before CUDA graph capture");
      }
      CeilDivCovers(maxSeqLen, LONG_SPLIT_TOKENS);
      ghost var mid;
      r, mid := FishDecodeTriton(e, p, maxSeqLen, SMALL_PATH_MAX_SEQ_LEN, LONG_SPLIT_TOKENS, f.ws, out);
    }
  }

  // ---- dispatch length and guard --------------------------------------------------------

  datatype Dispatch = Use(maxSeqLen: int) | NoBound | DispatchError

  function MaxInt(s: seq<int>): (m: int)
    requires s != []
    ensures m in s && forall i | 0 <= i < |s| :: s[i] <= m
  {
    if |s| == 1 then s[0]
    else
      var rest := MaxInt(s[..|s| - 1]);
      if s[|s| - 1] > rest then s[|s| - 1] else rest
  }

  function SmallDecodeBucket(maxSeqLen: int): int {
    if maxSeqLen <= 64 then 64
    else if maxSeqLen <= 128 then 128
    else if maxSeqLen <= 256 then 256
    else if maxSeqLen <= 512 then 512
    else SMALL_PATH_MAX_SEQ_LEN
  }

  datatype UpperBound = Missing | NotCpu | Rows(rows: seq<int>)

  predicate Bucket(n: int) {
    n == 64 || n == 128 || n == 256 || n == 512 || n == 1024
  }

  /** The length a batch is planned for covers its n rows: it is the smallest bucket that does,
      or the longest row if none does. */
  ghost predicate IsPlan(rows: seq<int>, n: nat, plan: int)
    requires n <= |rows|
  {
    && (forall i | 0 <= i < n :: rows[i] <= plan)
    && (if plan > 1024 then exists i :: 0 <= i < n && rows[i] == plan
        else Bucket(plan) && forall c | Bucket(c) && c < plan :: exists i :: 0 <= i < n && rows[i] > c)
  }

  lemma OnePlan(rows: seq<int>, n: nat, plan: int, other: int)
    requires n <= |rows| && IsPlan(rows, n, plan) && IsPlan(rows, n, other)
    ensures plan == other
  {
  }

  /** Some bound is at least the length, or the length is at most one. */
  predicate Bounded(rows: seq<int>, n: nat, len: int)
    requires n <= |rows|
  {
    len <= 1 || exists i :: 0 <= i < n && len <= rows[i]
  }

  /** _dispatch_max_seq_len: the length the launch is planned for covers every bound in
      the active batch, and plans the small path exactly when all bounds are small. */
  function DispatchMaxSeqLen(maxSeqLen: int, maxQueryLen: int, bound: UpperBound, activeBatch: nat,
                             required: bool, seqLens: seq<int>): (r: Dispatch)
    requires |seqLens| == activeBatch
    ensures maxQueryLen != 1 ==> r == Use(maxSeqLen)
    ensures maxQueryLen == 1 && r.Use? ==>
              && bound.Rows? && activeBatch <= |bound.rows| && r.maxSeqLen >= 64
              && (forall i | 0 <= i < activeBatch :: bound.rows[i] <= r.maxSeqLen)
              && (r.maxSeqLen <= SMALL_PATH_MAX_SEQ_LEN
                  <==> forall i | 0 <= i < activeBatch :: bound.rows[i] <= SMALL_PATH_MAX_SEQ_LEN)
              && (required ==> forall i | 0 <= i < activeBatch :: seqLens[i] <= r.maxSeqLen)
    ensures maxQueryLen == 1 && r.Use? ==> IsPlan(bound.rows, activeBatch, r.maxSeqLen)
    ensures maxQueryLen == 1 ==> (r.NoBound? <==> !required && (!bound.Rows? || |bound.rows| < activeBatch))
    ensures maxQueryLen == 1 ==>
              (r.Use? <==> bound.Rows? && 0 < activeBatch <= |bound.rows|
                           && (required ==> forall i | 0 <= i < activeBatch :: Bounded(bound.rows, activeBatch, seqLens[i])))
  {
    if maxQueryLen != 1 then Use(maxSeqLen)
    else if !bound.Rows? || |bound.rows| < activeBatch then
      if required then DispatchError else NoBound
    else if activeBatch == 0 then DispatchError
    else
      var active := bound.rows[..activeBatch];
      var top := MaxInt(active);
      var realBound := if top > 1 then top else 1;
      assert forall i | 0 <= i < activeBatch :: active[i] == bound.rows[i];
      if required && realBound < MaxInt(seqLens) then DispatchError
      else if realBound <= SMALL_PATH_MAX_SEQ_LEN then Use(SmallDecodeBucket(realBound))
      else Use(realBound)
  }

  /** The shape part of can_use_fish_kvcache_attn; `otherChecks` stands for the
      environment, dtype, contiguity and feature flags. */
  predicate CanUse(p: Problem, maxQueryLen: int, maxSeqLen: int, otherChecks: bool) {
    && otherChecks
    && maxQueryLen == 1
    && p.headDim == HEAD_DIM && p.blockSize == BLOCK_SIZE
    && maxSeqLen > 0
    && maxSeqLen <= p.maxBlocks * p.blockSize
  }

  predicate EntriesInRange(p: Problem)
    requires Shaped(p)
  {
    forall b | 0 <= b < p.batch :: RowEntries(p, b)
  }

  /** Bounds that hold for the real lengths, plus the guard, make every block-table
      access of the launch fall inside the table. */
  lemma GuardCoversTable(p: Problem, maxQueryLen: int, maxSeqLen: int, otherChecks: bool)
    requires Shaped(p) && EntriesInRange(p)
    requires CanUse(p, maxQueryLen, maxSeqLen, otherChecks)
    requires forall b | 0 <= b < p.batch :: p.lens[b] <= maxSeqLen
    ensures TableCovers(p)
  {
    forall b | 0 <= b < p.batch
      ensures RowCovers(p, b)
    {
    }
  }

  datatype Forward = FastPath | Fallback | Failed

  /** The batch is planned for that length, and the guard lets it through. */
  ghost predicate Eligible(p: Problem, bound: UpperBound, otherChecks: bool, plan: nat) {
    && bound.Rows? && 0 < p.batch <= |bound.rows| && IsPlan(bound.rows, p.batch, plan)
    && otherChecks && p.headDim == HEAD_DIM && p.blockSize == BLOCK_SIZE
    && plan <= p.maxBlocks * p.blockSize
  }

  /** A bounded batch whose bounds fit the table is eligible, provided the table is as wide as
      the largest bucket. */
  lemma WideTableIsEligible(p: Problem, bound: UpperBound)
    requires p.headDim == HEAD_DIM && p.blockSize == BLOCK_SIZE
    requires bound.Rows? && 0 < p.batch <= |bound.rows|
    requires 1024 <= p.maxBlocks * p.blockSize
    requires forall b | 0 <= b < p.batch :: bound.rows[b] <= p.maxBlocks * p.blockSize
    ensures exists plan: nat :: Eligible(p, bound, true, plan)
  {
    var d := DispatchMaxSeqLen(0, 1, bound, p.batch, false, seq(p.batch, _ => 0));
    assert IsPlan(bound.rows, p.batch, d.maxSeqLen);
    assert Eligible(p, bound, true, d.maxSeqLen);
  }

  /** _forward_with_fish_kvcache: either attention is in every cell of `out`, or `out` is left
      for the original forward.  `direct` is the outer test, missing metadata or cascade
      attention, that goes straight to the original forward; otherwise a decode batch that
      requires the kernel never falls back. */
  method ForwardWithFishKvcache(e: real -> real, cache: WorkspaceCache, p: Problem, direct: bool, metaMaxSeqLen: int,
                                maxQueryLen: int, bound: UpperBound, required: bool, otherChecks: bool, capturing: bool,
                                out: array<real>)
    returns (r: Forward)
    requires cache.Valid() && out !in cache.Buffers()
    requires IsExp(e) && Shaped(p) && p.numKv > 0 && out.Length == p.batch * p.numQ * p.headDim
    requires EntriesInRange(p)
    requires bound.Rows? && p.batch <= |bound.rows| ==> forall b | 0 <= b < p.batch :: p.lens[b] <= bound.rows[b]
    modifies cache, out, cache.Buffers()
    ensures cache.Valid()
    ensures r.FastPath? <==>
              && !direct && maxQueryLen == 1 && p.numQ % p.numKv == 0
              && exists plan: nat :: Eligible(p, bound, otherChecks, plan)
                                     && (capturing ==> KeyFor(p.batch, p.numQ, p.headDim, plan) in old(cache.entries))
    ensures r.Fallback? <==>
              || direct || maxQueryLen != 1
              || (!required && !(bound.Rows? && p.batch == 0) && forall plan: nat :: !Eligible(p, bound, otherChecks, plan))
    ensures r.FastPath? ==> Ready(p) && AllHold(e, p, out[..])
    ensures r.Fallback? ==> out[..] == old(out[..]) && cache.entries == old(cache.entries)
  {
    hide AllHold, IsPlan, KeyFor, TableCovers;
    if direct {
      return Fallback;
    }
    var d := DispatchMaxSeqLen(metaMaxSeqLen, maxQueryLen, bound, p.batch, required, p.lens);
    if maxQueryLen == 1 {
      PlansAgree(p, metaMaxSeqLen, bound, required, otherChecks, d);
    }
    if d.DispatchError? {
      return Failed;
    }
    if !d.Use? || !CanUse(p, maxQueryLen, d.maxSeqLen, otherChecks) {
      return if maxQueryLen == 1 && required then Failed else Fallback;
    }
    assert Eligible(p, bound, otherChecks, d.maxSeqLen);
    GuardCoversTable(p, maxQueryLen, d.maxSeqLen, otherChecks);
    var launch := cache.FishDecodeAttn(e, p, d.maxSeqLen, capturing, out);
    return if launch.Launched? then FastPath else Failed;
  }

  /** The dispatched length is the one plan there is. */
  lemma PlansAgree(p: Problem, metaMaxSeqLen: int, bound: UpperBound, required: bool, otherChecks: bool, d: Dispatch)
    requires Shaped(p)
    requires bound.Rows? && p.batch <= |bound.rows| ==> forall b | 0 <= b < p.batch :: p.lens[b] <= bound.rows[b]
    requires d == DispatchMaxSeqLen(metaMaxSeqLen, 1, bound, p.batch, required, p.lens)
    ensures bound.Rows? && 0 < p.batch <= |bound.rows| <==> d.Use?
    ensures d.Use? ==> IsPlan(bound.rows, p.batch, d.maxSeqLen)
    ensures forall plan: nat | Eligible(p, bound, otherChecks, plan) :: d == Use(plan)
  {
    hide IsPlan;
    if bound.Rows? && p.batch <= |bound.rows| {
      assert forall b | 0 <= b < p.batch :: Bounded(bound.rows, p.batch, p.lens[b]);
    }
    forall plan: nat | Eligible(p, bound, otherChecks, plan)
      ensures d == Use(plan)
    {
      OnePlan(bound.rows, p.batch, plan, d.maxSeqLen);
    }
  }
}
