/** Slot-indexed caches: row scatter, slot mapping through a block table, deferred
    chunks, and reading whole blocks back. */
module SlotCache {
  import opened Arithmetic

  type Row = seq<real>

  // ---- index_copy_ -----------------------------------------------------------

  predicate InRange(slots: seq<int>, size: nat) {
    forall i | 0 <= i < |slots| :: 0 <= slots[i] < size
  }

  /** `flat.index_copy_(0, slots, rows)`.  For repeated slots the later row stays here; torch
      leaves their order open, so only distinct slots say what it does. */
  function IndexCopy(flat: seq<Row>, slots: seq<int>, rows: seq<Row>): (r: seq<Row>)
    requires |slots| == |rows| && InRange(slots, |flat|)
    ensures |r| == |flat|
  {
    if slots == [] then flat
    else
      var n := |slots| - 1;
      IndexCopy(flat, slots[..n], rows[..n])[slots[n] := rows[n]]
  }

  method IndexCopyInPlace(flat: array<Row>, slots: seq<int>, rows: seq<Row>)
    requires |slots| == |rows| && InRange(slots, flat.Length)
    modifies flat
    ensures flat[..] == IndexCopy(old(flat[..]), slots, rows)
  {
    for i := 0 to |slots|
      invariant flat[..] == IndexCopy(old(flat[..]), slots[..i], rows[..i])
    {
      flat[slots[i]] := rows[i];
      assert slots[..i + 1][..i] == slots[..i] && rows[..i + 1][..i] == rows[..i];
    }
    assert slots[..|slots|] == slots && rows[..|rows|] == rows;
  }

  lemma {:induction false} IndexCopyConcat(flat: seq<Row>, s: seq<int>, rs: seq<Row>, t: seq<int>, qs: seq<Row>)
    requires |s| == |rs| && |t| == |qs| && InRange(s, |flat|) && InRange(t, |flat|)
    ensures InRange(s + t, |flat|)
    ensures IndexCopy(flat, s + t, rs + qs) == IndexCopy(IndexCopy(flat, s, rs), t, qs)
  {
    if t == [] {
      assert s + t == s && rs + qs == rs;
    } else {
      var n := |t| - 1;
      assert (s + t)[..|s + t| - 1] == s + t[..n] && (rs + qs)[..|s + t| - 1] == rs + qs[..n];
      IndexCopyConcat(flat, s, rs, t[..n], qs[..n]);
    }
  }

  lemma {:induction false} IndexCopyKeeps(flat: seq<Row>, slots: seq<int>, rows: seq<Row>, x: int)
    requires |slots| == |rows| && InRange(slots, |flat|) && 0 <= x < |flat|
    requires x !in slots
    ensures IndexCopy(flat, slots, rows)[x] == flat[x]
  {
    if slots == [] {
    } else {
      var n := |slots| - 1;
      assert slots[n] in slots;
      IndexCopyKeeps(flat, slots[..n], rows[..n], x);
    }
  }

  /** What a slot holds afterwards: its last row, so any row if they all agree. */
  lemma {:induction false} IndexCopyAgrees(flat: seq<Row>, slots: seq<int>, rows: seq<Row>, x: int, v: Row)
    requires |slots| == |rows| && InRange(slots, |flat|) && 0 <= x < |flat|
    requires forall i | 0 <= i < |slots| :: slots[i] == x ==> rows[i] == v
    requires x in slots || flat[x] == v
    ensures IndexCopy(flat, slots, rows)[x] == v
  {
    if slots == [] {
    } else {
      var n := |slots| - 1;
      if slots[n] != x {
        assert x in slots ==> x in slots[..n];
        IndexCopyAgrees(flat, slots[..n], rows[..n], x, v);
      }
    }
  }

  /** The last row scattered to a slot. */
  function LastRow(slots: seq<int>, rows: seq<Row>, x: int): Row
    requires |slots| == |rows| && x in slots
  {
    var n := |slots| - 1;
    if slots[n] == x then rows[n] else LastRow(slots[..n], rows[..n], x)
  }

  /** What every slot holds afterwards. */
  lemma {:induction false} IndexCopyAt(flat: seq<Row>, slots: seq<int>, rows: seq<Row>, x: int)
    requires |slots| == |rows| && InRange(slots, |flat|) && 0 <= x < |flat|
    ensures IndexCopy(flat, slots, rows)[x] == if x in slots then LastRow(slots, rows, x) else flat[x]
  {
    if slots == [] {
    } else {
      var n := |slots| - 1;
      assert slots[n] in slots && slots == slots[..n] + [slots[n]];
      IndexCopyAt(flat, slots[..n], rows[..n], x);
    }
  }

  /** With distinct slots the order of the scatter does not matter: every slot named holds
      its row, every other slot what it held. */
  lemma DistinctSlotsFixContents(flat: seq<Row>, slots: seq<int>, rows: seq<Row>, after: seq<Row>)
    requires |slots| == |rows| && InRange(slots, |flat|) && |after| == |flat|
    requires forall i, j | 0 <= i < j < |slots| :: slots[i] != slots[j]
    ensures after == IndexCopy(flat, slots, rows) <==>
            && (forall i | 0 <= i < |slots| :: after[slots[i]] == rows[i])
            && (forall x | 0 <= x < |flat| && x !in slots :: after[x] == flat[x])
  {
    var r := IndexCopy(flat, slots, rows);
    forall i | 0 <= i < |slots|
      ensures r[slots[i]] == rows[i]
    {
      IndexCopyAgrees(flat, slots, rows, slots[i], rows[i]);
    }
    forall x | 0 <= x < |flat| && x !in slots
      ensures r[x] == flat[x]
    {
      IndexCopyKeeps(flat, slots, rows, x);
    }
    if (forall i | 0 <= i < |slots| :: after[slots[i]] == rows[i]) && (forall x | 0 <= x < |flat| && x !in slots :: after[x] == flat[x]) {
      forall x | 0 <= x < |flat|
        ensures after[x] == r[x]
      {
        if x in slots {
          var i :| 0 <= i < |slots| && slots[i] == x;
        }
      }
    }
  }

  /** What a scatter may leave if rows for one slot land in any order: one of its rows in every
      slot named, the others untouched. */
  ghost predicate Outcome(flat: seq<Row>, slots: seq<int>, rows: seq<Row>, after: seq<Row>)
    requires |slots| == |rows| && InRange(slots, |flat|)
  {
    && |after| == |flat|
    && (forall x | 0 <= x < |flat| && x !in slots :: after[x] == flat[x])
    && (forall x | x in slots :: exists i :: 0 <= i < |slots| && slots[i] == x && after[x] == rows[i])
  }

  /** Rows for one slot are the same row. */
  predicate SlotsAgree(slots: seq<int>, rows: seq<Row>)
    requires |slots| == |rows|
  {
    forall i, j | 0 <= i < |slots| && 0 <= j < |slots| :: slots[i] == slots[j] ==> rows[i] == rows[j]
  }

  lemma {:induction false} LastRowIsARow(slots: seq<int>, rows: seq<Row>, x: int)
    requires |slots| == |rows| && x in slots
    ensures exists i :: 0 <= i < |slots| && slots[i] == x && LastRow(slots, rows, x) == rows[i]
  {
    var n := |slots| - 1;
    if slots[n] == x {
    } else {
      assert x in slots[..n];
      LastRowIsARow(slots[..n], rows[..n], x);
    }
  }

  lemma CopyIsOutcome(flat: seq<Row>, slots: seq<int>, rows: seq<Row>)
    requires |slots| == |rows| && InRange(slots, |flat|)
    ensures Outcome(flat, slots, rows, IndexCopy(flat, slots, rows))
  {
    forall x | 0 <= x < |flat| && x !in slots
      ensures IndexCopy(flat, slots, rows)[x] == flat[x]
    {
      IndexCopyKeeps(flat, slots, rows, x);
    }
    forall x | x in slots
      ensures exists i :: 0 <= i < |slots| && slots[i] == x && IndexCopy(flat, slots, rows)[x] == rows[i]
    {
      IndexCopyAt(flat, slots, rows, x);
      LastRowIsARow(slots, rows, x);
    }
  }

  lemma AgreedOutcome(flat: seq<Row>, slots: seq<int>, rows: seq<Row>, after: seq<Row>)
    requires |slots| == |rows| && InRange(slots, |flat|) && SlotsAgree(slots, rows) && Outcome(flat, slots, rows, after)
    ensures after == IndexCopy(flat, slots, rows)
  {
    CopyIsOutcome(flat, slots, rows);
    var r := IndexCopy(flat, slots, rows);
    forall x | 0 <= x < |flat|
      ensures after[x] == r[x]
    {
      if x in slots {
        var i :| 0 <= i < |slots| && slots[i] == x && after[x] == rows[i];
        var j :| 0 <= j < |slots| && slots[j] == x && r[x] == rows[j];
      }
    }
  }

  /** Putting any of its rows into a slot is an outcome. */
  lemma OtherOutcome(flat: seq<Row>, slots: seq<int>, rows: seq<Row>, k: nat)
    requires |slots| == |rows| && InRange(slots, |flat|) && k < |slots|
    ensures Outcome(flat, slots, rows, IndexCopy(flat, slots, rows)[slots[k] := rows[k]])
  {
    hide IndexCopy;
    CopyIsOutcome(flat, slots, rows);
    var r := IndexCopy(flat, slots, rows);
    var after := r[slots[k] := rows[k]];
    forall x | x in slots
      ensures exists i :: 0 <= i < |slots| && slots[i] == x && after[x] == rows[i]
    {
      if x == slots[k] {
        assert slots[k] == x && after[x] == rows[k];
      } else {
        var i :| 0 <= i < |slots| && slots[i] == x && r[x] == rows[i];
        assert after[x] == rows[i];
      }
    }
  }

  /** The scatter is the only outcome, whatever the order, if and only if repeated slots are
      given the same row. */
  lemma OutcomeFixedIff(flat: seq<Row>, slots: seq<int>, rows: seq<Row>)
    requires |slots| == |rows| && InRange(slots, |flat|)
    ensures Outcome(flat, slots, rows, IndexCopy(flat, slots, rows))
    ensures (forall after :: Outcome(flat, slots, rows, after) ==> after == IndexCopy(flat, slots, rows)) <==> SlotsAgree(slots, rows)
  {
    hide Outcome, IndexCopy;
    CopyIsOutcome(flat, slots, rows);
    if SlotsAgree(slots, rows) {
      forall after | Outcome(flat, slots, rows, after)
        ensures after == IndexCopy(flat, slots, rows)
      {
        AgreedOutcome(flat, slots, rows, after);
      }
    }
    if forall after :: Outcome(flat, slots, rows, after) ==> after == IndexCopy(flat, slots, rows) {
      var r := IndexCopy(flat, slots, rows);
      forall i, j | 0 <= i < |slots| && 0 <= j < |slots| && slots[i] == slots[j]
        ensures rows[i] == rows[j]
      {
        OtherOutcome(flat, slots, rows, i);
        OtherOutcome(flat, slots, rows, j);
        assert r[slots[i] := rows[i]] == r == r[slots[j] := rows[j]];
        assert r[slots[i]] == rows[i] && r[slots[j]] == rows[j];
      }
    }
  }

  /** On every slot both scatters write, their last rows agree. */
  ghost predicate LastRowsAgree(s: seq<int>, rs: seq<Row>, t: seq<int>, qs: seq<Row>)
    requires |s| == |rs| && |t| == |qs|
  {
    forall x | x in s && x in t :: LastRow(s, rs, x) == LastRow(t, qs, x)
  }

  /** Two scatters commute if and only if their last rows agree wherever both write. */
  lemma IndexCopyCommutes(flat: seq<Row>, s: seq<int>, rs: seq<Row>, t: seq<int>, qs: seq<Row>)
    requires |s| == |rs| && |t| == |qs| && InRange(s, |flat|) && InRange(t, |flat|)
    ensures IndexCopy(IndexCopy(flat, s, rs), t, qs) == IndexCopy(IndexCopy(flat, t, qs), s, rs) <==> LastRowsAgree(s, rs, t, qs)
  {
    var a, b := IndexCopy(IndexCopy(flat, s, rs), t, qs), IndexCopy(IndexCopy(flat, t, qs), s, rs);
    forall x | 0 <= x < |flat|
      ensures a[x] == if x in t then LastRow(t, qs, x) else if x in s then LastRow(s, rs, x) else flat[x]
      ensures b[x] == if x in s then LastRow(s, rs, x) else if x in t then LastRow(t, qs, x) else flat[x]
    {
      IndexCopyAt(flat, s, rs, x);
      IndexCopyAt(IndexCopy(flat, s, rs), t, qs, x);
      IndexCopyAt(flat, t, qs, x);
      IndexCopyAt(IndexCopy(flat, t, qs), s, rs, x);
    }
    if a == b {
      forall x | x in s && x in t
        ensures LastRow(s, rs, x) == LastRow(t, qs, x)
      {
        assert 0 <= x < |flat|;
        assert a[x] == b[x];
      }
    }
  }

  // ---- slots of logical tokens --------------------------------------------------

  predicate TableOk(tbl: seq<int>, blockSize: nat, size: nat) {
    blockSize > 0 && forall j | 0 <= j < |tbl| :: 0 <= tbl[j] && (tbl[j] + 1) * blockSize <= size
  }

  function Slot(tbl: seq<int>, blockSize: nat, t: nat): int
    requires blockSize > 0 && t / blockSize < |tbl|
  {
    tbl[t / blockSize] * blockSize + t % blockSize
  }

  lemma SlotInRange(tbl: seq<int>, blockSize: nat, size: nat, t: nat)
    requires TableOk(tbl, blockSize, size) && t / blockSize < |tbl|
    ensures 0 <= Slot(tbl, blockSize, t) < size
  {
    assert (tbl[t / blockSize] + 1) * blockSize == tbl[t / blockSize] * blockSize + blockSize;
  }

  lemma WithinTable(tbl: seq<int>, blockSize: nat, t: nat)
    requires blockSize > 0
    ensures t / blockSize < |tbl| <==> t < |tbl| * blockSize
  {
    var q := t / blockSize;
    if q < |tbl| {
      assert (q + 1) * blockSize <= |tbl| * blockSize;
    } else {
      assert |tbl| * blockSize <= q * blockSize;
    }
  }

  /** How many of the tokens start, start+1, .. start+count-1 the table can map. */
  function Mapped(tbl: seq<int>, blockSize: nat, start: nat, count: nat): (k: nat)
    ensures k <= count
  {
    var room := |tbl| * blockSize - start;
    if room <= 0 then 0 else if room < count then room else count
  }

  lemma MappedPrefix(tbl: seq<int>, blockSize: nat, start: nat, count: nat, i: nat)
    requires blockSize > 0 && i < count
    ensures (start + i) / blockSize < |tbl| <==> i < Mapped(tbl, blockSize, start, count)
  {
    WithinTable(tbl, blockSize, start + i);
  }

  function SlotRange(tbl: seq<int>, blockSize: nat, start: nat, count: nat): (s: seq<int>)
    requires blockSize > 0
    ensures |s| == Mapped(tbl, blockSize, start, count)
  {
    seq(Mapped(tbl, blockSize, start, count), i requires 0 <= i < Mapped(tbl, blockSize, start, count) =>
      MappedPrefix(tbl, blockSize, start, count, i);
      Slot(tbl, blockSize, start + i))
  }

  lemma SlotRangeInRange(tbl: seq<int>, blockSize: nat, size: nat, start: nat, count: nat)
    requires TableOk(tbl, blockSize, size)
    ensures InRange(SlotRange(tbl, blockSize, start, count), size)
  {
    forall i | 0 <= i < Mapped(tbl, blockSize, start, count)
      ensures 0 <= SlotRange(tbl, blockSize, start, count)[i] < size
    {
      MappedPrefix(tbl, blockSize, start, count, i);
      SlotInRange(tbl, blockSize, size, start + i);
    }
  }

  /** _get_slot_ids_for_token_range: dropping positions past the block table leaves a
      prefix, so the surviving slots still line up with the leading rows. */
  method GetSlotIds(tbl: seq<int>, blockSize: nat, start: nat, count: nat) returns (slots: seq<int>)
    requires blockSize > 0
    ensures slots == SlotRange(tbl, blockSize, start, count)
  {
    var maxBlocks := |tbl|;
    slots := [];
    for i := 0 to count
      invariant slots == SlotRange(tbl, blockSize, start, count)[..if i < Mapped(tbl, blockSize, start, count) then i else Mapped(tbl, blockSize, start, count)]
    {
      var position := start + i;
      MappedPrefix(tbl, blockSize, start, count, i);
      if position / blockSize < maxBlocks {
        slots := slots + [tbl[position / blockSize] * blockSize + position % blockSize];
      }
    }
  }

  lemma SlotRangeConcat(tbl: seq<int>, blockSize: nat, start: nat, a: nat, b: nat)
    requires blockSize > 0
    ensures SlotRange(tbl, blockSize, start, a + b)
         == SlotRange(tbl, blockSize, start, a) + SlotRange(tbl, blockSize, start + a, b)
  {
    var whole, tail := SlotRange(tbl, blockSize, start, a + b), SlotRange(tbl, blockSize, start + a, b);
    forall i | 0 <= i < |tail|
      ensures tail[i] == whole[a + i]
    {
      assert start + a + i == start + (a + i);
    }
  }

  // ---- writing a run of tokens ------------------------------------------------------

  /** Scatter rows of tokens start.. through the table, truncated past its end. */
  function WriteRun(flat: seq<Row>, tbl: seq<int>, blockSize: nat, start: nat, rows: seq<Row>): (r: seq<Row>)
    requires TableOk(tbl, blockSize, |flat|)
    ensures |r| == |flat|
  {
    SlotRangeInRange(tbl, blockSize, |flat|, start, |rows|);
    var slots := SlotRange(tbl, blockSize, start, |rows|);
    IndexCopy(flat, slots, rows[..|slots|])
  }

  /** Writing two contiguous runs is writing their concatenation, truncation included. */
  lemma WriteRunConcat(flat: seq<Row>, tbl: seq<int>, blockSize: nat, start: nat, a: seq<Row>, b: seq<Row>)
    requires TableOk(tbl, blockSize, |flat|)
    ensures WriteRun(flat, tbl, blockSize, start, a + b)
         == WriteRun(WriteRun(flat, tbl, blockSize, start, a), tbl, blockSize, start + |a|, b)
  {
    var s, t := SlotRange(tbl, blockSize, start, |a|), SlotRange(tbl, blockSize, start + |a|, |b|);
    SlotRangeInRange(tbl, blockSize, |flat|, start, |a|);
    SlotRangeInRange(tbl, blockSize, |flat|, start + |a|, |b|);
    SlotRangeConcat(tbl, blockSize, start, |a|, |b|);
    assert (a + b)[..|s + t|] == a[..|s|] + b[..|t|];
    IndexCopyConcat(flat, s, a[..|s|], t, b[..|t|]);
  }

  // ---- deferred chunks ---------------------------------------------------------------

  datatype Chunk = Chunk(start: nat, rows: seq<Row>)

  /** Each chunk written on its own, in list order. */
  function WriteChunks(flat: seq<Row>, tbl: seq<int>, blockSize: nat, chunks: seq<Chunk>): (r: seq<Row>)
    requires TableOk(tbl, blockSize, |flat|)
    ensures |r| == |flat|
  {
    if chunks == [] then flat
    else
      var n := |chunks| - 1;
      WriteRun(WriteChunks(flat, tbl, blockSize, chunks[..n]), tbl, blockSize, chunks[n].start, chunks[n].rows)
  }

  /** All slots the chunks scatter to, and the rows that go there, in list order. */
  function ChunkSlots(tbl: seq<int>, blockSize: nat, chunks: seq<Chunk>): seq<int>
    requires blockSize > 0
  {
    if chunks == [] then []
    else
      var n := |chunks| - 1;
      ChunkSlots(tbl, blockSize, chunks[..n]) + SlotRange(tbl, blockSize, chunks[n].start, |chunks[n].rows|)
  }

  function ChunkRows(tbl: seq<int>, blockSize: nat, chunks: seq<Chunk>): (rows: seq<Row>)
    requires blockSize > 0
    ensures |rows| == |ChunkSlots(tbl, blockSize, chunks)|
  {
    if chunks == [] then []
    else
      var n := |chunks| - 1;
      ChunkRows(tbl, blockSize, chunks[..n]) + chunks[n].rows[..Mapped(tbl, blockSize, chunks[n].start, |chunks[n].rows|)]
  }

  /** Writing chunks one by one is one scatter. */
  lemma {:induction false} WriteChunksIsCopy(flat: seq<Row>, tbl: seq<int>, blockSize: nat, chunks: seq<Chunk>)
    requires TableOk(tbl, blockSize, |flat|)
    ensures InRange(ChunkSlots(tbl, blockSize, chunks), |flat|)
    ensures WriteChunks(flat, tbl, blockSize, chunks) == IndexCopy(flat, ChunkSlots(tbl, blockSize, chunks), ChunkRows(tbl, blockSize, chunks))
  {
    if chunks == [] {
    } else {
      var n := |chunks| - 1;
      var c := chunks[n];
      WriteChunksIsCopy(flat, tbl, blockSize, chunks[..n]);
      SlotRangeInRange(tbl, blockSize, |flat|, c.start, |c.rows|);
      IndexCopyConcat(flat, ChunkSlots(tbl, blockSize, chunks[..n]), ChunkRows(tbl, blockSize, chunks[..n]),
                      SlotRange(tbl, blockSize, c.start, |c.rows|), c.rows[..Mapped(tbl, blockSize, c.start, |c.rows|)]);
    }
  }

  predicate Sorted(chunks: seq<Chunk>) {
    forall i, j | 0 <= i < j < |chunks| :: chunks[i].start <= chunks[j].start
  }

  function Insert(chunks: seq<Chunk>, c: Chunk): seq<Chunk> {
    if chunks == [] || chunks[|chunks| - 1].start <= c.start then chunks + [c]
    else Insert(chunks[..|chunks| - 1], c) + [chunks[|chunks| - 1]]
  }

  /** `sorted(chunks, key=start)`. */
  function SortChunks(chunks: seq<Chunk>): seq<Chunk> {
    if chunks == [] then []
    else Insert(SortChunks(chunks[..|chunks| - 1]), chunks[|chunks| - 1])
  }

  lemma {:induction false} InsertPermutes(chunks: seq<Chunk>, c: Chunk)
    ensures multiset(Insert(chunks, c)) == multiset(chunks) + multiset{c}
  {
    if chunks == [] {
    } else if chunks[|chunks| - 1].start > c.start {
      var n := |chunks| - 1;
      assert chunks == chunks[..n] + [chunks[n]];
      InsertPermutes(chunks[..n], c);
    }
  }

  lemma {:induction false} SortPermutes(chunks: seq<Chunk>)
    ensures multiset(SortChunks(chunks)) == multiset(chunks)
  {
    if chunks == [] {
    } else {
      var n := |chunks| - 1;
      assert chunks == chunks[..n] + [chunks[n]];
      SortPermutes(chunks[..n]);
      InsertPermutes(SortChunks(chunks[..n]), chunks[n]);
    }
  }

  lemma InsertMembers(chunks: seq<Chunk>, c: Chunk, x: Chunk)
    requires x in Insert(chunks, c)
    ensures x == c || x in chunks
  {
    hide Insert;
    InsertPermutes(chunks, c);
    assert x in multiset(Insert(chunks, c));
    assert x in multiset(chunks) ==> x in chunks;
  }

  lemma SortedThenLast(front: seq<Chunk>, last: Chunk)
    requires Sorted(front) && forall x | x in front :: x.start <= last.start
    ensures Sorted(front + [last])
  {
  }

  lemma {:induction false} InsertSorted(chunks: seq<Chunk>, c: Chunk)
    requires Sorted(chunks)
    ensures Sorted(Insert(chunks, c))
  {
    if chunks == [] || chunks[|chunks| - 1].start <= c.start {
    } else {
      var n := |chunks| - 1;
      InsertSorted(chunks[..n], c);
      hide Insert;
      forall x | x in Insert(chunks[..n], c)
        ensures x.start <= chunks[n].start
      {
        InsertMembers(chunks[..n], c, x);
      }
      SortedThenLast(Insert(chunks[..n], c), chunks[n]);
      InsertStep(chunks, c);
    }
  }

  lemma InsertStep(chunks: seq<Chunk>, c: Chunk)
    requires chunks != [] && chunks[|chunks| - 1].start > c.start
    ensures Insert(chunks, c) == Insert(chunks[..|chunks| - 1], c) + [chunks[|chunks| - 1]]
  {
  }

  /** Chunks starting at token k, in list order. */
  function StartingAt(chunks: seq<Chunk>, k: nat): seq<Chunk> {
    if chunks == [] then []
    else
      var n := |chunks| - 1;
      StartingAt(chunks[..n], k) + if chunks[n].start == k then [chunks[n]] else []
  }

  lemma StartingAtAppend(chunks: seq<Chunk>, c: Chunk, k: nat)
    ensures StartingAt(chunks + [c], k) == StartingAt(chunks, k) + if c.start == k then [c] else []
  {
    assert (chunks + [c])[..|chunks|] == chunks;
  }

  lemma {:induction false} InsertStable(chunks: seq<Chunk>, c: Chunk, k: nat)
    ensures StartingAt(Insert(chunks, c), k) == StartingAt(chunks, k) + if c.start == k then [c] else []
  {
    if chunks == [] || chunks[|chunks| - 1].start <= c.start {
      StartingAtAppend(chunks, c, k);
    } else {
      hide StartingAt;
      var n := |chunks| - 1;
      assert chunks == chunks[..n] + [chunks[n]];
      InsertStable(chunks[..n], c, k);
      StartingAtAppend(chunks[..n], chunks[n], k);
      StartingAtAppend(Insert(chunks[..n], c), chunks[n], k);
    }
  }

  /** The order chunks are committed in: by first token, ties in arrival order. */
  lemma {:induction false} SortIsStable(chunks: seq<Chunk>, k: nat)
    ensures Sorted(SortChunks(chunks))
    ensures StartingAt(SortChunks(chunks), k) == StartingAt(chunks, k)
  {
    if chunks == [] {
    } else {
      var n := |chunks| - 1;
      SortIsStable(chunks[..n], k);
      InsertSorted(SortChunks(chunks[..n]), chunks[n]);
      InsertStable(SortChunks(chunks[..n]), chunks[n], k);
    }
  }

  // ---- commit order does not matter for disjoint chunks ---------------------------------

  predicate Injective(tbl: seq<int>) {
    forall i, j | 0 <= i < j < |tbl| :: tbl[i] != tbl[j]
  }

  predicate Apart(a: Chunk, b: Chunk) {
    a.start + |a.rows| <= b.start || b.start + |b.rows| <= a.start || a.rows == [] || b.rows == []
  }

  lemma DistinctSlots(tbl: seq<int>, blockSize: nat, t: nat, u: nat)
    requires blockSize > 0 && Injective(tbl) && t != u
    requires t / blockSize < |tbl| && u / blockSize < |tbl|
    ensures Slot(tbl, blockSize, t) != Slot(tbl, blockSize, u)
  {
    var p, q := tbl[t / blockSize], tbl[u / blockSize];
    if p < q {
      assert (p + 1) * blockSize <= q * blockSize;
    } else if q < p {
      assert (q + 1) * blockSize <= p * blockSize;
    } else {
      assert t / blockSize == u / blockSize;
    }
  }

  lemma ApartCommutes(flat: seq<Row>, tbl: seq<int>, blockSize: nat, a: Chunk, b: Chunk)
    requires TableOk(tbl, blockSize, |flat|) && Injective(tbl) && Apart(a, b)
    ensures WriteRun(WriteRun(flat, tbl, blockSize, a.start, a.rows), tbl, blockSize, b.start, b.rows)
         == WriteRun(WriteRun(flat, tbl, blockSize, b.start, b.rows), tbl, blockSize, a.start, a.rows)
  {
    var s, t := SlotRange(tbl, blockSize, a.start, |a.rows|), SlotRange(tbl, blockSize, b.start, |b.rows|);
    SlotRangeInRange(tbl, blockSize, |flat|, a.start, |a.rows|);
    SlotRangeInRange(tbl, blockSize, |flat|, b.start, |b.rows|);
    forall x | x in s
      ensures x !in t
    {
      var i :| 0 <= i < |s| && s[i] == x;
      forall j | 0 <= j < |t|
        ensures t[j] != x
      {
        MappedPrefix(tbl, blockSize, a.start, |a.rows|, i);
        MappedPrefix(tbl, blockSize, b.start, |b.rows|, j);
        DistinctSlots(tbl, blockSize, a.start + i, b.start + j);
      }
    }
    IndexCopyCommutes(flat, s, a.rows[..|s|], t, b.rows[..|t|]);
  }

  lemma WriteChunksAppend(flat: seq<Row>, tbl: seq<int>, blockSize: nat, chunks: seq<Chunk>, c: Chunk)
    requires TableOk(tbl, blockSize, |flat|)
    ensures WriteChunks(flat, tbl, blockSize, chunks + [c])
         == WriteRun(WriteChunks(flat, tbl, blockSize, chunks), tbl, blockSize, c.start, c.rows)
  {
    assert (chunks + [c])[..|chunks|] == chunks;
  }

  lemma {:induction false} InsertWrites(flat: seq<Row>, tbl: seq<int>, blockSize: nat, chunks: seq<Chunk>, c: Chunk)
    requires TableOk(tbl, blockSize, |flat|) && Injective(tbl)
    requires forall x | x in chunks :: Apart(x, c)
    ensures WriteChunks(flat, tbl, blockSize, Insert(chunks, c)) == WriteChunks(flat, tbl, blockSize, chunks + [c])
  {
    if chunks == [] {
    } else if chunks[|chunks| - 1].start > c.start {
      hide WriteRun, WriteChunks, TableOk, Injective;
      var n := |chunks| - 1;
      var front, last := chunks[..n], chunks[n];
      assert last in chunks && Apart(last, c);
      assert chunks == front + [last];
      assert forall x | x in front :: x in chunks;
      InsertWrites(flat, tbl, blockSize, front, c);
      WriteChunksAppend(flat, tbl, blockSize, Insert(front, c), last);
      WriteChunksAppend(flat, tbl, blockSize, front, c);
      WriteChunksAppend(flat, tbl, blockSize, chunks, c);
      WriteChunksAppend(flat, tbl, blockSize, front, last);
      ApartCommutes(WriteChunks(flat, tbl, blockSize, front), tbl, blockSize, c, last);
    }
  }

  ghost predicate PairwiseApart(chunks: seq<Chunk>) {
    forall i, j | 0 <= i < j < |chunks| :: Apart(chunks[i], chunks[j])
  }

  /** Disjoint chunks committed in sorted order leave what arrival order would. */
  lemma {:induction false} SortedIsArrivalOrder(flat: seq<Row>, tbl: seq<int>, blockSize: nat, chunks: seq<Chunk>)
    requires TableOk(tbl, blockSize, |flat|) && Injective(tbl)
    requires PairwiseApart(chunks)
    ensures WriteChunks(flat, tbl, blockSize, SortChunks(chunks)) == WriteChunks(flat, tbl, blockSize, chunks)
  {
    if chunks == [] {
    } else {
      var n := |chunks| - 1;
      SortedIsArrivalOrder(flat, tbl, blockSize, chunks[..n]);
      var sorted := SortChunks(chunks[..n]);
      SortPermutes(chunks[..n]);
      forall x | x in sorted
        ensures Apart(x, chunks[n])
      {
        assert x in multiset(sorted);
        assert x in chunks[..n];
      }
      InsertWrites(flat, tbl, blockSize, sorted, chunks[n]);
      assert (sorted + [chunks[n]])[..|sorted|] == sorted;
    }
  }

  // ---- reading whole blocks back --------------------------------------------------------

  /** `cache[block_ids].reshape(-1, width)` on the flat view. */
  function GatherBlocks(flat: seq<Row>, blocks: seq<int>, blockSize: nat): (r: seq<Row>)
    requires TableOk(blocks, blockSize, |flat|)
    ensures |r| == |blocks| * blockSize
  {
    if blocks == [] then []
    else
      var n := |blocks| - 1;
      var first := blocks[n] * blockSize;
      assert (blocks[n] + 1) * blockSize == first + blockSize;
      GatherBlocks(flat, blocks[..n], blockSize) + flat[first..first + blockSize]
  }

  /** The cache holds `history` for the tokens the table maps. */
  ghost predicate Holds(flat: seq<Row>, tbl: seq<int>, blockSize: nat, history: seq<Row>)
    requires TableOk(tbl, blockSize, |flat|) && |history| <= |tbl| * blockSize
  {
    forall t | 0 <= t < |history| :: SlotHolds(flat, tbl, blockSize, t, history[t])
  }

  ghost predicate SlotHolds(flat: seq<Row>, tbl: seq<int>, blockSize: nat, t: nat, v: Row)
    requires TableOk(tbl, blockSize, |flat|) && t < |tbl| * blockSize
  {
    WithinTable(tbl, blockSize, t);
    SlotInRange(tbl, blockSize, |flat|, t);
    flat[Slot(tbl, blockSize, t)] == v
  }

  /** Writing through flat slots and reading by whole blocks are inverse views. */
  lemma {:induction false} GatherReadsSlots(flat: seq<Row>, tbl: seq<int>, blockSize: nat, blocks: nat, history: seq<Row>)
    requires TableOk(tbl, blockSize, |flat|) && blocks <= |tbl|
    requires |history| == blocks * blockSize <= |tbl| * blockSize
    requires Holds(flat, tbl, blockSize, history)
    ensures GatherBlocks(flat, tbl[..blocks], blockSize) == history
  {
    if blocks == 0 {
    } else {
      var n := blocks - 1;
      assert blocks * blockSize == n * blockSize + blockSize;
      assert tbl[..blocks][..n] == tbl[..n];
      forall t | 0 <= t < n * blockSize
        ensures SlotHolds(flat, tbl, blockSize, t, history[..n * blockSize][t])
      {
        assert SlotHolds(flat, tbl, blockSize, t, history[t]);
      }
      GatherReadsSlots(flat, tbl, blockSize, n, history[..n * blockSize]);
      GatherLast(flat, tbl, blockSize, n, history);
    }
  }

  lemma GatherLast(flat: seq<Row>, tbl: seq<int>, blockSize: nat, n: nat, history: seq<Row>)
    requires TableOk(tbl, blockSize, |flat|) && n < |tbl|
    requires |history| == n * blockSize + blockSize <= |tbl| * blockSize
    requires Holds(flat, tbl, blockSize, history)
    ensures 0 <= tbl[n] * blockSize <= tbl[n] * blockSize + blockSize <= |flat|
    ensures flat[tbl[n] * blockSize..tbl[n] * blockSize + blockSize] == history[n * blockSize..]
  {
    hide TableOk, Holds;
    BlockInRange(tbl, blockSize, |flat|, n);
    var first := tbl[n] * blockSize;
    forall o | 0 <= o < blockSize
      ensures flat[first..first + blockSize][o] == history[n * blockSize..][o]
    {
      GatherCell(flat, tbl, blockSize, n, o, history);
    }
  }

  lemma BlockInRange(tbl: seq<int>, blockSize: nat, size: nat, n: nat)
    requires TableOk(tbl, blockSize, size) && n < |tbl|
    ensures 0 <= tbl[n] * blockSize && tbl[n] * blockSize + blockSize <= size
  {
    assert (tbl[n] + 1) * blockSize == tbl[n] * blockSize + blockSize;
  }

  lemma GatherCell(flat: seq<Row>, tbl: seq<int>, blockSize: nat, n: nat, o: nat, history: seq<Row>)
    requires TableOk(tbl, blockSize, |flat|) && n < |tbl| && o < blockSize
    requires n * blockSize + o < |history| <= |tbl| * blockSize
    requires Holds(flat, tbl, blockSize, history)
    ensures 0 <= tbl[n] * blockSize + o < |flat|
    ensures flat[tbl[n] * blockSize + o] == history[n * blockSize + o]
  {
    var t := n * blockSize + o;
    DivCell(n, blockSize, o);
    SlotInRange(tbl, blockSize, |flat|, t);
    assert SlotHolds(flat, tbl, blockSize, t, history[t]);
  }

  /** The row a table maps token t to. */
  function TokenRow(flat: seq<Row>, tbl: seq<int>, blockSize: nat, t: nat): Row
    requires TableOk(tbl, blockSize, |flat|) && t < |tbl| * blockSize
  {
    WithinTable(tbl, blockSize, t);
    SlotInRange(tbl, blockSize, |flat|, t);
    flat[Slot(tbl, blockSize, t)]
  }

  /** A block read is the rows of its tokens, in order. */
  lemma GatherIsRows(flat: seq<Row>, tbl: seq<int>, blockSize: nat, blocks: nat, t: nat)
    requires TableOk(tbl, blockSize, |flat|) && blocks <= |tbl| && t < blocks * blockSize <= |tbl| * blockSize
    ensures GatherBlocks(flat, tbl[..blocks], blockSize)[t] == TokenRow(flat, tbl, blockSize, t)
  {
    hide GatherBlocks, TokenRow, TableOk;
    var rows := seq(blocks * blockSize, u requires 0 <= u < blocks * blockSize => TokenRow(flat, tbl, blockSize, u));
    forall u | 0 <= u < |rows|
      ensures SlotHolds(flat, tbl, blockSize, u, rows[u])
    {
      RowIsHeld(flat, tbl, blockSize, u);
    }
    GatherReadsSlots(flat, tbl, blockSize, blocks, rows);
  }

  lemma RowIsHeld(flat: seq<Row>, tbl: seq<int>, blockSize: nat, t: nat)
    requires TableOk(tbl, blockSize, |flat|) && t < |tbl| * blockSize
    ensures SlotHolds(flat, tbl, blockSize, t, TokenRow(flat, tbl, blockSize, t))
  {
  }

  /** Two caches read the same by blocks exactly if they hold the same rows of those tokens. */
  lemma GatherSameIff(flat: seq<Row>, after: seq<Row>, tbl: seq<int>, blockSize: nat, blocks: nat)
    requires |after| == |flat| && TableOk(tbl, blockSize, |flat|) && blocks <= |tbl| && blocks * blockSize <= |tbl| * blockSize
    ensures GatherBlocks(flat, tbl[..blocks], blockSize) == GatherBlocks(after, tbl[..blocks], blockSize)
            <==> forall t: nat | t < blocks * blockSize :: TokenRow(flat, tbl, blockSize, t) == TokenRow(after, tbl, blockSize, t)
  {
    hide GatherBlocks, TokenRow, TableOk;
    FrontOk(tbl, blockSize, |flat|, blocks);
    var a, b := GatherBlocks(flat, tbl[..blocks], blockSize), GatherBlocks(after, tbl[..blocks], blockSize);
    forall t: nat | t < blocks * blockSize
      ensures a[t] == TokenRow(flat, tbl, blockSize, t) && b[t] == TokenRow(after, tbl, blockSize, t)
    {
      GatherIsRows(flat, tbl, blockSize, blocks, t);
      GatherIsRows(after, tbl, blockSize, blocks, t);
    }
    if forall t: nat | t < blocks * blockSize :: TokenRow(flat, tbl, blockSize, t) == TokenRow(after, tbl, blockSize, t) {
      assert forall t | 0 <= t < |a| :: a[t] == b[t];
    }
  }

  lemma FrontOk(tbl: seq<int>, blockSize: nat, size: nat, blocks: nat)
    requires TableOk(tbl, blockSize, size) && blocks <= |tbl|
    ensures TableOk(tbl[..blocks], blockSize, size) && blocks * blockSize <= |tbl| * blockSize
  {
  }
}
