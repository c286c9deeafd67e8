/** What multimodal caches hold: the rows the forward steps produced, whether written step by
    step or staged and committed when the request finishes. */
module PrefixHistory {
  import opened SlotCache
  import opened PrefixCacheSpec
  import opened PrefixCache

  // ---- what a step stages ------------------------------------------------------------------

  /** One forward step as staging sees it: `starts` is where each request's rows begin. */
  datatype Forward = Forward(b: Batch, starts: seq<nat>, outs: map<Key, Value>, sched: map<ReqId, int>)

  predicate ForwardOk(f: Forward) {
    forall q | q in f.b.reqIds :: q in f.b.index && f.b.index[q] < |f.starts| && f.b.index[q] < |f.b.computed|
  }

  function StagedBy(f: Forward, lazy: set<Key>): map<ReqId, map<Key, Chunk>>
    requires ForwardOk(f)
  {
    StagedFor(f.b, f.starts, f.outs, f.sched, lazy)
  }

  /** The request's own rows among those of the batch. */
  function Start(f: Forward, q: ReqId): nat
    requires ForwardOk(f) && q in f.b.reqIds
  {
    f.starts[f.b.index[q]]
  }

  function Scheduled(f: Forward, q: ReqId): int {
    if q in f.sched then f.sched[q] else 0
  }

  function Computed(f: Forward, q: ReqId): nat
    requires ForwardOk(f) && q in f.b.reqIds
  {
    f.b.computed[f.b.index[q]]
  }

  /** The step has rows of this key for the request. */
  predicate Produces(f: Forward, q: ReqId, k: Key)
    requires ForwardOk(f)
  {
    && q in f.b.reqIds && k in f.outs && f.outs[k].Tensor? && f.outs[k].ndim >= 2
    && Scheduled(f, q) > 0 && Start(f, q) < |f.outs[k].rows|
  }

  predicate Stages(staged: map<ReqId, map<Key, Chunk>>, q: ReqId, k: Key) {
    q in staged && k in staged[q]
  }

  /** A step stages a chunk exactly for the requests it has rows for; the chunk starts at the
      request's first scheduled token and holds that request's rows, as many as there are. */
  lemma StagedChunk(f: Forward, lazy: set<Key>, q: ReqId, k: Key)
    requires ForwardOk(f)
    ensures Stages(StagedBy(f, lazy), q, k) <==> k in lazy && Produces(f, q, k)
    ensures Stages(StagedBy(f, lazy), q, k) ==>
              var c, rows, start, count := StagedBy(f, lazy)[q][k], f.outs[k].rows, Start(f, q), Scheduled(f, q);
              && c.start == (if count <= Computed(f, q) then Computed(f, q) - count else 0)
              && |c.rows| == (if start + count <= |rows| then count else |rows| - start)
              && forall i | 0 <= i < |c.rows| :: c.rows[i] == rows[start + i]
  {
    hide StagedBy, ChunkFor;
    StagedIffChunk(f, lazy, q, k);
    if q in f.b.reqIds {
      ChunkIs(f, q, k);
    }
  }

  lemma StagedIffChunk(f: Forward, lazy: set<Key>, q: ReqId, k: Key)
    requires ForwardOk(f)
    ensures Stages(StagedBy(f, lazy), q, k) <==>
            k in lazy && q in f.b.reqIds && ChunkFor(f.b, f.starts, f.outs, f.sched, q, k).Some?
    ensures Stages(StagedBy(f, lazy), q, k) ==> StagedBy(f, lazy)[q][k] == ChunkFor(f.b, f.starts, f.outs, f.sched, q, k).value
  {
    hide ChunkFor;
    if k in lazy && q in f.b.reqIds && ChunkFor(f.b, f.starts, f.outs, f.sched, q, k).Some? {
      assert k in ChunksFor(f.b, f.starts, f.outs, f.sched, q, lazy);
    }
  }

  lemma ChunkIs(f: Forward, q: ReqId, k: Key)
    requires ForwardOk(f) && q in f.b.reqIds
    ensures ChunkFor(f.b, f.starts, f.outs, f.sched, q, k).Some? <==> Produces(f, q, k)
    ensures Produces(f, q, k) ==>
              var c, rows, start, count := ChunkFor(f.b, f.starts, f.outs, f.sched, q, k).value, f.outs[k].rows, Start(f, q), Scheduled(f, q);
              && c.start == (if count <= Computed(f, q) then Computed(f, q) - count else 0)
              && |c.rows| == (if start + count <= |rows| then count else |rows| - start)
              && forall i | 0 <= i < |c.rows| :: c.rows[i] == rows[start + i]
  {
  }

  // ---- chunks that carry a history ---------------------------------------------------------

  /** The chunk's rows are the history's. */
  predicate Carries(c: Chunk, history: seq<Row>) {
    forall i | 0 <= i < |c.rows| && c.start + i < |history| :: c.rows[i] == history[c.start + i]
  }

  predicate Covers(c: Chunk, t: nat) {
    c.start <= t < c.start + |c.rows|
  }

  /** The rows the step produced for the request's tokens are the history's. */
  predicate Gives(f: Forward, q: ReqId, k: Key, history: seq<Row>)
    requires ForwardOk(f)
  {
    Produces(f, q, k) ==>
      && Scheduled(f, q) <= Computed(f, q)
      && forall i | 0 <= i < Scheduled(f, q) && Start(f, q) + i < |f.outs[k].rows| :: GivesToken(f, q, k, history, i)
  }

  predicate GivesToken(f: Forward, q: ReqId, k: Key, history: seq<Row>, i: nat)
    requires ForwardOk(f) && Produces(f, q, k) && Start(f, q) + i < |f.outs[k].rows| && Scheduled(f, q) <= Computed(f, q)
  {
    var t := Computed(f, q) - Scheduled(f, q) + i;
    t < |history| ==> f.outs[k].rows[Start(f, q) + i] == history[t]
  }

  /** The step has a row for token t of the request. */
  predicate Reaches(f: Forward, q: ReqId, k: Key, t: nat)
    requires ForwardOk(f)
  {
    && Produces(f, q, k)
    && Computed(f, q) - Scheduled(f, q) <= t < Computed(f, q)
    && Start(f, q) + (t - (Computed(f, q) - Scheduled(f, q))) < |f.outs[k].rows|
  }

  lemma GivenIsCarried(f: Forward, lazy: set<Key>, q: ReqId, k: Key, history: seq<Row>)
    requires ForwardOk(f) && Gives(f, q, k, history) && Stages(StagedBy(f, lazy), q, k)
    ensures Carries(StagedBy(f, lazy)[q][k], history)
    ensures forall t: nat | Reaches(f, q, k, t) :: Covers(StagedBy(f, lazy)[q][k], t)
  {
    hide StagedBy;
    StagedChunk(f, lazy, q, k);
    var c := StagedBy(f, lazy)[q][k];
    forall i | 0 <= i < |c.rows| && c.start + i < |history|
      ensures c.rows[i] == history[c.start + i]
    {
      assert GivesToken(f, q, k, history, i);
    }
  }

  // ---- what waits for a request ------------------------------------------------------------

  function Waiting(d: Deferred, q: ReqId, k: Key): seq<Chunk> {
    List(Per(d, q), k)
  }

  /** The operation drops what waits for the request. */
  predicate Drops(op: Op, q: ReqId) {
    (op.Commit? && q in op.reqs) || (op.Discard? && op.req == q)
  }

  /** Each operation appends at most one chunk. */
  lemma WaitingStep(sys: Sys, op: Op, q: ReqId, k: Key)
    requires StoreOk(sys.store) && OpFits(sys, op)
    ensures Waiting(SyncOp(sys, op).deferred, q, k)
            == if Drops(op, q) then [] else Waiting(sys.deferred, q, k) + if op.Stage? && Stages(op.staged, q, k) then [op.staged[q][k]] else []
  {
    hide CommitFinished, SyncUpdate;
    assert Waiting(sys.deferred, q, k) + [] == Waiting(sys.deferred, q, k);
    match op
    case Write(_) =>
    case Drain(_) =>
    case Stage(staged) =>
      if q in staged {
        assert Per(StageChunks(sys.deferred, staged), q) == AppendAll(Per(sys.deferred, q), staged[q]);
      }
    case Commit(_, _) =>
    case Discard(_) =>
  }

  /** Every chunk that waits carries the history. */
  ghost predicate AllCarry(chunks: seq<Chunk>, history: seq<Row>) {
    forall c | c in chunks :: Carries(c, history)
  }

  ghost predicate SomeCovers(chunks: seq<Chunk>, t: nat) {
    exists c :: c in chunks && Covers(c, t)
  }

  /** Nothing in the run drops what waits for the request, and each chunk it stages carries the
      history. */
  ghost predicate RunStages(ops: seq<Op>, q: ReqId, k: Key, history: seq<Row>) {
    forall i | 0 <= i < |ops| :: OpStages(ops[i], q, k, history)
  }

  predicate OpStages(op: Op, q: ReqId, k: Key, history: seq<Row>) {
    !Drops(op, q) && (op.Stage? && Stages(op.staged, q, k) ==> Carries(op.staged[q][k], history))
  }

  ghost predicate RunCovers(ops: seq<Op>, q: ReqId, k: Key, t: nat) {
    exists i :: 0 <= i < |ops| && OpCovers(ops[i], q, k, t)
  }

  predicate OpCovers(op: Op, q: ReqId, k: Key, t: nat) {
    op.Stage? && Stages(op.staged, q, k) && Covers(op.staged[q][k], t)
  }

  lemma {:induction false} WaitingAfterRun(sys: Sys, lazy: set<Key>, ops: seq<Op>, q: ReqId, k: Key, history: seq<Row>, t: nat)
    requires RunOk(sys, lazy, ops) && RunStages(ops, q, k, history) && AllCarry(Waiting(sys.deferred, q, k), history)
    ensures var chunks := Waiting(SyncRun(sys, lazy, ops).deferred, q, k);
            && AllCarry(chunks, history)
            && (RunCovers(ops, q, k, t) || SomeCovers(Waiting(sys.deferred, q, k), t) ==> SomeCovers(chunks, t))
    decreases |ops|
  {
    hide Carries, Covers, Waiting, SyncOp, Drops;
    if ops == [] {
    } else {
      var op := ops[0];
      var next := SyncOp(sys, op);
      WaitingStep(sys, op, q, k);
      assert OpStages(op, q, k, history);
      var before, after := Waiting(sys.deferred, q, k), Waiting(next.deferred, q, k);
      assert forall c | c in before :: c in after;
      if op.Stage? && Stages(op.staged, q, k) {
        assert op.staged[q][k] in after;
        assert forall c | c in after :: c in before || c == op.staged[q][k];
      }
      forall i | 0 <= i < |ops[1..]|
        ensures OpStages(ops[1..][i], q, k, history)
      {
        assert ops[1..][i] == ops[i + 1];
      }
      if i :| 0 <= i < |ops| && OpCovers(ops[i], q, k, t) {
        if i > 0 {
          assert ops[1..][i - 1] == ops[i];
        }
      }
      WaitingAfterRun(next, lazy, ops[1..], q, k, history, t);
    }
  }

  // ---- committing it -----------------------------------------------------------------------

  /** Committing chunks that carry a history leaves it in the slots of the tokens they cover. */
  lemma CommitHolds(s: Store, d: Deferred, q: ReqId, tables: map<ReqId, seq<int>>, blockSize: nat, k: Key, history: seq<Row>, t: nat)
    requires StoreOk(s) && TablesOk(tables, blockSize, s.size) && q in tables && Injective(tables[q])
    requires t < |history| && t < |tables[q]| * blockSize
    requires AllCarry(Waiting(d, q, k), history) && SomeCovers(Waiting(d, q, k), t)
    ensures var r := CommitFinished(s, d, [q], tables, blockSize);
            k in r.mm && TokenRow(r.mm[k], tables[q], blockSize, t) == history[t]
  {
    hide SortChunks, WriteChunks, FirstWidth, Injective;
    var tbl, chunks := tables[q], Waiting(d, q, k);
    var sorted := SortChunks(chunks);
    FinishOne(s, d, q, tables, blockSize);
    SortKeepsRows(chunks);
    SameMembers(chunks);
    var c :| c in chunks && Covers(c, t);
    assert HasRows(chunks);
    forall c, i | c in sorted && 0 <= i < |c.rows| && c.start + i == t
      ensures c.rows[i] == history[t]
    {
      assert Carries(c, history);
    }
    CommittedChunksHold(KeyBase(s, k, FirstWidth(sorted)), tbl, blockSize, sorted, t, history[t]);
    HeldRow(Committed(s, k, tbl, blockSize, chunks), tbl, blockSize, t, history[t]);
  }

  lemma SameMembers(chunks: seq<Chunk>)
    ensures forall c :: c in SortChunks(chunks) <==> c in chunks
  {
    hide SortChunks;
    SortPermutes(chunks);
    forall c
      ensures c in SortChunks(chunks) <==> c in chunks
    {
      assert c in multiset(chunks) <==> c in chunks;
      assert c in multiset(SortChunks(chunks)) <==> c in SortChunks(chunks);
    }
  }

  lemma HeldRow(flat: seq<Row>, tbl: seq<int>, blockSize: nat, t: nat, v: Row)
    requires TableOk(tbl, blockSize, |flat|) && t < |tbl| * blockSize
    ensures SlotHolds(flat, tbl, blockSize, t, v) <==> TokenRow(flat, tbl, blockSize, t) == v
  {
  }

  /** Rows that hold a history are read back as it, by whole blocks. */
  lemma RowsRead(flat: seq<Row>, tbl: seq<int>, blockSize: nat, blocks: nat, history: seq<Row>)
    requires TableOk(tbl, blockSize, |flat|) && blocks <= |tbl| && |history| == blocks * blockSize <= |tbl| * blockSize
    requires forall t: nat | t < |history| :: TokenRow(flat, tbl, blockSize, t) == history[t]
    ensures TableOk(tbl[..blocks], blockSize, |flat|) && GatherBlocks(flat, tbl[..blocks], blockSize) == history
  {
    hide GatherBlocks, TokenRow, TableOk;
    FrontOk(tbl, blockSize, |flat|, blocks);
    forall t: nat | t < |history|
      ensures GatherBlocks(flat, tbl[..blocks], blockSize)[t] == history[t]
    {
      GatherIsRows(flat, tbl, blockSize, blocks, t);
    }
  }

  /** Staged and committed: over any run of the asynchronous pipeline in which the chunks staged
      for a request carry a history and cover it, then the commit of that request, the store as
      it stands read by whole blocks is that history, whatever is in flight; and stays it when
      the write in flight lands. */
  lemma StagedCommitReads(sys: Sys, lazy: set<Key>, ops: seq<Op>, tables: map<ReqId, seq<int>>, q: ReqId, k: Key, blocks: nat, history: seq<Row>)
    requires Inv(sys, lazy) && RunOk(Flush(sys), lazy, ops) && k in lazy
    requires TablesOk(tables, sys.blockSize, sys.store.size) && q in tables && Injective(tables[q])
    requires 0 < blocks <= |tables[q]| && |history| == blocks * sys.blockSize <= |tables[q]| * sys.blockSize
    requires Waiting(sys.deferred, q, k) == [] && RunStages(ops, q, k, history)
    requires forall t: nat | t < |history| :: RunCovers(ops, q, k, t)
    ensures var now := AsyncRun(sys, lazy, ops);
            && now.store.size == sys.store.size && now.blockSize == sys.blockSize
            && var end := AsyncOp(now, Commit([q], tables));
               && k in end.store.mm && TableOk(tables[q][..blocks], sys.blockSize, |end.store.mm[k]|)
               && GatherBlocks(end.store.mm[k], tables[q][..blocks], sys.blockSize) == history
               && Inv(end, lazy) && k in Flush(end).store.mm && Flush(end).store.mm[k] == end.store.mm[k]
  {
    hide CommitFinished, GatherBlocks, TokenRow, AllCarry, SomeCovers, Waiting, RunCovers, RunStages, Injective, Scatter;
    RunKeepsShape(sys, lazy, ops);
    AsyncRefinesSync(sys, lazy, ops);
    var now := AsyncRun(sys, lazy, ops);
    var tbl, bs := tables[q], sys.blockSize;
    NothingCarried(history);
    forall t: nat | t < |history|
      ensures var r := CommitFinished(now.store, now.deferred, [q], tables, bs);
              k in r.mm && TokenRow(r.mm[k], tbl, bs, t) == history[t]
    {
      WaitingAfterRun(Flush(sys), lazy, ops, q, k, history, t);
      CommitHolds(now.store, now.deferred, q, tables, bs, k, history, t);
    }
    var end := AsyncOp(now, Commit([q], tables));
    HistoryIsThere(history, blocks, bs);
    WaitingAfterRun(Flush(sys), lazy, ops, q, k, history, 0);
    CommitHolds(now.store, now.deferred, q, tables, bs, k, history, 0);
    RowsRead(end.store.mm[k], tbl, bs, blocks, history);
    OpRefines(now, lazy, Commit([q], tables));
    LazyUntouched(end, lazy, k);
  }

  lemma HistoryIsThere(history: seq<Row>, blocks: nat, blockSize: nat)
    requires 0 < blocks && 0 < blockSize && |history| == blocks * blockSize
    ensures history != []
  {
  }

  lemma NothingCarried(history: seq<Row>)
    ensures AllCarry([], history)
  {
  }

  lemma LazyUntouched(sys: Sys, lazy: set<Key>, k: Key)
    requires Inv(sys, lazy) && k in lazy && k in sys.store.mm
    ensures k in Flush(sys).store.mm && Flush(sys).store.mm[k] == sys.store.mm[k]
  {
  }

  lemma RunKeepsShape(sys: Sys, lazy: set<Key>, ops: seq<Op>)
    requires Inv(sys, lazy) && RunOk(Flush(sys), lazy, ops)
    ensures var end := AsyncRun(sys, lazy, ops);
            end.store.size == sys.store.size && end.blockSize == sys.blockSize && StoreOk(end.store)
  {
    AsyncRefinesSync(sys, lazy, ops);
    SizeKept(Flush(sys), lazy, ops);
  }

  /** Some staging step of the run has a row for token t of the request. */
  ghost predicate SomeReaches(ops: seq<Op>, steps: seq<Forward>, q: ReqId, k: Key, t: nat)
    requires |steps| == |ops| && forall i | 0 <= i < |steps| :: ForwardOk(steps[i])
  {
    exists i :: 0 <= i < |ops| && ops[i].Stage? && Reaches(steps[i], q, k, t)
  }

  /** The same from the forward steps alone: if what the steps produced for a request's tokens
      is its history, and every token was produced by some step, then what is read back after
      the run and the commit is the history.  Any other operations may come between. */
  lemma ProducedIsReadBack(sys: Sys, lazy: set<Key>, ops: seq<Op>, steps: seq<Forward>, tables: map<ReqId, seq<int>>, q: ReqId, k: Key,
                           blocks: nat, history: seq<Row>)
    requires Inv(sys, lazy) && RunOk(Flush(sys), lazy, ops) && k in lazy
    requires TablesOk(tables, sys.blockSize, sys.store.size) && q in tables && Injective(tables[q])
    requires 0 < blocks <= |tables[q]| && |history| == blocks * sys.blockSize <= |tables[q]| * sys.blockSize
    requires q !in sys.deferred && forall i | 0 <= i < |ops| :: !Drops(ops[i], q)
    requires |steps| == |ops| && forall i | 0 <= i < |steps| :: ForwardOk(steps[i])
    requires forall i | 0 <= i < |ops| && ops[i].Stage? :: ops[i].staged == StagedBy(steps[i], lazy)
    requires forall i | 0 <= i < |ops| && ops[i].Stage? :: Gives(steps[i], q, k, history)
    requires forall t: nat | t < |history| :: SomeReaches(ops, steps, q, k, t)
    ensures var now := AsyncRun(sys, lazy, ops);
            && now.store.size == sys.store.size && now.blockSize == sys.blockSize
            && var end := AsyncOp(now, Commit([q], tables));
               && k in end.store.mm && TableOk(tables[q][..blocks], sys.blockSize, |end.store.mm[k]|)
               && GatherBlocks(end.store.mm[k], tables[q][..blocks], sys.blockSize) == history
  {
    hide GatherBlocks, StagedBy, Gives, Reaches, ForwardOk, Carries, Covers, Drops, Inv, RunOk, Injective, TableOk, AsyncOp;
    forall i | 0 <= i < |ops|
      ensures OpStages(ops[i], q, k, history)
    {
      if ops[i].Stage? && Stages(ops[i].staged, q, k) {
        GivenIsCarried(steps[i], lazy, q, k, history);
      }
    }
    forall t: nat | t < |history|
      ensures RunCovers(ops, q, k, t)
    {
      assert SomeReaches(ops, steps, q, k, t);
      var i :| 0 <= i < |ops| && ops[i].Stage? && Reaches(steps[i], q, k, t);
      ReachedIsStaged(steps[i], lazy, q, k, t);
      GivenIsCarried(steps[i], lazy, q, k, history);
      assert OpCovers(ops[i], q, k, t);
    }
    StagedCommitReads(sys, lazy, ops, tables, q, k, blocks, history);
  }

  lemma ReachedIsStaged(f: Forward, lazy: set<Key>, q: ReqId, k: Key, t: nat)
    requires ForwardOk(f) && k in lazy && Reaches(f, q, k, t)
    ensures Stages(StagedBy(f, lazy), q, k)
  {
    hide StagedBy;
    StagedChunk(f, lazy, q, k);
  }

  // ---- keys written step by step --------------------------------------------------------------

  /** The step writes the key: it is not deferred, and it has a cache or is given one for a
      feature row per padded token. */
  predicate WritesKey(s: Store, w: Step, k: Key) {
    k in w.outs && k !in w.skip && (k in s.mm || (w.outs[k].Tensor? && w.outs[k].ndim >= 2 && |w.outs[k].rows| == w.padded))
  }

  /** What an operation scatters under a key: a step its leading, unpadded rows; a commit the
      chunks of the requests it pops. */
  function KeySlots(sys: Sys, op: Op, k: Key): seq<int>
    requires StoreOk(sys.store) && OpFits(sys, op)
  {
    match op
    case Write(w) => if WritesKey(sys.store, w, k) then w.slots[..w.n] else []
    case Commit(reqs, tables) => if sys.blockSize > 0 then CommitSlots(sys.deferred, reqs, tables, sys.blockSize, k) else []
    case _ => []
  }

  function KeyRows(sys: Sys, op: Op, k: Key): (rows: seq<Row>)
    requires StoreOk(sys.store) && OpFits(sys, op)
    ensures |rows| == |KeySlots(sys, op, k)|
  {
    match op
    case Write(w) =>
      if WritesKey(sys.store, w, k) then
        assert k in SyncKeys(InitMissing(sys.store, w.outs, w.padded).mm.Keys, w);
        w.outs[k].rows[..w.n]
      else []
    case Commit(reqs, tables) => if sys.blockSize > 0 then CommitRows(sys.deferred, reqs, tables, sys.blockSize, k) else []
    case _ => []
  }

  /** The key is cached, and slot x holds this row. */
  predicate KeyAt(s: Store, k: Key, x: int, v: Row) {
    k in s.mm && 0 <= x < |s.mm[k]| && s.mm[k][x] == v
  }

  lemma WriteAt(s: Store, w: Step, k: Key, x: int, v: Row)
    requires StoreOk(s) && StepFits(s.size, w) && Conforms(InitMissing(s, w.outs, w.padded).mm.Keys, w)
    requires 0 <= x < s.size
    ensures WritesKey(s, w, k) ==> |w.outs[k].rows| >= w.n
    ensures WritesKey(s, w, k) && x in w.slots[..w.n] ==> KeyAt(SyncUpdate(s, w), k, x, LastRow(w.slots[..w.n], w.outs[k].rows[..w.n], x))
    ensures !(WritesKey(s, w, k) && x in w.slots[..w.n]) && KeyAt(s, k, x, v) ==> KeyAt(SyncUpdate(s, w), k, x, v)
  {
    hide IndexCopy, LastRow, Zeros;
    var s1 := InitMissing(s, w.outs, w.padded);
    assert WritesKey(s, w, k) <==> k in SyncKeys(s1.mm.Keys, w);
    if WritesKey(s, w, k) {
      IndexCopyAt(s1.mm[k], w.slots[..w.n], w.outs[k].rows[..w.n], x);
    }
  }

  lemma {:induction false} LastRowConcat(a: seq<int>, rs: seq<Row>, b: seq<int>, qs: seq<Row>, x: int)
    requires |a| == |rs| && |b| == |qs| && x in a + b
    ensures LastRow(a + b, rs + qs, x) == if x in b then LastRow(b, qs, x) else LastRow(a, rs, x)
  {
    if b == [] {
      assert a + b == a && rs + qs == rs;
    } else {
      var n := |b| - 1;
      assert (a + b)[..|a + b| - 1] == a + b[..n] && (rs + qs)[..|a + b| - 1] == rs + qs[..n];
      assert b == b[..n] + [b[n]];
      if b[n] != x {
        LastRowConcat(a, rs, b[..n], qs[..n], x);
      }
    }
  }

  lemma RequestAt(s: Store, per: map<Key, seq<Chunk>>, tbl: seq<int>, blockSize: nat, k: Key, x: int, v: Row)
    requires StoreOk(s) && TableOk(tbl, blockSize, s.size) && 0 <= x < s.size
    ensures var slots := if k in per then ChunkSlots(tbl, blockSize, SortChunks(per[k])) else [];
            var rows := if k in per then ChunkRows(tbl, blockSize, SortChunks(per[k])) else [];
            var r := CommitRequest(s, per, tbl, blockSize);
            && (x in slots ==> KeyAt(r, k, x, LastRow(slots, rows, x)))
            && (x !in slots && KeyAt(s, k, x, v) ==> KeyAt(r, k, x, v))
  {
    hide SortChunks, HasRows, FirstWidth, LastRow, IndexCopy, ChunkSlots, ChunkRows, TableOk;
    TablePositive(tbl, blockSize, s.size);
    if k in per {
      var sorted := SortChunks(per[k]);
      if HasRows(per[k]) {
        var base := KeyBase(s, k, FirstWidth(sorted));
        WriteChunksIsCopy(base, tbl, blockSize, sorted);
        IndexCopyAt(base, ChunkSlots(tbl, blockSize, sorted), ChunkRows(tbl, blockSize, sorted), x);
      } else {
        SortHasRows(per[k]);
        NoRowsNoSlots(tbl, blockSize, sorted);
      }
    }
  }

  lemma TablePositive(tbl: seq<int>, blockSize: nat, size: nat)
    requires TableOk(tbl, blockSize, size)
    ensures blockSize > 0
  {
  }

  lemma {:induction false} CommitAt(s: Store, d: Deferred, reqs: seq<ReqId>, tables: map<ReqId, seq<int>>, blockSize: nat, k: Key, x: int, v: Row)
    requires StoreOk(s) && TablesOk(tables, blockSize, s.size) && blockSize > 0 && 0 <= x < s.size
    ensures var slots, rows := CommitSlots(d, reqs, tables, blockSize, k), CommitRows(d, reqs, tables, blockSize, k);
            var r := CommitFinished(s, d, reqs, tables, blockSize);
            && (x in slots ==> KeyAt(r, k, x, LastRow(slots, rows, x)))
            && (x !in slots && KeyAt(s, k, x, v) ==> KeyAt(r, k, x, v))
    decreases |reqs|
  {
    if reqs == [] {
    } else {
      hide CommitRequest, SortChunks, ChunkSlots, ChunkRows, LastRow, KeyAt;
      var q := reqs[0];
      var rest := d - {q};
      var more, moreRows := CommitSlots(rest, reqs[1..], tables, blockSize, k), CommitRows(rest, reqs[1..], tables, blockSize, k);
      if q in d && q in tables {
        var slots := if k in d[q] then ChunkSlots(tables[q], blockSize, SortChunks(d[q][k])) else [];
        var rows := if k in d[q] then ChunkRows(tables[q], blockSize, SortChunks(d[q][k])) else [];
        var w := if x in slots then LastRow(slots, rows, x) else v;
        RequestAt(s, d[q], tables[q], blockSize, k, x, v);
        CommitAt(CommitRequest(s, d[q], tables[q], blockSize), rest, reqs[1..], tables, blockSize, k, x, w);
        if x in slots + more {
          LastRowConcat(slots, rows, more, moreRows, x);
        }
      } else {
        CommitAt(s, rest, reqs[1..], tables, blockSize, k, x, v);
        assert [] + more == more && [] + moreRows == moreRows;
      }
    }
  }

  /** What an operation of the synchronous cache leaves under a key: the last row it scatters to
      a slot, and elsewhere what was there. */
  lemma OpAt(sys: Sys, op: Op, k: Key, x: int, v: Row)
    requires StoreOk(sys.store) && OpFits(sys, op) && 0 <= x < sys.store.size
    ensures var slots := KeySlots(sys, op, k);
            var next := SyncOp(sys, op).store;
            && StoreOk(next) && next.size == sys.store.size
            && (x in slots ==> KeyAt(next, k, x, LastRow(slots, KeyRows(sys, op, k), x)))
            && (x !in slots && KeyAt(sys.store, k, x, v) ==> KeyAt(next, k, x, v))
  {
    hide KeyAt, LastRow, SyncUpdate, CommitFinished, CommitSlots, CommitRows, WritesKey;
    match op
    case Write(w) => WriteAt(sys.store, w, k, x, v);
    case Commit(reqs, tables) =>
      if sys.blockSize > 0 {
        CommitAt(sys.store, sys.deferred, reqs, tables, sys.blockSize, k, x, v);
      } else {
        NoTables(sys.store, sys.deferred, reqs, tables, sys.blockSize);
      }
    case _ =>
  }

  // ---- over runs -------------------------------------------------------------------------------

  /** On every prefix slot the operation scatters to, its last row is the history's. */
  ghost predicate KeyDisciplined(sys: Sys, op: Op, k: Key, tbl: seq<int>, history: seq<Row>)
    requires StoreOk(sys.store) && OpFits(sys, op) && sys.blockSize > 0 && |history| <= |tbl| * sys.blockSize
  {
    forall t: nat | t < |history| :: SlotGiven(sys, op, k, tbl, t, history[t])
  }

  predicate SlotGiven(sys: Sys, op: Op, k: Key, tbl: seq<int>, t: nat, v: Row)
    requires StoreOk(sys.store) && OpFits(sys, op) && sys.blockSize > 0 && t < |tbl| * sys.blockSize
  {
    WithinTable(tbl, sys.blockSize, t);
    var x := Slot(tbl, sys.blockSize, t);
    x in KeySlots(sys, op, k) ==> LastRow(KeySlots(sys, op, k), KeyRows(sys, op, k), x) == v
  }

  ghost predicate KeyRun(sys: Sys, ops: seq<Op>, k: Key, tbl: seq<int>, history: seq<Row>)
    decreases |ops|
  {
    ops == [] ||
      (&& StoreOk(sys.store) && OpFits(sys, ops[0]) && sys.blockSize > 0 && |history| <= |tbl| * sys.blockSize
       && KeyDisciplined(sys, ops[0], k, tbl, history) && KeyRun(SyncOp(sys, ops[0]), ops[1..], k, tbl, history))
  }

  /** Some operation scatters to the slot of token t. */
  ghost predicate KeyWritten(sys: Sys, ops: seq<Op>, k: Key, tbl: seq<int>, history: seq<Row>, t: nat)
    requires KeyRun(sys, ops, k, tbl, history) && t < |history|
    decreases |ops|
  {
    ops != [] &&
      (WithinTable(tbl, sys.blockSize, t);
       || Slot(tbl, sys.blockSize, t) in KeySlots(sys, ops[0], k)
       || KeyWritten(SyncOp(sys, ops[0]), ops[1..], k, tbl, history, t))
  }

  lemma {:induction false} KeyRunHolds(sys: Sys, lazy: set<Key>, ops: seq<Op>, k: Key, tbl: seq<int>, history: seq<Row>, t: nat, x: int)
    requires StoreOk(sys.store) && RunOk(sys, lazy, ops) && KeyRun(sys, ops, k, tbl, history)
    requires TableOk(tbl, sys.blockSize, sys.store.size) && t < |history| <= |tbl| * sys.blockSize
    requires t / sys.blockSize < |tbl| && x == Slot(tbl, sys.blockSize, t) && 0 <= x < sys.store.size
    requires KeyAt(sys.store, k, x, history[t]) || KeyWritten(sys, ops, k, tbl, history, t)
    ensures KeyAt(SyncRun(sys, lazy, ops).store, k, x, history[t])
    decreases |ops|
  {
    hide KeyAt, LastRow, KeySlots, KeyRows, TableOk, OpOk, SyncOp;
    if ops == [] {
    } else {
      OpAt(sys, ops[0], k, x, history[t]);
      assert SlotGiven(sys, ops[0], k, tbl, t, history[t]);
      SameBlocks(sys, ops[0]);
      if x in KeySlots(sys, ops[0], k) || KeyAt(sys.store, k, x, history[t]) || KeyWritten(SyncOp(sys, ops[0]), ops[1..], k, tbl, history, t) {
        KeyRunHolds(SyncOp(sys, ops[0]), lazy, ops[1..], k, tbl, history, t, x);
      }
    }
  }

  lemma SameBlocks(sys: Sys, op: Op)
    requires StoreOk(sys.store) && OpFits(sys, op)
    ensures SyncOp(sys, op).blockSize == sys.blockSize
  {
  }

  /** Putting a write in flight lands the one before it in every key's cache as well. */
  lemma KeyBehindWrite(sys: Sys, lazy: set<Key>, w: Step, k: Key)
    requires Inv(sys, lazy) && StepFits(sys.store.size, w) && k in Flush(sys).store.mm
    ensures var next := AsyncOp(sys, Write(w)).store;
            k in next.mm && next.mm[k] == Flush(sys).store.mm[k] && next.size == sys.store.size
  {
    hide IndexCopy, Zeros;
    if sys.pending.Some? {
      InitCommutes(sys.store, sys.pending.value, w.outs, w.padded);
    }
  }

  /** A multimodal key over any run: steps of several rows and padding, new keys, skipped keys,
      staged chunks and commits of any requests, with arbitrary event answers.  If the run
      scatters to every slot of a prefix, and each time ends with the history's row there, then
      once the next write is in flight the key's cache read by blocks is the history. */
  lemma KeyReadsHistory(sys: Sys, lazy: set<Key>, ops: seq<Op>, w: Step, k: Key, tbl: seq<int>, blocks: nat, history: seq<Row>)
    requires Inv(sys, lazy) && RunOk(Flush(sys), lazy, ops) && StepFits(sys.store.size, w)
    requires TableOk(tbl, sys.blockSize, sys.store.size) && 0 < blocks <= |tbl|
    requires |history| == blocks * sys.blockSize <= |tbl| * sys.blockSize
    requires KeyRun(Flush(sys), ops, k, tbl, history)
    requires forall t: nat | t < |history| :: KeyWritten(Flush(sys), ops, k, tbl, history, t)
    ensures AsyncRun(sys, lazy, ops).store.size == sys.store.size
    ensures var cache := AsyncOp(AsyncRun(sys, lazy, ops), Write(w)).store;
            && k in cache.mm && TableOk(tbl[..blocks], sys.blockSize, |cache.mm[k]|)
            && GatherBlocks(cache.mm[k], tbl[..blocks], sys.blockSize) == history
  {
    hide GatherBlocks, TokenRow, KeyWritten, KeyRun, AsyncOp, SyncOp, RunOk, Slot, Scatter;
    RunKeepsShape(sys, lazy, ops);
    AsyncRefinesSync(sys, lazy, ops);
    SizeKept(Flush(sys), lazy, ops);
    var end := SyncRun(Flush(sys), lazy, ops).store;
    HistoryIsThere(history, blocks, sys.blockSize);
    forall t: nat | t < |history|
      ensures k in end.mm && TokenRow(end.mm[k], tbl, sys.blockSize, t) == history[t]
    {
      TokenKept(sys, lazy, ops, k, tbl, history, t);
    }
    TokenKept(sys, lazy, ops, k, tbl, history, 0);
    RowsRead(end.mm[k], tbl, sys.blockSize, blocks, history);
    KeyBehindWrite(AsyncRun(sys, lazy, ops), lazy, w, k);
  }

  lemma TokenKept(sys: Sys, lazy: set<Key>, ops: seq<Op>, k: Key, tbl: seq<int>, history: seq<Row>, t: nat)
    requires Inv(sys, lazy) && RunOk(Flush(sys), lazy, ops) && KeyRun(Flush(sys), ops, k, tbl, history)
    requires TableOk(tbl, sys.blockSize, sys.store.size) && t < |history| <= |tbl| * sys.blockSize
    requires KeyWritten(Flush(sys), ops, k, tbl, history, t)
    ensures var end := SyncRun(Flush(sys), lazy, ops).store;
            k in end.mm && |end.mm[k]| == sys.store.size && TokenRow(end.mm[k], tbl, sys.blockSize, t) == history[t]
  {
    hide KeyWritten, KeyRun, RunOk, Scatter;
    SizeKept(Flush(sys), lazy, ops);
    WithinTable(tbl, sys.blockSize, t);
    SlotInRange(tbl, sys.blockSize, sys.store.size, t);
    KeyRunHolds(Flush(sys), lazy, ops, k, tbl, history, t, Slot(tbl, sys.blockSize, t));
  }
}
