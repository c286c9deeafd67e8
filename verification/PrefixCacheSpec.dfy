/** The prefix cache as a state machine on values: the synchronous store, the
    one-in-flight asynchronous pipeline, and deferred commits. */
module PrefixCacheSpec {
  import opened SlotCache

  type Key = string
  type ReqId = string

  datatype Option<T> = None | Some(value: T)

  /** A multimodal output: a tensor seen as rows along its first dimension, or anything else. */
  datatype Value = Tensor(ndim: nat, width: nat, rows: seq<Row>) | Other

  /** One forward step's outputs.  `n` and `padded` are the token counts without and with padding. */
  datatype Step = Step(hidden: Option<seq<Row>>, outs: map<Key, Value>, slots: seq<int>,
                       n: nat, padded: nat, skip: set<Key>)

  /** Flat views of the hidden-state cache and of every multimodal cache. */
  datatype Store = Store(size: nat, hidden: seq<Row>, mm: map<Key, seq<Row>>)

  datatype Pending = Pending(n: nat, slots: seq<int>, hidden: Option<seq<Row>>, mm: map<Key, seq<Row>>)

  type Deferred = map<ReqId, map<Key, seq<Chunk>>>

  predicate StoreOk(s: Store) {
    |s.hidden| == s.size && forall k | k in s.mm :: |s.mm[k]| == s.size
  }

  function Zeros(size: nat, width: nat): (z: seq<Row>)
    ensures |z| == size
  {
    seq(size, _ => seq(width, _ => 0.0))
  }

  // ---- synchronous update -----------------------------------------------------

  function NewKeys(keys: set<Key>, outs: map<Key, Value>, seqLen: nat): set<Key> {
    set k | k in outs && k !in keys && outs[k].Tensor? && outs[k].ndim >= 2 && |outs[k].rows| == seqLen
  }

  function InitMissing(s: Store, outs: map<Key, Value>, seqLen: nat): (r: Store)
    requires StoreOk(s)
    ensures StoreOk(r) && r.mm.Keys == s.mm.Keys + NewKeys(s.mm.Keys, outs, seqLen)
    ensures r.size == s.size && r.hidden == s.hidden
  {
    s.(mm := map k | k in s.mm.Keys + NewKeys(s.mm.Keys, outs, seqLen) ::
               if k in s.mm then s.mm[k] else Zeros(s.size, outs[k].width))
  }

  predicate WriteFits(s: Store, p: Pending) {
    && |p.slots| == p.n && InRange(p.slots, s.size)
    && (p.hidden.Some? ==> |p.hidden.value| == p.n)
    && forall k | k in p.mm :: |p.mm[k]| == p.n
  }

  /** Row-scatter a write into the hidden cache and every cached key it carries. */
  function Scatter(s: Store, p: Pending): (r: Store)
    requires StoreOk(s) && WriteFits(s, p)
    ensures StoreOk(r) && r.size == s.size && r.mm.Keys == s.mm.Keys
  {
    Store(s.size,
          if p.hidden.Some? then IndexCopy(s.hidden, p.slots, p.hidden.value) else s.hidden,
          map k | k in s.mm :: if k in p.mm then IndexCopy(s.mm[k], p.slots, p.mm[k]) else s.mm[k])
  }

  /** Keys the synchronous update writes, and keys the asynchronous one copies. */
  function SyncKeys(keys: set<Key>, w: Step): set<Key> {
    set k | k in keys && k in w.outs && k !in w.skip
  }

  function AsyncKeys(keys: set<Key>, w: Step): set<Key> {
    set k | k in keys && k !in w.skip && k in w.outs
            && w.outs[k].Tensor? && w.outs[k].ndim >= 2 && |w.outs[k].rows| >= w.n
  }

  /** The step's slots are valid rows and its hidden states cover the unpadded tokens. */
  predicate StepFits(size: nat, w: Step) {
    && w.n <= |w.slots| && InRange(w.slots[..w.n], size)
    && (w.hidden.Some? ==> w.n <= |w.hidden.value|)
  }

  /** Every tensor to be cached has a row for each unpadded token. */
  predicate Conforms(keys: set<Key>, w: Step) {
    forall k | k in SyncKeys(keys, w) :: w.outs[k].Tensor? && w.outs[k].ndim >= 2 && |w.outs[k].rows| >= w.n
  }

  function AsWrite(w: Step, keys: set<Key>): (p: Pending)
    requires w.n <= |w.slots| && (w.hidden.Some? ==> w.n <= |w.hidden.value|)
    requires forall k | k in keys :: k in w.outs && w.outs[k].Tensor? && |w.outs[k].rows| >= w.n
  {
    Pending(w.n, w.slots[..w.n],
            if w.hidden.Some? then Some(w.hidden.value[..w.n]) else None,
            map k | k in keys :: w.outs[k].rows[..w.n])
  }

  function SyncUpdate(s: Store, w: Step): (r: Store)
    requires StoreOk(s) && StepFits(s.size, w)
    requires Conforms(InitMissing(s, w.outs, w.padded).mm.Keys, w)
    ensures StoreOk(r) && r.size == s.size
  {
    var s1 := InitMissing(s, w.outs, w.padded);
    Scatter(s1, AsWrite(w, SyncKeys(s1.mm.Keys, w)))
  }

  // ---- asynchronous pipeline -----------------------------------------------------

  function ApplyPending(s: Store, pending: Option<Pending>): (r: Store)
    requires StoreOk(s) && (pending.Some? ==> WriteFits(s, pending.value))
    ensures StoreOk(r) && r.size == s.size && r.mm.Keys == s.mm.Keys
  {
    if pending.None? then s else Scatter(s, pending.value)
  }

  /** What a step leaves in flight. */
  function Launch(keys: set<Key>, w: Step): Option<Pending>
    requires w.n <= |w.slots| && (w.hidden.Some? ==> w.n <= |w.hidden.value|)
  {
    if w.hidden.None? && AsyncKeys(keys, w) == {} then None else Some(AsWrite(w, AsyncKeys(keys, w)))
  }

  // ---- deferred commits ----------------------------------------------------------

  predicate HasRows(chunks: seq<Chunk>) {
    exists c :: c in chunks && c.rows != []
  }

  function FirstWidth(chunks: seq<Chunk>): nat {
    if chunks == [] then 0
    else if chunks[0].rows != [] then |chunks[0].rows[0]|
    else FirstWidth(chunks[1..])
  }

  function KeyBase(s: Store, key: Key, width: nat): (r: seq<Row>)
    requires StoreOk(s)
    ensures |r| == s.size
  {
    if key in s.mm then s.mm[key] else Zeros(s.size, width)
  }

  /** One key's cache after its chunks were written in sorted order, each on its own. */
  function Committed(s: Store, key: Key, tbl: seq<int>, blockSize: nat, chunks: seq<Chunk>): (r: seq<Row>)
    requires StoreOk(s) && TableOk(tbl, blockSize, s.size)
    ensures |r| == s.size
  {
    var sorted := SortChunks(chunks);
    WriteChunks(KeyBase(s, key, FirstWidth(sorted)), tbl, blockSize, sorted)
  }

  /** Commit one key of one request. */
  function CommitKey(s: Store, key: Key, tbl: seq<int>, blockSize: nat, chunks: seq<Chunk>): (r: Store)
    requires StoreOk(s) && TableOk(tbl, blockSize, s.size)
    ensures StoreOk(r) && r.size == s.size && r.hidden == s.hidden
  {
    if HasRows(chunks) then s.(mm := s.mm[key := Committed(s, key, tbl, blockSize, chunks)]) else s
  }

  function LiveKeys(perKey: map<Key, seq<Chunk>>): set<Key> {
    set k | k in perKey && HasRows(perKey[k])
  }

  function CommitRequest(s: Store, perKey: map<Key, seq<Chunk>>, tbl: seq<int>, blockSize: nat): (r: Store)
    requires StoreOk(s) && TableOk(tbl, blockSize, s.size)
    ensures StoreOk(r) && r.size == s.size && r.hidden == s.hidden
  {
    s.(mm := map k | k in s.mm.Keys + LiveKeys(perKey) ::
               if k in LiveKeys(perKey) then Committed(s, k, tbl, blockSize, perKey[k]) else s.mm[k])
  }

  predicate TablesOk(tables: map<ReqId, seq<int>>, blockSize: nat, size: nat) {
    forall r | r in tables :: TableOk(tables[r], blockSize, size)
  }

  /** Pop every finished request; those still in the batch are committed. */
  function CommitFinished(s: Store, d: Deferred, reqs: seq<ReqId>, tables: map<ReqId, seq<int>>, blockSize: nat): (r: Store)
    requires StoreOk(s) && TablesOk(tables, blockSize, s.size)
    ensures StoreOk(r) && r.size == s.size && r.hidden == s.hidden
    decreases |reqs|
  {
    if reqs == [] then s
    else
      var q := reqs[0];
      var s1 := if q in d && q in tables then CommitRequest(s, d[q], tables[q], blockSize) else s;
      CommitFinished(s1, d - {q}, reqs[1..], tables, blockSize)
  }

  function Members(reqs: seq<ReqId>): set<ReqId> {
    set q | q in reqs
  }

  function Per<T>(d: map<ReqId, map<Key, T>>, q: ReqId): map<Key, T> {
    if q in d then d[q] else map[]
  }

  function List(per: map<Key, seq<Chunk>>, k: Key): seq<Chunk> {
    if k in per then per[k] else []
  }

  function AppendAll(per: map<Key, seq<Chunk>>, staged: map<Key, Chunk>): map<Key, seq<Chunk>> {
    map k | k in per.Keys + staged.Keys :: List(per, k) + if k in staged then [staged[k]] else []
  }

  /** Staging appends at most one chunk per (request, key). */
  function StageChunks(d: Deferred, staged: map<ReqId, map<Key, Chunk>>): Deferred {
    map q | q in d.Keys + staged.Keys :: if q in staged then AppendAll(Per(d, q), staged[q]) else d[q]
  }

  lemma AppendOne(per: map<Key, seq<Chunk>>, staged: map<Key, Chunk>, k: Key, c: Chunk)
    requires k !in staged
    ensures AppendAll(per, staged[k := c]) == AppendAll(per, staged)[k := List(AppendAll(per, staged), k) + [c]]
  {
    var a, b := AppendAll(per, staged[k := c]), AppendAll(per, staged)[k := List(AppendAll(per, staged), k) + [c]];
    assert a.Keys == b.Keys;
    assert List(AppendAll(per, staged), k) == List(per, k);
    forall k' | k' in a
      ensures a[k'] == b[k']
    {
    }
  }

  lemma AppendNothing(per: map<Key, seq<Chunk>>)
    ensures AppendAll(per, map[]) == per
  {
    var a := AppendAll(per, map[]);
    forall k | k in a
      ensures a[k] == per[k]
    {
    }
  }

  lemma StageOne(d: Deferred, staged: map<ReqId, map<Key, Chunk>>, q: ReqId, k: Key, c: Chunk)
    requires q in staged ==> k !in staged[q]
    ensures var now := StageChunks(d, staged);
            StageChunks(d, staged[q := Per(staged, q)[k := c]]) == now[q := Per(now, q)[k := List(Per(now, q), k) + [c]]]
  {
    hide AppendAll, List;
    AppendOne(Per(d, q), Per(staged, q), k, c);
    AppendNothing(Per(d, q));
    assert Per(StageChunks(d, staged), q) == AppendAll(Per(d, q), Per(staged, q));
  }

  // ---- runs ------------------------------------------------------------------------

  datatype Op =
    | Write(w: Step)
    | Drain(ready: bool)
    | Stage(staged: map<ReqId, map<Key, Chunk>>)
    | Commit(reqs: seq<ReqId>, tables: map<ReqId, seq<int>>)
    | Discard(req: ReqId)

  datatype Sys = Sys(blockSize: nat, store: Store, pending: Option<Pending>, deferred: Deferred)

  /** `lazy` holds the keys whose writes are deferred: every step skips them, and only
      they are staged.  A write in flight never carries one of them. */
  ghost predicate Inv(sys: Sys, lazy: set<Key>) {
    && StoreOk(sys.store)
    && (sys.pending.Some? ==>
          && WriteFits(sys.store, sys.pending.value)
          && sys.pending.value.mm.Keys <= sys.store.mm.Keys
          && sys.pending.value.mm.Keys !! lazy)
    && forall q | q in sys.deferred :: sys.deferred[q].Keys <= lazy
  }

  ghost predicate OpOk(sys: Sys, lazy: set<Key>, op: Op)
    requires StoreOk(sys.store)
  {
    match op
    case Write(w) => StepFits(sys.store.size, w) && lazy <= w.skip
                     && Conforms(InitMissing(sys.store, w.outs, w.padded).mm.Keys, w)
    case Drain(_) => true
    case Stage(staged) => forall q | q in staged :: staged[q].Keys <= lazy
    case Commit(_, tables) => TablesOk(tables, sys.blockSize, sys.store.size)
    case Discard(_) => true
  }

  /** The asynchronous machine.  A drain applies the write in flight only if its event fired. */
  function AsyncOp(sys: Sys, op: Op): Sys
    requires StoreOk(sys.store) && (sys.pending.Some? ==> WriteFits(sys.store, sys.pending.value))
    requires op.Write? ==> StepFits(sys.store.size, op.w)
    requires op.Commit? ==> TablesOk(op.tables, sys.blockSize, sys.store.size)
  {
    match op
    case Write(w) =>
      var s1 := InitMissing(sys.store, w.outs, w.padded);
      sys.(store := ApplyPending(s1, sys.pending), pending := Launch(s1.mm.Keys, w))
    case Drain(ready) => if ready then sys.(store := ApplyPending(sys.store, sys.pending), pending := None) else sys
    case Stage(staged) => sys.(deferred := StageChunks(sys.deferred, staged))
    case Commit(reqs, tables) =>
      sys.(store := CommitFinished(sys.store, sys.deferred, reqs, tables, sys.blockSize),
           deferred := sys.deferred - Members(reqs))
    case Discard(req) => sys.(deferred := sys.deferred - {req})
  }

  /** The synchronous machine: every write lands at once. */
  function SyncOp(sys: Sys, op: Op): Sys
    requires StoreOk(sys.store)
    requires op.Write? ==> StepFits(sys.store.size, op.w) && Conforms(InitMissing(sys.store, op.w.outs, op.w.padded).mm.Keys, op.w)
    requires op.Commit? ==> TablesOk(op.tables, sys.blockSize, sys.store.size)
  {
    match op
    case Write(w) => sys.(store := SyncUpdate(sys.store, w))
    case Drain(_) => sys
    case Stage(staged) => sys.(deferred := StageChunks(sys.deferred, staged))
    case Commit(reqs, tables) =>
      sys.(store := CommitFinished(sys.store, sys.deferred, reqs, tables, sys.blockSize),
           deferred := sys.deferred - Members(reqs))
    case Discard(req) => sys.(deferred := sys.deferred - {req})
  }

  /** The cache once the write in flight has landed. */
  function Flush(sys: Sys): Sys
    requires StoreOk(sys.store) && (sys.pending.Some? ==> WriteFits(sys.store, sys.pending.value))
  {
    sys.(store := ApplyPending(sys.store, sys.pending), pending := None)
  }

  // ---- one step of the refinement ----------------------------------------------------

  lemma InitCommutes(s: Store, p: Pending, outs: map<Key, Value>, seqLen: nat)
    requires StoreOk(s) && WriteFits(s, p) && p.mm.Keys <= s.mm.Keys
    ensures InitMissing(Scatter(s, p), outs, seqLen) == Scatter(InitMissing(s, outs, seqLen), p)
  {
    assert InitMissing(Scatter(s, p), outs, seqLen).mm == Scatter(InitMissing(s, outs, seqLen), p).mm;
  }

  lemma ConformingKeys(keys: set<Key>, w: Step)
    requires Conforms(keys, w)
    ensures AsyncKeys(keys, w) == SyncKeys(keys, w)
  {
  }

  lemma EmptyWrite(s: Store, p: Pending)
    requires StoreOk(s) && WriteFits(s, p) && p.hidden.None? && p.mm == map[]
    ensures Scatter(s, p) == s
  {
    assert Scatter(s, p).mm == s.mm;
  }

  /** The write in flight fits the store and carries only cached keys. */
  ghost predicate Sound(sys: Sys) {
    StoreOk(sys.store) && (sys.pending.Some? ==> WriteFits(sys.store, sys.pending.value) && sys.pending.value.mm.Keys <= sys.store.mm.Keys)
  }

  /** The operation fits the store, whatever keys it skips. */
  ghost predicate OpFits(sys: Sys, op: Op)
    requires StoreOk(sys.store)
  {
    match op
    case Write(w) => StepFits(sys.store.size, w) && Conforms(InitMissing(sys.store, w.outs, w.padded).mm.Keys, w)
    case Commit(_, tables) => TablesOk(tables, sys.blockSize, sys.store.size)
    case _ => true
  }

  lemma WriteRefines(sys: Sys, w: Step)
    requires Sound(sys) && OpFits(Flush(sys), Write(w))
    ensures Sound(AsyncOp(sys, Write(w)))
    ensures Flush(AsyncOp(sys, Write(w))) == SyncOp(Flush(sys), Write(w))
  {
    var s1 := InitMissing(sys.store, w.outs, w.padded);
    if sys.pending.Some? {
      InitCommutes(sys.store, sys.pending.value, w.outs, w.padded);
    }
    ConformingKeys(s1.mm.Keys, w);
    var next := AsyncOp(sys, Write(w));
    if next.pending.None? {
      EmptyWrite(next.store, AsWrite(w, SyncKeys(s1.mm.Keys, w)));
    }
  }

  // ---- when a commit commutes with the write in flight --------------------------------

  /** Where one key is scattered to by committing the finished requests, and what. */
  function CommitSlots(d: Deferred, reqs: seq<ReqId>, tables: map<ReqId, seq<int>>, blockSize: nat, k: Key): seq<int>
    requires blockSize > 0
    decreases |reqs|
  {
    if reqs == [] then []
    else
      var q := reqs[0];
      (if q in d && q in tables && k in d[q] then ChunkSlots(tables[q], blockSize, SortChunks(d[q][k])) else []) +
      CommitSlots(d - {q}, reqs[1..], tables, blockSize, k)
  }

  function CommitRows(d: Deferred, reqs: seq<ReqId>, tables: map<ReqId, seq<int>>, blockSize: nat, k: Key): (rows: seq<Row>)
    requires blockSize > 0
    ensures |rows| == |CommitSlots(d, reqs, tables, blockSize, k)|
    decreases |reqs|
  {
    if reqs == [] then []
    else
      var q := reqs[0];
      (if q in d && q in tables && k in d[q] then ChunkRows(tables[q], blockSize, SortChunks(d[q][k])) else []) +
      CommitRows(d - {q}, reqs[1..], tables, blockSize, k)
  }

  lemma {:induction false} NoRowsNoSlots(tbl: seq<int>, blockSize: nat, chunks: seq<Chunk>)
    requires blockSize > 0 && !HasRows(chunks)
    ensures ChunkSlots(tbl, blockSize, chunks) == []
  {
    if chunks == [] {
    } else {
      var n := |chunks| - 1;
      assert chunks[n] in chunks && chunks[n].rows == [];
      forall c | c in chunks[..n]
        ensures c.rows == []
      {
        assert c in chunks;
      }
      NoRowsNoSlots(tbl, blockSize, chunks[..n]);
    }
  }

  lemma SortHasRows(chunks: seq<Chunk>)
    ensures HasRows(SortChunks(chunks)) <==> HasRows(chunks)
  {
    SortPermutes(chunks);
    forall c
      ensures c in SortChunks(chunks) <==> c in chunks
    {
      assert c in multiset(chunks) <==> c in chunks;
    }
  }

  /** Committing a request scatters a cached key once. */
  lemma RequestIsCopy(s: Store, per: map<Key, seq<Chunk>>, tbl: seq<int>, blockSize: nat, k: Key)
    requires StoreOk(s) && TableOk(tbl, blockSize, s.size) && k in s.mm
    ensures var slots := if k in per then ChunkSlots(tbl, blockSize, SortChunks(per[k])) else [];
            var rows := if k in per then ChunkRows(tbl, blockSize, SortChunks(per[k])) else [];
            var r := CommitRequest(s, per, tbl, blockSize);
            && InRange(slots, s.size) && k in r.mm && r.mm[k] == IndexCopy(s.mm[k], slots, rows)
  {
    hide SortChunks, HasRows, FirstWidth;
    if k in per {
      WriteChunksIsCopy(s.mm[k], tbl, blockSize, SortChunks(per[k]));
      if !HasRows(per[k]) {
        SortHasRows(per[k]);
        NoRowsNoSlots(tbl, blockSize, SortChunks(per[k]));
      }
    }
  }

  /** So does committing all finished requests. */
  lemma {:induction false} CommitIsCopy(s: Store, d: Deferred, reqs: seq<ReqId>, tables: map<ReqId, seq<int>>, blockSize: nat, k: Key)
    requires StoreOk(s) && TablesOk(tables, blockSize, s.size) && blockSize > 0 && k in s.mm
    ensures var r := CommitFinished(s, d, reqs, tables, blockSize);
            && InRange(CommitSlots(d, reqs, tables, blockSize, k), s.size) && k in r.mm
            && r.mm[k] == IndexCopy(s.mm[k], CommitSlots(d, reqs, tables, blockSize, k), CommitRows(d, reqs, tables, blockSize, k))
    decreases |reqs|
  {
    if reqs == [] {
    } else {
      hide CommitRequest, SortChunks, ChunkSlots, ChunkRows, IndexCopy;
      var q := reqs[0];
      var rest := d - {q};
      if q in d && q in tables {
        RequestIsCopy(s, d[q], tables[q], blockSize, k);
        var s1 := CommitRequest(s, d[q], tables[q], blockSize);
        CommitIsCopy(s1, rest, reqs[1..], tables, blockSize, k);
        var slots := if k in d[q] then ChunkSlots(tables[q], blockSize, SortChunks(d[q][k])) else [];
        var rows := if k in d[q] then ChunkRows(tables[q], blockSize, SortChunks(d[q][k])) else [];
        IndexCopyConcat(s.mm[k], slots, rows, CommitSlots(rest, reqs[1..], tables, blockSize, k), CommitRows(rest, reqs[1..], tables, blockSize, k));
      } else {
        CommitIsCopy(s, rest, reqs[1..], tables, blockSize, k);
        assert [] + CommitSlots(rest, reqs[1..], tables, blockSize, k) == CommitSlots(rest, reqs[1..], tables, blockSize, k);
        assert [] + CommitRows(rest, reqs[1..], tables, blockSize, k) == CommitRows(rest, reqs[1..], tables, blockSize, k);
      }
    }
  }

  /** What a commit leaves under a key depends on that key's cache and the set of keys. */
  lemma RequestLocal(s: Store, t: Store, per: map<Key, seq<Chunk>>, tbl: seq<int>, blockSize: nat)
    requires StoreOk(s) && StoreOk(t) && s.size == t.size && s.mm.Keys == t.mm.Keys && TableOk(tbl, blockSize, s.size)
    ensures var a, b := CommitRequest(s, per, tbl, blockSize), CommitRequest(t, per, tbl, blockSize);
            && a.mm.Keys == b.mm.Keys && s.mm.Keys <= a.mm.Keys
            && forall k | k in a.mm && (k in s.mm ==> s.mm[k] == t.mm[k]) :: a.mm[k] == b.mm[k]
  {
    hide SortChunks, WriteChunks, HasRows, FirstWidth;
  }

  lemma {:induction false} CommitLocal(s: Store, t: Store, d: Deferred, reqs: seq<ReqId>, tables: map<ReqId, seq<int>>, blockSize: nat)
    requires StoreOk(s) && StoreOk(t) && s.size == t.size && s.mm.Keys == t.mm.Keys && TablesOk(tables, blockSize, s.size)
    ensures var a, b := CommitFinished(s, d, reqs, tables, blockSize), CommitFinished(t, d, reqs, tables, blockSize);
            && a.mm.Keys == b.mm.Keys && s.mm.Keys <= a.mm.Keys
            && forall k | k in a.mm && (k in s.mm ==> s.mm[k] == t.mm[k]) :: a.mm[k] == b.mm[k]
    decreases |reqs|
  {
    if reqs == [] {
    } else {
      hide CommitRequest;
      var q := reqs[0];
      if q in d && q in tables {
        RequestLocal(s, t, d[q], tables[q], blockSize);
        var s1, t1 := CommitRequest(s, d[q], tables[q], blockSize), CommitRequest(t, d[q], tables[q], blockSize);
        CommitLocal(s1, t1, d - {q}, reqs[1..], tables, blockSize);
      } else {
        CommitLocal(s, t, d - {q}, reqs[1..], tables, blockSize);
      }
    }
  }

  /** For every key the write carries, the commit and the write agree on the last row of every
      slot both scatter to. */
  ghost predicate CommitAgrees(p: Pending, d: Deferred, reqs: seq<ReqId>, tables: map<ReqId, seq<int>>, blockSize: nat)
    requires blockSize > 0 && forall k | k in p.mm :: |p.mm[k]| == |p.slots|
  {
    forall k | k in p.mm ::
      LastRowsAgree(CommitSlots(d, reqs, tables, blockSize, k), CommitRows(d, reqs, tables, blockSize, k), p.slots, p.mm[k])
  }

  /** A commit and a write in flight commute under a key if and only if they agree on it. */
  lemma KeyCommutes(s: Store, p: Pending, d: Deferred, reqs: seq<ReqId>, tables: map<ReqId, seq<int>>, blockSize: nat, k: Key)
    requires StoreOk(s) && WriteFits(s, p) && TablesOk(tables, blockSize, s.size) && blockSize > 0 && k in s.mm && k in p.mm
    ensures var a, b := CommitFinished(Scatter(s, p), d, reqs, tables, blockSize), Scatter(CommitFinished(s, d, reqs, tables, blockSize), p);
            && k in a.mm && k in b.mm
            && (a.mm[k] == b.mm[k] <==>
                  LastRowsAgree(CommitSlots(d, reqs, tables, blockSize, k), CommitRows(d, reqs, tables, blockSize, k), p.slots, p.mm[k]))
  {
    hide CommitFinished, CommitSlots, CommitRows, LastRowsAgree, IndexCopy;
    CommitIsCopy(s, d, reqs, tables, blockSize, k);
    CommitIsCopy(Scatter(s, p), d, reqs, tables, blockSize, k);
    IndexCopyCommutes(s.mm[k], CommitSlots(d, reqs, tables, blockSize, k), CommitRows(d, reqs, tables, blockSize, k), p.slots, p.mm[k]);
  }

  /** The exact condition for a commit to commute with a write in flight. */
  lemma CommitCommutes(s: Store, p: Pending, d: Deferred, reqs: seq<ReqId>, tables: map<ReqId, seq<int>>, blockSize: nat)
    requires StoreOk(s) && WriteFits(s, p) && TablesOk(tables, blockSize, s.size) && blockSize > 0
    requires p.mm.Keys <= s.mm.Keys
    ensures p.mm.Keys <= CommitFinished(s, d, reqs, tables, blockSize).mm.Keys
    ensures CommitFinished(Scatter(s, p), d, reqs, tables, blockSize) == Scatter(CommitFinished(s, d, reqs, tables, blockSize), p)
            <==> CommitAgrees(p, d, reqs, tables, blockSize)
  {
    hide CommitFinished, CommitSlots, CommitRows, LastRowsAgree, IndexCopy;
    var a, b := CommitFinished(Scatter(s, p), d, reqs, tables, blockSize), Scatter(CommitFinished(s, d, reqs, tables, blockSize), p);
    CommitLocal(s, Scatter(s, p), d, reqs, tables, blockSize);
    forall k | k in p.mm
      ensures k in a.mm && k in b.mm
      ensures a.mm[k] == b.mm[k] <==>
              LastRowsAgree(CommitSlots(d, reqs, tables, blockSize, k), CommitRows(d, reqs, tables, blockSize, k), p.slots, p.mm[k])
    {
      KeyCommutes(s, p, d, reqs, tables, blockSize, k);
    }
    assert a.mm.Keys == b.mm.Keys;
    assert forall k | k in a.mm && k !in p.mm :: a.mm[k] == b.mm[k];
    if CommitAgrees(p, d, reqs, tables, blockSize) {
      assert a.mm == b.mm;
    }
  }

  /** Keys the write does not carry cannot disagree with it. */
  lemma {:induction false} OtherKeysNoSlots(d: Deferred, reqs: seq<ReqId>, tables: map<ReqId, seq<int>>, blockSize: nat, k: Key)
    requires blockSize > 0 && forall q | q in d :: k !in d[q]
    ensures CommitSlots(d, reqs, tables, blockSize, k) == []
    decreases |reqs|
  {
    if reqs == [] {
    } else {
      OtherKeysNoSlots(d - {reqs[0]}, reqs[1..], tables, blockSize, k);
    }
  }

  /** A commit agrees with the write in flight. */
  ghost predicate Agrees(sys: Sys, op: Op)
    requires Sound(sys)
  {
    op.Commit? && sys.pending.Some? && sys.blockSize > 0 ==>
      CommitAgrees(sys.pending.value, sys.deferred, op.reqs, op.tables, sys.blockSize)
  }

  /** One operation of the asynchronous pipeline, seen through Flush, is one operation of the
      synchronous cache, with one exception: a commit that does not agree with the write in
      flight. */
  lemma OpRefinesIffAgrees(sys: Sys, op: Op)
    requires Sound(sys) && OpFits(Flush(sys), op)
    ensures Sound(AsyncOp(sys, op))
    ensures Flush(AsyncOp(sys, op)) == SyncOp(Flush(sys), op) <==> Agrees(sys, op)
  {
    match op
    case Write(w) => WriteRefines(sys, w);
    case Drain(ready) =>
    case Stage(staged) =>
    case Commit(reqs, tables) => CommitRefines(sys, reqs, tables);
    case Discard(req) =>
  }

  lemma CommitRefines(sys: Sys, reqs: seq<ReqId>, tables: map<ReqId, seq<int>>)
    requires Sound(sys) && TablesOk(tables, sys.blockSize, sys.store.size)
    ensures Sound(AsyncOp(sys, Commit(reqs, tables)))
    ensures Flush(AsyncOp(sys, Commit(reqs, tables))) == SyncOp(Flush(sys), Commit(reqs, tables)) <==> Agrees(sys, Commit(reqs, tables))
  {
    hide CommitFinished, CommitAgrees, Scatter;
    if sys.pending.Some? {
      if sys.blockSize > 0 {
        CommitCommutes(sys.store, sys.pending.value, sys.deferred, reqs, tables, sys.blockSize);
      } else {
        NoTables(sys.store, sys.deferred, reqs, tables, sys.blockSize);
        NoTables(Scatter(sys.store, sys.pending.value), sys.deferred, reqs, tables, sys.blockSize);
      }
    }
  }

  /** A block size of zero admits no block table, so nothing is committed. */
  lemma {:induction false} NoTables(s: Store, d: Deferred, reqs: seq<ReqId>, tables: map<ReqId, seq<int>>, blockSize: nat)
    requires StoreOk(s) && TablesOk(tables, blockSize, s.size)
    ensures blockSize == 0 ==> CommitFinished(s, d, reqs, tables, blockSize) == s
    decreases |reqs|
  {
    if reqs == [] {
    } else {
      NoTables(s, d - {reqs[0]}, reqs[1..], tables, blockSize);
    }
  }

  /** The run simulates the synchronous cache step for step. */
  ghost predicate Simulates(sys: Sys, ops: seq<Op>)
    decreases |ops|
  {
    ops == [] ||
      (Sound(sys) && OpFits(Flush(sys), ops[0])
       && Flush(AsyncOp(sys, ops[0])) == SyncOp(Flush(sys), ops[0]) && Simulates(AsyncOp(sys, ops[0]), ops[1..]))
  }

  /** Every operation of the run fits, and every commit agrees with the write in flight. */
  ghost predicate RunAgrees(sys: Sys, ops: seq<Op>)
    decreases |ops|
  {
    ops == [] ||
      (Sound(sys) && OpFits(Flush(sys), ops[0]) && Agrees(sys, ops[0]) && RunAgrees(AsyncOp(sys, ops[0]), ops[1..]))
  }

  /** The asynchronous pipeline simulates the synchronous cache exactly on the runs whose
      commits agree with the write in flight. */
  lemma {:induction false} SimulatesIffAgrees(sys: Sys, ops: seq<Op>)
    ensures Simulates(sys, ops) <==> RunAgrees(sys, ops)
    decreases |ops|
  {
    if ops == [] {
    } else if Sound(sys) && OpFits(Flush(sys), ops[0]) {
      OpRefinesIffAgrees(sys, ops[0]);
      SimulatesIffAgrees(AsyncOp(sys, ops[0]), ops[1..]);
    }
  }

  /** Skipping the deferred keys is one way to agree: the write in flight then carries none
      of the keys a commit scatters. */
  lemma SkippingAgrees(sys: Sys, lazy: set<Key>, op: Op)
    requires Inv(sys, lazy) && OpOk(Flush(sys), lazy, op)
    ensures Sound(sys) && OpFits(Flush(sys), op) && Agrees(sys, op)
  {
    if op.Commit? && sys.pending.Some? && sys.blockSize > 0 {
      forall k | k in sys.pending.value.mm
        ensures CommitSlots(sys.deferred, op.reqs, op.tables, sys.blockSize, k) == []
      {
        OtherKeysNoSlots(sys.deferred, op.reqs, op.tables, sys.blockSize, k);
      }
    }
  }

  /** With deferred keys skipped every operation is simulated. */
  lemma OpRefines(sys: Sys, lazy: set<Key>, op: Op)
    requires Inv(sys, lazy) && OpOk(Flush(sys), lazy, op)
    ensures Inv(AsyncOp(sys, op), lazy)
    ensures Flush(AsyncOp(sys, op)) == SyncOp(Flush(sys), op)
  {
    SkippingAgrees(sys, lazy, op);
    OpRefinesIffAgrees(sys, op);
  }

  lemma FinishOne(s: Store, d: Deferred, q: ReqId, tables: map<ReqId, seq<int>>, blockSize: nat)
    requires StoreOk(s) && TablesOk(tables, blockSize, s.size) && q in d && q in tables
    ensures CommitFinished(s, d, [q], tables, blockSize) == CommitRequest(s, d[q], tables[q], blockSize)
  {
    hide CommitRequest;
    assert [q][1..] == [];
  }

  lemma OneRow(base: Row, row: Row)
    ensures InRange([0], 1) && IndexCopy([base], [0], [row]) == [row]
  {
    assert [0][..0] == [] && [row][..0] == [];
  }

  lemma OneChunk(base: Row, row: Row)
    ensures TableOk([0], 1, 1) && SortChunks([Chunk(0, [row])]) == [Chunk(0, [row])]
    ensures WriteChunks([base], [0], 1, [Chunk(0, [row])]) == [row]
  {
    var chunks := [Chunk(0, [row])];
    assert chunks[..0] == [];
    assert SlotRange([0], 1, 0, 1) == [0];
    assert [row][..1] == [row];
    OneRow(base, row);
    assert WriteRun([base], [0], 1, 0, [row]) == IndexCopy([base], [0], [row]);
  }

  /** One slot, one key, one chunk for it. */
  lemma CommitOne(s: Store, k: Key, base: Row, row: Row)
    requires s.size == 1 && StoreOk(s) && k in s.mm && s.mm[k] == [base]
    ensures TableOk([0], 1, 1)
    ensures var r := CommitRequest(s, map[k := [Chunk(0, [row])]], [0], 1); k in r.mm && r.mm[k] == [row]
  {
    hide SortChunks, WriteChunks;
    var chunks := [Chunk(0, [row])];
    OneChunk(base, row);
    assert chunks[0].rows != [] && HasRows(chunks);
    assert k in LiveKeys(map[k := chunks]);
  }

  lemma LandOne(s: Store, k: Key, base: Row, row: Row)
    requires s.size == 1 && StoreOk(s) && k in s.mm && s.mm[k] == [base]
    ensures var p := Pending(1, [0], None, map[k := [row]]); WriteFits(s, p) && k in Scatter(s, p).mm && Scatter(s, p).mm[k] == [row]
  {
    hide IndexCopy;
    OneRow(base, row);
  }

  /** Skipping deferred keys is needed: a write in flight that carries one lands after the
      commit and overwrites it, where the synchronous cache keeps the commit. */
  lemma UnskippedKeyOverwritesCommit(k: Key, q: ReqId, hid: Row, base: Row, early: Row, late: Row)
    ensures var sys := Sys(1, Store(1, [hid], map[k := [base]]), Some(Pending(1, [0], None, map[k := [early]])),
                           map[q := map[k := [Chunk(0, [late])]]]);
            var op := Commit([q], map[q := [0]]);
            && StoreOk(sys.store) && WriteFits(sys.store, sys.pending.value) && TablesOk(op.tables, 1, 1)
            && WriteFits(AsyncOp(sys, op).store, sys.pending.value)
            && Flush(AsyncOp(sys, op)).store.mm.Keys == SyncOp(Flush(sys), op).store.mm.Keys == {k}
            && Flush(AsyncOp(sys, op)).store.mm[k] == [early]
            && SyncOp(Flush(sys), op).store.mm[k] == [late]
  {
    hide CommitRequest, IndexCopy, CommitFinished, Scatter;
    var s := Store(1, [hid], map[k := [base]]);
    var p := Pending(1, [0], None, map[k := [early]]);
    var per := map[k := [Chunk(0, [late])]];
    LandOne(s, k, base, early);
    CommitOne(s, k, base, late);
    FinishOne(s, map[q := per], q, map[q := [0]], 1);
    var committed := CommitRequest(s, per, [0], 1);
    LandOne(committed, k, late, early);
    var landed := Scatter(s, p);
    CommitOne(landed, k, early, late);
    FinishOne(landed, map[q := per], q, map[q := [0]], 1);
    CommitKeys(s, per);
    CommitKeys(landed, per);
  }

  /** Every operation of the run fits, whatever keys it skips. */
  ghost predicate RunFits(sys: Sys, ops: seq<Op>)
    decreases |ops|
  {
    ops == [] || (Sound(sys) && OpFits(Flush(sys), ops[0]) && RunFits(AsyncOp(sys, ops[0]), ops[1..]))
  }

  /** The state is reached by a run from an empty cache: a step that does not skip the key, a
      chunk staged for the same key and token, then the commit.  That run fits, but does not
      simulate the synchronous cache. */
  lemma UnskippedRun(k: Key, q: ReqId, hid: Row, early: Row, late: Row)
    requires early != late
    ensures var sys := Sys(1, Store(1, [hid], map[]), None, map[]);
            var w := Step(None, map[k := Tensor(2, |early|, [early])], [0], 1, 1, {});
            var ops := [Write(w), Stage(map[q := map[k := Chunk(0, [late])]]), Commit([q], map[q := [0]])];
            RunFits(sys, ops) && !Simulates(sys, ops)
  {
    hide *;
    var sys := Sys(1, Store(1, [hid], map[]), None, map[]);
    var w := Step(None, map[k := Tensor(2, |early|, [early])], [0], 1, 1, {});
    var base := seq(|early|, _ => 0.0);
    var s1 := Sys(1, Store(1, [hid], map[k := [base]]), Some(Pending(1, [0], None, map[k := [early]])), map[]);
    var s2 := s1.(deferred := map[q := map[k := [Chunk(0, [late])]]]);
    var a, b, c := Write(w), Stage(map[q := map[k := Chunk(0, [late])]]), Commit([q], map[q := [0]]);
    FirstWrite(k, hid, early);
    ThenStage(s1, q, k, late);
    UnskippedKeyOverwritesCommit(k, q, hid, base, early, late);
    CommitDiffers(k, q, hid, base, early, late);
    ThreeOps(sys, s1, s2, a, b, c);
  }

  lemma CommitDiffers(k: Key, q: ReqId, hid: Row, base: Row, early: Row, late: Row)
    requires early != late
    ensures var sys := Sys(1, Store(1, [hid], map[k := [base]]), Some(Pending(1, [0], None, map[k := [early]])),
                           map[q := map[k := [Chunk(0, [late])]]]);
            var op := Commit([q], map[q := [0]]);
            && Sound(sys) && OpFits(Flush(sys), op) && Sound(AsyncOp(sys, op)) && Flush(AsyncOp(sys, op)) != SyncOp(Flush(sys), op)
  {
    hide CommitFinished, Scatter;
    UnskippedKeyOverwritesCommit(k, q, hid, base, early, late);
    var sys := Sys(1, Store(1, [hid], map[k := [base]]), Some(Pending(1, [0], None, map[k := [early]])), map[q := map[k := [Chunk(0, [late])]]]);
    OpRefinesIffAgrees(sys, Commit([q], map[q := [0]]));
  }

  lemma FirstWrite(k: Key, hid: Row, early: Row)
    ensures var sys := Sys(1, Store(1, [hid], map[]), None, map[]);
            var op := Write(Step(None, map[k := Tensor(2, |early|, [early])], [0], 1, 1, {}));
            && Sound(sys) && OpFits(Flush(sys), op)
            && Sound(AsyncOp(sys, op))
            && AsyncOp(sys, op) == Sys(1, Store(1, [hid], map[k := [seq(|early|, _ => 0.0)]]), Some(Pending(1, [0], None, map[k := [early]])), map[])
  {
    var s := Store(1, [hid], map[]);
    var w := Step(None, map[k := Tensor(2, |early|, [early])], [0], 1, 1, {});
    var zero: Row := seq(|early|, _ => 0.0);
    assert NewKeys({}, w.outs, 1) == {k};
    var s1 := InitMissing(s, w.outs, 1);
    assert Zeros(1, |early|) == [zero];
    assert s1.mm == map[k := [zero]];
    assert SyncKeys({k}, w) == {k} && AsyncKeys({k}, w) == {k};
    assert [0][..1] == [0] && [early][..1] == [early];
    assert AsWrite(w, {k}) == Pending(1, [0], None, map[k := [early]]);
    var sys := Sys(1, s, None, map[]);
    WriteRefines(sys, w);
    assert AsyncOp(sys, Write(w)).store == s1;
    assert s1.mm.Keys == {k};
  }

  lemma ThenStage(sys: Sys, q: ReqId, k: Key, late: Row)
    requires Sound(sys) && sys.deferred == map[]
    ensures var op := Stage(map[q := map[k := Chunk(0, [late])]]);
            OpFits(Flush(sys), op) && AsyncOp(sys, op) == sys.(deferred := map[q := map[k := [Chunk(0, [late])]]])
  {
    var staged := map[k := Chunk(0, [late])];
    assert AppendAll(map[], staged) == map[k := [Chunk(0, [late])]] by {
      assert List(map[], k) + [staged[k]] == [Chunk(0, [late])];
    }
    assert StageChunks(map[], map[q := staged]) == map[q := map[k := [Chunk(0, [late])]]];
  }

  lemma ThreeOps(sys: Sys, s1: Sys, s2: Sys, a: Op, b: Op, c: Op)
    requires Sound(sys) && OpFits(Flush(sys), a) && AsyncOp(sys, a) == s1
    requires Sound(s1) && OpFits(Flush(s1), b) && AsyncOp(s1, b) == s2
    requires Sound(s2) && OpFits(Flush(s2), c) && Sound(AsyncOp(s2, c)) && Flush(AsyncOp(s2, c)) != SyncOp(Flush(s2), c)
    ensures RunFits(sys, [a, b, c]) && !Simulates(sys, [a, b, c])
  {
    hide Sound, OpFits, Flush, AsyncOp, SyncOp;
    assert [a, b, c][1..] == [b, c] && [b, c][1..] == [c] && [c][1..] == [];
    assert RunFits(s2, [c]) && !Simulates(s2, [c]);
    assert RunFits(s1, [b, c]) && !Simulates(s1, [b, c]);
  }

  lemma CommitKeys(s: Store, per: map<Key, seq<Chunk>>)
    requires StoreOk(s) && s.size == 1 && TableOk([0], 1, 1) && per.Keys <= s.mm.Keys
    ensures CommitRequest(s, per, [0], 1).mm.Keys == s.mm.Keys
  {
    hide SortChunks, WriteChunks;
  }

  // ---- whole runs ----------------------------------------------------------------------

  /** Every operation of the run is applicable to the synchronous cache. */
  ghost predicate RunOk(sys: Sys, lazy: set<Key>, ops: seq<Op>)
    decreases |ops|
  {
    ops == [] || (StoreOk(sys.store) && OpOk(sys, lazy, ops[0]) && RunOk(SyncOp(sys, ops[0]), lazy, ops[1..]))
  }

  function SyncRun(sys: Sys, lazy: set<Key>, ops: seq<Op>): Sys
    requires RunOk(sys, lazy, ops)
    decreases |ops|
  {
    if ops == [] then sys else SyncRun(SyncOp(sys, ops[0]), lazy, ops[1..])
  }

  function AsyncRun(sys: Sys, lazy: set<Key>, ops: seq<Op>): (end: Sys)
    requires Inv(sys, lazy) && RunOk(Flush(sys), lazy, ops)
    ensures Inv(end, lazy)
    decreases |ops|
  {
    if ops == [] then sys
    else
      OpRefines(sys, lazy, ops[0]);
      AsyncRun(AsyncOp(sys, ops[0]), lazy, ops[1..])
  }

  /** Over every run, with arbitrary event answers, the asynchronous cache with its one
      write in flight applied is the synchronous cache, deferred chunks included. */
  lemma {:induction false} AsyncRefinesSync(sys: Sys, lazy: set<Key>, ops: seq<Op>)
    requires Inv(sys, lazy) && RunOk(Flush(sys), lazy, ops)
    ensures Flush(AsyncRun(sys, lazy, ops)) == SyncRun(Flush(sys), lazy, ops)
    decreases |ops|
  {
    if ops == [] {
    } else {
      OpRefines(sys, lazy, ops[0]);
      AsyncRefinesSync(AsyncOp(sys, ops[0]), lazy, ops[1..]);
    }
  }

  // ---- what a prefix hit reads ----------------------------------------------------------

  /** Rows written into slots of the prefix carry the prefix's own history. */
  ghost predicate Disciplined(w: Step, tbl: seq<int>, blockSize: nat, history: seq<Row>)
    requires blockSize > 0 && |history| <= |tbl| * blockSize
  {
    w.hidden.Some? ==>
      forall i, t | 0 <= i < w.n && i < |w.slots| && i < |w.hidden.value| && 0 <= t < |history| ::
        WithinTable(tbl, blockSize, t);
        w.slots[i] == Slot(tbl, blockSize, t) ==> w.hidden.value[i] == history[t]
  }

  ghost predicate Writes(w: Step, tbl: seq<int>, blockSize: nat, t: nat)
    requires blockSize > 0 && t < |tbl| * blockSize && w.n <= |w.slots|
  {
    WithinTable(tbl, blockSize, t);
    w.hidden.Some? && Slot(tbl, blockSize, t) in w.slots[..w.n]
  }

  lemma StepHolds(s: Store, w: Step, tbl: seq<int>, blockSize: nat, history: seq<Row>, t: nat)
    requires StoreOk(s) && StepFits(s.size, w) && Conforms(InitMissing(s, w.outs, w.padded).mm.Keys, w)
    requires TableOk(tbl, blockSize, s.size) && t < |history| <= |tbl| * blockSize
    requires Disciplined(w, tbl, blockSize, history)
    requires SlotHolds(s.hidden, tbl, blockSize, t, history[t]) || Writes(w, tbl, blockSize, t)
    ensures SlotHolds(SyncUpdate(s, w).hidden, tbl, blockSize, t, history[t])
  {
    WithinTable(tbl, blockSize, t);
    SlotInRange(tbl, blockSize, s.size, t);
    if w.hidden.Some? {
      IndexCopyAgrees(s.hidden, w.slots[..w.n], w.hidden.value[..w.n], Slot(tbl, blockSize, t), history[t]);
    }
  }

  ghost predicate RunDisciplined(ops: seq<Op>, tbl: seq<int>, blockSize: nat, history: seq<Row>)
    requires blockSize > 0 && |history| <= |tbl| * blockSize
  {
    forall i | 0 <= i < |ops| :: ops[i].Write? ==> Disciplined(ops[i].w, tbl, blockSize, history)
  }

  ghost predicate RunWrites(ops: seq<Op>, tbl: seq<int>, blockSize: nat, t: nat)
    requires blockSize > 0 && t < |tbl| * blockSize
  {
    exists i :: 0 <= i < |ops| && ops[i].Write? && ops[i].w.n <= |ops[i].w.slots| && Writes(ops[i].w, tbl, blockSize, t)
  }

  lemma {:induction false} RunHolds(sys: Sys, lazy: set<Key>, ops: seq<Op>, tbl: seq<int>, blockSize: nat,
                                    history: seq<Row>, t: nat)
    requires StoreOk(sys.store) && RunOk(sys, lazy, ops)
    requires TableOk(tbl, blockSize, sys.store.size) && t < |history| <= |tbl| * blockSize
    requires RunDisciplined(ops, tbl, blockSize, history)
    requires SlotHolds(sys.store.hidden, tbl, blockSize, t, history[t]) || RunWrites(ops, tbl, blockSize, t)
    ensures StoreOk(SyncRun(sys, lazy, ops).store) && SyncRun(sys, lazy, ops).store.size == sys.store.size
    ensures SlotHolds(SyncRun(sys, lazy, ops).store.hidden, tbl, blockSize, t, history[t])
    decreases |ops|
  {
    if ops == [] {
    } else {
      var next := SyncOp(sys, ops[0]);
      if ops[0].Write? {
        var first := ops[0].w;
        if SlotHolds(sys.store.hidden, tbl, blockSize, t, history[t]) || Writes(first, tbl, blockSize, t) {
          StepHolds(sys.store, first, tbl, blockSize, history, t);
        }
      }
      if !SlotHolds(sys.store.hidden, tbl, blockSize, t, history[t]) && !SlotHolds(next.store.hidden, tbl, blockSize, t, history[t]) {
        var i :| 0 <= i < |ops| && ops[i].Write? && ops[i].w.n <= |ops[i].w.slots| && Writes(ops[i].w, tbl, blockSize, t);
        assert i > 0 && ops[1..][i - 1] == ops[i];
      }
      RunHolds(next, lazy, ops[1..], tbl, blockSize, history, t);
    }
  }

  /** After any run in which the prefix's tokens were written, the flushed cache holds their
      history. */
  lemma HoldsAfterRun(sys: Sys, lazy: set<Key>, ops: seq<Op>, tbl: seq<int>, history: seq<Row>)
    requires Inv(sys, lazy) && RunOk(Flush(sys), lazy, ops)
    requires TableOk(tbl, sys.blockSize, sys.store.size) && |history| <= |tbl| * sys.blockSize
    requires RunDisciplined(ops, tbl, sys.blockSize, history)
    requires forall t | 0 <= t < |history| :: RunWrites(ops, tbl, sys.blockSize, t)
    ensures var end := AsyncRun(sys, lazy, ops);
            && end.store.size == sys.store.size && end.blockSize == sys.blockSize
            && TableOk(tbl, sys.blockSize, |Flush(end).store.hidden|) && Holds(Flush(end).store.hidden, tbl, sys.blockSize, history)
  {
    AsyncRefinesSync(sys, lazy, ops);
    var end := SyncRun(Flush(sys), lazy, ops);
    SizeKept(Flush(sys), lazy, ops);
    forall t | 0 <= t < |history|
      ensures SlotHolds(end.store.hidden, tbl, sys.blockSize, t, history[t])
    {
      RunHolds(Flush(sys), lazy, ops, tbl, sys.blockSize, history, t);
    }
  }

  /** Reading the flushed cache by whole blocks then gives exactly that history, in order. */
  lemma PrefixHitReadsHistory(sys: Sys, lazy: set<Key>, ops: seq<Op>, tbl: seq<int>, blocks: nat,
                              history: seq<Row>)
    requires Inv(sys, lazy) && RunOk(Flush(sys), lazy, ops)
    requires TableOk(tbl, sys.blockSize, sys.store.size) && blocks <= |tbl|
    requires |history| == blocks * sys.blockSize <= |tbl| * sys.blockSize
    requires RunDisciplined(ops, tbl, sys.blockSize, history)
    requires forall t | 0 <= t < |history| :: RunWrites(ops, tbl, sys.blockSize, t)
    ensures var cache := Flush(AsyncRun(sys, lazy, ops)).store.hidden;
            && TableOk(tbl[..blocks], sys.blockSize, |cache|)
            && GatherBlocks(cache, tbl[..blocks], sys.blockSize) == history
  {
    HoldsAfterRun(sys, lazy, ops, tbl, history);
    GatherReadsSlots(Flush(AsyncRun(sys, lazy, ops)).store.hidden, tbl, sys.blockSize, blocks, history);
  }

  lemma {:induction false} SizeKept(sys: Sys, lazy: set<Key>, ops: seq<Op>)
    requires StoreOk(sys.store) && RunOk(sys, lazy, ops)
    ensures StoreOk(SyncRun(sys, lazy, ops).store) && SyncRun(sys, lazy, ops).store.size == sys.store.size
    ensures SyncRun(sys, lazy, ops).blockSize == sys.blockSize
    decreases |ops|
  {
    if ops == [] {
    } else {
      SizeKept(SyncOp(sys, ops[0]), lazy, ops[1..]);
    }
  }

  // ---- what the store holds while a write is in flight ------------------------------------

  /** Putting a write in flight lands the one before it: the hidden states as they stand are
      those of the flushed cache, and show nothing of the new write. */
  lemma BehindWrite(sys: Sys, lazy: set<Key>, w: Step)
    requires Inv(sys, lazy) && StepFits(sys.store.size, w)
    ensures AsyncOp(sys, Write(w)).store.hidden == Flush(sys).store.hidden
    ensures AsyncOp(sys, Write(w)).store.size == sys.store.size
  {
    if sys.pending.Some? {
      InitCommutes(sys.store, sys.pending.value, w.outs, w.padded);
    }
  }

  /** What the runner reads: within a step this step's write is in flight.  After any run in
      which the prefix's tokens were written, then any further write put in flight, reading
      the store as it stands by whole blocks gives the history of the cached tokens in order. */
  lemma PrefixReadBehindWrite(sys: Sys, lazy: set<Key>, ops: seq<Op>, w: Step, tbl: seq<int>, blocks: nat, history: seq<Row>)
    requires Inv(sys, lazy) && RunOk(Flush(sys), lazy, ops) && StepFits(sys.store.size, w)
    requires TableOk(tbl, sys.blockSize, sys.store.size) && blocks <= |tbl|
    requires |history| == blocks * sys.blockSize <= |tbl| * sys.blockSize
    requires RunDisciplined(ops, tbl, sys.blockSize, history)
    requires forall t | 0 <= t < |history| :: RunWrites(ops, tbl, sys.blockSize, t)
    ensures AsyncRun(sys, lazy, ops).store.size == sys.store.size
    ensures var cache := AsyncOp(AsyncRun(sys, lazy, ops), Write(w)).store.hidden;
            && TableOk(tbl[..blocks], sys.blockSize, |cache|)
            && GatherBlocks(cache, tbl[..blocks], sys.blockSize) == history
  {
    PrefixHitReadsHistory(sys, lazy, ops, tbl, blocks, history);
    HoldsAfterRun(sys, lazy, ops, tbl, history);
    BehindWrite(AsyncRun(sys, lazy, ops), lazy, w);
  }

  /** On every prefix slot the write in flight names, its last row is the one stored. */
  ghost predicate PrefixAgrees(s: Store, pending: Option<Pending>, tbl: seq<int>, blockSize: nat, tokens: nat)
    requires StoreOk(s) && (pending.Some? ==> WriteFits(s, pending.value))
    requires TableOk(tbl, blockSize, s.size) && tokens <= |tbl| * blockSize
  {
    pending.Some? && pending.value.hidden.Some? ==>
      forall t: nat | t < tokens ::
        WithinTable(tbl, blockSize, t);
        var x := Slot(tbl, blockSize, t);
        x in pending.value.slots ==> LastRow(pending.value.slots, pending.value.hidden.value, x) == TokenRow(s.hidden, tbl, blockSize, t)
  }

  lemma LandedRow(s: Store, p: Pending, tbl: seq<int>, blockSize: nat, t: nat)
    requires StoreOk(s) && WriteFits(s, p) && p.hidden.Some? && TableOk(tbl, blockSize, s.size) && t < |tbl| * blockSize
    ensures t / blockSize < |tbl|
    ensures var x := Slot(tbl, blockSize, t);
            TokenRow(Scatter(s, p).hidden, tbl, blockSize, t)
            == if x in p.slots then LastRow(p.slots, p.hidden.value, x) else TokenRow(s.hidden, tbl, blockSize, t)
  {
    hide LastRow, IndexCopy;
    WithinTable(tbl, blockSize, t);
    SlotInRange(tbl, blockSize, s.size, t);
    IndexCopyAt(s.hidden, p.slots, p.hidden.value, Slot(tbl, blockSize, t));
  }

  /** A block read with a write in flight is the read after it landed if and only if the write
      agrees with the stored prefix. */
  lemma BlockReadIff(s: Store, pending: Option<Pending>, tbl: seq<int>, blockSize: nat, blocks: nat)
    requires StoreOk(s) && (pending.Some? ==> WriteFits(s, pending.value)) && TableOk(tbl, blockSize, s.size) && blocks <= |tbl|
    ensures TableOk(tbl[..blocks], blockSize, s.size) && blocks * blockSize <= |tbl| * blockSize
    ensures GatherBlocks(s.hidden, tbl[..blocks], blockSize) == GatherBlocks(ApplyPending(s, pending).hidden, tbl[..blocks], blockSize)
            <==> PrefixAgrees(s, pending, tbl, blockSize, blocks * blockSize)
  {
    hide GatherBlocks, TokenRow, TableOk, Slot, LastRow, Scatter;
    FrontOk(tbl, blockSize, s.size, blocks);
    if pending.Some? {
      var p := pending.value;
      GatherSameIff(s.hidden, Scatter(s, p).hidden, tbl, blockSize, blocks);
      if p.hidden.Some? {
        forall t: nat | t < blocks * blockSize
          ensures t / blockSize < |tbl|
          ensures TokenRow(Scatter(s, p).hidden, tbl, blockSize, t)
                  == if Slot(tbl, blockSize, t) in p.slots then LastRow(p.slots, p.hidden.value, Slot(tbl, blockSize, t))
                     else TokenRow(s.hidden, tbl, blockSize, t)
        {
          LandedRow(s, p, tbl, blockSize, t);
        }
      } else {
        NoHidden(s, p);
      }
    }
  }

  /** So at any moment of any run, what is read by blocks is what the synchronous cache would
      give if and only if the write in flight agrees with the stored prefix. */
  lemma ReadIsSynchronousIff(sys: Sys, lazy: set<Key>, ops: seq<Op>, tbl: seq<int>, blocks: nat)
    requires Inv(sys, lazy) && RunOk(Flush(sys), lazy, ops)
    requires TableOk(tbl, sys.blockSize, sys.store.size) && blocks <= |tbl|
    ensures var now, sync := AsyncRun(sys, lazy, ops), SyncRun(Flush(sys), lazy, ops);
            && Inv(now, lazy) && now.store.size == sync.store.size == sys.store.size && StoreOk(sync.store)
            && TableOk(tbl[..blocks], sys.blockSize, sys.store.size) && blocks * sys.blockSize <= |tbl| * sys.blockSize
            && (GatherBlocks(now.store.hidden, tbl[..blocks], sys.blockSize) == GatherBlocks(sync.store.hidden, tbl[..blocks], sys.blockSize)
                <==> PrefixAgrees(now.store, now.pending, tbl, sys.blockSize, blocks * sys.blockSize))
  {
    hide GatherBlocks, TableOk, Scatter, PrefixAgrees;
    AsyncRefinesSync(sys, lazy, ops);
    SizeKept(Flush(sys), lazy, ops);
    BlockReadIff(AsyncRun(sys, lazy, ops).store, AsyncRun(sys, lazy, ops).pending, tbl, sys.blockSize, blocks);
  }

  lemma NoHidden(s: Store, p: Pending)
    requires StoreOk(s) && WriteFits(s, p) && p.hidden.None?
    ensures Scatter(s, p).hidden == s.hidden
  {
  }

  /** The write in flight, should it land, leaves the prefix's history in place. */
  ghost predicate PendingDisciplined(pending: Option<Pending>, tbl: seq<int>, blockSize: nat, history: seq<Row>)
    requires blockSize > 0 && |history| <= |tbl| * blockSize
  {
    pending.Some? && pending.value.hidden.Some? ==>
      forall i, t | 0 <= i < |pending.value.slots| && i < |pending.value.hidden.value| && 0 <= t < |history| ::
        WithinTable(tbl, blockSize, t);
        pending.value.slots[i] == Slot(tbl, blockSize, t) ==> pending.value.hidden.value[i] == history[t]
  }

  /** The store as it stands holds the prefix, and nothing in flight can spoil it. */
  ghost predicate Stands(sys: Sys, tbl: seq<int>, history: seq<Row>) {
    && sys.blockSize > 0 && |history| <= |tbl| * sys.blockSize && TableOk(tbl, sys.blockSize, |sys.store.hidden|)
    && Holds(sys.store.hidden, tbl, sys.blockSize, history)
    && PendingDisciplined(sys.pending, tbl, sys.blockSize, history)
  }

  lemma LandingStands(s: Store, pending: Option<Pending>, tbl: seq<int>, blockSize: nat, history: seq<Row>)
    requires StoreOk(s) && (pending.Some? ==> WriteFits(s, pending.value))
    requires blockSize > 0 && |history| <= |tbl| * blockSize && TableOk(tbl, blockSize, s.size)
    requires Holds(s.hidden, tbl, blockSize, history) && PendingDisciplined(pending, tbl, blockSize, history)
    ensures Holds(ApplyPending(s, pending).hidden, tbl, blockSize, history)
  {
    if pending.Some? && pending.value.hidden.Some? {
      var p := pending.value;
      forall t | 0 <= t < |history|
        ensures SlotHolds(IndexCopy(s.hidden, p.slots, p.hidden.value), tbl, blockSize, t, history[t])
      {
        WithinTable(tbl, blockSize, t);
        SlotInRange(tbl, blockSize, s.size, t);
        assert SlotHolds(s.hidden, tbl, blockSize, t, history[t]);
        IndexCopyAgrees(s.hidden, p.slots, p.hidden.value, Slot(tbl, blockSize, t), history[t]);
      }
    }
  }

  lemma StandsBehindWrite(sys: Sys, lazy: set<Key>, w: Step, tbl: seq<int>, history: seq<Row>)
    requires Inv(sys, lazy) && StepFits(sys.store.size, w)
    requires sys.blockSize > 0 && |history| <= |tbl| * sys.blockSize && TableOk(tbl, sys.blockSize, sys.store.size)
    requires Holds(Flush(sys).store.hidden, tbl, sys.blockSize, history) && Disciplined(w, tbl, sys.blockSize, history)
    ensures Stands(AsyncOp(sys, Write(w)), tbl, history)
  {
    hide Holds, TableOk, Slot;
    BehindWrite(sys, lazy, w);
  }

  lemma StepStands(sys: Sys, lazy: set<Key>, op: Op, tbl: seq<int>, history: seq<Row>)
    requires Inv(sys, lazy) && OpOk(Flush(sys), lazy, op) && Stands(sys, tbl, history)
    requires op.Write? ==> Disciplined(op.w, tbl, sys.blockSize, history)
    ensures Stands(AsyncOp(sys, op), tbl, history)
  {
    hide Holds, TableOk, Slot;
    LandingStands(sys.store, sys.pending, tbl, sys.blockSize, history);
    if op.Write? {
      BehindWrite(sys, lazy, op.w);
    }
  }

  /** Once the store stands, it stands over every further run that respects the prefix, with
      arbitrary event answers and whatever is in flight. */
  lemma {:induction false} RunStands(sys: Sys, lazy: set<Key>, ops: seq<Op>, tbl: seq<int>, history: seq<Row>)
    requires Inv(sys, lazy) && RunOk(Flush(sys), lazy, ops) && Stands(sys, tbl, history)
    requires RunDisciplined(ops, tbl, sys.blockSize, history)
    ensures Stands(AsyncRun(sys, lazy, ops), tbl, history)
    decreases |ops|
  {
    if ops == [] {
    } else {
      OpRefines(sys, lazy, ops[0]);
      StepStands(sys, lazy, ops[0], tbl, history);
      assert AsyncOp(sys, ops[0]).blockSize == sys.blockSize;
      RunStands(AsyncOp(sys, ops[0]), lazy, ops[1..], tbl, history);
    }
  }

  /** From the step that puts the next write in flight on, the prefix can be read at any
      moment of any run that respects it: between stagings, commits, drains that apply or
      not, and further writes in flight. */
  lemma PrefixStands(sys: Sys, lazy: set<Key>, ops: seq<Op>, w: Step, tbl: seq<int>, history: seq<Row>)
    requires Inv(sys, lazy) && RunOk(Flush(sys), lazy, ops) && StepFits(sys.store.size, w)
    requires TableOk(tbl, sys.blockSize, sys.store.size) && |history| <= |tbl| * sys.blockSize
    requires RunDisciplined(ops, tbl, sys.blockSize, history) && Disciplined(w, tbl, sys.blockSize, history)
    requires forall t | 0 <= t < |history| :: RunWrites(ops, tbl, sys.blockSize, t)
    ensures AsyncRun(sys, lazy, ops).store.size == sys.store.size
    ensures Stands(AsyncOp(AsyncRun(sys, lazy, ops), Write(w)), tbl, history)
  {
    HoldsAfterRun(sys, lazy, ops, tbl, history);
    StandsBehindWrite(AsyncRun(sys, lazy, ops), lazy, w, tbl, history);
  }

  lemma StandingReadsHistory(sys: Sys, lazy: set<Key>, ops: seq<Op>, tbl: seq<int>, blocks: nat, history: seq<Row>)
    requires Inv(sys, lazy) && RunOk(Flush(sys), lazy, ops) && Stands(sys, tbl, history)
    requires RunDisciplined(ops, tbl, sys.blockSize, history)
    requires blocks <= |tbl| && |history| == blocks * sys.blockSize
    ensures var end := AsyncRun(sys, lazy, ops);
            && TableOk(tbl[..blocks], end.blockSize, |end.store.hidden|)
            && GatherBlocks(end.store.hidden, tbl[..blocks], end.blockSize) == history
  {
    hide Holds, RunOk, Inv;
    RunStands(sys, lazy, ops, tbl, history);
    SameBlockSize(sys, lazy, ops);
    var end := AsyncRun(sys, lazy, ops);
    GatherReadsSlots(end.store.hidden, tbl, end.blockSize, blocks, history);
  }

  lemma SameBlockSize(sys: Sys, lazy: set<Key>, ops: seq<Op>)
    requires Inv(sys, lazy) && RunOk(Flush(sys), lazy, ops)
    ensures AsyncRun(sys, lazy, ops).blockSize == sys.blockSize
  {
    AsyncRefinesSync(sys, lazy, ops);
    SizeKept(Flush(sys), lazy, ops);
  }

  /** Committed chunks that agree with a history leave it in the slots of the tokens they
      cover, as far as the block table maps them. */
  lemma {:induction false} CommittedChunksHold(flat: seq<Row>, tbl: seq<int>, blockSize: nat, chunks: seq<Chunk>, t: nat, v: Row)
    requires TableOk(tbl, blockSize, |flat|) && Injective(tbl) && t < |tbl| * blockSize
    requires forall c, i | c in chunks && 0 <= i < |c.rows| && c.start + i == t :: c.rows[i] == v
    requires SlotHolds(flat, tbl, blockSize, t, v) || exists c :: c in chunks && c.start <= t < c.start + |c.rows|
    ensures SlotHolds(WriteChunks(flat, tbl, blockSize, chunks), tbl, blockSize, t, v)
  {
    if chunks == [] {
    } else {
      var n := |chunks| - 1;
      var last := chunks[n];
      assert forall c | c in chunks[..n] :: c in chunks;
      if last.start <= t < last.start + |last.rows| {
        RunHoldsToken(WriteChunks(flat, tbl, blockSize, chunks[..n]), tbl, blockSize, last, t, v);
      } else {
        assert forall c | c in chunks && c.start <= t < c.start + |c.rows| :: c in chunks[..n];
        CommittedChunksHold(flat, tbl, blockSize, chunks[..n], t, v);
        RunHoldsToken(WriteChunks(flat, tbl, blockSize, chunks[..n]), tbl, blockSize, last, t, v);
      }
    }
  }

  lemma RunHoldsToken(flat: seq<Row>, tbl: seq<int>, blockSize: nat, c: Chunk, t: nat, v: Row)
    requires TableOk(tbl, blockSize, |flat|) && Injective(tbl) && t < |tbl| * blockSize
    requires forall i | 0 <= i < |c.rows| && c.start + i == t :: c.rows[i] == v
    requires SlotHolds(flat, tbl, blockSize, t, v) || c.start <= t < c.start + |c.rows|
    ensures SlotHolds(WriteRun(flat, tbl, blockSize, c.start, c.rows), tbl, blockSize, t, v)
  {
    var slots := SlotRange(tbl, blockSize, c.start, |c.rows|);
    SlotRangeInRange(tbl, blockSize, |flat|, c.start, |c.rows|);
    WithinTable(tbl, blockSize, t);
    SlotInRange(tbl, blockSize, |flat|, t);
    forall i | 0 <= i < |slots| && slots[i] == Slot(tbl, blockSize, t)
      ensures c.rows[..|slots|][i] == v
    {
      MappedPrefix(tbl, blockSize, c.start, |c.rows|, i);
      if c.start + i != t {
        DistinctSlots(tbl, blockSize, c.start + i, t);
      }
    }
    if c.start <= t < c.start + |c.rows| {
      MappedPrefix(tbl, blockSize, c.start, |c.rows|, t - c.start);
      assert slots[t - c.start] == Slot(tbl, blockSize, t);
    }
    IndexCopyAgrees(flat, slots, c.rows[..|slots|], Slot(tbl, blockSize, t), v);
  }
}
