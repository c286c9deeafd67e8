/** The cache object itself: arrays scattered into in place, proved against the
    state machine of PrefixCacheSpec. */
module PrefixCache {
  import opened SlotCache
  import opened PrefixCacheSpec

  /** A per-token feature tensor: two or more dimensions, one row per padded token. */
  predicate IsNew(outs: map<Key, Value>, seqLen: nat, k: Key) {
    k in outs && outs[k].Tensor? && outs[k].ndim >= 2 && |outs[k].rows| == seqLen
  }

  lemma EmptyScatter(s: Store, p: Pending)
    requires StoreOk(s) && WriteFits(s, p) && p.n == 0
    ensures Scatter(s, p) == s
  {
    assert Scatter(s, p).mm == s.mm;
  }

  lemma NothingMissing(s: Store, outs: map<Key, Value>, seqLen: nat)
    requires StoreOk(s) && outs == map[]
    ensures InitMissing(s, outs, seqLen) == s
  {
    assert InitMissing(s, outs, seqLen).mm == s.mm;
  }

  function WithKey(s: Store, key: Key, flat: seq<Row>): Store {
    s.(mm := s.mm[key := flat])
  }

  predicate RowsFit(s: Store, slots: seq<int>, rows: map<Key, seq<Row>>) {
    StoreOk(s) && InRange(slots, s.size) && forall k | k in rows :: |rows[k]| == |slots|
  }

  /** What key k's cache is once the keys of `done` received their rows. */
  function KeyAfter(s: Store, slots: seq<int>, rows: map<Key, seq<Row>>, done: set<Key>, k: Key): (r: seq<Row>)
    requires RowsFit(s, slots, rows) && k in s.mm
    ensures |r| == s.size
  {
    if k in rows && k in done then IndexCopy(s.mm[k], slots, rows[k]) else s.mm[k]
  }

  function MmScattered(s: Store, slots: seq<int>, rows: map<Key, seq<Row>>, done: set<Key>): (r: Store)
    requires RowsFit(s, slots, rows)
    ensures r.mm.Keys == s.mm.Keys && r.hidden == s.hidden && r.size == s.size && StoreOk(r)
  {
    s.(mm := map k | k in s.mm :: KeyAfter(s, slots, rows, done, k))
  }

  lemma ScatteredNone(s: Store, slots: seq<int>, rows: map<Key, seq<Row>>)
    requires RowsFit(s, slots, rows)
    ensures MmScattered(s, slots, rows, {}) == s
  {
    assert MmScattered(s, slots, rows, {}).mm == s.mm;
  }

  lemma KeyAfterNext(s: Store, slots: seq<int>, rows: map<Key, seq<Row>>, done: set<Key>, k: Key, k': Key)
    requires RowsFit(s, slots, rows) && k in rows && k !in done && k' in s.mm
    ensures KeyAfter(s, slots, rows, done + {k}, k')
         == if k' == k then IndexCopy(KeyAfter(s, slots, rows, done, k), slots, rows[k]) else KeyAfter(s, slots, rows, done, k')
  {
  }

  lemma ScatteredNext(s: Store, slots: seq<int>, rows: map<Key, seq<Row>>, done: set<Key>, k: Key)
    requires RowsFit(s, slots, rows) && k in rows && k !in done
    ensures var before, after := MmScattered(s, slots, rows, done), MmScattered(s, slots, rows, done + {k});
            after == if k in s.mm then WithKey(before, k, IndexCopy(before.mm[k], slots, rows[k])) else before
  {
    hide KeyAfter, IndexCopy;
    forall k' | k' in s.mm {
      KeyAfterNext(s, slots, rows, done, k, k');
    }
    var before, after := MmScattered(s, slots, rows, done), MmScattered(s, slots, rows, done + {k});
    if k in s.mm {
      assert after.mm == before.mm[k := IndexCopy(before.mm[k], slots, rows[k])];
    } else {
      assert after.mm == before.mm;
    }
  }

  /** Hidden rows first, missing caches next, multimodal rows last: one synchronous update. */
  lemma UpdateInParts(s: Store, w: Step, s1: Store)
    requires StoreOk(s) && StepFits(s.size, w) && Conforms(InitMissing(s, w.outs, w.padded).mm.Keys, w)
    requires s1 == if w.hidden.Some? then s.(hidden := IndexCopy(s.hidden, w.slots[..w.n], w.hidden.value[..w.n])) else s
    ensures StoreOk(s1)
    ensures var s2 := InitMissing(s1, w.outs, w.padded);
            && Conforms(s2.mm.Keys, w)
            && var writes := AsWrite(w, SyncKeys(s2.mm.Keys, w)).mm;
               MmScattered(s2, w.slots[..w.n], writes, writes.Keys) == SyncUpdate(s, w)
  {
    var s2 := InitMissing(s1, w.outs, w.padded);
    assert s2.mm == InitMissing(s, w.outs, w.padded).mm;
    var writes := AsWrite(w, SyncKeys(s2.mm.Keys, w)).mm;
    assert MmScattered(s2, w.slots[..w.n], writes, writes.Keys).mm == SyncUpdate(s, w).mm;
  }

  /** Scatter is a hidden scatter followed by a multimodal one. */
  lemma ScatterInParts(s: Store, p: Pending)
    requires StoreOk(s) && WriteFits(s, p)
    ensures var s1 := if p.hidden.Some? then s.(hidden := IndexCopy(s.hidden, p.slots, p.hidden.value)) else s;
            MmScattered(s1, p.slots, p.mm, p.mm.Keys) == Scatter(s, p)
  {
    var s1 := if p.hidden.Some? then s.(hidden := IndexCopy(s.hidden, p.slots, p.hidden.value)) else s;
    assert MmScattered(s1, p.slots, p.mm, p.mm.Keys).mm == Scatter(s, p).mm;
  }

  /** The parts of the runner's input batch the cache looks at. */
  datatype Batch = Batch(reqIds: seq<ReqId>, index: map<ReqId, nat>, tables: seq<seq<int>>, computed: seq<nat>)

  predicate BatchOk(b: Batch, blockSize: nat, size: nat) {
    && |b.tables| == |b.computed|
    && (forall i, j | 0 <= i < j < |b.reqIds| :: b.reqIds[i] != b.reqIds[j])
    && (forall q | q in b.reqIds :: q in b.index)
    && (forall q | q in b.index :: b.index[q] < |b.tables|)
    && (forall i | 0 <= i < |b.tables| :: TableOk(b.tables[i], blockSize, size))
  }

  function TablesOf(b: Batch): map<ReqId, seq<int>>
    requires forall q | q in b.index :: b.index[q] < |b.tables|
  {
    map q | q in b.index :: b.tables[b.index[q]]
  }

  /** The chunk one request contributes for one deferred key, if any. */
  function ChunkFor(b: Batch, starts: seq<nat>, outs: map<Key, Value>, sched: map<ReqId, int>, q: ReqId, k: Key): Option<Chunk>
    requires q in b.index && b.index[q] < |starts| && b.index[q] < |b.computed|
  {
    if k !in outs || !outs[k].Tensor? || outs[k].ndim < 2 then None
    else
      var count := if q in sched then sched[q] else 0;
      var start := starts[b.index[q]];
      var end := if start + count < |outs[k].rows| then start + count else |outs[k].rows|;
      if count <= 0 || start >= |outs[k].rows| || end <= start then None
      else
        var tokenStart := b.computed[b.index[q]] - count;
        Some(Chunk(if tokenStart < 0 then 0 else tokenStart, outs[k].rows[start..end]))
  }

  function ChunksFor(b: Batch, starts: seq<nat>, outs: map<Key, Value>, sched: map<ReqId, int>, q: ReqId, keys: set<Key>): map<Key, Chunk>
    requires q in b.index && b.index[q] < |starts| && b.index[q] < |b.computed|
  {
    map k | k in keys && ChunkFor(b, starts, outs, sched, q, k).Some? :: ChunkFor(b, starts, outs, sched, q, k).value
  }

  /** Everything one step stages; requests that contribute nothing do not appear. */
  function StagedFor(b: Batch, starts: seq<nat>, outs: map<Key, Value>, sched: map<ReqId, int>, keys: set<Key>): map<ReqId, map<Key, Chunk>>
    requires forall q | q in b.reqIds :: q in b.index && b.index[q] < |starts| && b.index[q] < |b.computed|
  {
    map q | q in b.reqIds && ChunksFor(b, starts, outs, sched, q, keys) != map[] :: ChunksFor(b, starts, outs, sched, q, keys)
  }

  /** Exactly the chunks of `keys` are staged, and of `last` for the first `i` requests. */
  ghost predicate StagedUpTo(b: Batch, starts: seq<nat>, outs: map<Key, Value>, sched: map<ReqId, int>,
                             keys: set<Key>, last: Key, i: nat, staged: map<ReqId, map<Key, Chunk>>)
    requires forall q | q in b.reqIds :: q in b.index && b.index[q] < |starts| && b.index[q] < |b.computed|
    requires i <= |b.reqIds|
  {
    && (forall q | q in staged :: q in b.reqIds)
    && (forall j | 0 <= j < |b.reqIds| ::
          Per(staged, b.reqIds[j]) == ChunksFor(b, starts, outs, sched, b.reqIds[j], if j < i then keys + {last} else keys))
    && (forall q | q in staged :: staged[q] != map[])
  }

  function Cat(pieces: seq<seq<Row>>): seq<Row> {
    if pieces == [] then [] else Cat(pieces[..|pieces| - 1]) + pieces[|pieces| - 1]
  }

  /** Hidden states a request gets back: its cached blocks and its scheduled rows on a
      prefix hit, its scheduled rows otherwise. */
  function MergedFor(flat: seq<Row>, blockSize: nat, hit: bool, tbl: seq<int>, computed: nat, scheduled: seq<Row>): seq<Row>
    requires TableOk(tbl, blockSize, |flat|)
    requires computed / blockSize <= |tbl|
  {
    if hit then GatherBlocks(flat, tbl[..computed / blockSize], blockSize) + scheduled else scheduled
  }

  /** After any run in which the cached tokens were written, then this step's write put in
      flight, a request on a prefix hit gets from the store as it stands the history of its
      floor(computed / blockSize) cached blocks followed by its new rows. */
  lemma PrefixHitMergesHistory(sys: Sys, lazy: set<Key>, ops: seq<Op>, w: Step, tbl: seq<int>, computed: nat, history: seq<Row>,
                               scheduled: seq<Row>)
    requires Inv(sys, lazy) && RunOk(Flush(sys), lazy, ops) && StepFits(sys.store.size, w)
    requires TableOk(tbl, sys.blockSize, sys.store.size) && computed / sys.blockSize <= |tbl|
    requires |history| == computed / sys.blockSize * sys.blockSize <= |tbl| * sys.blockSize
    requires RunDisciplined(ops, tbl, sys.blockSize, history)
    requires forall t | 0 <= t < |history| :: RunWrites(ops, tbl, sys.blockSize, t)
    ensures AsyncRun(sys, lazy, ops).store.size == sys.store.size
    ensures var cache := AsyncOp(AsyncRun(sys, lazy, ops), Write(w)).store.hidden;
            TableOk(tbl, sys.blockSize, |cache|) && MergedFor(cache, sys.blockSize, true, tbl, computed, scheduled) == history + scheduled
  {
    PrefixReadBehindWrite(sys, lazy, ops, w, tbl, computed / sys.blockSize, history);
  }

  /** One step of the runner on the object: the write is put in flight, then the batch is
      merged.  Request q, on a prefix hit whose tokens the run so far wrote, gets their
      history followed by its scheduled rows. */
  method ScheduleThenMerge(cache: OmniTensorPrefixCache, w: Step, starts: seq<nat>, b: Batch, hiddenStates: seq<Row>,
                           sched: map<ReqId, nat>, staged: Option<seq<Row>>, ghost sys: Sys, ghost lazy: set<Key>,
                           ghost ops: seq<Op>, ghost q: ReqId, ghost history: seq<Row>)
    returns (r: Option<map<ReqId, seq<Row>>>)
    requires cache.Valid() && cache.cudaAvailable
    requires Inv(sys, lazy) && RunOk(Flush(sys), lazy, ops) && cache.State() == AsyncRun(sys, lazy, ops)
    requires StepFits(cache.hidden.Length, w)
    requires BatchOk(b, cache.blockSize, cache.hidden.Length) && |starts| == |b.tables|
    requires forall i | 0 <= i < |b.tables| :: b.computed[i] / cache.blockSize <= |b.tables[i]|
    requires forall x | x in b.reqIds :: x in sched && starts[b.index[x]] + sched[x] <= |hiddenStates|
    requires q in b.reqIds && q in cache.hitIds
    requires var tbl := b.tables[b.index[q]];
             && |history| == b.computed[b.index[q]] / cache.blockSize * cache.blockSize <= |tbl| * cache.blockSize
             && RunDisciplined(ops, tbl, cache.blockSize, history)
             && forall t | 0 <= t < |history| :: RunWrites(ops, tbl, cache.blockSize, t)
    modifies cache`mm, cache`mmKeys, cache`pending, cache.hidden, cache.mm.Values
    ensures r.None? <==> staged.Some? && exists x :: x in b.reqIds && starts[b.index[x]] + sched[x] > |staged.value|
    ensures r.Some? ==>
              var rows := if staged.Some? then staged.value else hiddenStates;
              var start := starts[b.index[q]];
              q in r.value && start + sched[q] <= |rows| && r.value[q] == history + rows[start..start + sched[q]]
    ensures r.Some? ==>
              var rows := if staged.Some? then staged.value else hiddenStates;
              forall x | x in b.reqIds && x !in cache.hitIds ::
                var start := starts[b.index[x]];
                x in r.value && start + sched[x] <= |rows| && r.value[x] == rows[start..start + sched[x]]
  {
    hide Launch, InitMissing, ApplyPending, GatherBlocks;
    ghost var before := cache.State();
    RunFits(sys, lazy, ops);
    cache.ScheduleAsyncWrite(w);
    cache.ScheduledIsAsyncOp(w);
    var i := b.index[q];
    r := cache.GetMergedHiddenStates(starts, b, hiddenStates, sched, staged);
    ghost var rows := if staged.Some? then staged.value else hiddenStates;
    if r.Some? {
      PrefixHitMergesHistory(sys, lazy, ops, w, b.tables[i], b.computed[i], history, rows[starts[i]..starts[i] + sched[q]]);
    }
  }

  lemma RunFits(sys: Sys, lazy: set<Key>, ops: seq<Op>)
    requires Inv(sys, lazy) && RunOk(Flush(sys), lazy, ops)
    ensures var end := AsyncRun(sys, lazy, ops);
            StoreOk(end.store) && (end.pending.Some? ==> WriteFits(end.store, end.pending.value)) && end.blockSize == sys.blockSize
    ensures AsyncRun(sys, lazy, ops).store.size == sys.store.size
  {
    AsyncRefinesSync(sys, lazy, ops);
    SizeKept(Flush(sys), lazy, ops);
  }

  class OmniTensorPrefixCache {
    const numBlocks: nat
    const blockSize: nat
    const cudaAvailable: bool
    const hidden: array<Row>
    var mm: map<Key, array<Row>>
    var mmKeys: set<Key>
    var hitIds: set<ReqId>
    var deferred: Deferred
    var pending: Option<Pending>

    ghost predicate Valid()
      reads this`mm, this`mmKeys
    {
      && blockSize > 0 && hidden.Length == numBlocks * blockSize
      && mm.Keys == mmKeys
      && (forall k | k in mm :: mm[k].Length == hidden.Length && mm[k] != hidden)
      && (forall k, k' | k in mm && k' in mm && k != k' :: mm[k] != mm[k'])
    }

    /** Caches added since `before` are new objects, and no earlier cache was replaced. */
    twostate predicate NewKeysFresh(before: map<Key, array<Row>>, new after: map<Key, array<Row>>)
    {
      && (forall k | k in before :: k in after && after[k] == before[k])
      && (forall k | k in after && k !in before :: fresh(after[k]))
    }

    ghost function Stored(): (s: Store)
      reads this`mm, this`mmKeys, hidden, mm.Values
      ensures s.size == hidden.Length == |s.hidden| && s.mm.Keys == mm.Keys
      ensures Valid() ==> StoreOk(s) && mmKeys == mm.Keys
    {
      Store(hidden.Length, hidden[..], map k | k in mm :: mm[k][..])
    }

    /** The value the state machine of PrefixCacheSpec steps on. */
    ghost function State(): Sys
      reads this, hidden, mm.Values
    {
      Sys(blockSize, Stored(), pending, deferred)
    }

    constructor (numBlocks: nat, blockSize: nat, hiddenSize: nat, cudaAvailable: bool)
      requires blockSize > 0
      ensures Valid() && this.blockSize == blockSize && this.numBlocks == numBlocks
      ensures Stored() == Store(numBlocks * blockSize, Zeros(numBlocks * blockSize, hiddenSize), map[])
      ensures pending == None && deferred == map[] && hitIds == {}
    {
      this.numBlocks, this.blockSize, this.cudaAvailable := numBlocks, blockSize, cudaAvailable;
      var zero: Row := seq(hiddenSize, _ => 0.0);
      hidden := new Row[numBlocks * blockSize](_ => zero);
      mm, mmKeys, hitIds, deferred, pending := map[], {}, {}, map[], None;
      new;
      assert hidden[..] == Zeros(numBlocks * blockSize, hiddenSize);
    }

    /** Add a zeroed cache for a key not cached yet. */
    method AddKey(key: Key, width: nat)
      requires Valid() && key !in mm
      modifies this`mm, this`mmKeys
      ensures Valid() && mm.Keys == old(mm.Keys) + {key} && fresh(mm[key])
      ensures NewKeysFresh(old(mm), mm)
      ensures mm[key][..] == Zeros(hidden.Length, width)
      ensures Stored() == WithKey(old(Stored()), key, Zeros(hidden.Length, width))
    {
      var zero: Row := seq(width, _ => 0.0);
      var cache := new Row[numBlocks * blockSize](_ => zero);
      mm := mm[key := cache];
      mmKeys := mmKeys + {key};
      assert cache[..] == Zeros(hidden.Length, width);
      assert Stored().mm == WithKey(old(Stored()), key, Zeros(hidden.Length, width)).mm;
    }

    method ScatterKey(key: Key, slots: seq<int>, rows: seq<Row>)
      requires Valid() && key in mm && InRange(slots, hidden.Length) && |rows| == |slots|
      modifies mm[key]
      ensures Valid() && Stored() == WithKey(old(Stored()), key, IndexCopy(old(Stored()).mm[key], slots, rows))
    {
      IndexCopyInPlace(mm[key], slots, rows);
      assert Stored().mm == WithKey(old(Stored()), key, mm[key][..]).mm;
    }

    /** Add a zeroed cache for every per-token tensor that has none yet. */
    method AddMissing(outs: map<Key, Value>, seqLen: nat)
      requires Valid()
      modifies this`mm, this`mmKeys
      ensures Valid() && NewKeysFresh(old(mm), mm)
      ensures forall k | k in mm && k !in old(mm) :: IsNew(outs, seqLen, k) && mm[k][..] == Zeros(hidden.Length, outs[k].width)
      ensures forall k | IsNew(outs, seqLen, k) :: k in mm
    {
      hide Zeros;
      var todo := outs.Keys;
      while todo != {}
        invariant Valid() && todo <= outs.Keys && NewKeysFresh(old(mm), mm)
        invariant forall k | k in mm && k !in old(mm) :: IsNew(outs, seqLen, k) && mm[k][..] == Zeros(hidden.Length, outs[k].width)
        invariant forall k | k in outs && k !in todo && IsNew(outs, seqLen, k) :: k in mm
      {
        var k :| k in todo;
        if IsNew(outs, seqLen, k) && k !in mmKeys {
          AddKey(k, outs[k].width);
        }
        todo := todo - {k};
      }
    }

    method MaybeInitMissingMmCacheKeys(outs: map<Key, Value>, seqLen: nat)
      requires Valid()
      modifies this`mm, this`mmKeys
      ensures Valid() && NewKeysFresh(old(mm), mm)
      ensures StoreOk(old(Stored())) && Stored() == InitMissing(old(Stored()), outs, seqLen)
    {
      hide Zeros;
      AddMissing(outs, seqLen);
      ghost var want := InitMissing(old(Stored()), outs, seqLen);
      assert mm.Keys == want.mm.Keys;
      assert forall k | k in mm :: Stored().mm[k] == want.mm[k];
    }

    method ScatterHidden(slots: seq<int>, rows: seq<Row>)
      requires Valid() && InRange(slots, hidden.Length) && |rows| == |slots|
      modifies hidden
      ensures Valid() && Stored() == old(Stored()).(hidden := IndexCopy(old(Stored()).hidden, slots, rows))
    {
      IndexCopyInPlace(hidden, slots, rows);
      assert Stored().mm == old(Stored()).mm;
    }

    /** Scatter a write into every cached key it carries. */
    method ScatterMm(slots: seq<int>, rows: map<Key, seq<Row>>)
      requires Valid() && RowsFit(Stored(), slots, rows)
      modifies mm.Values
      ensures Valid() && Stored() == MmScattered(old(Stored()), slots, rows, rows.Keys)
    {
      hide Stored, Valid, MmScattered;
      ghost var s0 := Stored();
      var todo := rows.Keys;
      assert rows.Keys - todo == {};
      ScatteredNone(s0, slots, rows);
      while todo != {}
        invariant Valid() && todo <= rows.Keys
        invariant Stored() == MmScattered(s0, slots, rows, rows.Keys - todo)
      {
        var k :| k in todo;
        ghost var done := rows.Keys - todo;
        ScatteredNext(s0, slots, rows, done, k);
        if k in mm {
          ScatterKey(k, slots, rows[k]);
        }
        todo := todo - {k};
        assert rows.Keys - todo == done + {k};
      }
      assert rows.Keys - todo == rows.Keys;
    }

    // ---- asynchronous pipeline ----------------------------------------------------

    method ConsumePendingWrite()
      requires Valid() && (pending.Some? ==> WriteFits(Stored(), pending.value))
      modifies this`pending, hidden, mm.Values
      ensures Valid() && pending == None
      ensures StoreOk(old(Stored())) && Stored() == ApplyPending(old(Stored()), old(pending))
    {
      hide Stored, Scatter, Valid, MmScattered;
      if pending.None? {
        return;
      }
      var entry := pending.value;
      ScatterInParts(Stored(), entry);
      pending := None;
      if entry.n <= 0 {
        EmptyScatter(Stored(), entry);
        return;
      }
      if entry.hidden.Some? {
        ScatterHidden(entry.slots, entry.hidden.value);
      }
      ScatterMm(entry.slots, entry.mm);
    }

    /** Consume the previous step's write, then put this step's write in flight. */
    method ScheduleAsyncWrite(w: Step)
      requires Valid() && (pending.Some? ==> WriteFits(Stored(), pending.value))
      requires StepFits(hidden.Length, w)
      modifies this`mm, this`mmKeys, this`pending, hidden, mm.Values
      ensures Valid() && NewKeysFresh(old(mm), mm) && deferred == old(deferred)
      ensures !cudaAvailable ==> State() == old(State())
      ensures cudaAvailable ==>
                && StoreOk(old(Stored()))
                && Stored() == ApplyPending(InitMissing(old(Stored()), w.outs, w.padded), old(pending))
                && pending == Launch(mm.Keys, w)
    {
      hide Zeros, Stored, Scatter, Valid, InitMissing;
      if !cudaAvailable {
        return;
      }
      var cacheable: set<Key> := {};
      if w.outs != map[] {
        MaybeInitMissingMmCacheKeys(w.outs, w.padded);
        cacheable := set k | k in mmKeys && k !in w.skip && k in w.outs
                             && w.outs[k].Tensor? && w.outs[k].ndim >= 2 && |w.outs[k].rows| >= w.n;
      } else {
        NothingMissing(Stored(), w.outs, w.padded);
      }
      assert Stored() == InitMissing(old(Stored()), w.outs, w.padded);
      assert cacheable == AsyncKeys(mm.Keys, w);
      ConsumePendingWrite();
      if w.hidden.None? && cacheable == {} {
        return;
      }
      pending := Some(AsWrite(w, cacheable));
    }

    /** ScheduleAsyncWrite is the Write operation of the asynchronous machine. */
    twostate lemma ScheduledIsAsyncOp(w: Step)
      requires old(Valid()) && (old(pending).Some? ==> WriteFits(old(Stored()), old(pending).value))
      requires StepFits(hidden.Length, w) && StoreOk(old(Stored())) && deferred == old(deferred)
      requires Stored() == ApplyPending(InitMissing(old(Stored()), w.outs, w.padded), old(pending))
      requires pending == Launch(mm.Keys, w)
      ensures State() == AsyncOp(old(State()), Write(w))
    {
      assert mm.Keys == Stored().mm.Keys;
    }

    /** Non-blocking: apply the write in flight only if its event has fired. */
    method DrainReadyAsyncWrites(ready: bool) returns (drained: nat)
      requires Valid() && (pending.Some? ==> WriteFits(Stored(), pending.value))
      modifies this`pending, hidden, mm.Values
      ensures Valid() && drained == (if old(pending).Some? && ready then 1 else 0)
      ensures StoreOk(old(Stored())) && State() == AsyncOp(old(State()), Drain(ready))
    {
      if pending.None? || !ready {
        return 0;
      }
      ConsumePendingWrite();
      return 1;
    }

    // ---- synchronous update ----------------------------------------------------------

    method UpdateHidden(w: Step)
      requires Valid() && StepFits(hidden.Length, w)
      modifies hidden
      ensures Valid() && StoreOk(old(Stored()))
      ensures Stored() == var s := old(Stored());
              if w.hidden.Some? then s.(hidden := IndexCopy(s.hidden, w.slots[..w.n], w.hidden.value[..w.n])) else s
    {
      hide Stored, Valid;
      if w.hidden.Some? {
        ScatterHidden(w.slots[..w.n], w.hidden.value[..w.n]);
      }
    }

    method UpdateOmniTensorPrefixCache(w: Step)
      requires Valid() && StepFits(hidden.Length, w)
      requires StoreOk(Stored()) && Conforms(InitMissing(Stored(), w.outs, w.padded).mm.Keys, w)
      modifies this`mm, this`mmKeys, hidden, mm.Values
      ensures Valid() && NewKeysFresh(old(mm), mm) && pending == old(pending) && deferred == old(deferred)
      ensures StoreOk(old(Stored())) && Stored() == SyncUpdate(old(Stored()), w)
    {
      hide Stored, Zeros, Valid, MmScattered, SyncUpdate, InitMissing, Conforms, InRange;
      ghost var s := Stored();
      UpdateHidden(w);
      ghost var s1 := Stored();
      MaybeInitMissingMmCacheKeys(w.outs, w.padded);
      UpdateInParts(s, w, s1);
      var write := AsWrite(w, SyncKeys(mmKeys, w));
      ScatterMm(w.slots[..w.n], write.mm);
    }

    // ---- deferred chunks ---------------------------------------------------------------

    method StageDeferredMmOutputs(starts: seq<nat>, b: Batch, outs: map<Key, Value>, sched: map<ReqId, int>, lazy: set<Key>)
      requires Valid() && BatchOk(b, blockSize, hidden.Length) && |starts| == |b.tables|
      modifies this`deferred
      ensures deferred == StageChunks(old(deferred), StagedFor(b, starts, outs, sched, lazy))
    {
      hide StagedUpTo, StageChunks, ChunkFor, StagedFor;
      ghost var d := deferred;
      ghost var staged: map<ReqId, map<Key, Chunk>> := map[];
      var todo := lazy;
      StageNothing(d);
      StagedNone(b, starts, outs, sched);
      assert lazy - todo == {};
      while todo != {}
        invariant todo <= lazy
        invariant StagedUpTo(b, starts, outs, sched, lazy - todo, "", 0, staged)
        invariant deferred == StageChunks(d, staged)
      {
        var k :| k in todo;
        ghost var keys := lazy - todo;
        StagedSwitch(b, starts, outs, sched, keys, "", k, staged);
        for i := 0 to |b.reqIds|
          invariant StagedUpTo(b, starts, outs, sched, keys, k, i, staged)
          invariant deferred == StageChunks(d, staged)
        {
          var q := b.reqIds[i];
          var chunk := ChunkFor(b, starts, outs, sched, q, k);
          StagedNext(b, starts, outs, sched, keys, k, i, staged);
          if chunk.Some? {
            StageOne(d, staged, q, k, chunk.value);
            deferred := deferred[q := Per(deferred, q)[k := List(Per(deferred, q), k) + [chunk.value]]];
            staged := staged[q := Per(staged, q)[k := chunk.value]];
          }
        }
        StagedRow(b, starts, outs, sched, keys, k, staged);
        todo := todo - {k};
        assert lazy - todo == keys + {k};
      }
      assert lazy - todo == lazy;
      StagedAll(b, starts, outs, sched, lazy, staged);
    }

    method DiscardDeferredMmOutputs(req: ReqId)
      modifies this`deferred
      ensures deferred == old(deferred) - {req}
    {
      deferred := deferred - {req};
    }

    /** Write one contiguous run of deferred rows through the block table. */
    method WriteDeferredMmTensor(tbl: seq<int>, key: Key, pieces: seq<seq<Row>>, tokenStart: nat)
      requires Valid() && TableOk(tbl, blockSize, hidden.Length) && Cat(pieces) != []
      modifies this`mm, this`mmKeys, mm.Values
      ensures Valid() && NewKeysFresh(old(mm), mm)
      ensures StoreOk(old(Stored()))
      ensures var base := KeyBase(old(Stored()), key, |Cat(pieces)[0]|);
              Stored() == WithKey(old(Stored()), key, WriteRun(base, tbl, blockSize, tokenStart, Cat(pieces)))
    {
      hide Zeros, Stored, Cat, SlotRange, TableOk;
      var rows := Cat(pieces);
      if key !in mmKeys {
        AddKey(key, |rows[0]|);
      }
      var slots := GetSlotIds(tbl, blockSize, tokenStart, |rows|);
      SlotRangeInRange(tbl, blockSize, hidden.Length, tokenStart, |rows|);
      if slots == [] {
        assert Stored() == WithKey(Stored(), key, Stored().mm[key]);
        return;
      }
      ScatterKey(key, slots, rows[..|slots|]);
    }

    /** Sort, coalesce contiguous chunks, and scatter once per run. */
    method CommitDeferredMmKey(tbl: seq<int>, key: Key, chunks: seq<Chunk>)
      requires Valid() && TableOk(tbl, blockSize, hidden.Length)
      modifies this`mm, this`mmKeys, mm.Values
      ensures Valid() && NewKeysFresh(old(mm), mm)
      ensures StoreOk(old(Stored())) && Stored() == CommitKey(old(Stored()), key, tbl, blockSize, chunks)
    {
      hide WriteRun, WriteChunks, TableOk, FirstWidth, HasRows, SortChunks, Stored, Zeros, Valid, WithKey, KeyBase, CommitKey, PendingRun;
      if chunks == [] {
        CommitNothing(Stored(), key, tbl, blockSize);
        return;
      }
      var sorted := SortChunks(chunks);
      SortKeepsRows(chunks);
      var first: nat := sorted[0].start;
      var expected: nat := first;
      var pieces: seq<seq<Row>> := [];
      ghost var s0 := Stored();
      ghost var base := KeyBase(s0, key, FirstWidth(sorted));
      ghost var cur := base;
      ghost var written := false;
      CommitStart(s0, key, tbl, blockSize, sorted, base, first);
      for i := 0 to |sorted|
        invariant Valid() && NewKeysFresh(old(mm), mm)
        invariant CommitInv(s0, Stored(), key, tbl, blockSize, sorted, base, i, first, expected, pieces, cur, written)
      {
        var c := sorted[i];
        CommitNext(s0, Stored(), key, tbl, blockSize, sorted, base, i, first, expected, pieces, cur, written);
        if c.rows != [] {
          if c.start != expected {
            FlushPieces(tbl, key, pieces, first, s0, sorted, i, written, cur, base);
            cur := WriteRun(cur, tbl, blockSize, first, Cat(pieces));
            written := written || pieces != [];
            first, expected, pieces := c.start, c.start, [];
          }
          pieces := pieces + [c.rows];
          expected := expected + |c.rows|;
        }
      }
      CommitDone(s0, Stored(), key, tbl, blockSize, chunks, base, first, expected, pieces, cur, written);
      FlushPieces(tbl, key, pieces, first, s0, sorted, |sorted|, written, cur, base);
    }

    /** Scatter the buffered run, if there is one, onto what earlier runs left. */
    method FlushPieces(tbl: seq<int>, key: Key, pieces: seq<seq<Row>>, first: nat, ghost s0: Store, ghost sorted: seq<Chunk>,
                       ghost i: nat, ghost written: bool, ghost cur: seq<Row>, ghost base: seq<Row>)
      requires Valid() && TableOk(tbl, blockSize, hidden.Length)
      requires StoreOk(s0) && s0.size == hidden.Length == |cur| && base == KeyBase(s0, key, FirstWidth(sorted))
      requires Stored() == (if written then WithKey(s0, key, cur) else s0) && (!written ==> cur == base)
      requires i <= |sorted| && PendingRun(sorted, i, written, pieces) && (pieces == [] <==> Cat(pieces) == [])
      modifies this`mm, this`mmKeys, mm.Values
      ensures Valid() && NewKeysFresh(old(mm), mm)
      ensures Stored() == if written || pieces != [] then WithKey(s0, key, WriteRun(cur, tbl, blockSize, first, Cat(pieces))) else s0
    {
      hide WriteRun, Cat, FirstWidth, HasRows, Stored, Valid, WithKey, KeyBase, PendingRun;
      if pieces != [] {
        FlushBase(s0, key, sorted, i, written, pieces, cur, base);
        WriteDeferredMmTensor(tbl, key, pieces, first);
      } else {
        EmptyRun(cur, tbl, blockSize, first);
      }
    }

    /** Commit every key of one finished request, in any key order. */
    method CommitRequestKeys(perKey: map<Key, seq<Chunk>>, tbl: seq<int>)
      requires Valid() && TableOk(tbl, blockSize, hidden.Length)
      modifies this`mm, this`mmKeys, mm.Values
      ensures Valid() && NewKeysFresh(old(mm), mm)
      ensures StoreOk(old(Stored())) && Stored() == CommitRequest(old(Stored()), perKey, tbl, blockSize)
    {
      hide Stored, Valid, CommitRequest, CommitKey, TableOk;
      ghost var s0 := Stored();
      var todo := perKey.Keys;
      assert perKey.Keys - todo == {};
      CommitNoKeys(s0, perKey, tbl, blockSize);
      while todo != {}
        invariant Valid() && NewKeysFresh(old(mm), mm) && todo <= perKey.Keys
        invariant Stored() == CommitRequest(s0, Restrict(perKey, perKey.Keys - todo), tbl, blockSize)
      {
        var k :| k in todo;
        ghost var done := perKey.Keys - todo;
        CommitNextKey(s0, perKey, done, k, tbl, blockSize);
        CommitDeferredMmKey(tbl, k, perKey[k]);
        todo := todo - {k};
        assert perKey.Keys - todo == done + {k};
      }
      assert Restrict(perKey, perKey.Keys - todo) == perKey;
    }

    /** Pop the finished requests and commit those still in the batch. */
    method CommitDeferredMmOutputs(reqs: seq<ReqId>, b: Batch)
      requires Valid() && BatchOk(b, blockSize, hidden.Length)
      modifies this`mm, this`mmKeys, this`deferred, mm.Values
      ensures Valid() && NewKeysFresh(old(mm), mm) && pending == old(pending)
      ensures StoreOk(old(Stored()))
      ensures Stored() == CommitFinished(old(Stored()), old(deferred), reqs, TablesOf(b), blockSize)
      ensures deferred == old(deferred) - Members(reqs)
    {
      hide Stored, Valid, CommitRequest, TableOk, CommitFinished, BatchOk;
      BatchTables(b, blockSize, hidden.Length);
      ghost var s0, d0 := Stored(), deferred;
      if reqs == [] || deferred == map[] {
        CommitNobody(s0, d0, reqs, TablesOf(b), blockSize);
        return;
      }
      for i := 0 to |reqs|
        invariant Valid() && NewKeysFresh(old(mm), mm)
        invariant CommitFinished(Stored(), deferred, reqs[i..], TablesOf(b), blockSize)
               == CommitFinished(s0, d0, reqs, TablesOf(b), blockSize)
        invariant deferred == d0 - Members(reqs[..i])
      {
        var q := reqs[i];
        CommitStep(Stored(), deferred, reqs, i, TablesOf(b), blockSize);
        assert Members(reqs[..i + 1]) == Members(reqs[..i]) + {q};
        PopRequest(q, b);
      }
      assert reqs[|reqs|..] == [] && reqs[..|reqs|] == reqs;
      CommitNobody(Stored(), deferred, [], TablesOf(b), blockSize);
    }

    method PopRequest(q: ReqId, b: Batch)
      requires Valid() && BatchOk(b, blockSize, hidden.Length)
      modifies this`mm, this`mmKeys, this`deferred, mm.Values
      ensures Valid() && NewKeysFresh(old(mm), mm) && StoreOk(old(Stored())) && TablesOk(TablesOf(b), blockSize, hidden.Length)
      ensures Stored() == if q in old(deferred) && q in TablesOf(b) then CommitRequest(old(Stored()), old(deferred)[q], TablesOf(b)[q], blockSize)
                          else old(Stored())
      ensures deferred == old(deferred) - {q}
    {
      hide Stored, Valid, CommitRequest, TableOk, BatchOk;
      BatchTables(b, blockSize, hidden.Length);
      if q in deferred {
        var perKey := deferred[q];
        deferred := deferred - {q};
        if q in b.index {
          CommitRequestKeys(perKey, b.tables[b.index[q]]);
        }
      } else {
        assert deferred - {q} == deferred;
      }
    }

    // ---- merged reads ---------------------------------------------------------------------

    /** _get_merged_tensors on the hidden-state cache.  `staged` may supply the scheduled
        rows already on the CPU; too few of them is an error. */
    method GetMergedHiddenStates(starts: seq<nat>, b: Batch, hiddenStates: seq<Row>, sched: map<ReqId, nat>,
                                 staged: Option<seq<Row>>) returns (r: Option<map<ReqId, seq<Row>>>)
      requires Valid() && BatchOk(b, blockSize, hidden.Length) && |starts| == |b.tables|
      requires forall i | 0 <= i < |b.tables| :: b.computed[i] / blockSize <= |b.tables[i]|
      requires forall q | q in b.reqIds :: q in sched && starts[b.index[q]] + sched[q] <= |hiddenStates|
      ensures r.None? <==> staged.Some? && exists q :: q in b.reqIds && starts[b.index[q]] + sched[q] > |staged.value|
      ensures r.Some? ==> r.value.Keys == Members(b.reqIds)
      ensures r.Some? ==> forall q | q in b.reqIds ::
                MergedIs(hidden[..], starts, b, if staged.Some? then staged.value else hiddenStates, sched, q, r.value[q])
    {
      var required := 0;
      for i := 0 to |b.reqIds|
        invariant required == 0 || exists q :: q in b.reqIds && required == starts[b.index[q]] + sched[q]
        invariant forall j | 0 <= j < i :: starts[b.index[b.reqIds[j]]] + sched[b.reqIds[j]] <= required
      {
        var q := b.reqIds[i];
        var end := starts[b.index[q]] + sched[q];
        required := if end > required then end else required;
      }
      ghost var all := if staged.Some? then staged.value else hiddenStates;
      if staged.Some? && |staged.value| < required {
        return None;
      }
      var rows := if staged.Some? then staged.value[..required] else hiddenStates[..required];
      var merged := MergeRows(starts, b, rows, sched, all);
      r := Some(merged);
    }

    /** Request q gets its cached blocks (on a prefix hit) followed by its scheduled rows. */
    ghost predicate MergedIs(flat: seq<Row>, starts: seq<nat>, b: Batch, rows: seq<Row>, sched: map<ReqId, nat>, q: ReqId, got: seq<Row>)
      requires blockSize > 0 && BatchOk(b, blockSize, |flat|) && |starts| == |b.tables| && q in b.index && q in sched
      requires b.computed[b.index[q]] / blockSize <= |b.tables[b.index[q]]|
      reads this`hitIds
    {
      var start := starts[b.index[q]];
      && start + sched[q] <= |rows|
      && got == MergedFor(flat, blockSize, q in hitIds, b.tables[b.index[q]], b.computed[b.index[q]], rows[start..start + sched[q]])
    }

    method MergeRows(starts: seq<nat>, b: Batch, rows: seq<Row>, sched: map<ReqId, nat>, ghost all: seq<Row>) returns (merged: map<ReqId, seq<Row>>)
      requires Valid() && BatchOk(b, blockSize, hidden.Length) && |starts| == |b.tables|
      requires forall i | 0 <= i < |b.tables| :: b.computed[i] / blockSize <= |b.tables[i]|
      requires forall q | q in b.reqIds :: q in sched && starts[b.index[q]] + sched[q] <= |rows|
      requires rows <= all
      ensures merged.Keys == Members(b.reqIds)
      ensures forall q | q in b.reqIds :: MergedIs(hidden[..], starts, b, all, sched, q, merged[q])
    {
      hide TableOk, MergedFor;
      merged := map[];
      for i := 0 to |b.reqIds|
        invariant merged.Keys == Members(b.reqIds[..i])
        invariant forall q | q in b.reqIds[..i] :: MergedIs(hidden[..], starts, b, all, sched, q, merged[q])
      {
        var q := b.reqIds[i];
        var idx := b.index[q];
        var start := starts[idx];
        var scheduled := rows[start..start + sched[q]];
        assert scheduled == all[start..start + sched[q]];
        assert b.reqIds[..i + 1] == b.reqIds[..i] + [q];
        merged := merged[q := MergedFor(hidden[..], blockSize, q in hitIds, b.tables[idx], b.computed[idx], scheduled)];
      }
      assert b.reqIds[..|b.reqIds|] == b.reqIds;
    }
  }

  // ---- coalescing -------------------------------------------------------------------

  /** Before the first scatter, the buffered rows are all there is, and a fresh cache
      takes its width from them. */
  ghost predicate PendingRun(sorted: seq<Chunk>, i: nat, written: bool, pieces: seq<seq<Row>>)
    requires i <= |sorted|
  {
    if written then HasRows(sorted)
    else if pieces == [] then !HasRows(sorted[..i])
    else HasRows(sorted) && Cat(pieces) != [] && |Cat(pieces)[0]| == FirstWidth(sorted)
  }

  /** The run about to be flushed goes onto what earlier runs left. */
  lemma FlushBase(s0: Store, key: Key, sorted: seq<Chunk>, i: nat, written: bool, pieces: seq<seq<Row>>,
                  cur: seq<Row>, base: seq<Row>)
    requires StoreOk(s0) && i <= |sorted| && pieces != [] && Cat(pieces) != [] && PendingRun(sorted, i, written, pieces)
    requires |cur| == s0.size && base == KeyBase(s0, key, FirstWidth(sorted)) && (!written ==> cur == base)
    ensures HasRows(sorted)
    ensures var s := if written then WithKey(s0, key, cur) else s0;
            && StoreOk(s) && KeyBase(s, key, |Cat(pieces)[0]|) == cur
            && forall flat: seq<Row> :: WithKey(s, key, flat) == WithKey(s0, key, flat)
  {
    forall flat: seq<Row>
      ensures WithKey(WithKey(s0, key, cur), key, flat) == WithKey(s0, key, flat)
    {
      assert WithKey(WithKey(s0, key, cur), key, flat).mm == WithKey(s0, key, flat).mm;
    }
  }

  /** Loop invariant of the commit: what is stored, plus the buffered run on top of it,
      is every chunk so far written on its own. */
  ghost predicate CommitInv(s0: Store, s: Store, key: Key, tbl: seq<int>, blockSize: nat, sorted: seq<Chunk>, base: seq<Row>,
                            i: nat, first: nat, expected: nat, pieces: seq<seq<Row>>, cur: seq<Row>, written: bool)
    requires StoreOk(s0) && TableOk(tbl, blockSize, s0.size)
  {
    && |cur| == |base| == s0.size && i <= |sorted|
    && base == KeyBase(s0, key, FirstWidth(sorted))
    && s == (if written then WithKey(s0, key, cur) else s0) && (!written ==> cur == base)
    && expected == first + |Cat(pieces)| && (pieces == [] <==> Cat(pieces) == [])
    && PendingRun(sorted, i, written, pieces)
    && WriteRun(cur, tbl, blockSize, first, Cat(pieces)) == WriteChunks(base, tbl, blockSize, sorted[..i])
  }

  lemma CommitStart(s0: Store, key: Key, tbl: seq<int>, blockSize: nat, sorted: seq<Chunk>, base: seq<Row>, first: nat)
    requires StoreOk(s0) && TableOk(tbl, blockSize, s0.size)
    requires base == KeyBase(s0, key, FirstWidth(sorted))
    ensures CommitInv(s0, s0, key, tbl, blockSize, sorted, base, 0, first, first, [], base, false)
  {
    NothingBuffered(base, tbl, blockSize, sorted, first);
  }

  /** One chunk: skipped when empty, joined to the buffer when contiguous, else the
      buffer is flushed and a new run starts. */
  lemma CommitNext(s0: Store, s: Store, key: Key, tbl: seq<int>, blockSize: nat, sorted: seq<Chunk>, base: seq<Row>,
                   i: nat, first: nat, expected: nat, pieces: seq<seq<Row>>, cur: seq<Row>, written: bool)
    requires StoreOk(s0) && TableOk(tbl, blockSize, s0.size) && i < |sorted|
    requires CommitInv(s0, s, key, tbl, blockSize, sorted, base, i, first, expected, pieces, cur, written)
    ensures var c := sorted[i];
            if c.rows == [] then
              CommitInv(s0, s, key, tbl, blockSize, sorted, base, i + 1, first, expected, pieces, cur, written)
            else if c.start == expected then
              CommitInv(s0, s, key, tbl, blockSize, sorted, base, i + 1, first, expected + |c.rows|, pieces + [c.rows], cur, written)
            else
              var cur' := WriteRun(cur, tbl, blockSize, first, Cat(pieces));
              var s' := if written || pieces != [] then WithKey(s0, key, cur') else s0;
              CommitInv(s0, s', key, tbl, blockSize, sorted, base, i + 1, c.start, c.start + |c.rows|, [] + [c.rows], cur', written || pieces != [])
  {
    hide KeyBase, TableOk, WriteRun, WriteChunks, HasRows, FirstWidth, PendingRun, WithKey;
    var c := sorted[i];
    assert [] + [c.rows] == [c.rows];
    BufferStep(sorted, i, written, pieces);
    if c.rows == [] {
      SkipEmpty(base, tbl, blockSize, sorted, i);
    } else if c.start == expected {
      JoinStep(base, cur, tbl, blockSize, sorted, i, first, pieces);
    } else {
      FlushStep(base, cur, tbl, blockSize, sorted, i, first, pieces);
    }
  }

  lemma CommitNothing(s: Store, key: Key, tbl: seq<int>, blockSize: nat)
    requires StoreOk(s) && TableOk(tbl, blockSize, s.size)
    ensures CommitKey(s, key, tbl, blockSize, []) == s
  {
  }

  lemma CommitDone(s0: Store, s: Store, key: Key, tbl: seq<int>, blockSize: nat, chunks: seq<Chunk>, base: seq<Row>,
                   first: nat, expected: nat, pieces: seq<seq<Row>>, cur: seq<Row>, written: bool)
    requires StoreOk(s0) && TableOk(tbl, blockSize, s0.size)
    requires |SortChunks(chunks)| == |chunks|
    requires CommitInv(s0, s, key, tbl, blockSize, SortChunks(chunks), base, |chunks|, first, expected, pieces, cur, written)
    ensures CommitKey(s0, key, tbl, blockSize, chunks)
         == if written || pieces != [] then WithKey(s0, key, WriteRun(cur, tbl, blockSize, first, Cat(pieces))) else s0
  {
    var sorted := SortChunks(chunks);
    SortKeepsRows(chunks);
    assert sorted[..|chunks|] == sorted;
  }

  lemma BatchTables(b: Batch, blockSize: nat, size: nat)
    requires BatchOk(b, blockSize, size)
    ensures forall q | q in b.index :: b.index[q] < |b.tables| && TableOk(b.tables[b.index[q]], blockSize, size)
    ensures TablesOk(TablesOf(b), blockSize, size)
  {
  }

  lemma CommitStep(s: Store, d: Deferred, reqs: seq<ReqId>, i: nat, tables: map<ReqId, seq<int>>, blockSize: nat)
    requires StoreOk(s) && TablesOk(tables, blockSize, s.size) && i < |reqs|
    ensures var q := reqs[i];
            CommitFinished(s, d, reqs[i..], tables, blockSize)
            == CommitFinished(if q in d && q in tables then CommitRequest(s, d[q], tables[q], blockSize) else s,
                              d - {q}, reqs[i + 1..], tables, blockSize)
  {
    assert reqs[i..][0] == reqs[i] && reqs[i..][1..] == reqs[i + 1..];
  }

  function Restrict(perKey: map<Key, seq<Chunk>>, keys: set<Key>): map<Key, seq<Chunk>> {
    map k | k in perKey && k in keys :: perKey[k]
  }

  lemma CommitNoKeys(s: Store, perKey: map<Key, seq<Chunk>>, tbl: seq<int>, blockSize: nat)
    requires StoreOk(s) && TableOk(tbl, blockSize, s.size)
    ensures CommitRequest(s, Restrict(perKey, {}), tbl, blockSize) == s
  {
    assert CommitRequest(s, Restrict(perKey, {}), tbl, blockSize).mm == s.mm;
  }

  lemma CommitNextKey(s: Store, perKey: map<Key, seq<Chunk>>, done: set<Key>, k: Key, tbl: seq<int>, blockSize: nat)
    requires StoreOk(s) && TableOk(tbl, blockSize, s.size) && k in perKey && k !in done
    ensures CommitKey(CommitRequest(s, Restrict(perKey, done), tbl, blockSize), k, tbl, blockSize, perKey[k])
         == CommitRequest(s, Restrict(perKey, done + {k}), tbl, blockSize)
  {
    hide TableOk, HasRows, Committed;
    var before, after := CommitRequest(s, Restrict(perKey, done), tbl, blockSize), CommitRequest(s, Restrict(perKey, done + {k}), tbl, blockSize);
    SameCommitted(before, s, k, tbl, blockSize, perKey[k]);
    var live, live' := LiveKeys(Restrict(perKey, done)), LiveKeys(Restrict(perKey, done + {k}));
    assert live' == if HasRows(perKey[k]) then live + {k} else live;
    if HasRows(perKey[k]) {
      assert after.mm == before.mm[k := Committed(s, k, tbl, blockSize, perKey[k])];
    } else {
      assert after.mm == before.mm;
    }
  }

  lemma SameCommitted(s: Store, s': Store, key: Key, tbl: seq<int>, blockSize: nat, chunks: seq<Chunk>)
    requires StoreOk(s) && StoreOk(s') && s.size == s'.size && TableOk(tbl, blockSize, s.size)
    requires key in s.mm <==> key in s'.mm
    requires key in s.mm ==> s.mm[key] == s'.mm[key]
    ensures Committed(s, key, tbl, blockSize, chunks) == Committed(s', key, tbl, blockSize, chunks)
  {
  }

  lemma {:induction false} CommitNobody(s: Store, d: Deferred, reqs: seq<ReqId>, tables: map<ReqId, seq<int>>, blockSize: nat)
    requires StoreOk(s) && TablesOk(tables, blockSize, s.size) && (reqs == [] || d == map[])
    ensures CommitFinished(s, d, reqs, tables, blockSize) == s && d - Members(reqs) == d
    decreases |reqs|
  {
    if reqs == [] {
    } else {
      assert d - {reqs[0]} == d;
      CommitNobody(s, d, reqs[1..], tables, blockSize);
    }
  }

  lemma CatAppend(pieces: seq<seq<Row>>, rows: seq<Row>)
    ensures Cat(pieces + [rows]) == Cat(pieces) + rows
  {
    assert (pieces + [rows])[..|pieces|] == pieces;
  }

  lemma BufferStep(sorted: seq<Chunk>, i: nat, written: bool, pieces: seq<seq<Row>>)
    requires i < |sorted| && PendingRun(sorted, i, written, pieces)
    requires pieces == [] <==> Cat(pieces) == []
    ensures Cat([]) == []
    ensures Cat([sorted[i].rows]) == sorted[i].rows && Cat(pieces + [sorted[i].rows]) == Cat(pieces) + sorted[i].rows
    ensures sorted[i].rows == [] ==> PendingRun(sorted, i + 1, written, pieces)
    ensures sorted[i].rows != [] ==> PendingRun(sorted, i + 1, written, pieces + [sorted[i].rows])
    ensures sorted[i].rows != [] ==> PendingRun(sorted, i + 1, written || pieces != [], [sorted[i].rows])
  {
    var c := sorted[i];
    assert sorted[..i + 1] == sorted[..i] + [c];
    assert c in sorted;
    CatAppend(pieces, c.rows);
    CatAppend([], c.rows);
    assert [] + [c.rows] == [c.rows];
    if c.rows != [] && !written && pieces == [] {
      FirstWidthIs(sorted, i);
    }
  }

  lemma {:induction false} FirstWidthIs(chunks: seq<Chunk>, i: nat)
    requires i < |chunks| && chunks[i].rows != [] && !HasRows(chunks[..i])
    ensures FirstWidth(chunks) == |chunks[i].rows[0]|
  {
    if i == 0 {
    } else {
      assert chunks[0] in chunks[..i];
      assert forall c | c in chunks[1..][..i - 1] :: c in chunks[..i];
      FirstWidthIs(chunks[1..], i - 1);
    }
  }

  lemma EmptyRun(flat: seq<Row>, tbl: seq<int>, blockSize: nat, start: nat)
    requires TableOk(tbl, blockSize, |flat|)
    ensures WriteRun(flat, tbl, blockSize, start, []) == flat
  {
  }

  lemma NothingBuffered(base: seq<Row>, tbl: seq<int>, blockSize: nat, sorted: seq<Chunk>, first: nat)
    requires TableOk(tbl, blockSize, |base|)
    ensures Cat([]) == [] && PendingRun(sorted, 0, false, [])
    ensures WriteRun(base, tbl, blockSize, first, []) == WriteChunks(base, tbl, blockSize, sorted[..0])
  {
    EmptyRun(base, tbl, blockSize, first);
  }

  lemma NextChunk(base: seq<Row>, tbl: seq<int>, blockSize: nat, sorted: seq<Chunk>, i: nat)
    requires TableOk(tbl, blockSize, |base|) && i < |sorted|
    ensures WriteChunks(base, tbl, blockSize, sorted[..i + 1])
         == WriteRun(WriteChunks(base, tbl, blockSize, sorted[..i]), tbl, blockSize, sorted[i].start, sorted[i].rows)
  {
    assert sorted[..i + 1] == sorted[..i] + [sorted[i]];
    WriteChunksAppend(base, tbl, blockSize, sorted[..i], sorted[i]);
  }

  lemma SkipEmpty(base: seq<Row>, tbl: seq<int>, blockSize: nat, sorted: seq<Chunk>, i: nat)
    requires TableOk(tbl, blockSize, |base|) && i < |sorted| && sorted[i].rows == []
    ensures WriteChunks(base, tbl, blockSize, sorted[..i + 1]) == WriteChunks(base, tbl, blockSize, sorted[..i])
  {
    NextChunk(base, tbl, blockSize, sorted, i);
    EmptyRun(WriteChunks(base, tbl, blockSize, sorted[..i]), tbl, blockSize, sorted[i].start);
  }

  lemma JoinStep(base: seq<Row>, cur: seq<Row>, tbl: seq<int>, blockSize: nat, sorted: seq<Chunk>, i: nat,
                 first: nat, pieces: seq<seq<Row>>)
    requires TableOk(tbl, blockSize, |base|) && |cur| == |base| && i < |sorted|
    requires WriteRun(cur, tbl, blockSize, first, Cat(pieces)) == WriteChunks(base, tbl, blockSize, sorted[..i])
    requires sorted[i].start == first + |Cat(pieces)|
    ensures WriteRun(cur, tbl, blockSize, first, Cat(pieces) + sorted[i].rows)
         == WriteChunks(base, tbl, blockSize, sorted[..i + 1])
  {
    NextChunk(base, tbl, blockSize, sorted, i);
    WriteRunConcat(cur, tbl, blockSize, first, Cat(pieces), sorted[i].rows);
  }

  lemma FlushStep(base: seq<Row>, cur: seq<Row>, tbl: seq<int>, blockSize: nat, sorted: seq<Chunk>, i: nat,
                  first: nat, pieces: seq<seq<Row>>)
    requires TableOk(tbl, blockSize, |base|) && |cur| == |base| && i < |sorted|
    requires WriteRun(cur, tbl, blockSize, first, Cat(pieces)) == WriteChunks(base, tbl, blockSize, sorted[..i])
    ensures WriteRun(WriteRun(cur, tbl, blockSize, first, Cat(pieces)), tbl, blockSize, sorted[i].start, sorted[i].rows)
         == WriteChunks(base, tbl, blockSize, sorted[..i + 1])
    ensures Cat(pieces) == [] ==> WriteRun(cur, tbl, blockSize, first, Cat(pieces)) == cur
  {
    NextChunk(base, tbl, blockSize, sorted, i);
    EmptyRun(cur, tbl, blockSize, first);
  }

  lemma SortKeepsRows(chunks: seq<Chunk>)
    ensures HasRows(SortChunks(chunks)) <==> HasRows(chunks)
    ensures |SortChunks(chunks)| == |chunks|
  {
    var sorted := SortChunks(chunks);
    SortPermutes(chunks);
    assert |multiset(sorted)| == |multiset(chunks)|;
    forall c
      ensures c in sorted <==> c in chunks
    {
      assert c in multiset(sorted) <==> c in multiset(chunks);
    }
  }

  lemma StageNothing(d: Deferred)
    ensures StageChunks(d, map[]) == d
  {
  }

  lemma StagedNext(b: Batch, starts: seq<nat>, outs: map<Key, Value>, sched: map<ReqId, int>,
                   keys: set<Key>, last: Key, i: nat, staged: map<ReqId, map<Key, Chunk>>)
    requires forall q | q in b.reqIds :: q in b.index && b.index[q] < |starts| && b.index[q] < |b.computed|
    requires forall i, j | 0 <= i < j < |b.reqIds| :: b.reqIds[i] != b.reqIds[j]
    requires i < |b.reqIds| && last !in keys && StagedUpTo(b, starts, outs, sched, keys, last, i, staged)
    ensures var q := b.reqIds[i];
            var chunk := ChunkFor(b, starts, outs, sched, q, last);
            && (q in staged ==> last !in staged[q])
            && StagedUpTo(b, starts, outs, sched, keys, last, i + 1,
                          if chunk.Some? then staged[q := Per(staged, q)[last := chunk.value]] else staged)
  {
    hide ChunkFor, ChunksFor;
    var q := b.reqIds[i];
    var chunk := ChunkFor(b, starts, outs, sched, q, last);
    var next := if chunk.Some? then staged[q := Per(staged, q)[last := chunk.value]] else staged;
    ChunksGrow(b, starts, outs, sched, q, keys, last);
    assert Per(staged, q) == ChunksFor(b, starts, outs, sched, q, keys);
    assert Per(next, q) == ChunksFor(b, starts, outs, sched, q, keys + {last});
    forall j | 0 <= j < |b.reqIds|
      ensures Per(next, b.reqIds[j]) == ChunksFor(b, starts, outs, sched, b.reqIds[j], if j < i + 1 then keys + {last} else keys)
    {
      if j != i {
        assert b.reqIds[j] != q;
        assert Per(next, b.reqIds[j]) == Per(staged, b.reqIds[j]);
      }
    }
    if chunk.Some? {
      assert last in next[q];
    }
  }

  lemma ChunksGrow(b: Batch, starts: seq<nat>, outs: map<Key, Value>, sched: map<ReqId, int>, q: ReqId, keys: set<Key>, last: Key)
    requires q in b.index && b.index[q] < |starts| && b.index[q] < |b.computed| && last !in keys
    ensures last !in ChunksFor(b, starts, outs, sched, q, keys)
    ensures var chunk := ChunkFor(b, starts, outs, sched, q, last);
            var had := ChunksFor(b, starts, outs, sched, q, keys);
            ChunksFor(b, starts, outs, sched, q, keys + {last}) == if chunk.Some? then had[last := chunk.value] else had
  {
    hide ChunkFor;
  }

  lemma StagedNone(b: Batch, starts: seq<nat>, outs: map<Key, Value>, sched: map<ReqId, int>)
    requires forall q | q in b.reqIds :: q in b.index && b.index[q] < |starts| && b.index[q] < |b.computed|
    ensures StagedUpTo(b, starts, outs, sched, {}, "", 0, map[])
  {
    assert forall q | q in b.reqIds :: ChunksFor(b, starts, outs, sched, q, {}) == map[];
  }

  lemma StagedSwitch(b: Batch, starts: seq<nat>, outs: map<Key, Value>, sched: map<ReqId, int>,
                     keys: set<Key>, k: Key, k': Key, staged: map<ReqId, map<Key, Chunk>>)
    requires forall q | q in b.reqIds :: q in b.index && b.index[q] < |starts| && b.index[q] < |b.computed|
    requires StagedUpTo(b, starts, outs, sched, keys, k, 0, staged)
    ensures StagedUpTo(b, starts, outs, sched, keys, k', 0, staged)
  {
  }

  lemma StagedRow(b: Batch, starts: seq<nat>, outs: map<Key, Value>, sched: map<ReqId, int>,
                  keys: set<Key>, k: Key, staged: map<ReqId, map<Key, Chunk>>)
    requires forall q | q in b.reqIds :: q in b.index && b.index[q] < |starts| && b.index[q] < |b.computed|
    requires StagedUpTo(b, starts, outs, sched, keys, k, |b.reqIds|, staged)
    ensures StagedUpTo(b, starts, outs, sched, keys + {k}, "", 0, staged)
  {
  }

  lemma StagedAll(b: Batch, starts: seq<nat>, outs: map<Key, Value>, sched: map<ReqId, int>,
                  keys: set<Key>, staged: map<ReqId, map<Key, Chunk>>)
    requires forall q | q in b.reqIds :: q in b.index && b.index[q] < |starts| && b.index[q] < |b.computed|
    requires StagedUpTo(b, starts, outs, sched, keys, "", 0, staged)
    ensures staged == StagedFor(b, starts, outs, sched, keys)
  {
    hide ChunkFor, ChunksFor;
    forall q | q in b.reqIds
      ensures Per(staged, q) == ChunksFor(b, starts, outs, sched, q, keys)
    {
      var j :| 0 <= j < |b.reqIds| && b.reqIds[j] == q;
    }
    var want := StagedFor(b, starts, outs, sched, keys);
    assert forall q | q in staged :: q in b.reqIds && staged[q] == Per(staged, q);
    assert forall q | q in want :: q in staged;
    assert staged.Keys == want.Keys;
  }
}
