/** Packing and unpacking the fields of diffusion outputs in place, through the wrappers
    workers return them in. */
module DiffusionTransfer {
  import opened ShmIpc

  class DiffusionOutput {
    var output: Value
    var latents: Value
    var timesteps: Value
    var logProbs: Value

    constructor (output: Value, latents: Value, timesteps: Value, logProbs: Value)
      ensures Fields() == Four(output, latents, timesteps, logProbs)
    {
      this.output, this.latents, this.timesteps, this.logProbs := output, latents, timesteps, logProbs;
    }

    /** The transferred fields as one value. */
    function Fields(): (f: Value)
      reads this
    {
      Four(output, latents, timesteps, logProbs)
    }
  }

  function Four(a: Value, b: Value, c: Value, d: Value): Value {
    Sequence(true, [a, b, c, d])
  }

  predicate IsSmallTensor(v: Value) {
    v.TensorValue? ==> !Large(v.t)
  }

  /** Nothing left to pack: trajectory fields are only packed when they are tensors. */
  ghost predicate Ready(f: Value) {
    f.Sequence? && |f.items| == 4 && AllSmall(f.items[0]) && forall i | 1 <= i < 4 :: IsSmallTensor(f.items[i])
  }

  ghost predicate PackedFields(w: Value, v: Value, s0: map<Name, Segment>, s1: map<Name, Segment>) {
    Moved(w, v, s0, s1) && Ready(w) && (Ready(v) ==> w == v && s1 == s0)
  }

  method PackTrajectory(shm: SharedMemory, v: Value) returns (w: Value)
    modifies shm
    ensures Moved(w, v, old(shm.segments), shm.segments)
    ensures IsSmallTensor(w) && (IsSmallTensor(v) ==> w == v && shm.segments == old(shm.segments))
  {
    hide Moved;
    if v.TensorValue? {
      w := shm.PackTensorIfLarge(v.t);
      TensorReady(w, v);
    } else {
      w := v;
      SelfMoved(v, shm.segments);
    }
  }

  lemma TensorReady(w: Value, v: Value)
    requires v.TensorValue?
    ensures AllSmall(w) ==> IsSmallTensor(w)
    ensures AllSmall(v) <==> IsSmallTensor(v)
  {
  }

  lemma SelfMoved(v: Value, s: map<Name, Segment>)
    ensures Moved(v, v, s, s)
  {
    SelfDenotes(v, s);
  }

  method PackDiffusionFields(shm: SharedMemory, d: DiffusionOutput)
    modifies shm, d
    ensures PackedFields(d.Fields(), old(d.Fields()), old(shm.segments), shm.segments)
  {
    hide Moved, Progress, AllSmall;
    ghost var v, s0 := d.Fields(), shm.segments;
    NoProgress(v, s0);
    d.output := shm.PackValueIfLarge(d.output);
    ghost var s1 := shm.segments;
    d.latents := PackTrajectory(shm, d.latents);
    ghost var s2 := shm.segments;
    d.timesteps := PackTrajectory(shm, d.timesteps);
    ghost var s3 := shm.segments;
    d.logProbs := PackTrajectory(shm, d.logProbs);
    FourMoved(d.Fields(), v, s0, s1, s2, s3, shm.segments);
  }

  lemma FourMoved(w: Value, v: Value, s0: map<Name, Segment>, s1: map<Name, Segment>, s2: map<Name, Segment>, s3: map<Name, Segment>, s4: map<Name, Segment>)
    requires SameShape(w, v) && v.Sequence? && |v.items| == 4
    requires Moved(w.items[0], v.items[0], s0, s1) && Moved(w.items[1], v.items[1], s1, s2)
    requires Moved(w.items[2], v.items[2], s2, s3) && Moved(w.items[3], v.items[3], s3, s4)
    ensures Moved(w, v, s0, s4)
  {
    hide Moved, Progress;
    var got: map<Key, Value> := map[];
    NoProgress(v, s0);
    ProgressStep(got, v, At(0), w.items[0], s0, s0, s1);
    got := got[At(0) := w.items[0]];
    ProgressStep(got, v, At(1), w.items[1], s0, s1, s2);
    got := got[At(1) := w.items[1]];
    ProgressStep(got, v, At(2), w.items[2], s0, s2, s3);
    got := got[At(2) := w.items[2]];
    ProgressStep(got, v, At(3), w.items[3], s0, s3, s4);
    got := got[At(3) := w.items[3]];
    ProgressDone(got, w, v, s0, s4);
  }

  /** `ok` is false when a handle could not be read. */
  method UnpackDiffusionFields(shm: SharedMemory, d: DiffusionOutput, ghost v: Value) returns (ok: bool)
    modifies shm, d
    ensures Denotes(old(d.Fields()), v, old(shm.segments)) && Apart(old(d.Fields()), v) && NoMarked(v) ==>
              ok && d.Fields() == v && Freed(old(d.Fields()), v, old(shm.segments), shm.segments)
  {
    hide Denotes, Uses, Apart, NoMarked, Freed, Restored;
    ghost var w, s0 := d.Fields(), shm.segments;
    ghost var sound := Denotes(w, v, s0) && Apart(w, v) && NoMarked(v);
    ghost var got: map<Key, Value> := map[];
    NothingRestored(w, v, s0);
    FourShape(w, v, s0);
    d.output, ok, got := UnpackField(shm, 0, d.output, w, v, got, s0, sound);
    if !ok { return; }
    d.latents, ok, got := UnpackField(shm, 1, d.latents, w, v, got, s0, sound);
    if !ok { return; }
    d.timesteps, ok, got := UnpackField(shm, 2, d.timesteps, w, v, got, s0, sound);
    if !ok { return; }
    d.logProbs, ok, got := UnpackField(shm, 3, d.logProbs, w, v, got, s0, sound);
    if !ok { return; }
    if sound {
      Unmarked(v);
      RestoredDone(got, w, v, s0, shm.segments);
      assert d.Fields().items == v.items;
    }
  }

  lemma Unmarked(v: Value)
    requires NoMarked(v)
    ensures !Marked(v)
  {
  }

  lemma FourShape(w: Value, v: Value, s: map<Name, Segment>)
    requires w.Sequence?
    ensures Denotes(w, v, s) ==> SameShape(w, v)
  {
    ShapeOfPacked(w, v, s);
  }

  method UnpackField(shm: SharedMemory, ghost i: nat, x: Value, ghost w: Value, ghost v: Value, ghost got: map<Key, Value>,
                     ghost s0: map<Name, Segment>, ghost sound: bool)
    returns (y: Value, ok: bool, ghost got1: map<Key, Value>)
    requires w.Sequence? && |w.items| == 4 && i < 4 && x == w.items[i]
    requires sound ==> && Denotes(w, v, s0) && Apart(w, v) && NoMarked(v) && SameShape(w, v)
                       && Restored(got, w, v, s0, shm.segments) && forall k :: k in got <==> k.At? && k.i < i
    modifies shm
    ensures sound ==> && ok && y == v.items[i] && Restored(got1, w, v, s0, shm.segments)
                      && forall k :: k in got1 <==> k.At? && k.i < i + 1
  {
    hide Denotes, Uses, Apart, NoMarked, Freed, Restored;
    ghost var before := shm.segments;
    ghost var c := if sound then v.items[i] else Nothing;
    if sound {
      assert Has(v, At(i)) && Child(v, At(i)) == c;
      assert Has(w, At(i)) && Child(w, At(i)) == x;
      NextDenotes(got, w, v, At(i), s0, before);
      ChildDecides(v, At(i));
    }
    var r := shm.UnpackIfShmHandle(x, c);
    ok := r.Ok?;
    y := if ok then r.value else x;
    got1 := got;
    if sound {
      RestoredStep(got, w, v, At(i), s0, before, shm.segments);
      got1 := got[At(i) := c];
    }
  }

  // ---- wrappers -----------------------------------------------------------------------------

  /** A bare output, an rpc result envelope, or an object with a result and runner outputs. */
  datatype Wrapped =
    | Bare(d: DiffusionOutput)
    | Envelope(result: DiffusionOutput?)
    | Wrapper(inner: DiffusionOutput?, runners: seq<Wrapped>)

  function Held(d: DiffusionOutput?): set<DiffusionOutput> {
    if d == null then {} else {d}
  }

  /** The diffusion outputs a walk over the wrapper visits. */
  ghost function Objects(o: Wrapped): set<DiffusionOutput> {
    match o
    case Bare(d) => {d}
    case Envelope(d) => Held(d)
    case Wrapper(d, runners) => Held(d) + set i, x | 0 <= i < |runners| && x in Objects(runners[i]) :: x
  }

  /** All their fields as one value; an output may be reached along several paths but is
      listed once. */
  function Snapshot(objs: seq<DiffusionOutput>): (v: Value)
    reads objs
    ensures v.Sequence? && v.tuple && |v.items| == |objs|
    ensures forall i | 0 <= i < |objs| :: v.items[i] == objs[i].Fields()
  {
    Sequence(true, seq(|objs|, i requires 0 <= i < |objs| reads objs => objs[i].Fields()))
  }

  ghost predicate Lists(objs: seq<DiffusionOutput>, o: Wrapped) {
    && (forall i, j | 0 <= i < j < |objs| :: objs[i] != objs[j])
    && (forall d | d in Objects(o) :: d in objs)
    && (forall i | 0 <= i < |objs| :: objs[i] in Objects(o))
  }

  /** Outputs visited so far are packed, the others as they were. */
  ghost predicate Packing(objs: seq<DiffusionOutput>, v: Value, got: map<Key, Value>, s0: map<Name, Segment>, s: map<Name, Segment>)
    reads objs
  {
    && v.Sequence? && v.tuple && |v.items| == |objs|
    && Progress(got, v, s0, s)
    && (forall k | k in got :: k.At? && k.i < |objs|)
    && (forall i: nat | i < |objs| :: PackingAt(objs[i].Fields(), v.items[i], got, i))
    && ((forall i: nat | i < |objs| :: Ready(v.items[i])) ==> s == s0)
  }

  ghost predicate PackingAt(f: Value, v: Value, got: map<Key, Value>, i: nat) {
    if At(i) in got then f == got[At(i)] && Ready(f) && (Ready(v) ==> f == v) else f == v
  }

  ghost predicate Visited(objs: seq<DiffusionOutput>, got: map<Key, Value>, seen: set<DiffusionOutput>) {
    forall i: nat | i < |objs| && objs[i] in seen :: At(i) in got
  }

  method PackOne(shm: SharedMemory, d: DiffusionOutput, ghost objs: seq<DiffusionOutput>, ghost v: Value, ghost got: map<Key, Value>,
                 ghost s0: map<Name, Segment>)
    returns (ghost got1: map<Key, Value>)
    requires (forall i, j | 0 <= i < j < |objs| :: objs[i] != objs[j]) && d in objs && Packing(objs, v, got, s0, shm.segments)
    modifies shm, d
    ensures Packing(objs, v, got1, s0, shm.segments) && got.Keys <= got1.Keys && Visited(objs, got1, {d})
  {
    hide Moved, Progress, Ready;
    ghost var i: nat :| i < |objs| && objs[i] == d;
    assert PackingAt(objs[i].Fields(), v.items[i], got, i);
    ghost var before := shm.segments;
    PackDiffusionFields(shm, d);
    if At(i) in got {
      got1 := got;
    } else {
      assert Has(v, At(i)) && Child(v, At(i)) == v.items[i];
      ProgressStep(got, v, At(i), d.Fields(), s0, before, shm.segments);
      got1 := got[At(i) := d.Fields()];
    }
    forall j: nat | j < |objs|
      ensures PackingAt(objs[j].Fields(), v.items[j], got1, j)
    {
      assert j != i ==> objs[j] != d;
    }
  }

  method PackWalk(shm: SharedMemory, o: Wrapped, ghost objs: seq<DiffusionOutput>, ghost v: Value, ghost got: map<Key, Value>,
                  ghost s0: map<Name, Segment>)
    returns (ghost got1: map<Key, Value>)
    requires (forall i, j | 0 <= i < j < |objs| :: objs[i] != objs[j]) && (forall d | d in Objects(o) :: d in objs)
    requires Packing(objs, v, got, s0, shm.segments)
    modifies shm, Objects(o)
    ensures Packing(objs, v, got1, s0, shm.segments) && got.Keys <= got1.Keys && Visited(objs, got1, Objects(o))
    decreases o
  {
    hide Packing, Ready;
    got1 := got;
    match o {
      case Bare(d) =>
        got1 := PackOne(shm, d, objs, v, got, s0);
      case Envelope(d) =>
        if d != null {
          got1 := PackOne(shm, d, objs, v, got, s0);
        }
      case Wrapper(d, runners) =>
        if d != null {
          got1 := PackOne(shm, d, objs, v, got, s0);
        }
        for i := 0 to |runners|
          invariant Packing(objs, v, got1, s0, shm.segments) && got.Keys <= got1.Keys && Visited(objs, got1, Held(d))
          invariant forall j | 0 <= j < i :: Visited(objs, got1, Objects(runners[j]))
        {
          ghost var got2 := got1;
          got1 := PackWalk(shm, runners[i], objs, v, got1, s0);
          StillVisited(objs, got2, got1);
        }
    }
  }

  lemma StillVisited(objs: seq<DiffusionOutput>, got: map<Key, Value>, got1: map<Key, Value>)
    requires got.Keys <= got1.Keys
    ensures forall seen | Visited(objs, got, seen) :: Visited(objs, got1, seen)
  {
  }

  /** Every output reached is packed in place: what it denotes is unchanged, nothing large is
      left in it, and packing a packed wrapper changes nothing and creates no segment. */
  method PackDiffusionOutputShm(shm: SharedMemory, o: Wrapped, ghost objs: seq<DiffusionOutput>)
    requires Lists(objs, o)
    modifies shm, Objects(o)
    ensures Moved(Snapshot(objs), old(Snapshot(objs)), old(shm.segments), shm.segments)
    ensures forall d | d in objs :: Ready(d.Fields())
    ensures (forall d | d in objs :: Ready(old(d.Fields()))) ==> Snapshot(objs) == old(Snapshot(objs)) && shm.segments == old(shm.segments)
  {
    hide Moved, Progress, Ready;
    ghost var v, s0 := Snapshot(objs), shm.segments;
    NoProgress(v, s0);
    ghost var got := PackWalk(shm, o, objs, v, map[], s0);
    PackedAll(objs, o, v, got, s0, shm.segments);
  }

  lemma PackedAll(objs: seq<DiffusionOutput>, o: Wrapped, v: Value, got: map<Key, Value>, s0: map<Name, Segment>, s: map<Name, Segment>)
    requires Lists(objs, o) && Packing(objs, v, got, s0, s) && Visited(objs, got, Objects(o))
    ensures Moved(Snapshot(objs), v, s0, s)
    ensures forall i: nat | i < |objs| :: Ready(objs[i].Fields())
    ensures (forall i: nat | i < |objs| :: Ready(v.items[i])) ==> Snapshot(objs) == v && s == s0
  {
    hide Moved, Progress, Ready;
    var w := Snapshot(objs);
    forall i: nat | i < |objs|
      ensures At(i) in got && w.items[i] == got[At(i)] && Ready(w.items[i]) && (Ready(v.items[i]) ==> w.items[i] == v.items[i])
    {
      assert PackingAt(objs[i].Fields(), v.items[i], got, i);
    }
    ProgressDone(got, w, v, s0, s);
    if forall i: nat | i < |objs| :: Ready(v.items[i]) {
      assert w.items == v.items;
    }
  }

  // ---- unpacking wrappers -----------------------------------------------------------------

  /** Outputs visited so far are restored, the others still packed. */
  ghost predicate Unpacking(objs: seq<DiffusionOutput>, w: Value, v: Value, got: map<Key, Value>, s0: map<Name, Segment>, s: map<Name, Segment>)
    reads objs
  {
    && v.Sequence? && |v.items| == |objs| && w.Sequence? && |w.items| == |objs|
    && Denotes(w, v, s0) && Apart(w, v) && NoMarked(v)
    && Restored(got, w, v, s0, s)
    && (forall i: nat | i < |objs| :: objs[i].Fields() == if At(i) in got then v.items[i] else w.items[i])
  }

  method UnpackOne(shm: SharedMemory, d: DiffusionOutput, ghost objs: seq<DiffusionOutput>, ghost w: Value, ghost v: Value,
                   ghost got: map<Key, Value>, ghost s0: map<Name, Segment>)
    returns (ok: bool, ghost got1: map<Key, Value>)
    requires (forall i, j | 0 <= i < j < |objs| :: objs[i] != objs[j]) && d in objs && Unpacking(objs, w, v, got, s0, shm.segments)
    modifies shm, d
    ensures ok && Unpacking(objs, w, v, got1, s0, shm.segments) && got.Keys <= got1.Keys && Visited(objs, got1, {d})
  {
    hide Denotes, Uses, Apart, NoMarked, Restored;
    ghost var i: nat :| i < |objs| && objs[i] == d;
    ghost var before, x := shm.segments, v.items[i];
    assert Has(v, At(i)) && Child(v, At(i)) == x && Has(w, At(i)) && Child(w, At(i)) == w.items[i];
    ChildDecides(v, At(i));
    if At(i) in got {
      SelfDenotes(x, before);
    } else {
      NextDenotes(got, w, v, At(i), s0, before);
    }
    ok := UnpackDiffusionFields(shm, d, x);
    if At(i) in got {
      got1 := got;
      assert shm.segments == before;
    } else {
      RestoredStep(got, w, v, At(i), s0, before, shm.segments);
      got1 := got[At(i) := x];
    }
    assert forall j: nat | j < |objs| && j != i :: objs[j] != d;
  }

  method UnpackWalk(shm: SharedMemory, o: Wrapped, ghost objs: seq<DiffusionOutput>, ghost w: Value, ghost v: Value,
                    ghost got: map<Key, Value>, ghost s0: map<Name, Segment>)
    returns (ok: bool, ghost got1: map<Key, Value>)
    requires (forall i, j | 0 <= i < j < |objs| :: objs[i] != objs[j]) && (forall d | d in Objects(o) :: d in objs)
    requires Unpacking(objs, w, v, got, s0, shm.segments)
    modifies shm, Objects(o)
    ensures ok && Unpacking(objs, w, v, got1, s0, shm.segments) && got.Keys <= got1.Keys && Visited(objs, got1, Objects(o))
    decreases o
  {
    hide Unpacking;
    ok, got1 := true, got;
    match o {
      case Bare(d) =>
        ok, got1 := UnpackOne(shm, d, objs, w, v, got, s0);
      case Envelope(d) =>
        if d != null {
          ok, got1 := UnpackOne(shm, d, objs, w, v, got, s0);
        }
      case Wrapper(d, runners) =>
        if d != null {
          ok, got1 := UnpackOne(shm, d, objs, w, v, got, s0);
        }
        for i := 0 to |runners|
          invariant ok && Unpacking(objs, w, v, got1, s0, shm.segments) && got.Keys <= got1.Keys && Visited(objs, got1, Held(d))
          invariant forall j | 0 <= j < i :: Visited(objs, got1, Objects(runners[j]))
        {
          ghost var got2 := got1;
          ok, got1 := UnpackWalk(shm, runners[i], objs, w, v, got1, s0);
          StillVisited(objs, got2, got1);
        }
    }
  }

  /** Every output reached is restored and exactly the segments packed for it are freed. */
  method UnpackDiffusionOutputShm(shm: SharedMemory, o: Wrapped, ghost objs: seq<DiffusionOutput>, ghost v: Value) returns (ok: bool)
    requires Lists(objs, o)
    requires Denotes(Snapshot(objs), v, shm.segments) && Apart(Snapshot(objs), v) && NoMarked(v)
    modifies shm, Objects(o)
    ensures ok && Snapshot(objs) == v
    ensures Freed(old(Snapshot(objs)), v, old(shm.segments), shm.segments)
  {
    hide Denotes, Uses, Apart, NoMarked, Restored, Freed;
    ghost var w, s0 := Snapshot(objs), shm.segments;
    NothingRestored(w, v, s0);
    SameKind(w, v, s0);
    ghost var got;
    ok, got := UnpackWalk(shm, o, objs, w, v, map[], s0);
    Unmarked(v);
    assert forall i: nat | i < |objs| :: At(i) in got;
    RestoredDone(got, w, v, s0, shm.segments);
    assert Snapshot(objs).items == v.items;
  }

  lemma SameKind(w: Value, v: Value, s: map<Name, Segment>)
    requires Denotes(w, v, s) && w.Sequence?
    ensures SameShape(w, v)
  {
    ShapeOfPacked(w, v, s);
  }

  /** One trip through the queue: every field of every output comes back as it was and the
      namespace returns to where it started, so each segment created was unlinked once. */
  method RoundTrip(shm: SharedMemory, o: Wrapped, ghost objs: seq<DiffusionOutput>) returns (ok: bool)
    requires Lists(objs, o) && NoMarked(Snapshot(objs))
    modifies shm, Objects(o)
    ensures ok && shm.segments == old(shm.segments)
    ensures forall d | d in objs :: d.Fields() == old(d.Fields())
  {
    hide *;
    ghost var v, s0 := Snapshot(objs), shm.segments;
    PackDiffusionOutputShm(shm, o, objs);
    ghost var w, s1 := Snapshot(objs), shm.segments;
    MovedBack(w, v, s0, s1);
    ok := UnpackDiffusionOutputShm(shm, o, objs, v);
    FreedBack(w, v, s0, s1, shm.segments);
    forall d | d in objs
      ensures d.Fields() == old(d.Fields())
    {
      var i :| 0 <= i < |objs| && objs[i] == d;
      assert Snapshot(objs).items[i] == v.items[i];
    }
  }

  lemma MovedBack(w: Value, v: Value, s0: map<Name, Segment>, s1: map<Name, Segment>)
    requires Moved(w, v, s0, s1)
    ensures Denotes(w, v, s1) && Apart(w, v)
  {
  }

  lemma FreedBack(w: Value, v: Value, s0: map<Name, Segment>, s1: map<Name, Segment>, s2: map<Name, Segment>)
    requires Moved(w, v, s0, s1) && Freed(w, v, s1, s2)
    ensures s2 == s0
  {
    hide Denotes, Apart, Uses;
  }
}
