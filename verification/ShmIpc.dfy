/** Shared-memory transfer of large tensors: packing replaces them by handles to named
    segments, unpacking restores them and frees the segments. */
module ShmIpc {

  type Name = string

  datatype Option<+T> = None | Some(value: T)

  datatype Result<+T> = Ok(value: T) | Err

  datatype Dtype = Float16 | Float32 | Float64 | BFloat16 | Int8 | Int16 | Int32 | Int64 | UInt8 | Bool8

  function Product(shape: seq<nat>): nat {
    if shape == [] then 1 else shape[0] * Product(shape[1..])
  }

  /** Elements are bit patterns in row-major order. */
  datatype RawTensor = RawTensor(dtype: Dtype, shape: seq<nat>, elems: seq<nat>)

  type Tensor = t: RawTensor | |t.elems| == Product(t.shape) witness RawTensor(Float32, [0], [])

  /** Worker outputs: tensors in dicts, lists and tuples, and anything else. */
  datatype Value =
    | Nothing
    | Bool(b: bool)
    | Int(n: int)
    | Str(s: string)
    | Opaque(id: int)
    | TensorValue(t: Tensor)
    | Dict(entries: map<string, Value>)
    | Sequence(tuple: bool, items: seq<Value>)

  /** What a segment holds: a numpy array's elements. */
  datatype Segment = Segment(dtype: Dtype, elems: seq<nat>)

  const SHM_TENSOR_THRESHOLD: nat := 1_000_000
  const MARKER := "__tensor_shm__"

  // ---- tensors and handles -----------------------------------------------------------

  function ElementSize(d: Dtype): nat {
    match d
    case Float64 => 8
    case Int64 => 8
    case Float32 => 4
    case Int32 => 4
    case Float16 => 2
    case BFloat16 => 2
    case Int16 => 2
    case _ => 1
  }

  predicate Large(t: Tensor) {
    |t.elems| * ElementSize(t.dtype) > SHM_TENSOR_THRESHOLD
  }

  /** A tensor of more than a million bytes is large: by element width, so many elements. */
  lemma LargeByWidth(t: Tensor)
    ensures Large(t) <==>
            match t.dtype
            case Float64 => |t.elems| > 125_000
            case Int64 => |t.elems| > 125_000
            case Float32 => |t.elems| > 250_000
            case Int32 => |t.elems| > 250_000
            case Float16 => |t.elems| > 500_000
            case BFloat16 => |t.elems| > 500_000
            case Int16 => |t.elems| > 500_000
            case _ => |t.elems| > 1_000_000
  {
  }

  /** numpy has no bfloat16; those travel as float32. */
  function NumpyDtype(d: Dtype): Dtype {
    if d == BFloat16 then Float32 else d
  }

  /** A bfloat16 pattern is the upper half of the float32 with the same value. */
  function Widened(elems: seq<nat>): (w: seq<nat>)
    ensures |w| == |elems|
  {
    seq(|elems|, i requires 0 <= i < |elems| => elems[i] * 0x10000)
  }

  function Narrowed(elems: seq<nat>): (w: seq<nat>)
    ensures |w| == |elems|
  {
    seq(|elems|, i requires 0 <= i < |elems| => elems[i] / 0x10000)
  }

  function ToSegment(t: Tensor): (s: Segment)
    ensures |s.elems| == |t.elems|
  {
    Segment(NumpyDtype(t.dtype), if t.dtype == BFloat16 then Widened(t.elems) else t.elems)
  }

  function DtypeName(d: Dtype): string {
    match d
    case Float16 => "float16"
    case Float32 => "float32"
    case Float64 => "float64"
    case BFloat16 => "bfloat16"
    case Int8 => "int8"
    case Int16 => "int16"
    case Int32 => "int32"
    case Int64 => "int64"
    case UInt8 => "uint8"
    case Bool8 => "bool"
  }

  function ParseDtype(name: string): Option<Dtype> {
    if name == "float16" then Some(Float16)
    else if name == "float32" then Some(Float32)
    else if name == "float64" then Some(Float64)
    else if name == "bfloat16" then Some(BFloat16)
    else if name == "int8" then Some(Int8)
    else if name == "int16" then Some(Int16)
    else if name == "int32" then Some(Int32)
    else if name == "int64" then Some(Int64)
    else if name == "uint8" then Some(UInt8)
    else if name == "bool" then Some(Bool8)
    else None
  }

  function WithoutPrefix(s: string): string {
    if |s| >= 6 && s[..6] == "torch." then s[6..] else s
  }

  lemma DtypeNamesParse(d: Dtype)
    ensures ParseDtype(DtypeName(d)) == Some(d)
    ensures WithoutPrefix("torch." + DtypeName(d)) == DtypeName(d)
  {
    var s := "torch." + DtypeName(d);
    assert s[..6] == "torch." && s[6..] == DtypeName(d);
  }

  function Ints(shape: seq<nat>): (items: seq<Value>)
    ensures |items| == |shape|
  {
    seq(|shape|, i requires 0 <= i < |shape| => Int(shape[i]))
  }

  predicate IsShape(items: seq<Value>) {
    forall i | 0 <= i < |items| :: items[i].Int? && items[i].n >= 0
  }

  function ShapeOf(items: seq<Value>): (shape: seq<nat>)
    requires IsShape(items)
    ensures |shape| == |items|
  {
    seq(|items|, i requires 0 <= i < |items| => items[i].n)
  }

  function Handle(name: Name, t: Tensor): (h: Value)
    ensures h.Dict?
  {
    Dict(map[MARKER := Bool(true), "name" := Str(name), "shape" := Sequence(false, Ints(t.shape)),
             "torch_dtype" := Str("torch." + DtypeName(t.dtype)), "numpy_dtype" := Str(DtypeName(NumpyDtype(t.dtype))),
             "nbytes" := Int(|t.elems| * ElementSize(NumpyDtype(t.dtype)))])
  }

  predicate Truthy(v: Value) {
    match v
    case Nothing => false
    case Bool(b) => b
    case Int(n) => n != 0
    case Str(s) => s != ""
    case Opaque(_) => true
    case TensorValue(_) => true
    case Dict(m) => m != map[]
    case Sequence(_, items) => items != []
  }

  predicate Marked(v: Value) {
    v.Dict? && MARKER in v.entries && Truthy(v.entries[MARKER])
  }

  predicate IsStr(m: map<string, Value>, key: string) {
    key in m && m[key].Str?
  }

  /** The tensor a handle describes over a segment, when the handle fits the segment. */
  function ReadTensor(m: map<string, Value>, s: Segment): Option<Tensor> {
    if !IsStr(m, "numpy_dtype") || "shape" !in m || !m["shape"].Sequence? || !IsShape(m["shape"].items)
       || "nbytes" !in m || m["nbytes"] != Int(|s.elems| * ElementSize(s.dtype)) || !IsStr(m, "torch_dtype") then None
    else
      var shape := ShapeOf(m["shape"].items);
      var dtype := ParseDtype(WithoutPrefix(m["torch_dtype"].s));
      if ParseDtype(m["numpy_dtype"].s) != Some(s.dtype) || Product(shape) != |s.elems| then None
      else if dtype == Some(s.dtype) then Some(RawTensor(s.dtype, shape, s.elems))
      else if dtype == Some(BFloat16) && s.dtype == Float32 then Some(RawTensor(BFloat16, shape, Narrowed(s.elems)))
      else None
  }

  /** A tensor's own handle restores the tensor from its segment. */
  lemma HandleRestores(name: Name, t: Tensor)
    ensures Marked(Handle(name, t)) && IsStr(Handle(name, t).entries, "name") && Handle(name, t).entries["name"].s == name
    ensures ReadTensor(Handle(name, t).entries, ToSegment(t)) == Some(t)
  {
    DtypeNamesParse(t.dtype);
    DtypeNamesParse(NumpyDtype(t.dtype));
    assert ShapeOf(Ints(t.shape)) == t.shape;
    assert Narrowed(Widened(t.elems)) == t.elems;
  }

  // ---- children of a container --------------------------------------------------------------

  datatype Key = Field(name: string) | At(i: nat)

  predicate Has(v: Value, k: Key) {
    (v.Dict? && k.Field? && k.name in v.entries) || (v.Sequence? && k.At? && k.i < |v.items|)
  }

  function Child(v: Value, k: Key): (c: Value)
    requires Has(v, k)
    ensures c < v
  {
    if v.Dict? then v.entries[k.name] else v.items[k.i]
  }

  /** Same kind of container with the same keys. */
  predicate SameShape(w: Value, v: Value) {
    || (v.Dict? && w.Dict? && w.entries.Keys == v.entries.Keys)
    || (v.Sequence? && w.Sequence? && w.tuple == v.tuple && |w.items| == |v.items|)
  }

  lemma ShapeKeys(w: Value, v: Value)
    requires SameShape(w, v)
    ensures forall k :: Has(w, k) <==> Has(v, k)
  {
  }

  lemma SameChildren(w: Value, v: Value)
    requires SameShape(w, v) && forall k | Has(v, k) :: Has(w, k) && Child(w, k) == Child(v, k)
    ensures w == v
  {
    if v.Dict? {
      forall name | name in v.entries
        ensures w.entries[name] == v.entries[name]
      {
        assert Has(v, Field(name)) && Child(w, Field(name)) == Child(v, Field(name));
      }
      assert w.entries == v.entries;
    } else {
      forall i | 0 <= i < |v.items|
        ensures w.items[i] == v.items[i]
      {
        assert Has(v, At(i)) && Child(w, At(i)) == Child(v, At(i));
      }
    }
  }

  // ---- packing, as a relation ------------------------------------------------------------

  ghost predicate HoldsTensor(w: Value, t: Tensor, segments: map<Name, Segment>) {
    exists name :: name in segments && segments[name] == ToSegment(t) && w == Handle(name, t)
  }

  predicate Container(v: Value) {
    v.Dict? || v.Sequence?
  }

  /** w is v with some of its large tensors replaced by handles to segments that hold them. */
  ghost predicate Denotes(w: Value, v: Value, segments: map<Name, Segment>)
    decreases v
  {
    if v.TensorValue? then w == v || (Large(v.t) && HoldsTensor(w, v.t, segments))
    else if Container(v) then SameShape(w, v) && forall k | Has(v, k) :: Has(w, k) && Denotes(Child(w, k), Child(v, k), segments)
    else w == v
  }

  function NameOf(w: Value): Name {
    if w.Dict? && IsStr(w.entries, "name") then w.entries["name"].s else ""
  }

  /** w refers to segment n for one of v's tensors. */
  ghost predicate Uses(w: Value, v: Value, n: Name)
    decreases v
  {
    if v.TensorValue? then w.Dict? && n == NameOf(w)
    else exists k :: Has(v, k) && Has(w, k) && Uses(Child(w, k), Child(v, k), n)
  }

  /** No segment is used twice. */
  ghost predicate Apart(w: Value, v: Value)
    decreases v
  {
    && (forall k | Has(v, k) && Has(w, k) :: Apart(Child(w, k), Child(v, k)))
    && (forall k, l, n | Has(v, k) && Has(w, k) && Has(v, l) && Has(w, l) && k != l ::
          !(Uses(Child(w, k), Child(v, k), n) && Uses(Child(w, l), Child(v, l), n)))
  }

  /** No dict of the value passes for a handle. */
  ghost predicate NoMarked(v: Value)
    decreases v
  {
    !Marked(v) && forall k | Has(v, k) :: NoMarked(Child(v, k))
  }

  /** No tensor of the value is large. */
  ghost predicate AllSmall(v: Value)
    decreases v
  {
    (v.TensorValue? ==> !Large(v.t)) && forall k | Has(v, k) :: AllSmall(Child(v, k))
  }

  /** Only the segments in use matter. */
  lemma {:induction false} DenotesFrame(w: Value, v: Value, s: map<Name, Segment>, s1: map<Name, Segment>)
    requires Denotes(w, v, s)
    requires forall n | Uses(w, v, n) && n in s :: n in s1 && s1[n] == s[n]
    ensures Denotes(w, v, s1)
    decreases v
  {
    if Container(v) {
      forall k | Has(v, k)
        ensures Denotes(Child(w, k), Child(v, k), s1)
      {
        DenotesFrame(Child(w, k), Child(v, k), s, s1);
      }
    }
  }

  lemma {:induction false} UsedExist(w: Value, v: Value, s: map<Name, Segment>, n: Name)
    requires Denotes(w, v, s) && Uses(w, v, n)
    ensures n in s
    decreases v
  {
    if !v.TensorValue? {
      var k :| Has(v, k) && Has(w, k) && Uses(Child(w, k), Child(v, k), n);
      UsedExist(Child(w, k), Child(v, k), s, n);
    }
  }

  /** What moving some of v's tensors out does to the namespace: new segments, each used
      once, and nothing else. */
  ghost predicate Moved(w: Value, v: Value, s0: map<Name, Segment>, s1: map<Name, Segment>) {
    && Denotes(w, v, s1) && Apart(w, v)
    && (forall n | n in s0 :: n in s1 && s1[n] == s0[n])
    && (forall n | n in s1 :: n in s0 <==> !Uses(w, v, n))
  }

  /** Packing moves every large tensor; where there is none it changes nothing. */
  ghost predicate Packed(w: Value, v: Value, s0: map<Name, Segment>, s1: map<Name, Segment>) {
    Moved(w, v, s0, s1) && AllSmall(w) && (AllSmall(v) ==> w == v && s1 == s0)
  }

  lemma {:induction false} SelfDenotes(v: Value, s: map<Name, Segment>)
    ensures Denotes(v, v, s) && Apart(v, v) && forall n :: !Uses(v, v, n)
    decreases v
  {
    forall k | Has(v, k)
      ensures Denotes(Child(v, k), Child(v, k), s) && Apart(Child(v, k), Child(v, k)) && forall n :: !Uses(Child(v, k), Child(v, k), n)
    {
      SelfDenotes(Child(v, k), s);
    }
  }

  /** Some children of v moved so far. */
  ghost predicate Progress(got: map<Key, Value>, v: Value, s0: map<Name, Segment>, s1: map<Name, Segment>) {
    && (forall k | k in got :: ChildMoved(got, v, k, s1))
    && (forall k, l, n | k in got && l in got && k != l && Has(v, k) && Has(v, l) ::
          !(Uses(got[k], Child(v, k), n) && Uses(got[l], Child(v, l), n)))
    && (forall n | n in s0 :: n in s1 && s1[n] == s0[n])
    && (forall n | n in s1 :: n in s0 <==> !UsedSoFar(got, v, n))
  }

  ghost predicate ChildMoved(got: map<Key, Value>, v: Value, k: Key, s: map<Name, Segment>)
    requires k in got
  {
    Has(v, k) && Denotes(got[k], Child(v, k), s) && Apart(got[k], Child(v, k))
  }

  ghost predicate UsedSoFar(got: map<Key, Value>, v: Value, n: Name) {
    exists k :: k in got && Has(v, k) && Uses(got[k], Child(v, k), n)
  }

  lemma ProgressStep(got: map<Key, Value>, v: Value, k: Key, w: Value, s0: map<Name, Segment>, s1: map<Name, Segment>, s2: map<Name, Segment>)
    requires Progress(got, v, s0, s1) && Has(v, k) && k !in got && Moved(w, Child(v, k), s1, s2)
    ensures Progress(got[k := w], v, s0, s2)
  {
    hide Denotes, Uses, Apart, UsedSoFar, ChildMoved;
    var got1 := got[k := w];
    forall l | l in got1
      ensures ChildMoved(got1, v, l, s2)
    {
      StepChild(got, v, k, w, s1, s2, l);
    }
    forall i, j, n | i in got1 && j in got1 && i != j && Has(v, i) && Has(v, j)
      ensures !(Uses(got1[i], Child(v, i), n) && Uses(got1[j], Child(v, j), n))
    {
      if i == k || j == k {
        var l := if i == k then j else i;
        assert ChildMoved(got, v, l, s1);
        StepApart(got, v, k, w, s1, s2, l, n);
      }
    }
    forall n | n in s2
      ensures n in s0 <==> !UsedSoFar(got1, v, n)
    {
      StepUsed(got, v, k, w, n);
      if n in s1 {
        assert !Uses(w, Child(v, k), n);
      } else {
        assert Uses(w, Child(v, k), n);
      }
    }
  }

  lemma StepChild(got: map<Key, Value>, v: Value, k: Key, w: Value, s1: map<Name, Segment>, s2: map<Name, Segment>, l: Key)
    requires l == k || (l in got && ChildMoved(got, v, l, s1))
    requires Has(v, k) && Moved(w, Child(v, k), s1, s2)
    ensures ChildMoved(got[k := w], v, l, s2)
  {
    hide Denotes, Uses, Apart;
    if l != k {
      DenotesFrame(got[l], Child(v, l), s1, s2);
    }
  }

  lemma StepApart(got: map<Key, Value>, v: Value, k: Key, w: Value, s1: map<Name, Segment>, s2: map<Name, Segment>, l: Key, n: Name)
    requires l in got && ChildMoved(got, v, l, s1) && Has(v, k) && Moved(w, Child(v, k), s1, s2)
    ensures !(Uses(w, Child(v, k), n) && Uses(got[l], Child(v, l), n))
  {
    hide Denotes, Uses, Apart;
    if Uses(got[l], Child(v, l), n) {
      UsedExist(got[l], Child(v, l), s1, n);
    }
  }

  lemma StepUsed(got: map<Key, Value>, v: Value, k: Key, w: Value, n: Name)
    requires Has(v, k) && k !in got
    ensures UsedSoFar(got[k := w], v, n) <==> UsedSoFar(got, v, n) || Uses(w, Child(v, k), n)
  {
    hide Uses;
    var got1 := got[k := w];
    if UsedSoFar(got, v, n) {
      var l :| l in got && Has(v, l) && Uses(got[l], Child(v, l), n);
      assert l in got1 && Uses(got1[l], Child(v, l), n);
    }
    if Uses(w, Child(v, k), n) {
      assert k in got1;
    }
  }

  lemma ProgressDone(got: map<Key, Value>, w: Value, v: Value, s0: map<Name, Segment>, s1: map<Name, Segment>)
    requires Progress(got, v, s0, s1) && Container(v) && SameShape(w, v)
    requires forall k | Has(v, k) :: k in got && Has(w, k) && Child(w, k) == got[k]
    ensures Moved(w, v, s0, s1)
  {
    ShapeKeys(w, v);
    forall k | Has(v, k)
      ensures Denotes(Child(w, k), Child(v, k), s1) && Apart(Child(w, k), Child(v, k))
    {
      assert ChildMoved(got, v, k, s1);
    }
    forall n
      ensures UsedSoFar(got, v, n) <==> Uses(w, v, n)
    {
      if k :| k in got && Has(v, k) && Uses(got[k], Child(v, k), n) {
        assert Uses(Child(w, k), Child(v, k), n);
      }
    }
  }

  /** Children that were shrunk make a shrunk container. */
  lemma ChildrenShrunk(w: Value, v: Value)
    requires SameShape(w, v)
    requires forall k | Has(v, k) :: Has(w, k) && AllSmall(Child(w, k)) && (AllSmall(Child(v, k)) ==> Child(w, k) == Child(v, k))
    ensures AllSmall(w) && (AllSmall(v) ==> w == v)
  {
    ShapeKeys(w, v);
    if AllSmall(v) {
      SameChildren(w, v);
    }
  }

  lemma HandleSmall(name: Name, t: Tensor)
    ensures AllSmall(Handle(name, t))
  {
    var h := Handle(name, t);
    forall k | Has(h, k)
      ensures AllSmall(Child(h, k))
    {
      var c := Child(h, k);
      forall l | Has(c, l)
        ensures AllSmall(Child(c, l))
      {
      }
    }
  }

  // ---- unpacking, as a relation -------------------------------------------------------------

  /** Exactly the segments w used are gone. */
  ghost predicate Freed(w: Value, v: Value, s0: map<Name, Segment>, s1: map<Name, Segment>) {
    && (forall n :: n in s1 <==> n in s0 && !Uses(w, v, n))
    && (forall n | n in s1 :: s1[n] == s0[n])
  }

  /** Some children restored, their segments gone, the other children untouched. */
  ghost predicate Restored(got: map<Key, Value>, w: Value, v: Value, s0: map<Name, Segment>, s1: map<Name, Segment>) {
    && (forall k | k in got :: Has(v, k) && Has(w, k) && got[k] == Child(v, k) && NoMarked(Child(v, k)))
    && (forall n :: n in s1 <==> n in s0 && !FreedSoFar(got, w, v, n))
    && (forall n | n in s1 :: s1[n] == s0[n])
  }

  ghost predicate FreedSoFar(got: map<Key, Value>, w: Value, v: Value, n: Name) {
    exists k :: k in got && Has(v, k) && Has(w, k) && Uses(Child(w, k), Child(v, k), n)
  }

  /** The next child can be restored: the segments it uses are still there. */
  lemma NextDenotes(got: map<Key, Value>, w: Value, v: Value, k: Key, s0: map<Name, Segment>, s1: map<Name, Segment>)
    requires Denotes(w, v, s0) && Apart(w, v) && Container(v) && Restored(got, w, v, s0, s1) && Has(v, k) && k !in got
    ensures Has(w, k) && Denotes(Child(w, k), Child(v, k), s1) && Apart(Child(w, k), Child(v, k))
  {
    DenotesFrame(Child(w, k), Child(v, k), s0, s1);
  }

  lemma RestoredStep(got: map<Key, Value>, w: Value, v: Value, k: Key, s0: map<Name, Segment>, s1: map<Name, Segment>, s2: map<Name, Segment>)
    requires Restored(got, w, v, s0, s1) && Has(v, k) && Has(w, k) && k !in got && NoMarked(Child(v, k))
    requires Freed(Child(w, k), Child(v, k), s1, s2)
    ensures Restored(got[k := Child(v, k)], w, v, s0, s2)
  {
    hide Uses, NoMarked;
    var got1 := got[k := Child(v, k)];
    forall n
      ensures n in s2 <==> n in s0 && !FreedSoFar(got1, w, v, n)
    {
      if FreedSoFar(got, w, v, n) {
        var l :| l in got && Has(v, l) && Has(w, l) && Uses(Child(w, l), Child(v, l), n);
        assert l in got1;
      }
      if Uses(Child(w, k), Child(v, k), n) {
        assert k in got1;
      }
    }
  }

  lemma RestoredDone(got: map<Key, Value>, w: Value, v: Value, s0: map<Name, Segment>, s1: map<Name, Segment>)
    requires Restored(got, w, v, s0, s1) && Container(v) && !Marked(v) && forall k | Has(v, k) :: k in got
    ensures NoMarked(v) && Freed(w, v, s0, s1)
  {
    forall n
      ensures FreedSoFar(got, w, v, n) <==> Uses(w, v, n)
    {
    }
  }

  lemma MarkKept(w: Value, v: Value, s: map<Name, Segment>)
    requires Denotes(w, v, s) && v.Dict?
    ensures Marked(w) <==> Marked(v)
  {
    if MARKER in v.entries {
      assert Has(v, Field(MARKER));
      TruthKept(w.entries[MARKER], v.entries[MARKER], s);
    }
  }

  lemma TruthKept(w: Value, v: Value, s: map<Name, Segment>)
    requires Denotes(w, v, s)
    ensures Truthy(w) <==> Truthy(v)
  {
    if v.TensorValue? && w != v {
      assert MARKER in w.entries;
    } else if v.Dict? {
      assert w.entries == map[] <==> w.entries.Keys == {};
      assert v.entries == map[] <==> v.entries.Keys == {};
    }
  }

  lemma {:induction false} LongerName(names: set<Name>) returns (name: Name)
    ensures forall n | n in names :: |n| < |name|
  {
    if names == {} {
      name := "x";
    } else {
      var n :| n in names;
      var rest := LongerName(names - {n});
      name := rest + n + "x";
    }
  }

  // ---- the shared-memory namespace and the two walks ---------------------------------------

  class SharedMemory {
    var segments: map<Name, Segment>

    constructor ()
      ensures segments == map[]
    {
      segments := map[];
    }

    method TensorToShm(t: Tensor) returns (handle: Value)
      modifies this
      ensures NameOf(handle) !in old(segments) && handle == Handle(NameOf(handle), t)
      ensures segments == old(segments)[NameOf(handle) := ToSegment(t)]
    {
      ghost var longer := LongerName(segments.Keys);
      assert longer !in segments;
      var name: Name :| name !in segments;
      segments := segments[name := ToSegment(t)];
      handle := Handle(name, t);
      HandleRestores(name, t);
    }

    /** The segment is freed whether or not its contents can be read.  Bytes of another
        array's segment may read as any tensor, or not at all. */
    method TensorFromShm(handle: map<string, Value>) returns (r: Result<Value>)
      modifies this
      ensures r.Ok? ==> r.value.TensorValue?
      ensures IsStr(handle, "name") && handle["name"].s in old(segments) ==>
                var name := handle["name"].s;
                && segments == old(segments) - {name}
                && (ReadTensor(handle, old(segments)[name]).Some? ==> r == Ok(TensorValue(ReadTensor(handle, old(segments)[name]).value)))
    {
      if !IsStr(handle, "name") || handle["name"].s !in segments {
        return Err;
      }
      var name := handle["name"].s;
      var tensor := ReadTensor(handle, segments[name]);
      segments := segments - {name};
      if tensor.Some? {
        return Ok(TensorValue(tensor.value));
      }
      var readable: bool, any: Tensor := *, *;
      r := if readable then Ok(TensorValue(any)) else Err;
    }

    method PackTensorIfLarge(t: Tensor) returns (w: Value)
      modifies this
      ensures Packed(w, TensorValue(t), old(segments), segments)
    {
      if Large(t) {
        w := TensorToShm(t);
        HandleSmall(NameOf(w), t);
        assert HoldsTensor(w, t, segments);
      } else {
        w := TensorValue(t);
      }
    }

    method PackValueIfLarge(v: Value) returns (w: Value)
      modifies this
      ensures Packed(w, v, old(segments), segments)
      decreases v
    {
      hide Moved, Progress, Denotes, Uses, Apart, AllSmall;
      if v.TensorValue? {
        w := PackTensorIfLarge(v.t);
      } else if v.Dict? {
        w := PackEntries(v);
      } else if v.Sequence? {
        w := PackItems(v);
      } else {
        w := v;
        PlainPacked(v, segments);
      }
    }

    method PackEntries(v: Value) returns (w: Value)
      requires v.Dict?
      modifies this
      ensures Packed(w, v, old(segments), segments)
      decreases v, 0
    {
      hide Moved, Progress, Denotes, Uses, Apart, AllSmall;
      var out: map<string, Value> := map[];
      ghost var got: map<Key, Value> := map[];
      var names := v.entries.Keys;
      NoProgress(v, segments);
      while names != {}
        invariant names <= v.entries.Keys && out.Keys == v.entries.Keys - names
        invariant forall k :: k in got <==> k.Field? && k.name in out
        invariant forall name | name in out :: got[Field(name)] == out[name]
        invariant Progress(got, v, old(segments), segments)
        invariant forall name | name in out :: AllSmall(out[name]) && (AllSmall(v.entries[name]) ==> out[name] == v.entries[name])
        invariant (forall name | name in out :: AllSmall(v.entries[name])) ==> segments == old(segments)
      {
        var name :| name in names;
        ghost var before := segments;
        assert Has(v, Field(name)) && Child(v, Field(name)) == v.entries[name];
        var packed := PackValueIfLarge(v.entries[name]);
        ProgressStep(got, v, Field(name), packed, old(segments), before, segments);
        got := got[Field(name) := packed];
        out := out[name := packed];
        names := names - {name};
      }
      w := Dict(out);
      ProgressDone(got, w, v, old(segments), segments);
      ChildrenShrunk(w, v);
      SmallChildren(v);
    }

    method PackItems(v: Value) returns (w: Value)
      requires v.Sequence?
      modifies this
      ensures Packed(w, v, old(segments), segments)
      decreases v, 0
    {
      hide Moved, Progress, Denotes, Uses, Apart, AllSmall;
      var out: seq<Value> := [];
      ghost var got: map<Key, Value> := map[];
      NoProgress(v, segments);
      for i := 0 to |v.items|
        invariant |out| == i
        invariant forall k :: k in got <==> k.At? && k.i < i
        invariant forall j: nat | j < i :: got[At(j)] == out[j]
        invariant Progress(got, v, old(segments), segments)
        invariant forall j | 0 <= j < i :: AllSmall(out[j]) && (AllSmall(v.items[j]) ==> out[j] == v.items[j])
        invariant (forall j | 0 <= j < i :: AllSmall(v.items[j])) ==> segments == old(segments)
      {
        ghost var before := segments;
        assert Has(v, At(i)) && Child(v, At(i)) == v.items[i];
        var packed := PackValueIfLarge(v.items[i]);
        ProgressStep(got, v, At(i), packed, old(segments), before, segments);
        got := got[At(i) := packed];
        out := out + [packed];
      }
      w := Sequence(v.tuple, out);
      ProgressDone(got, w, v, old(segments), segments);
      ChildrenShrunk(w, v);
      SmallChildren(v);
    }

    /** A handle becomes its tensor and frees its segment; containers are walked.  Given a
        packed form of v, the result is v exactly when no dict of v passes for a handle, and
        then exactly the segments packed for v are gone. */
    method UnpackIfShmHandle(w: Value, ghost v: Value) returns (r: Result<Value>)
      modifies this
      ensures Denotes(w, v, old(segments)) && Apart(w, v) ==> Unpacked(r, w, v, old(segments), segments)
      decreases w
    {
      hide Denotes, Uses, Apart, NoMarked, Freed;
      if Marked(w) {
        ghost var s0 := segments;
        r := TensorFromShm(w.entries);
        HandleUnpacked(r, w, v, s0, segments);
      } else if w.Dict? {
        r := UnpackEntries(w, v);
      } else if w.Sequence? {
        r := UnpackItems(w, v);
      } else {
        r := Ok(w);
        PlainUnpacked(w, v, segments);
      }
    }

    method UnpackEntries(w: Value, ghost v: Value) returns (r: Result<Value>)
      requires w.Dict? && !Marked(w)
      modifies this
      ensures Denotes(w, v, old(segments)) && Apart(w, v) ==> Unpacked(r, w, v, old(segments), segments)
      decreases w, 0
    {
      hide Denotes, Uses, Apart, NoMarked, Freed, Restored;
      ghost var s0 := segments;
      ghost var sound := Denotes(w, v, s0) && Apart(w, v);
      ShapeOfPacked(w, v, s0);
      var out: map<string, Value> := map[];
      ghost var got: map<Key, Value> := map[];
      ghost var good := sound;
      var names := w.entries.Keys;
      NothingRestored(w, v, s0);
      while names != {}
        invariant names <= w.entries.Keys && out.Keys == w.entries.Keys - names
        invariant forall k :: k in got <==> k.Field? && k.name in out
        invariant good ==> sound && Restored(got, w, v, s0, segments) && forall name | name in out :: out[name] == v.entries[name]
        invariant sound && !good ==> !NoMarked(v) && exists name :: name in out && out[name] != v.entries[name]
      {
        var name :| name in names;
        ghost var before := segments;
        ghost var k := Field(name);
        ghost var c := if good then Child(v, k) else Nothing;
        assert Has(w, k) && Child(w, k) == w.entries[name];
        if good {
          NextDenotes(got, w, v, k, s0, before);
        }
        var item := UnpackIfShmHandle(w.entries[name], c);
        if good {
          ChildDecides(v, k);
          if item == Ok(c) {
            RestoredStep(got, w, v, k, s0, before, segments);
          }
        }
        if item.Err? {
          return Err;
        }
        good := good && item.value == c;
        got := got[k := if Has(v, k) then Child(v, k) else Nothing];
        out := out[name := item.value];
        names := names - {name};
      }
      r := Ok(Dict(out));
      if good {
        RestoredDone(got, w, v, s0, segments);
        assert out == v.entries;
      }
    }

    method UnpackItems(w: Value, ghost v: Value) returns (r: Result<Value>)
      requires w.Sequence?
      modifies this
      ensures Denotes(w, v, old(segments)) && Apart(w, v) ==> Unpacked(r, w, v, old(segments), segments)
      decreases w, 0
    {
      hide Denotes, Uses, Apart, NoMarked, Freed, Restored;
      ghost var s0 := segments;
      ghost var sound := Denotes(w, v, s0) && Apart(w, v);
      ShapeOfPacked(w, v, s0);
      var out: seq<Value> := [];
      ghost var got: map<Key, Value> := map[];
      ghost var good := sound;
      NothingRestored(w, v, s0);
      for i := 0 to |w.items|
        invariant |out| == i
        invariant forall k :: k in got <==> k.At? && k.i < i
        invariant good ==> sound && Restored(got, w, v, s0, segments) && forall j | 0 <= j < i :: out[j] == v.items[j]
        invariant sound && !good ==> !NoMarked(v) && exists j :: 0 <= j < i && out[j] != v.items[j]
      {
        ghost var before := segments;
        ghost var k := At(i);
        ghost var c := if good then Child(v, k) else Nothing;
        assert Has(w, k) && Child(w, k) == w.items[i];
        if good {
          NextDenotes(got, w, v, k, s0, before);
        }
        var item := UnpackIfShmHandle(w.items[i], c);
        if good {
          ChildDecides(v, k);
          if item == Ok(c) {
            RestoredStep(got, w, v, k, s0, before, segments);
          }
        }
        if item.Err? {
          return Err;
        }
        good := good && item.value == c;
        got := got[k := if Has(v, k) then Child(v, k) else Nothing];
        out := out + [item.value];
      }
      r := Ok(Sequence(w.tuple, out));
      if good {
        RestoredDone(got, w, v, s0, segments);
        assert out == v.items;
      }
    }
  }

  lemma SmallChildren(v: Value)
    ensures AllSmall(v) ==> forall k | Has(v, k) :: AllSmall(Child(v, k))
    ensures v.Dict? && AllSmall(v) ==> forall name | name in v.entries :: AllSmall(v.entries[name])
    ensures v.Sequence? && AllSmall(v) ==> forall i | 0 <= i < |v.items| :: AllSmall(v.items[i])
  {
    if v.Dict? && AllSmall(v) {
      forall name | name in v.entries
        ensures AllSmall(v.entries[name])
      {
        assert Has(v, Field(name));
      }
    }
    if v.Sequence? && AllSmall(v) {
      forall i | 0 <= i < |v.items|
        ensures AllSmall(v.items[i])
      {
        assert Has(v, At(i));
      }
    }
  }

  lemma NoProgress(v: Value, s: map<Name, Segment>)
    ensures Progress(map[], v, s, s)
  {
  }

  lemma PlainPacked(v: Value, s: map<Name, Segment>)
    requires !v.TensorValue? && !Container(v)
    ensures Packed(v, v, s, s)
  {
  }

  /** The outcome of unpacking a packed form of v. */
  ghost predicate Unpacked(r: Result<Value>, w: Value, v: Value, s0: map<Name, Segment>, s1: map<Name, Segment>) {
    && (r == Ok(v) <==> NoMarked(v))
    && (NoMarked(v) ==> Freed(w, v, s0, s1))
  }

  lemma HandleUnpacked(r: Result<Value>, w: Value, v: Value, s0: map<Name, Segment>, s1: map<Name, Segment>)
    requires Marked(w) && (r.Ok? ==> r.value.TensorValue?)
    requires IsStr(w.entries, "name") && w.entries["name"].s in s0 ==>
               var name := w.entries["name"].s;
               && s1 == s0 - {name}
               && (ReadTensor(w.entries, s0[name]).Some? ==> r == Ok(TensorValue(ReadTensor(w.entries, s0[name]).value)))
    ensures Denotes(w, v, s0) ==> Unpacked(r, w, v, s0, s1)
  {
    hide ReadTensor, Handle;
    if Denotes(w, v, s0) {
      if v.TensorValue? {
        var name :| name in s0 && s0[name] == ToSegment(v.t) && w == Handle(name, v.t);
        HandleRestores(name, v.t);
      } else {
        MarkKept(w, v, s0);
      }
    }
  }

  lemma PlainUnpacked(w: Value, v: Value, s: map<Name, Segment>)
    requires !Container(w)
    ensures Denotes(w, v, s) ==> Unpacked(Ok(w), w, v, s, s)
  {
  }

  lemma ShapeOfPacked(w: Value, v: Value, s: map<Name, Segment>)
    requires Container(w) && !Marked(w)
    ensures Denotes(w, v, s) ==> Container(v) && SameShape(w, v) && !Marked(v)
  {
    if Denotes(w, v, s) {
      if v.TensorValue? {
        var name :| name in s && s[name] == ToSegment(v.t) && w == Handle(name, v.t);
        HandleRestores(name, v.t);
      } else if v.Dict? {
        MarkKept(w, v, s);
      }
    }
  }

  lemma NothingRestored(w: Value, v: Value, s: map<Name, Segment>)
    ensures Restored(map[], w, v, s, s)
  {
  }

  lemma ChildDecides(v: Value, k: Key)
    requires Has(v, k)
    ensures NoMarked(v) ==> NoMarked(Child(v, k))
  {
  }
}
