/** Payload dicts flattened to dotted keys and back, and their wire form. */
module PayloadKeys {

  datatype Option<+T> = None | Some(value: T)

  datatype Result<+T> = Ok(value: T) | Err

  /** A dict key: a string, or an int as in the per-layer dicts. */
  datatype Key = S(s: string) | I(i: int)

  /** Payload values.  `Null` is Python's None. */
  datatype Obj =
    | Null
    | Tensor(id: int)
    | List(id: int)
    | Scalar(id: int)
    | Dict(entries: map<Key, Obj>)

  type Payload = map<string, Obj>

  const NESTED_KEYS := {"hidden_states", "embed", "ids", "codes", "meta"}
  const HIDDEN := "hidden_states"
  const LAYER := "layer_"

  // ---- strings --------------------------------------------------------------------------

  /** Split at the first dot. */
  function SplitDot(s: string): (string, string)
    requires '.' in s
  {
    if s[0] == '.' then ("", s[1..]) else (([s[0]] + SplitDot(s[1..]).0), SplitDot(s[1..]).1)
  }

  lemma {:induction false} SplitJoin(k: string, q: string)
    requires '.' !in k
    ensures '.' in k + "." + q && SplitDot(k + "." + q) == (k, q)
  {
    var s := k + "." + q;
    if k == "" {
      assert s[0] == '.' && s[1..] == q;
    } else {
      SplitJoin(k[1..], q);
      assert s[0] == k[0] && s[1..] == k[1..] + "." + q;
      assert '.' in s[1..];
      assert [k[0]] + k[1..] == k;
    }
  }

  lemma {:induction false} JoinSplit(s: string)
    requires '.' in s
    ensures SplitDot(s).0 + "." + SplitDot(s).1 == s && '.' !in SplitDot(s).0
  {
    if s[0] != '.' {
      JoinSplit(s[1..]);
    }
  }

  predicate HasPrefix(s: string, p: string) {
    |p| <= |s| && s[..|p|] == p
  }

  function Digit(d: nat): char
    requires d < 10
  {
    '0' + d as char
  }

  function NatString(n: nat): (s: string)
    ensures |s| > 0 && forall i | 0 <= i < |s| :: '0' <= s[i] <= '9'
  {
    if n < 10 then [Digit(n)] else NatString(n / 10) + [Digit(n % 10)]
  }

  function IntString(n: int): string {
    if n < 0 then "-" + NatString(-n) else NatString(n)
  }

  function ParseNat(s: string): Option<nat> {
    if s == "" then None
    else
      var last := s[|s| - 1];
      if !('0' <= last <= '9') then None
      else
        var d := last as int - '0' as int;
        if |s| == 1 then Some(d)
        else
          var rest := ParseNat(s[..|s| - 1]);
          if rest.None? then None else Some(rest.value * 10 + d)
  }

  function Signed(negative: bool, n: Option<nat>): Option<int> {
    match n
    case None => None
    case Some(v) =>
      var i: int := if negative then -(v as int) else v;
      Some(i)
  }

  /** A sign and decimal digits. */
  function ParseInt(s: string): Option<int> {
    if s != "" && s[0] in {'-', '+'} then
      Signed(s[0] == '-', ParseNat(s[1..]))
    else Signed(false, ParseNat(s))
  }

  lemma {:induction false} ParsePrintNat(n: nat)
    ensures ParseNat(NatString(n)) == Some(n)
  {
    if n < 10 {
    } else {
      ParsePrintNat(n / 10);
      assert NatString(n)[..|NatString(n)| - 1] == NatString(n / 10);
    }
  }

  lemma ParsePrint(n: int)
    ensures ParseInt(IntString(n)) == Some(n)
  {
    if n < 0 {
      ParsePrintNat(-n);
      hide NatString, ParseNat;
      assert IntString(n) == "-" + NatString(-n);
      assert ("-" + NatString(-n))[1..] == NatString(-n);
    } else {
      ParsePrintNat(n);
      hide NatString, ParseNat;
      assert '0' <= NatString(n)[0] <= '9';
    }
  }

  function Str(k: Key): string {
    match k
    case S(s) => s
    case I(i) => IntString(i)
  }

  // ---- flattening ----------------------------------------------------------------------------

  predicate IsNested(k: string, v: Obj) {
    k in NESTED_KEYS && v.Dict?
  }

  predicate IsLayers(k: string, q: Key, v: Obj) {
    k == HIDDEN && q == S("layers") && v.Dict?
  }

  function Dotted(k: string, q: string): string {
    k + "." + q
  }

  /** The flat items of one qualifier, of one top-level key, and of a payload. */
  ghost predicate EmitsQual(k: string, q: Key, x: Obj, s: string, v: Obj) {
    if IsLayers(k, q, x) then exists i :: i in x.entries && s == Dotted(HIDDEN, LAYER + Str(i)) && v == x.entries[i]
    else s == Dotted(k, Str(q)) && v == x
  }

  ghost predicate EmitsAt(k: string, x: Obj, s: string, v: Obj) {
    if IsNested(k, x) then exists q :: q in x.entries && EmitsQual(k, q, x.entries[q], s, v)
    else s == k && v == x
  }

  ghost predicate Emits(p: Payload, s: string, v: Obj) {
    exists k :: k in p && EmitsAt(k, p[k], s, v)
  }

  predicate HasLayer(p: Payload, i: Key) {
    && HIDDEN in p && p[HIDDEN].Dict?
    && S("layers") in p[HIDDEN].entries && p[HIDDEN].entries[S("layers")].Dict?
    && i in p[HIDDEN].entries[S("layers")].entries
  }

  /** A flat dict of a payload: every emitted key, each with a value emitted for it. */
  ghost predicate FlatOf(p: Payload, flat: map<string, Obj>) {
    && (forall s | s in flat :: Emits(p, s, flat[s]))
    && (forall s, v | Emits(p, s, v) :: s in flat)
  }

  // ---- unflattening ----------------------------------------------------------------------------

  function Put(r: Payload, s: string, v: Obj): Result<Payload> {
    if '.' !in s then Ok(r[s := v])
    else
      var (k, q) := SplitDot(s);
      var sub := if k in r then r[k] else Dict(map[]);
      if !sub.Dict? then Err
      else if k == HIDDEN && HasPrefix(q, LAYER) then
        var layers := if S("layers") in sub.entries then sub.entries[S("layers")] else Dict(map[]);
        var i := ParseInt(q[|LAYER|..]);
        if !layers.Dict? || i.None? then Err
        else Ok(r[k := Dict(sub.entries[S("layers") := Dict(layers.entries[I(i.value) := v])])])
      else Ok(r[k := Dict(sub.entries[S(q) := v])])
  }

  function Unflatten(items: seq<(string, Obj)>): Result<Payload> {
    if items == [] then Ok(map[])
    else
      var rest := Unflatten(items[..|items| - 1]);
      if rest.Err? then Err else Put(rest.value, items[|items| - 1].0, items[|items| - 1].1)
  }

  /** The items of a dict in some order. */
  ghost predicate Enumerates(items: seq<(string, Obj)>, flat: map<string, Obj>) {
    && (forall i | 0 <= i < |items| :: items[i].0 in flat && items[i].1 == flat[items[i].0])
    && (forall i, j | 0 <= i < j < |items| :: items[i].0 != items[j].0)
    && (forall s | s in flat :: exists i :: 0 <= i < |items| && items[i].0 == s)
  }

  // ---- the payloads that survive --------------------------------------------------------------

  /** A nested sub-dict: not empty, keyed by strings; under hidden_states no qualifier is
      spelled like a layer, and a layers dict is not empty and keyed by ints. */
  predicate NestedOk(k: string, m: map<Key, Obj>) {
    && m != map[]
    && (forall q | q in m :: q.S?)
    && (k == HIDDEN ==>
          && (forall q | q in m :: !HasPrefix(Str(q), LAYER))
          && (S("layers") in m && m[S("layers")].Dict? ==> LayersOk(m[S("layers")].entries)))
  }

  predicate LayersOk(m: map<Key, Obj>) {
    m != map[] && forall i | i in m :: i.I?
  }

  /** Dot-free top-level keys and well-formed nested sub-dicts. */
  predicate WellFormed(p: Payload) {
    forall k | k in p :: '.' !in k && (IsNested(k, p[k]) ==> NestedOk(k, p[k].entries))
  }

  // ---- positions: what a flat key names ----------------------------------------------------------

  datatype Pos = Top(k: string) | Qual(k: string, q: string) | Layer(i: int)

  function KeyOf(pos: Pos): string {
    match pos
    case Top(k) => k
    case Qual(k, q) => Dotted(k, q)
    case Layer(i) => Dotted(HIDDEN, LAYER + IntString(i))
  }

  /** The spelling other components rely on. */
  lemma KeysSpelled(k: string, q: string, i: int)
    ensures KeyOf(Top(k)) == k && KeyOf(Qual(k, q)) == k + "." + q && KeyOf(Layer(i)) == "hidden_states.layer_" + IntString(i)
    ensures k in NESTED_KEYS <==> k == "hidden_states" || k == "embed" || k == "ids" || k == "codes" || k == "meta"
  {
    assert Dotted(HIDDEN, LAYER + IntString(i)) == (HIDDEN + "." + LAYER) + IntString(i);
  }

  function Get(p: Payload, pos: Pos): Option<Obj> {
    match pos
    case Top(k) => if k in p && !IsNested(k, p[k]) then Some(p[k]) else None
    case Qual(k, q) =>
      if k in p && IsNested(k, p[k]) && S(q) in p[k].entries && !IsLayers(k, S(q), p[k].entries[S(q)])
      then Some(p[k].entries[S(q)]) else None
    case Layer(i) => if HasLayer(p, I(i)) then Some(p[HIDDEN].entries[S("layers")].entries[I(i)]) else None
  }

  /** Positions a well-formed payload can have something at. */
  predicate Sound(pos: Pos) {
    match pos
    case Top(k) => '.' !in k
    case Qual(k, q) => k in NESTED_KEYS && (k == HIDDEN ==> !HasPrefix(q, LAYER))
    case Layer(_) => true
  }

  lemma NestedKeysDotFree(k: string)
    requires k in NESTED_KEYS
    ensures '.' !in k
  {
  }

  /** A sound position's key decodes back to it. */
  lemma KeyDecodes(pos: Pos)
    requires Sound(pos)
    ensures pos.Top? <==> '.' !in KeyOf(pos)
    ensures pos.Qual? ==> SplitDot(KeyOf(pos)) == (pos.k, pos.q)
    ensures pos.Layer? ==> SplitDot(KeyOf(pos)) == (HIDDEN, LAYER + IntString(pos.i)) && HasPrefix(LAYER + IntString(pos.i), LAYER)
                           && ParseInt((LAYER + IntString(pos.i))[|LAYER|..]) == Some(pos.i)
  {
    match pos
    case Top(_) =>
    case Qual(k, q) =>
      NestedKeysDotFree(k);
      SplitJoin(k, q);
    case Layer(i) =>
      NestedKeysDotFree(HIDDEN);
      SplitJoin(HIDDEN, LAYER + IntString(i));
      ParsePrint(i);
      assert (LAYER + IntString(i))[|LAYER|..] == IntString(i);
  }

  lemma KeysInjective(a: Pos, b: Pos)
    requires Sound(a) && Sound(b) && KeyOf(a) == KeyOf(b)
    ensures a == b
  {
    hide ParseInt, IntString, SplitDot, HasPrefix;
    KeyDecodes(a);
    KeyDecodes(b);
  }

  // ---- what unflattening builds -------------------------------------------------------------

  /** r holds exactly p's values at the positions whose keys were seen. */
  ghost predicate Part(r: Payload, p: Payload, seen: set<string>) {
    && WellFormed(r)
    && forall pos | Sound(pos) :: Get(r, pos) == if KeyOf(pos) in seen then Get(p, pos) else None
  }

  /** Every flat item of a well-formed payload names a sound position of it. */
  lemma EmittedPos(p: Payload, s: string, v: Obj) returns (pos: Pos)
    requires WellFormed(p) && Emits(p, s, v)
    ensures Sound(pos) && KeyOf(pos) == s && Get(p, pos) == Some(v)
  {
    var k :| k in p && EmitsAt(k, p[k], s, v);
    if !IsNested(k, p[k]) {
      pos := Top(k);
    } else {
      var q :| q in p[k].entries && EmitsQual(k, q, p[k].entries[q], s, v);
      if IsLayers(k, q, p[k].entries[q]) {
        var i :| i in p[k].entries[q].entries && s == Dotted(HIDDEN, LAYER + Str(i)) && v == p[k].entries[q].entries[i];
        pos := Layer(i.i);
      } else {
        pos := Qual(k, q.s);
      }
    }
  }

  /** Whatever stands at a position is emitted under its key. */
  lemma PosEmitted(p: Payload, pos: Pos)
    requires Get(p, pos).Some?
    ensures Emits(p, KeyOf(pos), Get(p, pos).value)
  {
    var s, v := KeyOf(pos), Get(p, pos).value;
    match pos
    case Top(k) =>
      assert EmitsAt(k, p[k], s, v);
    case Qual(k, q) =>
      assert EmitsQual(k, S(q), p[k].entries[S(q)], s, v);
      assert EmitsAt(k, p[k], s, v);
    case Layer(i) =>
      assert Str(I(i)) == IntString(i);
      assert EmitsQual(HIDDEN, S("layers"), p[HIDDEN].entries[S("layers")], s, v);
      assert EmitsAt(HIDDEN, p[HIDDEN], s, v);
  }

  /** Putting a value at a sound position of a payload changes that position only, unless a
      whole value stands in the way. */
  lemma PutTop(r: Payload, k: string, v: Obj, pos: Pos)
    requires WellFormed(r) && '.' !in k && !IsNested(k, v) && Sound(pos) && (k in r ==> !IsNested(k, r[k]))
    ensures var r1 := Put(r, k, v);
            r1.Ok? && WellFormed(r1.value) && Get(r1.value, pos) == if pos == Top(k) then Some(v) else Get(r, pos)
  {
  }

  lemma PutQual(r: Payload, k: string, q: string, v: Obj, pos: Pos)
    requires WellFormed(r) && Sound(Qual(k, q)) && !IsLayers(k, S(q), v) && Sound(pos)
    requires k in r ==> r[k].Dict?
    requires k == HIDDEN && q == "layers" ==> forall i :: !HasLayer(r, i)
    ensures var r1 := Put(r, Dotted(k, q), v);
            r1.Ok? && WellFormed(r1.value) && Get(r1.value, pos) == if pos == Qual(k, q) then Some(v) else Get(r, pos)
  {
    hide HasPrefix, ParseInt, SplitDot;
    KeyDecodes(Qual(k, q));
    NestedKeysDotFree(k);
    var m := if k in r then r[k].entries else map[];
    assert S(q) in m[S(q) := v];
    assert NestedOk(k, m[S(q) := v]);
  }

  /** The layers dict, if there is one. */
  function LayersOf(m: map<Key, Obj>): map<Key, Obj> {
    if S("layers") in m && m[S("layers")].Dict? then m[S("layers")].entries else map[]
  }

  function HiddenOf(r: Payload): map<Key, Obj> {
    if HIDDEN in r && r[HIDDEN].Dict? then r[HIDDEN].entries else map[]
  }

  function WithLayer(r: Payload, i: int, v: Obj): Payload {
    var m := HiddenOf(r);
    r[HIDDEN := Dict(m[S("layers") := Dict(LayersOf(m)[I(i) := v])])]
  }

  predicate TakesLayer(r: Payload) {
    HIDDEN in r ==> r[HIDDEN].Dict? && (S("layers") in r[HIDDEN].entries ==> r[HIDDEN].entries[S("layers")].Dict?)
  }

  lemma PutLayer(r: Payload, i: int, v: Obj, pos: Pos)
    requires WellFormed(r) && Sound(pos) && TakesLayer(r)
    ensures var r1 := Put(r, KeyOf(Layer(i)), v);
            r1.Ok? && WellFormed(r1.value) && Get(r1.value, pos) == if pos == Layer(i) then Some(v) else Get(r, pos)
  {
    hide Put, WithLayer, WellFormed, Get;
    LayerPut(r, i, v);
    LayerWellFormed(r, i, v);
    LayerGet(r, i, v, pos);
  }

  lemma LayerPut(r: Payload, i: int, v: Obj)
    requires TakesLayer(r)
    ensures Put(r, KeyOf(Layer(i)), v) == Ok(WithLayer(r, i, v))
  {
    hide ParseInt, SplitDot, IntString, KeyOf, HasPrefix;
    KeyDecodes(Layer(i));
  }

  lemma LayerWellFormed(r: Payload, i: int, v: Obj)
    requires WellFormed(r) && TakesLayer(r)
    ensures WellFormed(WithLayer(r, i, v))
  {
    hide HasPrefix, NestedOk;
    NestedKeysDotFree(HIDDEN);
    if HIDDEN in r {
      assert IsNested(HIDDEN, r[HIDDEN]);
    }
    AddLayer(HiddenOf(r), i, v);
  }

  lemma LayerGet(r: Payload, i: int, v: Obj, pos: Pos)
    requires TakesLayer(r)
    ensures Get(WithLayer(r, i, v), pos) == if pos == Layer(i) then Some(v) else Get(r, pos)
  {
  }

  lemma AddLayer(m: map<Key, Obj>, i: int, v: Obj)
    requires m == map[] || NestedOk(HIDDEN, m)
    requires S("layers") in m ==> m[S("layers")].Dict?
    ensures var layers := LayersOf(m);
            NestedOk(HIDDEN, m[S("layers") := Dict(layers[I(i) := v])])
  {
    var layers := LayersOf(m);
    var m1 := m[S("layers") := Dict(layers[I(i) := v])];
    assert I(i) in layers[I(i) := v] && S("layers") in m1;
    assert "layers"[5] == 's' && LAYER[5] == '_';
    assert !HasPrefix("layers", LAYER);
  }

  /** A nested sub-dict of a well-formed payload has something in it. */
  lemma NestedHas(r: Payload, k: string) returns (pos: Pos)
    requires WellFormed(r) && k in r && IsNested(k, r[k])
    ensures Sound(pos) && Get(r, pos).Some? && ((pos.Qual? && pos.k == k) || (pos.Layer? && k == HIDDEN))
  {
    var m := r[k].entries;
    var q :| q in m;
    if IsLayers(k, q, m[q]) {
      var i :| i in m[q].entries;
      pos := Layer(i.i);
    } else {
      pos := Qual(k, q.s);
    }
  }

  lemma PartAgrees(r: Payload, p: Payload, seen: set<string>, pos: Pos)
    requires Part(r, p, seen) && Sound(pos) && Get(r, pos).Some?
    ensures Get(p, pos) == Get(r, pos)
  {
  }

  /** One more item of the payload. */
  lemma PutPart(r: Payload, p: Payload, seen: set<string>, pos: Pos)
    requires Part(r, p, seen) && WellFormed(p) && Sound(pos) && Get(p, pos).Some?
    ensures var r1 := Put(r, KeyOf(pos), Get(p, pos).value);
            r1.Ok? && Part(r1.value, p, seen + {KeyOf(pos)})
  {
    hide Put, WellFormed, NestedOk;
    var v := Get(p, pos).value;
    forall at | Sound(at)
      ensures var r1 := Put(r, KeyOf(pos), v);
              r1.Ok? && WellFormed(r1.value) && Get(r1.value, at) == if at == pos then Some(v) else Get(r, at)
    {
      PutAt(r, p, seen, pos, at);
    }
    forall at | Sound(at)
      ensures KeyOf(at) == KeyOf(pos) <==> at == pos
    {
      if KeyOf(at) == KeyOf(pos) {
        KeysInjective(at, pos);
      }
    }
    PutAt(r, p, seen, pos, pos);
  }

  lemma PutAt(r: Payload, p: Payload, seen: set<string>, pos: Pos, at: Pos)
    requires Part(r, p, seen) && WellFormed(r) && WellFormed(p) && Sound(pos) && Get(p, pos).Some? && Sound(at)
    ensures var r1 := Put(r, KeyOf(pos), Get(p, pos).value);
            r1.Ok? && WellFormed(r1.value) && Get(r1.value, at) == if at == pos then Get(p, pos) else Get(r, at)
  {
    hide Put, NestedOk, HasPrefix, Part;
    RoomFor(r, p, seen, pos);
    match pos
    case Top(k) =>
      PutTop(r, k, p[k], at);
    case Qual(k, q) =>
      PutQual(r, k, q, p[k].entries[S(q)], at);
    case Layer(i) =>
      PutLayer(r, i, Get(p, pos).value, at);
  }

  predicate Room(r: Payload, pos: Pos) {
    match pos
    case Top(k) => k in r ==> !IsNested(k, r[k])
    case Qual(k, q) => k in r ==> r[k].Dict?
    case Layer(i) => TakesLayer(r)
  }

  /** What a part of the payload already holds never stands in the way of the rest. */
  lemma RoomFor(r: Payload, p: Payload, seen: set<string>, pos: Pos)
    requires Part(r, p, seen) && Sound(pos) && Get(p, pos).Some?
    ensures Room(r, pos)
    ensures pos == Qual(HIDDEN, "layers") ==> forall i :: !HasLayer(r, i)
  {
    hide HasPrefix;
    match pos
    case Top(k) =>
      if k in r && IsNested(k, r[k]) {
        var at := NestedHas(r, k);
        PartAgrees(r, p, seen, at);
      }
    case Qual(k, q) =>
      NestedKeysDotFree(k);
      if k in r && !r[k].Dict? {
        PartAgrees(r, p, seen, Top(k));
      }
      if pos == Qual(HIDDEN, "layers") {
        forall i | HasLayer(r, i)
          ensures false
        {
          assert IsNested(HIDDEN, r[HIDDEN]);
          PartAgrees(r, p, seen, Layer(i.i));
        }
      }
    case Layer(i) =>
      NestedKeysDotFree(HIDDEN);
      if HIDDEN in r {
        if !r[HIDDEN].Dict? {
          PartAgrees(r, p, seen, Top(HIDDEN));
        } else if S("layers") in r[HIDDEN].entries && !r[HIDDEN].entries[S("layers")].Dict? {
          LayersNoPrefix();
          PartAgrees(r, p, seen, Qual(HIDDEN, "layers"));
        }
      }
  }

  lemma LayersNoPrefix()
    ensures !HasPrefix("layers", LAYER)
  {
    assert "layers"[5] == 's' && LAYER[5] == '_';
  }

  function Keys(items: seq<(string, Obj)>): (keys: set<string>)
    ensures forall s :: s in keys <==> exists i :: 0 <= i < |items| && items[i].0 == s
  {
    set i | 0 <= i < |items| :: items[i].0
  }

  /** Any items of a well-formed payload, in any order, unflatten to that part of it. */
  lemma {:induction false} UnflattenPart(p: Payload, items: seq<(string, Obj)>)
    requires WellFormed(p) && forall i | 0 <= i < |items| :: Emits(p, items[i].0, items[i].1)
    ensures Unflatten(items).Ok? && Part(Unflatten(items).value, p, Keys(items))
  {
    hide WellFormed, Emits, Put, Part, KeyOf, Sound, Get;
    if items == [] {
      assert Keys(items) == {};
      NothingYet(p);
    } else {
      var n := |items| - 1;
      UnflattenPart(p, items[..n]);
      assert Emits(p, items[n].0, items[n].1);
      var pos := EmittedPos(p, items[n].0, items[n].1);
      PutPart(Unflatten(items[..n]).value, p, Keys(items[..n]), pos);
      assert Keys(items) == Keys(items[..n]) + {items[n].0};
    }
  }

  lemma NothingYet(p: Payload)
    ensures Part(map[], p, {})
  {
  }

  /** A well-formed payload is determined by what it holds at sound positions. */
  lemma GetDetermines(a: Payload, b: Payload)
    requires WellFormed(a) && WellFormed(b) && forall pos | Sound(pos) :: Get(a, pos) == Get(b, pos)
    ensures a == b
  {
    hide HasPrefix, NestedOk, Sound;
    forall k | k in a
      ensures k in b && b[k] == a[k]
    {
      SameAt(a, b, k);
    }
    forall k | k in b
      ensures k in a
    {
      SameAt(b, a, k);
    }
  }

  lemma SameAt(a: Payload, b: Payload, k: string)
    requires WellFormed(a) && WellFormed(b) && k in a && forall pos | Sound(pos) :: Get(a, pos) == Get(b, pos)
    ensures k in b && b[k] == a[k]
  {
    if IsNested(k, a[k]) {
      hide WellFormed, NestedOk;
      var pos := NestedHas(a, k);
      assert Get(a, pos) == Get(b, pos);
      var x, y := a[k].entries, b[k].entries;
      forall q | q in x
        ensures q in y && y[q] == x[q]
      {
        SameQual(a, b, k, q);
      }
      forall q | q in y
        ensures q in x
      {
        SameQual(b, a, k, q);
      }
      assert x == y;
    } else {
      assert Get(a, Top(k)) == Get(b, Top(k));
    }
  }

  lemma SameQual(a: Payload, b: Payload, k: string, q: Key)
    requires WellFormed(a) && WellFormed(b) && forall pos | Sound(pos) :: Get(a, pos) == Get(b, pos)
    requires k in a && k in b && IsNested(k, a[k]) && IsNested(k, b[k]) && q in a[k].entries
    ensures q in b[k].entries && b[k].entries[q] == a[k].entries[q]
  {
    var x := a[k].entries[q];
    if IsLayers(k, q, x) {
      var i0 :| i0 in x.entries;
      assert Get(a, Layer(i0.i)) == Get(b, Layer(i0.i));
      var y := b[k].entries[q];
      forall i | i in x.entries
        ensures i in y.entries && y.entries[i] == x.entries[i]
      {
        assert Get(a, Layer(i.i)) == Get(b, Layer(i.i));
      }
      forall i | i in y.entries
        ensures i in x.entries
      {
        assert Get(a, Layer(i.i)) == Get(b, Layer(i.i));
      }
      assert x.entries == y.entries;
    } else {
      assert Get(a, Qual(k, q.s)) == Get(b, Qual(k, q.s));
    }
  }

  // ---- flatten then unflatten ------------------------------------------------------------------

  lemma SurvivesFlattening(p: Payload, flat: map<string, Obj>, items: seq<(string, Obj)>)
    requires WellFormed(p) && FlatOf(p, flat) && Enumerates(items, flat)
    ensures Unflatten(items) == Ok(p)
  {
    hide WellFormed, Emits, Unflatten, Sound;
    forall i | 0 <= i < |items|
      ensures Emits(p, items[i].0, items[i].1)
    {
      assert items[i].0 in flat;
    }
    UnflattenPart(p, items);
    var r := Unflatten(items).value;
    assert WellFormed(r);
    forall pos | Sound(pos)
      ensures Get(r, pos) == Get(p, pos)
    {
      if Get(p, pos).Some? {
        PosEmitted(p, pos);
        assert KeyOf(pos) in Keys(items);
      }
    }
    GetDetermines(r, p);
  }

  /** An item that cannot make an ill-formed payload. */
  predicate PlainItem(s: string, v: Obj) {
    if '.' !in s then !IsNested(s, v)
    else SplitDot(s).0 in NESTED_KEYS && (SplitDot(s) == (HIDDEN, "layers") ==> !v.Dict?)
  }

  lemma PutKeepsWellFormed(r: Payload, s: string, v: Obj)
    requires WellFormed(r) && PlainItem(s, v) && Put(r, s, v).Ok?
    ensures WellFormed(Put(r, s, v).value)
  {
    hide ParseInt;
    if '.' in s {
      var (k, q) := SplitDot(s);
      JoinSplit(s);
      if k in r {
        assert IsNested(k, r[k]);
      }
      var m: map<Key, Obj> := if k in r then r[k].entries else map[];
      if k == HIDDEN && HasPrefix(q, LAYER) {
        AddLayer(m, ParseInt(q[|LAYER|..]).value, v);
      } else {
        assert S(q) in m[S(q) := v];
        assert NestedOk(k, m[S(q) := v]);
      }
    }
  }

  lemma {:induction false} UnflattenWellFormed(items: seq<(string, Obj)>)
    requires Unflatten(items).Ok? && forall i | 0 <= i < |items| :: PlainItem(items[i].0, items[i].1)
    ensures WellFormed(Unflatten(items).value)
  {
    hide PlainItem, WellFormed, Put;
    if items == [] {
      NothingYet(map[]);
      assert WellFormed(map[]) by { EmptyWellFormed(); }
    } else {
      var n := |items| - 1;
      UnflattenWellFormed(items[..n]);
      PutKeepsWellFormed(Unflatten(items[..n]).value, items[n].0, items[n].1);
    }
  }

  lemma EmptyWellFormed()
    ensures WellFormed(map[])
  {
  }

  lemma {:induction false} UnflattenDotFree(items: seq<(string, Obj)>)
    requires Unflatten(items).Ok?
    ensures forall k | k in Unflatten(items).value :: '.' !in k
  {
    if items == [] {
    } else {
      hide ParseInt, SplitDot, HasPrefix;
      var n := |items| - 1;
      UnflattenDotFree(items[..n]);
      if '.' in items[n].0 {
        JoinSplit(items[n].0);
      }
    }
  }

  /** With dot-free top-level keys, flattening only gives items that unflatten to something
      well-formed. */
  lemma EmittedPlain(p: Payload, s: string, v: Obj)
    requires (forall k | k in p :: '.' !in k) && Emits(p, s, v)
    ensures PlainItem(s, v)
  {
    hide HasPrefix, ParseInt, IntString, SplitDot;
    var k :| k in p && EmitsAt(k, p[k], s, v);
    if IsNested(k, p[k]) {
      var q :| q in p[k].entries && EmitsQual(k, q, p[k].entries[q], s, v);
      if IsLayers(k, q, p[k].entries[q]) {
        var i :| i in p[k].entries[q].entries && s == Dotted(HIDDEN, LAYER + Str(i)) && v == p[k].entries[q].entries[i];
        SplitJoin(HIDDEN, LAYER + Str(i));
        assert (LAYER + Str(i))[5] == '_' && "layers"[5] == 's';
      } else {
        SplitJoin(k, Str(q));
        NotSpelledLayers(q);
      }
    }
  }

  lemma NotSpelledLayers(q: Key)
    ensures Str(q) == "layers" ==> q == S("layers")
  {
    if q.I? {
      assert IntString(q.i)[0] != 'l';
    }
  }

  /** Unflattening undoes flattening exactly for well-formed payloads, whatever order the
      items come in. */
  lemma RoundTripIffWellFormed(p: Payload, flat: map<string, Obj>, items: seq<(string, Obj)>)
    requires FlatOf(p, flat) && Enumerates(items, flat)
    ensures Unflatten(items) == Ok(p) <==> WellFormed(p)
  {
    hide Emits, PlainItem, Unflatten, NestedOk;
    if WellFormed(p) {
      SurvivesFlattening(p, flat, items);
    } else if Unflatten(items) == Ok(p) {
      UnflattenDotFree(items);
      forall i | 0 <= i < |items|
        ensures PlainItem(items[i].0, items[i].1)
      {
        assert items[i].0 in flat;
        EmittedPlain(p, items[i].0, items[i].1);
      }
      UnflattenWellFormed(items);
    }
  }

  /** Flat keys are unambiguous: a well-formed payload has one flat dict. */
  lemma FlatIsUnique(p: Payload, a: map<string, Obj>, b: map<string, Obj>)
    requires WellFormed(p) && FlatOf(p, a) && FlatOf(p, b)
    ensures a == b
  {
    hide Emits, WellFormed;
    forall s | s in a
      ensures s in b && b[s] == a[s]
    {
      var x := EmittedPos(p, s, a[s]);
      var y := EmittedPos(p, s, b[s]);
      KeysInjective(x, y);
    }
    forall s | s in b
      ensures s in a
    {
      assert Emits(p, s, b[s]);
    }
  }

  // ---- the loops --------------------------------------------------------------------------------

  method FlattenPayload(p: Payload) returns (flat: map<string, Obj>)
    ensures FlatOf(p, flat)
  {
    hide EmitsAt;
    flat := map[];
    var keys := p.Keys;
    while keys != {}
      invariant keys <= p.Keys
      invariant forall s | s in flat :: Emits(p, s, flat[s])
      invariant forall k, s, v | k in p && k !in keys && EmitsAt(k, p[k], s, v) :: s in flat
    {
      var k :| k in keys;
      keys := keys - {k};
      if IsNested(k, p[k]) {
        flat := FlattenNested(p, k, flat);
      } else {
        WholeEmits(k, p[k]);
        flat := flat[k := p[k]];
      }
    }
  }

  lemma WholeEmits(k: string, x: Obj)
    requires !IsNested(k, x)
    ensures forall s, v :: EmitsAt(k, x, s, v) <==> s == k && v == x
  {
  }

  method FlattenNested(p: Payload, k: string, flat0: map<string, Obj>) returns (flat: map<string, Obj>)
    requires k in p && IsNested(k, p[k]) && forall s | s in flat0 :: Emits(p, s, flat0[s])
    ensures flat0.Keys <= flat.Keys && forall s | s in flat :: Emits(p, s, flat[s])
    ensures forall s, v | EmitsAt(k, p[k], s, v) :: s in flat
  {
    hide Emits, EmitsQual;
    var m := p[k].entries;
    flat := flat0;
    var quals := m.Keys;
    while quals != {}
      invariant quals <= m.Keys && flat0.Keys <= flat.Keys
      invariant forall s | s in flat :: Emits(p, s, flat[s])
      invariant forall q, s, v | q in m && q !in quals && EmitsQual(k, q, m[q], s, v) :: s in flat
    {
      var q :| q in quals;
      quals := quals - {q};
      if IsLayers(k, q, m[q]) {
        flat := FlattenLayers(p, k, q, flat);
      } else {
        QualEmits(p, k, q);
        flat := flat[Dotted(k, Str(q)) := m[q]];
      }
    }
  }

  lemma QualEmits(p: Payload, k: string, q: Key)
    requires k in p && IsNested(k, p[k]) && q in p[k].entries && !IsLayers(k, q, p[k].entries[q])
    ensures Emits(p, Dotted(k, Str(q)), p[k].entries[q])
    ensures forall s, v :: EmitsQual(k, q, p[k].entries[q], s, v) <==> s == Dotted(k, Str(q)) && v == p[k].entries[q]
  {
    var s, v := Dotted(k, Str(q)), p[k].entries[q];
    assert EmitsQual(k, q, v, s, v);
    assert EmitsAt(k, p[k], s, v);
  }

  method FlattenLayers(p: Payload, k: string, q: Key, flat0: map<string, Obj>) returns (flat: map<string, Obj>)
    requires k in p && IsNested(k, p[k]) && q in p[k].entries && IsLayers(k, q, p[k].entries[q])
    requires forall s | s in flat0 :: Emits(p, s, flat0[s])
    ensures flat0.Keys <= flat.Keys && forall s | s in flat :: Emits(p, s, flat[s])
    ensures forall s, v | EmitsQual(k, q, p[k].entries[q], s, v) :: s in flat
  {
    hide Emits;
    var m := p[k].entries[q].entries;
    flat := flat0;
    var layers := m.Keys;
    while layers != {}
      invariant layers <= m.Keys && flat0.Keys <= flat.Keys
      invariant forall s | s in flat :: Emits(p, s, flat[s])
      invariant forall i | i in m && i !in layers :: Dotted(HIDDEN, LAYER + Str(i)) in flat
    {
      var i :| i in layers;
      layers := layers - {i};
      LayerEmits(p, k, q, i);
      flat := flat[Dotted(HIDDEN, LAYER + Str(i)) := m[i]];
    }
  }

  lemma LayerEmits(p: Payload, k: string, q: Key, i: Key)
    requires k in p && IsNested(k, p[k]) && q in p[k].entries && IsLayers(k, q, p[k].entries[q]) && i in p[k].entries[q].entries
    ensures Emits(p, Dotted(HIDDEN, LAYER + Str(i)), p[k].entries[q].entries[i])
  {
    var s, v := Dotted(HIDDEN, LAYER + Str(i)), p[k].entries[q].entries[i];
    assert EmitsQual(k, q, p[k].entries[q], s, v);
    assert EmitsAt(k, p[k], s, v);
  }

  /** The items taken so far; `keys` are still to come. */
  ghost predicate Taken(items: seq<(string, Obj)>, flat: map<string, Obj>, keys: set<string>) {
    && (forall i | 0 <= i < |items| :: items[i].0 in flat && items[i].0 !in keys && items[i].1 == flat[items[i].0])
    && (forall i, j | 0 <= i < j < |items| :: items[i].0 != items[j].0)
    && (forall s | s in flat && s !in keys :: exists i :: 0 <= i < |items| && items[i].0 == s)
  }

  lemma TakeOne(items: seq<(string, Obj)>, flat: map<string, Obj>, keys: set<string>, key: string)
    requires Taken(items, flat, keys) && key in keys && key in flat
    ensures Taken(items + [(key, flat[key])], flat, keys - {key})
  {
    var more := items + [(key, flat[key])];
    forall s | s in flat && s !in keys - {key}
      ensures exists i :: 0 <= i < |more| && more[i].0 == s
    {
      if s == key {
        assert more[|items|].0 == s;
      } else {
        var i :| 0 <= i < |items| && items[i].0 == s;
        assert more[i].0 == s;
      }
    }
  }

  /** The items are taken in whatever order the dict yields them. */
  method UnflattenPayload(flat: map<string, Obj>) returns (r: Result<Payload>, ghost items: seq<(string, Obj)>)
    ensures r.Ok? ==> Enumerates(items, flat)
    ensures r == Unflatten(items)
    ensures forall p | FlatOf(p, flat) :: r == Ok(p) <==> WellFormed(p)
  {
    hide Put, FlatOf, WellFormed, Taken;
    var result: Payload := map[];
    items := [];
    var keys := flat.Keys;
    NoneTaken(flat);
    while keys != {}
      invariant keys <= flat.Keys && Unflatten(items) == Ok(result) && Taken(items, flat, keys)
    {
      var key :| key in keys;
      var next := Put(result, key, flat[key]);
      ghost var more := items + [(key, flat[key])];
      assert more[..|items|] == items && more[|items|] == (key, flat[key]);
      TakeOne(items, flat, keys, key);
      keys := keys - {key};
      items := more;
      if next.Err? {
        r := Err;
        Decided(r, flat, items, keys);
        return;
      }
      result := next.value;
    }
    r := Ok(result);
    AllTaken(items, flat);
    Decided(r, flat, items, keys);
  }

  lemma NoneTaken(flat: map<string, Obj>)
    ensures Taken([], flat, flat.Keys)
  {
  }

  lemma AllTaken(items: seq<(string, Obj)>, flat: map<string, Obj>)
    requires Taken(items, flat, {})
    ensures Enumerates(items, flat)
  {
  }

  lemma Decided(r: Result<Payload>, flat: map<string, Obj>, items: seq<(string, Obj)>, keys: set<string>)
    requires r == Unflatten(items) && Taken(items, flat, keys) && (r.Ok? ==> keys == {})
    ensures forall p | FlatOf(p, flat) :: r == Ok(p) <==> WellFormed(p)
  {
    hide FlatOf, WellFormed, Unflatten;
    forall p | FlatOf(p, flat)
      ensures r == Ok(p) <==> WellFormed(p)
    {
      if r.Ok? {
        RoundTripIffWellFormed(p, flat, items);
      } else {
        ErrsOnlyIllFormed(p, flat, items);
      }
    }
  }

  lemma ErrsOnlyIllFormed(p: Payload, flat: map<string, Obj>, items: seq<(string, Obj)>)
    requires FlatOf(p, flat) && Unflatten(items).Err?
    requires forall i | 0 <= i < |items| :: items[i].0 in flat && items[i].1 == flat[items[i].0]
    ensures !WellFormed(p)
  {
    hide Emits, WellFormed, Unflatten;
    if WellFormed(p) {
      UnflattenPart(p, items);
    }
  }
}
