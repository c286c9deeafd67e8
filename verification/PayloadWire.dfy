/** Payloads on the wire: flat keys to typed entries and back; None values are not sent. */
module PayloadWire {
  import opened PayloadKeys

  /** At most one of the three is set. */
  datatype Entry = Entry(tensorData: Option<int>, listData: Option<int>, scalarData: Option<Obj>)

  function ToEntry(v: Obj): Option<Entry> {
    match v
    case Tensor(id) => Some(Entry(Some(id), None, None))
    case List(id) => Some(Entry(None, Some(id), None))
    case Null => None
    case _ => Some(Entry(None, None, Some(v)))
  }

  function FromEntry(e: Entry): Option<Obj> {
    if e.tensorData.Some? then Some(Tensor(e.tensorData.value))
    else if e.listData.Some? then Some(List(e.listData.value))
    else e.scalarData
  }

  // ---- the payload without its None values ----------------------------------------------

  function DropLayers(m: map<Key, Obj>): map<Key, Obj> {
    map i | i in m && m[i] != Null :: m[i]
  }

  predicate KeepsQual(k: string, q: Key, x: Obj) {
    if IsLayers(k, q, x) then DropLayers(x.entries) != map[] else x != Null
  }

  function DropSub(k: string, m: map<Key, Obj>): map<Key, Obj> {
    map q | q in m && KeepsQual(k, q, m[q]) :: if IsLayers(k, q, m[q]) then Dict(DropLayers(m[q].entries)) else m[q]
  }

  predicate KeepsKey(k: string, x: Obj) {
    if IsNested(k, x) then DropSub(k, x.entries) != map[] else x != Null
  }

  /** None values go, and with them the sub-dicts they leave empty. */
  function DropNone(p: Payload): Payload {
    map k | k in p && KeepsKey(k, p[k]) :: if IsNested(k, p[k]) then Dict(DropSub(k, p[k].entries)) else p[k]
  }

  lemma DropSubEmits(k: string, x: Obj, s: string, v: Obj)
    requires IsNested(k, x)
    ensures EmitsAt(k, Dict(DropSub(k, x.entries)), s, v) <==> EmitsAt(k, x, s, v) && v != Null
  {
    hide Dotted, Str;
    var m, d := x.entries, DropSub(k, x.entries);
    if q :| q in d && EmitsQual(k, q, d[q], s, v) {
      assert q in m && EmitsQual(k, q, m[q], s, v);
    }
    if EmitsAt(k, x, s, v) && v != Null {
      var q :| q in m && EmitsQual(k, q, m[q], s, v);
      if IsLayers(k, q, m[q]) {
        var i :| i in m[q].entries && s == Dotted(HIDDEN, LAYER + Str(i)) && v == m[q].entries[i];
        assert i in DropLayers(m[q].entries);
      }
      assert q in d && EmitsQual(k, q, d[q], s, v);
    }
  }

  lemma DropNoneEmits(p: Payload, s: string, v: Obj)
    ensures Emits(DropNone(p), s, v) <==> Emits(p, s, v) && v != Null
  {
    hide EmitsAt, DropSub;
    var d := DropNone(p);
    if k :| k in d && EmitsAt(k, d[k], s, v) {
      DropKeyEmits(k, p[k], s, v);
      assert EmitsAt(k, p[k], s, v);
    }
    if Emits(p, s, v) && v != Null {
      var k :| k in p && EmitsAt(k, p[k], s, v);
      DropKeyEmits(k, p[k], s, v);
      assert k in d && EmitsAt(k, d[k], s, v);
    }
  }

  lemma DropKeyEmits(k: string, x: Obj, s: string, v: Obj)
    ensures KeepsKey(k, x) ==>
              (EmitsAt(k, if IsNested(k, x) then Dict(DropSub(k, x.entries)) else x, s, v) <==> EmitsAt(k, x, s, v) && v != Null)
    ensures EmitsAt(k, x, s, v) && v != Null ==> KeepsKey(k, x)
  {
    if IsNested(k, x) {
      DropSubEmits(k, x, s, v);
    }
  }

  lemma DropNoneWellFormed(p: Payload)
    requires WellFormed(p)
    ensures WellFormed(DropNone(p))
  {
    hide HasPrefix;
  }

  // ---- the wire ---------------------------------------------------------------------------

  function NonNull(flat: map<string, Obj>): map<string, Obj> {
    map s | s in flat && flat[s] != Null :: flat[s]
  }

  function Encode(flat: map<string, Obj>): map<string, Entry> {
    map s | s in flat && flat[s] != Null :: ToEntry(flat[s]).value
  }

  function Decode(entries: map<string, Entry>): map<string, Obj> {
    map s | s in entries && FromEntry(entries[s]).Some? :: FromEntry(entries[s]).value
  }

  lemma DecodeEncode(flat: map<string, Obj>)
    ensures Decode(Encode(flat)) == NonNull(flat)
  {
  }

  lemma SentIsFlat(p: Payload, flat: map<string, Obj>)
    requires WellFormed(p) && FlatOf(p, flat)
    ensures FlatOf(DropNone(p), NonNull(flat)) && WellFormed(DropNone(p))
  {
    hide Emits, WellFormed, Get, Sound, KeyOf;
    DropNoneWellFormed(p);
    forall s, v
      ensures Emits(DropNone(p), s, v) <==> Emits(p, s, v) && v != Null
    {
      DropNoneEmits(p, s, v);
    }
    forall s, v | Emits(p, s, v)
      ensures s in flat && flat[s] == v
    {
      var a := EmittedPos(p, s, v);
      var b := EmittedPos(p, s, flat[s]);
      KeysInjective(a, b);
    }
  }

  method SerializePayload(p: Payload) returns (wire: Option<map<string, Entry>>, ghost flat: map<string, Obj>)
    ensures FlatOf(p, flat)
    ensures wire == if Encode(flat) == map[] then None else Some(Encode(flat))
  {
    hide FlatOf;
    var flat1 := FlattenPayload(p);
    flat := flat1;
    var entries: map<string, Entry> := map[];
    var keys := flat1.Keys;
    while keys != {}
      invariant keys <= flat1.Keys
      invariant entries == map s | s in flat1 && s !in keys && flat1[s] != Null :: ToEntry(flat1[s]).value
    {
      var key :| key in keys;
      keys := keys - {key};
      var e := ToEntry(flat1[key]);
      if e.Some? {
        entries := entries[key := e.value];
      }
    }
    assert entries == Encode(flat1);
    return if entries == map[] then None else Some(entries), flat;
  }

  method DeserializePayload(entries: map<string, Entry>) returns (r: Result<Payload>)
    ensures forall p | FlatOf(p, Decode(entries)) :: r == Ok(p) <==> WellFormed(p)
  {
    hide FlatOf, WellFormed, Unflatten;
    var flat: map<string, Obj> := map[];
    var keys := entries.Keys;
    while keys != {}
      invariant keys <= entries.Keys
      invariant flat == map s | s in entries && s !in keys && FromEntry(entries[s]).Some? :: FromEntry(entries[s]).value
    {
      var key :| key in keys;
      keys := keys - {key};
      var v := FromEntry(entries[key]);
      if v.Some? {
        flat := flat[key := v.value];
      }
    }
    assert flat == Decode(entries);
    ghost var items;
    r, items := UnflattenPayload(flat);
  }

  /** A well-formed payload comes off the wire as itself without its None values; nothing is
      sent only when nothing but None values would be. */
  method WireRoundTrip(p: Payload) returns (r: Result<Payload>)
    requires WellFormed(p)
    ensures r == Ok(DropNone(p))
    ensures r == Ok(p) <==> DropNone(p) == p
  {
    hide FlatOf, WellFormed, DropNone;
    var wire;
    ghost var flat;
    wire, flat := SerializePayload(p);
    DecodeEncode(flat);
    SentIsFlat(p, flat);
    if wire.None? {
      NothingSent(p, flat);
      return Ok(map[]);
    }
    r := DeserializePayload(wire.value);
  }

  lemma NothingSent(p: Payload, flat: map<string, Obj>)
    requires FlatOf(DropNone(p), NonNull(flat)) && WellFormed(DropNone(p)) && Encode(flat) == map[]
    ensures DropNone(p) == map[]
  {
    hide WellFormed, DropNone, Emits;
    assert NonNull(flat).Keys == Encode(flat).Keys;
    assert NonNull(flat) == map[];
    RoundTripIffWellFormed(DropNone(p), NonNull(flat), []);
  }
}
