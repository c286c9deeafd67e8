/** Deploy-overlay merging: recursive dicts, stages, stage lists and whole documents along
    a `base_config` chain. */
module DeployMerge {

  datatype Option<T> = None | Some(value: T)

  datatype Value = Scalar(id: int) | Dict(entries: map<string, Value>)

  type Fields = map<string, Value>

  // ---- recursive merge -----------------------------------------------------------------

  function Merge(base: Value, overlay: Value): Value
    decreases base
  {
    if base.Dict? && overlay.Dict? then
      Dict(map k | k in base.entries.Keys + overlay.entries.Keys ::
             if k !in overlay.entries then base.entries[k]
             else if k in base.entries then Merge(base.entries[k], overlay.entries[k])
             else overlay.entries[k])
    else overlay
  }

  method GetRecursivelyMergedDict(original: Fields, update: Fields) returns (merged: Fields)
    ensures Dict(merged) == Merge(Dict(original), Dict(update))
    decreases Dict(original)
  {
    merged := original;
    var keys := update.Keys;
    while keys != {}
      invariant keys <= update.Keys
      invariant merged.Keys == original.Keys + (update.Keys - keys)
      invariant forall k | k in merged :: merged[k] ==
                  if k !in update || k in keys then original[k]
                  else if k in original then Merge(original[k], update[k])
                  else update[k]
    {
      var k :| k in keys;
      keys := keys - {k};
      if k in merged && merged[k].Dict? && update[k].Dict? {
        assert k in original && merged[k] == original[k];
        var sub := GetRecursivelyMergedDict(original[k].entries, update[k].entries);
        assert Dict(original[k].entries) == original[k] && Dict(update[k].entries) == update[k];
        merged := merged[k := Dict(sub)];
      } else {
        merged := merged[k := update[k]];
      }
    }
    assert merged == Merge(Dict(original), Dict(update)).entries;
  }

  /** The empty dict is neutral and merging a dict with itself changes nothing. */
  lemma {:induction false} MergeUnitAndIdempotent(d: Value)
    requires d.Dict?
    ensures Merge(Dict(map[]), d) == d && Merge(d, Dict(map[])) == d && Merge(d, d) == d
  {
    forall k | k in d.entries
      ensures Merge(d.entries[k], d.entries[k]) == d.entries[k]
    {
      if d.entries[k].Dict? {
        MergeUnitAndIdempotent(d.entries[k]);
      }
    }
    assert Merge(d, d).entries == d.entries;
    assert Merge(Dict(map[]), d).entries == d.entries;
    assert Merge(d, Dict(map[])).entries == d.entries;
  }

  /** Everything a says, c says over again. */
  predicate Absorbed(a: Value, c: Value) {
    a.Dict? && c.Dict? ==> forall k | k in a.entries :: k in c.entries && Absorbed(a.entries[k], c.entries[k])
  }

  lemma {:induction false} AbsorbedIff(a: Value, c: Value)
    ensures Merge(a, c) == c <==> Absorbed(a, c)
  {
    if a.Dict? && c.Dict? {
      forall k | k in a.entries && k in c.entries
        ensures Merge(a.entries[k], c.entries[k]) == c.entries[k] <==> Absorbed(a.entries[k], c.entries[k])
      {
        AbsorbedIff(a.entries[k], c.entries[k]);
      }
      var m := Merge(a, c);
      if Absorbed(a, c) {
        assert m.entries == c.entries;
      }
      if m == c {
        forall k | k in a.entries
          ensures k in c.entries && Absorbed(a.entries[k], c.entries[k])
        {
          assert k in m.entries;
        }
      }
    }
  }

  /** Wherever a dict is overlaid by a scalar that is overlaid by a dict, the last dict
      repeats all of the first. */
  predicate AssocOk(a: Value, b: Value, c: Value) {
    if !a.Dict? || !c.Dict? then true
    else if !b.Dict? then Absorbed(a, c)
    else forall k | k in a.entries && k in b.entries && k in c.entries :: AssocOk(a.entries[k], b.entries[k], c.entries[k])
  }

  /** Grouping is irrelevant exactly when no scalar in the middle cuts a merge the other
      grouping would have made. */
  lemma {:induction false} AssociativeIff(a: Value, b: Value, c: Value)
    ensures Merge(Merge(a, b), c) == Merge(a, Merge(b, c)) <==> AssocOk(a, b, c)
  {
    if a.Dict? && c.Dict? {
      if !b.Dict? {
        AbsorbedIff(a, c);
      } else {
        var l, r := Merge(Merge(a, b), c), Merge(a, Merge(b, c));
        assert l.entries.Keys == r.entries.Keys;
        forall k | k in l.entries
          ensures l.entries[k] == r.entries[k] <==>
                  (k in a.entries && k in b.entries && k in c.entries ==> AssocOk(a.entries[k], b.entries[k], c.entries[k]))
        {
          if k in a.entries && k in b.entries && k in c.entries {
            AssociativeIff(a.entries[k], b.entries[k], c.entries[k]);
          }
        }
        if AssocOk(a, b, c) {
          assert l.entries == r.entries;
        }
        if l == r {
          forall k | k in a.entries && k in b.entries && k in c.entries
            ensures AssocOk(a.entries[k], b.entries[k], c.entries[k])
          {
            assert k in l.entries;
          }
        }
      }
    }
  }

  /** A scalar between two dicts: grouped from the left it wipes out what the first dict says,
      grouped from the right it never meets it. */
  lemma ScalarCutsMerge(k: string, x: string, v: Value, n: int)
    ensures var a, b, c := Dict(map[k := Dict(map[x := v])]), Dict(map[k := Scalar(n)]), Dict(map[k := Dict(map[])]);
            && !AssocOk(a, b, c)
            && Merge(Merge(a, b), c) == c && Merge(a, Merge(b, c)) == a
  {
    var a, b, c := Dict(map[k := Dict(map[x := v])]), Dict(map[k := Scalar(n)]), Dict(map[k := Dict(map[])]);
    assert Merge(a, b) == b && Merge(b, c) == c;
    MergeUnitAndIdempotent(a.entries[k]);
    assert x in a.entries[k].entries && x !in c.entries[k].entries;
    assert !Absorbed(a.entries[k], c.entries[k]);
    assert !AssocOk(a.entries[k], b.entries[k], c.entries[k]);
    assert Merge(a, c).entries == a.entries;
  }

  /** Shared keys are dicts on both sides or on neither. */
  predicate Agree(a: Value, b: Value) {
    && a.Dict? == b.Dict?
    && (a.Dict? ==> forall k | k in a.entries && k in b.entries :: Agree(a.entries[k], b.entries[k]))
  }

  lemma {:induction false} AgreeingMerge(a: Value, b: Value, c: Value)
    requires Agree(a, b) && Agree(b, c) && Agree(a, c)
    ensures AssocOk(a, b, c)
    ensures Agree(Merge(a, b), c) && Agree(a, Merge(b, c))
  {
    if a.Dict? {
      forall k | k in a.entries && k in b.entries && k in c.entries
        ensures AssocOk(a.entries[k], b.entries[k], c.entries[k])
        ensures Agree(Merge(a.entries[k], b.entries[k]), c.entries[k]) && Agree(a.entries[k], Merge(b.entries[k], c.entries[k]))
      {
        AgreeingMerge(a.entries[k], b.entries[k], c.entries[k]);
      }
    }
  }

  // ---- one stage ------------------------------------------------------------------------

  const DEEP_MERGE_KEYS := {"default_sampling_params", "subtalker_sampling_params", "engine_extras", "engine_args"}

  function MergeStage(base: Fields, overlay: Fields): Fields {
    map k | k in base.Keys + overlay.Keys ::
      if k !in overlay then base[k]
      else if k in base && k in DEEP_MERGE_KEYS then Merge(base[k], overlay[k])
      else overlay[k]
  }

  method DeepMergeStage(base: Fields, overlay: Fields) returns (merged: Fields)
    ensures merged == MergeStage(base, overlay)
  {
    var baseDeep := map k | k in base && k in DEEP_MERGE_KEYS :: base[k];
    var overlayDeep := map k | k in overlay && k in DEEP_MERGE_KEYS :: overlay[k];
    var sub := GetRecursivelyMergedDict(baseDeep, overlayDeep);
    assert sub == Merge(Dict(baseDeep), Dict(overlayDeep)).entries;
    merged := base + overlay + sub;
  }

  predicate AgreeStage(a: Fields, b: Fields) {
    forall k | k in DEEP_MERGE_KEYS && k in a && k in b :: Agree(a[k], b[k])
  }

  /** Stages that agree may be merged in either grouping, and their merges still agree. */
  lemma MergeStageLaws(a: Fields, b: Fields, c: Fields)
    requires AgreeStage(a, b) && AgreeStage(b, c) && AgreeStage(a, c)
    ensures MergeStage(MergeStage(a, b), c) == MergeStage(a, MergeStage(b, c))
    ensures AgreeStage(MergeStage(a, b), c) && AgreeStage(a, MergeStage(b, c))
  {
    hide Merge, Agree;
    var l, r := MergeStage(MergeStage(a, b), c), MergeStage(a, MergeStage(b, c));
    forall k | k in DEEP_MERGE_KEYS && k in a && k in b && k in c
      ensures Merge(Merge(a[k], b[k]), c[k]) == Merge(a[k], Merge(b[k], c[k]))
      ensures Agree(Merge(a[k], b[k]), c[k]) && Agree(a[k], Merge(b[k], c[k]))
    {
      AgreeingMerge(a[k], b[k], c[k]);
      AssociativeIff(a[k], b[k], c[k]);
    }
    assert l.Keys == r.Keys;
    forall k | k in l
      ensures l[k] == r[k]
    {
      if k in DEEP_MERGE_KEYS {
      }
    }
  }

  /** The exact condition for one stage: each deep key all three name meets it. */
  predicate AssocStage(a: Fields, b: Fields, c: Fields) {
    forall k | k in DEEP_MERGE_KEYS && k in a && k in b && k in c :: AssocOk(a[k], b[k], c[k])
  }

  lemma MergeStageAssocIff(a: Fields, b: Fields, c: Fields)
    ensures MergeStage(MergeStage(a, b), c) == MergeStage(a, MergeStage(b, c)) <==> AssocStage(a, b, c)
  {
    hide Merge, AssocOk;
    var l, r := MergeStage(MergeStage(a, b), c), MergeStage(a, MergeStage(b, c));
    assert l.Keys == r.Keys;
    forall k | k in l
      ensures l[k] == r[k] <==> (k in DEEP_MERGE_KEYS && k in a && k in b && k in c ==> AssocOk(a[k], b[k], c[k]))
    {
      if k in DEEP_MERGE_KEYS && k in a && k in b && k in c {
        AssociativeIff(a[k], b[k], c[k]);
      }
    }
    if l == r {
      forall k | k in DEEP_MERGE_KEYS && k in a && k in b && k in c
        ensures AssocOk(a[k], b[k], c[k])
      {
        assert k in l;
      }
    }
  }

  lemma MergeStageUnit(a: Fields)
    ensures MergeStage(map[], a) == a && MergeStage(a, map[]) == a && MergeStage(a, a) == a
  {
    hide Merge;
    forall k | k in a
      ensures Merge(a[k], a[k]) == a[k]
    {
      SelfMerge(a[k]);
    }
  }

  lemma SelfMerge(v: Value)
    ensures Merge(v, v) == v
  {
    if v.Dict? {
      MergeUnitAndIdempotent(v);
    }
  }

  // ---- stage lists -----------------------------------------------------------------------

  /** A stage entry: its stage_id and its other keys. */
  datatype Entry = Entry(id: int, fields: Fields)

  /** A dict by stage id that remembers insertion order. */
  datatype Ordered = Ordered(order: seq<int>, byId: map<int, Fields>)

  function Place(o: Ordered, e: Entry): Ordered {
    Ordered(if e.id in o.byId then o.order else o.order + [e.id], o.byId[e.id := e.fields])
  }

  function Layer(o: Ordered, e: Entry): Ordered {
    if e.id in o.byId then o.(byId := o.byId[e.id := MergeStage(o.byId[e.id], e.fields)])
    else Place(o, e)
  }

  function Index(stages: seq<Entry>): Ordered {
    if stages == [] then Ordered([], map[]) else Place(Index(stages[..|stages| - 1]), stages[|stages| - 1])
  }

  function Overlay(o: Ordered, stages: seq<Entry>): Ordered {
    if stages == [] then o else Layer(Overlay(o, stages[..|stages| - 1]), stages[|stages| - 1])
  }

  ghost predicate Valid(o: Ordered) {
    && (forall i | 0 <= i < |o.order| :: o.order[i] in o.byId)
    && (forall id | id in o.byId :: id in o.order)
    && (forall i, j | 0 <= i < j < |o.order| :: o.order[i] != o.order[j])
  }

  function Listed(o: Ordered): (stages: seq<Entry>)
    requires forall i | 0 <= i < |o.order| :: o.order[i] in o.byId
    ensures |stages| == |o.order|
  {
    seq(|o.order|, i requires 0 <= i < |o.order| => Entry(o.order[i], o.byId[o.order[i]]))
  }

  lemma {:induction false} IndexValid(stages: seq<Entry>)
    ensures Valid(Index(stages))
  {
    if stages == [] {
    } else {
      IndexValid(stages[..|stages| - 1]);
    }
  }

  lemma {:induction false} OverlayValid(o: Ordered, stages: seq<Entry>)
    requires Valid(o)
    ensures Valid(Overlay(o, stages))
  {
    hide MergeStage;
    if stages == [] {
    } else {
      OverlayValid(o, stages[..|stages| - 1]);
    }
  }

  function MergeLists(base: seq<Entry>, overlay: seq<Entry>): seq<Entry> {
    IndexValid(base);
    OverlayValid(Index(base), overlay);
    Listed(Overlay(Index(base), overlay))
  }

  method MergeStageLists(base: Option<seq<Entry>>, overlay: Option<seq<Entry>>) returns (merged: seq<Entry>)
    ensures merged == MergeLists(Or(base), Or(overlay))
  {
    var b, o := Or(base), Or(overlay);
    IndexValid(b);
    OverlayValid(Index(b), o);
    var byId := Ordered([], map[]);
    for i := 0 to |b|
      invariant byId == Index(b[..i])
    {
      assert b[..i + 1][..i] == b[..i];
      byId := Place(byId, b[i]);
    }
    assert b[..|b|] == b;
    for i := 0 to |o|
      invariant byId == Overlay(Index(b), o[..i])
    {
      assert o[..i + 1][..i] == o[..i];
      var sid := o[i].id;
      if sid in byId.byId {
        var stage := DeepMergeStage(byId.byId[sid], o[i].fields);
        byId := byId.(byId := byId.byId[sid := stage]);
      } else {
        byId := Place(byId, o[i]);
      }
    }
    assert o[..|o|] == o;
    merged := Listed(byId);
  }

  function Or(stages: Option<seq<Entry>>): seq<Entry> {
    if stages.Some? then stages.value else []
  }

  // ---- stage lists as ordered dicts ----------------------------------------------------------

  function Fresh(ids: seq<int>, seen: set<int>): (kept: seq<int>)
    ensures forall id :: id in kept <==> id in ids && id !in seen
  {
    if ids == [] then []
    else Fresh(ids[..|ids| - 1], seen) + if ids[|ids| - 1] in seen then [] else [ids[|ids| - 1]]
  }

  /** Base order, then the new ids in overlay order; shared stages merged. */
  function Combine(a: Ordered, b: Ordered): Ordered {
    Ordered(a.order + Fresh(b.order, a.byId.Keys),
            map id | id in a.byId.Keys + b.byId.Keys ::
              if id !in b.byId then a.byId[id] else if id in a.byId then MergeStage(a.byId[id], b.byId[id]) else b.byId[id])
  }

  ghost predicate UniqueIds(stages: seq<Entry>) {
    forall i, j | 0 <= i < j < |stages| :: stages[i].id != stages[j].id
  }

  lemma {:induction false} IndexIds(stages: seq<Entry>)
    ensures forall id :: id in Index(stages).byId <==> exists i :: 0 <= i < |stages| && stages[i].id == id
  {
    if stages == [] {
    } else {
      var n := |stages| - 1;
      IndexIds(stages[..n]);
      forall id
        ensures id in Index(stages).byId <==> exists i :: 0 <= i < |stages| && stages[i].id == id
      {
        if i :| 0 <= i < |stages| && stages[i].id == id {
          assert i < n ==> stages[..n][i].id == id;
        }
      }
    }
  }

  /** A list without repeated ids is its own index. */
  lemma {:induction false} IndexListed(stages: seq<Entry>)
    requires UniqueIds(stages)
    ensures Valid(Index(stages)) && Listed(Index(stages)) == stages
  {
    IndexValid(stages);
    if stages == [] {
    } else {
      var n := |stages| - 1;
      IndexListed(stages[..n]);
      IndexIds(stages[..n]);
      var o := Index(stages[..n]);
      assert stages[n].id !in o.byId;
      forall i | 0 <= i < n
        ensures Listed(Index(stages))[i] == stages[i]
      {
        assert Listed(o)[i] == stages[..n][i];
      }
    }
  }

  /** `part` is the index of the first n stages of o. */
  ghost predicate PartOf(part: Ordered, o: Ordered, n: nat) {
    && n <= |o.order| && part.order == o.order[..n]
    && (forall id | id in part.byId :: id in o.byId && part.byId[id] == o.byId[id] && id in o.order[..n])
    && (forall i | 0 <= i < n :: o.order[i] in part.byId)
  }

  lemma PlaceNext(part: Ordered, o: Ordered, n: nat)
    requires Valid(o) && n < |o.order| && PartOf(part, o, n)
    ensures PartOf(Place(part, Listed(o)[n]), o, n + 1)
  {
    assert o.order[..n + 1] == o.order[..n] + [o.order[n]];
    assert o.order[n] !in o.order[..n];
  }

  lemma {:induction false} ListedIndex(o: Ordered, n: nat)
    requires Valid(o) && n <= |o.order|
    ensures PartOf(Index(Listed(o)[..n]), o, n)
  {
    if n == 0 {
    } else {
      hide Place, PartOf;
      ListedIndex(o, n - 1);
      assert Listed(o)[..n][..n - 1] == Listed(o)[..n - 1];
      PlaceNext(Index(Listed(o)[..n - 1]), o, n - 1);
    }
  }

  lemma IndexOfListed(o: Ordered)
    requires Valid(o)
    ensures Index(Listed(o)) == o && UniqueIds(Listed(o))
  {
    hide Index, PartOf;
    var n := |o.order|;
    ListedIndex(o, n);
    assert Listed(o)[..n] == Listed(o);
    WholePart(Index(Listed(o)), o);
  }

  lemma WholePart(part: Ordered, o: Ordered)
    requires Valid(o) && PartOf(part, o, |o.order|)
    ensures part == o
  {
    assert o.order[..|o.order|] == o.order;
    forall id | id in o.byId
      ensures id in part.byId
    {
      var i :| 0 <= i < |o.order| && o.order[i] == id;
    }
    forall id | id in part.byId
      ensures id in o.byId && part.byId[id] == o.byId[id]
    {
    }
    assert part.byId == o.byId;
  }

  /** Layering a list without repeated ids is combining with its index. */
  lemma {:induction false} OverlayIsCombine(o: Ordered, stages: seq<Entry>)
    requires Valid(o) && UniqueIds(stages)
    ensures Overlay(o, stages) == Combine(o, Index(stages))
  {
    if stages == [] {
      assert Combine(o, Ordered([], map[])).byId == o.byId;
    } else {
      hide MergeStage, Combine, Layer, Place;
      var n := |stages| - 1;
      OverlayIsCombine(o, stages[..n]);
      IndexIds(stages[..n]);
      LayerCombined(o, Index(stages[..n]), stages[n]);
    }
  }

  lemma LayerCombined(o: Ordered, ix: Ordered, e: Entry)
    requires e.id !in ix.byId
    ensures Layer(Combine(o, ix), e) == Combine(o, Place(ix, e))
  {
    hide MergeStage, Fresh;
    FreshOne(ix.order, e.id, o.byId.Keys);
    assert Layer(Combine(o, ix), e).byId == Combine(o, Place(ix, e)).byId;
  }

  lemma FreshOne(ids: seq<int>, id: int, seen: set<int>)
    ensures Fresh(ids + [id], seen) == Fresh(ids, seen) + if id in seen then [] else [id]
  {
    assert (ids + [id])[..|ids|] == ids;
  }

  lemma {:induction false} FreshValid(ids: seq<int>, seen: set<int>)
    requires forall i, j | 0 <= i < j < |ids| :: ids[i] != ids[j]
    ensures forall i, j | 0 <= i < j < |Fresh(ids, seen)| :: Fresh(ids, seen)[i] != Fresh(ids, seen)[j]
  {
    if ids == [] {
    } else {
      FreshValid(ids[..|ids| - 1], seen);
    }
  }

  lemma CombineValid(a: Ordered, b: Ordered)
    requires Valid(a) && Valid(b)
    ensures Valid(Combine(a, b))
  {
    hide MergeStage;
    var kept := Fresh(b.order, a.byId.Keys);
    FreshValid(b.order, a.byId.Keys);
    var o := Combine(a, b);
    assert o.order == a.order + kept;
    forall i, j | 0 <= i < j < |o.order|
      ensures o.order[i] != o.order[j]
    {
      if j >= |a.order| {
        assert o.order[j] == kept[j - |a.order|];
        assert o.order[j] in kept;
        if i >= |a.order| {
          assert o.order[i] == kept[i - |a.order|];
        } else {
          assert o.order[i] in a.order;
        }
      }
    }
  }

  /** The merged list: the base's stages in their order, then the new ones in theirs. */
  lemma MergeListsIsCombine(base: seq<Entry>, overlay: seq<Entry>)
    requires UniqueIds(overlay)
    ensures Valid(Combine(Index(base), Index(overlay)))
    ensures MergeLists(base, overlay) == Listed(Combine(Index(base), Index(overlay)))
    ensures Index(MergeLists(base, overlay)) == Combine(Index(base), Index(overlay))
    ensures UniqueIds(MergeLists(base, overlay))
  {
    hide Combine, MergeStage, Index, Overlay;
    IndexValid(base);
    IndexValid(overlay);
    CombineValid(Index(base), Index(overlay));
    OverlayIsCombine(Index(base), overlay);
    IndexOfListed(Combine(Index(base), Index(overlay)));
  }

  lemma {:induction false} FreshAppend(x: seq<int>, y: seq<int>, seen: set<int>)
    ensures Fresh(x + y, seen) == Fresh(x, seen) + Fresh(y, seen)
  {
    if y == [] {
      assert x + y == x;
    } else {
      var n := |y| - 1;
      assert (x + y)[..|x + y| - 1] == x + y[..n];
      FreshAppend(x, y[..n], seen);
    }
  }

  lemma {:induction false} FreshTwice(ids: seq<int>, s: set<int>, t: set<int>)
    ensures Fresh(Fresh(ids, s), t) == Fresh(ids, s + t)
  {
    if ids == [] {
    } else {
      var n := |ids| - 1;
      FreshTwice(ids[..n], s, t);
      FreshAppend(Fresh(ids[..n], s), if ids[n] in s then [] else [ids[n]], t);
      assert [ids[n]][..0] == [];
      assert Fresh([ids[n]], t) == if ids[n] in t then [] else [ids[n]];
    }
  }

  ghost predicate AgreeOrdered(a: Ordered, b: Ordered) {
    forall id | id in a.byId && id in b.byId :: AgreeStage(a.byId[id], b.byId[id])
  }

  lemma CombineLaws(a: Ordered, b: Ordered, c: Ordered)
    requires AgreeOrdered(a, b) && AgreeOrdered(b, c) && AgreeOrdered(a, c)
    ensures Combine(Combine(a, b), c) == Combine(a, Combine(b, c))
    ensures AgreeOrdered(Combine(a, b), c) && AgreeOrdered(a, Combine(b, c))
  {
    hide MergeStage, AgreeStage, Fresh;
    var l, r := Combine(Combine(a, b), c), Combine(a, Combine(b, c));
    CombinedOrder(a, b, c);
    assert l.byId.Keys == r.byId.Keys;
    forall id | id in l.byId
      ensures l.byId[id] == r.byId[id]
      ensures id in Combine(a, b).byId && id in c.byId ==> AgreeStage(Combine(a, b).byId[id], c.byId[id])
      ensures id in a.byId && id in Combine(b, c).byId ==> AgreeStage(a.byId[id], Combine(b, c).byId[id])
    {
      if id in a.byId && id in b.byId && id in c.byId {
        MergeStageLaws(a.byId[id], b.byId[id], c.byId[id]);
      }
    }
    assert l.byId == r.byId;
  }

  ghost predicate AssocOrdered(a: Ordered, b: Ordered, c: Ordered) {
    forall id | id in a.byId && id in b.byId && id in c.byId :: AssocStage(a.byId[id], b.byId[id], c.byId[id])
  }

  lemma CombinedAt(a: Ordered, b: Ordered, c: Ordered, id: int)
    ensures var l, r := Combine(Combine(a, b), c).byId, Combine(a, Combine(b, c)).byId;
            && (id in l <==> id in r)
            && (id in a.byId && id in b.byId && id in c.byId ==> id in l)
            && (id in l ==> (l[id] == r[id] <==>
                  (id in a.byId && id in b.byId && id in c.byId ==> AssocStage(a.byId[id], b.byId[id], c.byId[id]))))
  {
    hide MergeStage, AssocStage, Fresh;
    if id in a.byId && id in b.byId && id in c.byId {
      MergeStageAssocIff(a.byId[id], b.byId[id], c.byId[id]);
    }
  }

  lemma CombineAssocIff(a: Ordered, b: Ordered, c: Ordered)
    ensures Combine(Combine(a, b), c) == Combine(a, Combine(b, c)) <==> AssocOrdered(a, b, c)
  {
    hide Combine, AssocStage;
    var l, r := Combine(Combine(a, b), c), Combine(a, Combine(b, c));
    CombinedOrder(a, b, c);
    forall id: int
      ensures id in l.byId <==> id in r.byId
      ensures id in a.byId && id in b.byId && id in c.byId ==> id in l.byId
      ensures id in l.byId ==> (l.byId[id] == r.byId[id] <==>
                (id in a.byId && id in b.byId && id in c.byId ==> AssocStage(a.byId[id], b.byId[id], c.byId[id])))
    {
      CombinedAt(a, b, c, id);
    }
    assert l.byId.Keys == r.byId.Keys;
    if AssocOrdered(a, b, c) {
      forall id | id in l.byId
        ensures l.byId[id] == r.byId[id]
      {
        CombinedAt(a, b, c, id);
      }
      assert l.byId == r.byId;
    }
  }

  lemma CombinedOrder(a: Ordered, b: Ordered, c: Ordered)
    ensures Combine(Combine(a, b), c).order == Combine(a, Combine(b, c)).order
  {
    hide MergeStage, Fresh;
    FreshAppend(b.order, Fresh(c.order, b.byId.Keys), a.byId.Keys);
    FreshTwice(c.order, b.byId.Keys, a.byId.Keys);
    assert Combine(a, b).byId.Keys == b.byId.Keys + a.byId.Keys;
  }

  /** The empty list is neutral and a list merged with itself is unchanged. */
  lemma MergeListsUnit(s: seq<Entry>)
    requires UniqueIds(s)
    ensures MergeLists(s, []) == s && MergeLists([], s) == s && MergeLists(s, s) == s
  {
    hide MergeLists, UniqueIds, MergeStage;
    assert UniqueIds([]) by { EmptyUnique(); }
    MergeListsIsCombine(s, []);
    MergeListsIsCombine([], s);
    MergeListsIsCombine(s, s);
    IndexListed(s);
    CombineUnit(Index(s));
  }

  lemma EmptyUnique()
    ensures UniqueIds([])
  {
  }

  lemma CombineUnit(o: Ordered)
    requires Valid(o)
    ensures Combine(Ordered([], map[]), o) == o && Combine(o, Ordered([], map[])) == o && Combine(o, o) == o
  {
    hide MergeStage, Fresh;
    var e := Ordered([], map[]);
    assert Fresh([], o.byId.Keys) == [] by { FreshNone(o.byId.Keys); }
    assert e.byId.Keys == {};
    NothingSeen(o.order);
    AllSeen(o.order, o.byId.Keys);
    forall id | id in o.byId
      ensures MergeStage(o.byId[id], o.byId[id]) == o.byId[id]
    {
      MergeStageUnit(o.byId[id]);
    }
    assert Combine(e, o).byId == o.byId;
    assert Combine(o, e).byId == o.byId;
    assert Combine(o, o).byId == o.byId;
  }

  lemma FreshNone(seen: set<int>)
    ensures Fresh([], seen) == []
  {
  }

  lemma {:induction false} NothingSeen(ids: seq<int>)
    ensures Fresh(ids, {}) == ids
  {
    if ids == [] {
    } else {
      NothingSeen(ids[..|ids| - 1]);
    }
  }

  lemma {:induction false} AllSeen(ids: seq<int>, seen: set<int>)
    requires forall i | 0 <= i < |ids| :: ids[i] in seen
    ensures Fresh(ids, seen) == []
  {
    if ids == [] {
    } else {
      AllSeen(ids[..|ids| - 1], seen);
    }
  }

  // ---- documents ------------------------------------------------------------------------------

  datatype Platform = Platform(fields: Fields, stages: Option<seq<Entry>>)

  /** A deploy document: top-level keys, stages and platforms. */
  datatype Deploy = Deploy(fields: Fields, stages: Option<seq<Entry>>, platforms: Option<map<string, Platform>>)

  function MergePlatform(base: Platform, overlay: Platform): Platform {
    Platform(base.fields + overlay.fields, Some(MergeLists(Or(base.stages), Or(overlay.stages))))
  }

  function Sections(platforms: Option<map<string, Platform>>): map<string, Platform> {
    if platforms.Some? then platforms.value else map[]
  }

  function Section(platforms: map<string, Platform>, name: string): Platform {
    if name in platforms then platforms[name] else Platform(map[], None)
  }

  function MergePlatforms(base: map<string, Platform>, overlay: map<string, Platform>): map<string, Platform> {
    map name | name in base.Keys + overlay.Keys :: MergePlatform(Section(base, name), Section(overlay, name))
  }

  function MergeDeploy(base: Deploy, overlay: Deploy): Deploy {
    Deploy(base.fields + overlay.fields,
           Some(MergeLists(Or(base.stages), Or(overlay.stages))),
           if Sections(base.platforms) == map[] && Sections(overlay.platforms) == map[] then base.platforms
           else Some(MergePlatforms(Sections(base.platforms), Sections(overlay.platforms))))
  }

  /** A base_config chain, root document first. */
  function ResolveDeployYaml(chain: seq<Deploy>): Deploy
    requires chain != []
  {
    if |chain| == 1 then chain[0] else MergeDeploy(ResolveDeployYaml(chain[..|chain| - 1]), chain[|chain| - 1])
  }

  ghost predicate WellFormed(d: Deploy) {
    && UniqueIds(Or(d.stages))
    && forall name | name in Sections(d.platforms) :: UniqueIds(Or(Sections(d.platforms)[name].stages))
  }

  ghost predicate AgreeLists(a: Option<seq<Entry>>, b: Option<seq<Entry>>) {
    AgreeOrdered(Index(Or(a)), Index(Or(b)))
  }

  /** Stages named by both, at the top or in a platform, agree on what is a dict. */
  ghost predicate Compatible(a: Deploy, b: Deploy) {
    && AgreeLists(a.stages, b.stages)
    && forall name | name in Sections(a.platforms) && name in Sections(b.platforms) ::
         AgreeLists(Sections(a.platforms)[name].stages, Sections(b.platforms)[name].stages)
  }

  lemma ListLaws(a: Option<seq<Entry>>, b: Option<seq<Entry>>, c: Option<seq<Entry>>)
    requires UniqueIds(Or(a)) && UniqueIds(Or(b)) && UniqueIds(Or(c))
    requires AgreeLists(a, b) && AgreeLists(b, c) && AgreeLists(a, c)
    ensures var ab, bc := MergeLists(Or(a), Or(b)), MergeLists(Or(b), Or(c));
            && UniqueIds(ab) && UniqueIds(bc)
            && AgreeLists(Some(ab), c) && AgreeLists(a, Some(bc))
            && MergeLists(ab, Or(c)) == MergeLists(Or(a), bc)
  {
    hide Combine, Index, MergeLists, AgreeOrdered, UniqueIds;
    var x, y, z := Or(a), Or(b), Or(c);
    IndexValid(x);
    IndexValid(y);
    IndexValid(z);
    MergeListsIsCombine(x, y);
    MergeListsIsCombine(y, z);
    MergeListsIsCombine(MergeLists(x, y), z);
    MergeListsIsCombine(x, MergeLists(y, z));
    CombineLaws(Index(x), Index(y), Index(z));
  }

  lemma EmptyAgrees(a: Option<seq<Entry>>)
    ensures AgreeLists(a, None) && AgreeLists(None, a) && UniqueIds(Or(None))
  {
  }

  lemma PlatformLaws(a: Platform, b: Platform, c: Platform)
    requires UniqueIds(Or(a.stages)) && UniqueIds(Or(b.stages)) && UniqueIds(Or(c.stages))
    requires AgreeLists(a.stages, b.stages) && AgreeLists(b.stages, c.stages) && AgreeLists(a.stages, c.stages)
    ensures MergePlatform(MergePlatform(a, b), c) == MergePlatform(a, MergePlatform(b, c))
    ensures UniqueIds(Or(MergePlatform(a, b).stages))
    ensures AgreeLists(MergePlatform(a, b).stages, c.stages) && AgreeLists(a.stages, MergePlatform(b, c).stages)
  {
    hide MergeLists, AgreeLists, UniqueIds;
    ListLaws(a.stages, b.stages, c.stages);
    assert a.fields + b.fields + c.fields == a.fields + (b.fields + c.fields);
  }

  ghost predicate SectionsAgree(a: map<string, Platform>, b: map<string, Platform>) {
    forall name | name in a && name in b :: AgreeLists(a[name].stages, b[name].stages)
  }

  ghost predicate SectionsUnique(a: map<string, Platform>) {
    forall name | name in a :: UniqueIds(Or(a[name].stages))
  }

  lemma SectionLaws(a: map<string, Platform>, b: map<string, Platform>, c: map<string, Platform>, name: string)
    requires SectionsUnique(a) && SectionsUnique(b) && SectionsUnique(c)
    requires SectionsAgree(a, b) && SectionsAgree(b, c) && SectionsAgree(a, c)
    ensures var x, y, z := Section(a, name), Section(b, name), Section(c, name);
            && MergePlatform(MergePlatform(x, y), z) == MergePlatform(x, MergePlatform(y, z))
            && UniqueIds(Or(MergePlatform(x, y).stages))
            && AgreeLists(MergePlatform(x, y).stages, z.stages) && AgreeLists(x.stages, MergePlatform(y, z).stages)
  {
    hide MergePlatform, AgreeLists, UniqueIds;
    var x, y, z := Section(a, name), Section(b, name), Section(c, name);
    EmptyAgrees(x.stages);
    EmptyAgrees(y.stages);
    EmptyAgrees(z.stages);
    PlatformLaws(x, y, z);
  }

  /** A missing section, and the section that merging two missing ones would give, are the same to a merge. */
  lemma NormalSection(p: Platform, empty: Platform)
    requires empty == Platform(map[], None) || empty == MergePlatform(Platform(map[], None), Platform(map[], None))
    ensures MergePlatform(p, empty) == MergePlatform(p, Platform(map[], None))
    ensures MergePlatform(empty, p) == MergePlatform(Platform(map[], None), p)
    ensures empty.fields == map[] && Or(empty.stages) == []
  {
    MergeListsUnit([]);
    hide MergeLists;
  }

  lemma PlatformsLaws(a: map<string, Platform>, b: map<string, Platform>, c: map<string, Platform>)
    requires SectionsUnique(a) && SectionsUnique(b) && SectionsUnique(c)
    requires SectionsAgree(a, b) && SectionsAgree(b, c) && SectionsAgree(a, c)
    ensures MergePlatforms(MergePlatforms(a, b), c) == MergePlatforms(a, MergePlatforms(b, c))
    ensures SectionsUnique(MergePlatforms(a, b))
    ensures SectionsAgree(MergePlatforms(a, b), c) && SectionsAgree(a, MergePlatforms(b, c))
  {
    hide MergePlatform, AgreeLists, UniqueIds, SectionsAgree, SectionsUnique;
    var ab, bc := MergePlatforms(a, b), MergePlatforms(b, c);
    forall name: string
      ensures MergePlatform(Section(ab, name), Section(c, name)) == MergePlatform(Section(a, name), Section(bc, name))
      ensures UniqueIds(Or(Section(ab, name).stages))
      ensures AgreeLists(Section(ab, name).stages, Section(c, name).stages) && AgreeLists(Section(a, name).stages, Section(bc, name).stages)
    {
      NamedLaws(a, b, c, name);
    }
    assert MergePlatforms(ab, c) == MergePlatforms(a, bc);
    SectionWise(ab);
    assert SectionsAgree(ab, c) && SectionsAgree(a, bc) by {
      SectionAgreement(ab, c);
      SectionAgreement(a, bc);
    }
  }

  lemma SectionWise(a: map<string, Platform>)
    requires forall name: string :: UniqueIds(Or(Section(a, name).stages))
    ensures SectionsUnique(a)
  {
    hide UniqueIds;
    forall name | name in a
      ensures UniqueIds(Or(a[name].stages))
    {
      assert UniqueIds(Or(Section(a, name).stages));
    }
  }

  lemma SectionAgreement(a: map<string, Platform>, b: map<string, Platform>)
    requires forall name: string :: AgreeLists(Section(a, name).stages, Section(b, name).stages)
    ensures SectionsAgree(a, b)
  {
    hide AgreeLists;
    forall name | name in a && name in b
      ensures AgreeLists(a[name].stages, b[name].stages)
    {
      assert AgreeLists(Section(a, name).stages, Section(b, name).stages);
    }
  }

  lemma NamedLaws(a: map<string, Platform>, b: map<string, Platform>, c: map<string, Platform>, name: string)
    requires SectionsUnique(a) && SectionsUnique(b) && SectionsUnique(c)
    requires SectionsAgree(a, b) && SectionsAgree(b, c) && SectionsAgree(a, c)
    ensures var ab, bc := MergePlatforms(a, b), MergePlatforms(b, c);
            && MergePlatform(Section(ab, name), Section(c, name)) == MergePlatform(Section(a, name), Section(bc, name))
            && UniqueIds(Or(Section(ab, name).stages))
            && AgreeLists(Section(ab, name).stages, Section(c, name).stages) && AgreeLists(Section(a, name).stages, Section(bc, name).stages)
  {
    hide MergePlatform, AgreeLists, UniqueIds;
    var x, y, z := Section(a, name), Section(b, name), Section(c, name);
    SectionLaws(a, b, c, name);
    EmptyAgrees(x.stages);
    EmptyAgrees(z.stages);
    if name !in a && name !in b {
      NormalSection(z, MergePlatform(x, y));
    }
    if name !in b && name !in c {
      NormalSection(x, MergePlatform(y, z));
    }
  }

  lemma MergedSections(a: Deploy, b: Deploy)
    ensures Sections(MergeDeploy(a, b).platforms) == MergePlatforms(Sections(a.platforms), Sections(b.platforms))
    ensures MergePlatforms(Sections(a.platforms), Sections(b.platforms)) == map[] <==>
            Sections(a.platforms) == map[] && Sections(b.platforms) == map[]
  {
    hide MergePlatform;
    var x, y := Sections(a.platforms), Sections(b.platforms);
    assert MergePlatforms(x, y).Keys == x.Keys + y.Keys;
    assert x == map[] <==> x.Keys == {};
    assert y == map[] <==> y.Keys == {};
  }

  /** Three compatible documents may be merged in either grouping, and merging keeps
      documents well-formed and compatible. */
  lemma MergeDeployAssociative(a: Deploy, b: Deploy, c: Deploy)
    requires WellFormed(a) && WellFormed(b) && WellFormed(c)
    requires Compatible(a, b) && Compatible(b, c) && Compatible(a, c)
    ensures MergeDeploy(MergeDeploy(a, b), c) == MergeDeploy(a, MergeDeploy(b, c))
    ensures WellFormed(MergeDeploy(a, b))
    ensures Compatible(MergeDeploy(a, b), c) && Compatible(a, MergeDeploy(b, c))
  {
    hide MergeLists, AgreeLists, UniqueIds, MergePlatforms;
    MergedSections(a, b);
    MergedSections(b, c);
    ListLaws(a.stages, b.stages, c.stages);
    PlatformsLaws(Sections(a.platforms), Sections(b.platforms), Sections(c.platforms));
    assert a.fields + b.fields + c.fields == a.fields + (b.fields + c.fields);
  }

  // ---- exactly when documents may be regrouped ---------------------------------------------

  ghost predicate AssocLists(a: Option<seq<Entry>>, b: Option<seq<Entry>>, c: Option<seq<Entry>>) {
    AssocOrdered(Index(Or(a)), Index(Or(b)), Index(Or(c)))
  }

  lemma ListAssocIff(a: Option<seq<Entry>>, b: Option<seq<Entry>>, c: Option<seq<Entry>>)
    requires UniqueIds(Or(b)) && UniqueIds(Or(c))
    ensures MergeLists(MergeLists(Or(a), Or(b)), Or(c)) == MergeLists(Or(a), MergeLists(Or(b), Or(c))) <==> AssocLists(a, b, c)
  {
    hide Combine, Index, MergeLists, AssocOrdered, UniqueIds;
    var x, y, z := Or(a), Or(b), Or(c);
    MergeListsIsCombine(x, y);
    MergeListsIsCombine(y, z);
    MergeListsIsCombine(MergeLists(x, y), z);
    MergeListsIsCombine(x, MergeLists(y, z));
    CombineAssocIff(Index(x), Index(y), Index(z));
  }

  lemma PlatformAssocIff(a: Platform, b: Platform, c: Platform)
    requires UniqueIds(Or(b.stages)) && UniqueIds(Or(c.stages))
    ensures MergePlatform(MergePlatform(a, b), c) == MergePlatform(a, MergePlatform(b, c)) <==> AssocLists(a.stages, b.stages, c.stages)
  {
    hide MergeLists, AssocLists, UniqueIds;
    ListAssocIff(a.stages, b.stages, c.stages);
    assert a.fields + b.fields + c.fields == a.fields + (b.fields + c.fields);
  }

  lemma NoStagesAssoc(a: Option<seq<Entry>>, b: Option<seq<Entry>>)
    ensures AssocLists(None, a, b) && AssocLists(a, None, b) && AssocLists(a, b, None) && UniqueIds(Or(None))
  {
    hide AssocStage;
  }

  lemma NamedAssocIff(a: map<string, Platform>, b: map<string, Platform>, c: map<string, Platform>, name: string)
    requires SectionsUnique(b) && SectionsUnique(c)
    ensures MergePlatform(Section(MergePlatforms(a, b), name), Section(c, name)) == MergePlatform(Section(a, name), Section(MergePlatforms(b, c), name))
            <==> (name in a && name in b && name in c ==> AssocLists(a[name].stages, b[name].stages, c[name].stages))
  {
    hide MergePlatform, AssocLists, UniqueIds;
    var x, y, z := Section(a, name), Section(b, name), Section(c, name);
    NoStagesAssoc(x.stages, y.stages);
    NoStagesAssoc(y.stages, z.stages);
    NoStagesAssoc(x.stages, z.stages);
    PlatformAssocIff(x, y, z);
    if name !in a && name !in b {
      NormalSection(z, MergePlatform(x, y));
    }
    if name !in b && name !in c {
      NormalSection(x, MergePlatform(y, z));
    }
  }

  ghost predicate AssocSections(a: map<string, Platform>, b: map<string, Platform>, c: map<string, Platform>) {
    forall name | name in a && name in b && name in c :: AssocLists(a[name].stages, b[name].stages, c[name].stages)
  }

  lemma PlatformsAssocIff(a: map<string, Platform>, b: map<string, Platform>, c: map<string, Platform>)
    requires SectionsUnique(b) && SectionsUnique(c)
    ensures MergePlatforms(MergePlatforms(a, b), c) == MergePlatforms(a, MergePlatforms(b, c)) <==> AssocSections(a, b, c)
  {
    hide MergePlatform, AssocLists, SectionsUnique;
    var l, r := MergePlatforms(MergePlatforms(a, b), c), MergePlatforms(a, MergePlatforms(b, c));
    assert l.Keys == r.Keys;
    forall name | name in l
      ensures l[name] == r[name] <==> (name in a && name in b && name in c ==> AssocLists(a[name].stages, b[name].stages, c[name].stages))
    {
      NamedAssocIff(a, b, c, name);
    }
    if AssocSections(a, b, c) {
      assert l == r;
    }
    if l == r {
      forall name | name in a && name in b && name in c
        ensures AssocLists(a[name].stages, b[name].stages, c[name].stages)
      {
        assert name in l;
      }
    }
  }

  /** Three documents may be merged in either grouping if and only if, in every stage all three
      name, at the top or in a platform, no scalar cuts a merge of deep keys. */
  lemma MergeDeployAssocIff(a: Deploy, b: Deploy, c: Deploy)
    requires WellFormed(b) && WellFormed(c)
    ensures MergeDeploy(MergeDeploy(a, b), c) == MergeDeploy(a, MergeDeploy(b, c)) <==>
            && AssocLists(a.stages, b.stages, c.stages)
            && AssocSections(Sections(a.platforms), Sections(b.platforms), Sections(c.platforms))
  {
    hide MergeLists, AssocLists, UniqueIds, MergePlatforms, AssocSections;
    MergedSections(a, b);
    MergedSections(b, c);
    ListAssocIff(a.stages, b.stages, c.stages);
    PlatformsAssocIff(Sections(a.platforms), Sections(b.platforms), Sections(c.platforms));
    NoSections(Sections(a.platforms), Sections(b.platforms), Sections(c.platforms));
    assert a.fields + b.fields + c.fields == a.fields + (b.fields + c.fields);
  }

  lemma NoSections(a: map<string, Platform>, b: map<string, Platform>, c: map<string, Platform>)
    ensures a == map[] || b == map[] || c == map[] ==> AssocSections(a, b, c)
  {
  }

  // ---- chains --------------------------------------------------------------------------------

  ghost predicate OkChain(docs: seq<Deploy>) {
    && (forall i | 0 <= i < |docs| :: WellFormed(docs[i]))
    && (forall i, j | 0 <= i < j < |docs| :: Compatible(docs[i], docs[j]))
  }

  lemma {:induction false} ChainThenDoc(x: seq<Deploy>, d: Deploy)
    requires x != [] && OkChain(x + [d])
    ensures WellFormed(ResolveDeployYaml(x)) && Compatible(ResolveDeployYaml(x), d)
  {
    hide WellFormed, Compatible, MergeDeploy;
    var n := |x| - 1;
    assert (x + [d])[n] == x[n] && (x + [d])[|x|] == d;
    if n == 0 {
    } else {
      assert x[..n] + [x[n]] == x && x == (x + [d])[..|x|];
      assert OkChain(x[..n] + [d]) by {
        var y, z := x[..n] + [d], x + [d];
        assert forall i | 0 <= i < n :: y[i] == z[i];
        assert y[n] == z[|x|];
      }
      ChainThenDoc(x[..n], x[n]);
      ChainThenDoc(x[..n], d);
      MergeDeployAssociative(ResolveDeployYaml(x[..n]), x[n], d);
    }
  }

  lemma {:induction false} ChainThenChain(x: seq<Deploy>, y: seq<Deploy>)
    requires x != [] && y != [] && OkChain(x + y)
    ensures WellFormed(ResolveDeployYaml(x)) && WellFormed(ResolveDeployYaml(y))
    ensures Compatible(ResolveDeployYaml(x), ResolveDeployYaml(y))
    ensures ResolveDeployYaml(x + y) == MergeDeploy(ResolveDeployYaml(x), ResolveDeployYaml(y))
    decreases |y|
  {
    hide WellFormed, Compatible, MergeDeploy;
    var n := |y| - 1;
    var d := y[n];
    assert (x + y)[..|x + y| - 1] == x + y[..n] && (x + y)[|x| + n] == d;
    if n == 0 {
      assert x + y == x + [d] && y[..0] == [];
      ChainThenDoc(x, d);
      assert WellFormed((x + y)[|x|]);
    } else {
      var z := x + y;
      assert OkChain(x + y[..n]) by { assert x + y[..n] == z[..|x| + n]; }
      assert OkChain(x + [d]) by {
        assert forall i | 0 <= i < |x| :: (x + [d])[i] == z[i];
        assert (x + [d])[|x|] == z[|x| + n];
      }
      assert OkChain(y[..n] + [d]) by {
        assert y[..n] + [d] == z[|x|..];
      }
      ChainThenChain(x, y[..n]);
      ChainThenDoc(x, d);
      ChainThenDoc(y[..n], d);
      assert WellFormed(d) by { assert z[|x| + n] == d; }
      MergeDeployAssociative(ResolveDeployYaml(x), ResolveDeployYaml(y[..n]), d);
      MergedWellFormed(ResolveDeployYaml(y[..n]), d);
    }
  }

  lemma MergedWellFormed(a: Deploy, b: Deploy)
    requires WellFormed(b)
    ensures WellFormed(MergeDeploy(a, b))
  {
    hide MergeLists, UniqueIds;
    MergeListsIsCombine(Or(a.stages), Or(b.stages));
    var x, y := Sections(a.platforms), Sections(b.platforms);
    MergedSections(a, b);
    forall name | name in MergePlatforms(x, y)
      ensures UniqueIds(Or(MergePlatforms(x, y)[name].stages))
    {
      EmptyUnique();
      MergeListsIsCombine(Or(Section(x, name).stages), Or(Section(y, name).stages));
    }
  }

  /** A way of grouping the merges of a chain. */
  datatype Grouping = One(doc: Deploy) | Join(base: Grouping, overlay: Grouping)

  function Documents(g: Grouping): (docs: seq<Deploy>)
    ensures docs != []
  {
    match g
    case One(d) => [d]
    case Join(l, r) => Documents(l) + Documents(r)
  }

  function Fold(g: Grouping): Deploy {
    match g
    case One(d) => d
    case Join(l, r) => MergeDeploy(Fold(l), Fold(r))
  }

  lemma SubChains(x: seq<Deploy>, y: seq<Deploy>)
    requires OkChain(x + y)
    ensures OkChain(x) && OkChain(y)
  {
    hide WellFormed, Compatible;
    assert x == (x + y)[..|x|] && y == (x + y)[|x|..];
  }

  /** However the merges along a chain of compatible documents are grouped, the result is
      the one resolving the chain gives. */
  lemma {:induction false} AnyGrouping(g: Grouping)
    requires OkChain(Documents(g))
    ensures Fold(g) == ResolveDeployYaml(Documents(g))
  {
    if g.One? {
    } else {
      hide OkChain, MergeDeploy, ResolveDeployYaml;
      var x, y := Documents(g.base), Documents(g.overlay);
      SubChains(x, y);
      AnyGrouping(g.base);
      AnyGrouping(g.overlay);
      ChainThenChain(x, y);
    }
  }

  // ---- exactly when a chain may be grouped at will -----------------------------------------------

  /** A contiguous part of the chain. */
  ghost predicate Stretch(docs: seq<Deploy>, part: seq<Deploy>) {
    exists i, j :: 0 <= i < j <= |docs| && part == docs[i..j]
  }

  /** Every grouping of every stretch gives what resolving the stretch gives. */
  ghost predicate GroupsFreely(docs: seq<Deploy>) {
    forall g :: Stretch(docs, Documents(g)) ==> Fold(g) == ResolveDeployYaml(Documents(g))
  }

  /** In every stage that the resolutions of two neighbouring stretches and the document after
      them all name, no scalar cuts a merge of deep keys. */
  ghost predicate NoScalarCuts(docs: seq<Deploy>) {
    forall i, j, k | 0 <= i < j < k < |docs| :: UncutAt(docs, i, j, k)
  }

  ghost predicate UncutAt(docs: seq<Deploy>, i: nat, j: nat, k: nat)
    requires i < j < k < |docs|
  {
    var a, b, c := ResolveDeployYaml(docs[i..j]), ResolveDeployYaml(docs[j..k]), docs[k];
    AssocLists(a.stages, b.stages, c.stages) && AssocSections(Sections(a.platforms), Sections(b.platforms), Sections(c.platforms))
  }

  ghost predicate AllWellFormed(docs: seq<Deploy>) {
    forall i | 0 <= i < |docs| :: WellFormed(docs[i])
  }

  lemma {:induction false} ResolvedWellFormed(docs: seq<Deploy>)
    requires docs != [] && AllWellFormed(docs)
    ensures WellFormed(ResolveDeployYaml(docs))
  {
    hide WellFormed, MergeDeploy;
    if |docs| == 1 {
      assert WellFormed(docs[0]);
    } else {
      var n := |docs| - 1;
      assert WellFormed(docs[n]);
      MergedWellFormed(ResolveDeployYaml(docs[..n]), docs[n]);
    }
  }

  lemma UncutIff(docs: seq<Deploy>, i: nat, j: nat, k: nat)
    requires AllWellFormed(docs) && i < j < k < |docs|
    ensures var a, b, c := ResolveDeployYaml(docs[i..j]), ResolveDeployYaml(docs[j..k]), docs[k];
            UncutAt(docs, i, j, k) <==> MergeDeploy(MergeDeploy(a, b), c) == MergeDeploy(a, MergeDeploy(b, c))
  {
    hide WellFormed, MergeDeploy, ResolveDeployYaml, AssocLists, AssocSections;
    assert AllWellFormed(docs[j..k]);
    ResolvedWellFormed(docs[j..k]);
    MergeDeployAssocIff(ResolveDeployYaml(docs[i..j]), ResolveDeployYaml(docs[j..k]), docs[k]);
  }

  lemma ResolveOneMore(docs: seq<Deploy>, i: nat, k: nat)
    requires i < k < |docs|
    ensures ResolveDeployYaml(docs[i..k + 1]) == MergeDeploy(ResolveDeployYaml(docs[i..k]), docs[k])
    ensures ResolveDeployYaml(docs[k..k + 1]) == docs[k]
  {
    hide MergeDeploy;
    assert docs[i..k + 1][..k - i] == docs[i..k];
  }

  /** Neighbouring stretches merge to the resolution of both. */
  lemma {:induction false} UncutStretches(docs: seq<Deploy>, i: nat, j: nat, k: nat)
    requires AllWellFormed(docs) && NoScalarCuts(docs) && i < j < k <= |docs|
    ensures ResolveDeployYaml(docs[i..k]) == MergeDeploy(ResolveDeployYaml(docs[i..j]), ResolveDeployYaml(docs[j..k]))
    decreases k
  {
    hide WellFormed, MergeDeploy, ResolveDeployYaml, UncutAt;
    ResolveOneMore(docs, i, k - 1);
    if j == k - 1 {
      ResolveOneMore(docs, j - 1, j);
    } else {
      ResolveOneMore(docs, j, k - 1);
      UncutStretches(docs, i, j, k - 1);
      assert UncutAt(docs, i, j, k - 1);
      UncutIff(docs, i, j, k - 1);
    }
  }

  lemma {:induction false} UncutGroups(docs: seq<Deploy>, g: Grouping, i: nat, k: nat)
    requires AllWellFormed(docs) && NoScalarCuts(docs) && i < k <= |docs| && Documents(g) == docs[i..k]
    ensures Fold(g) == ResolveDeployYaml(docs[i..k])
  {
    hide AllWellFormed, NoScalarCuts, MergeDeploy;
    if g.One? {
      assert |docs[i..k]| == 1 && docs[i..k][0] == g.doc;
    } else {
      hide ResolveDeployYaml;
      var j := i + |Documents(g.base)|;
      assert Documents(g.base) == docs[i..k][..j - i] == docs[i..j];
      assert Documents(g.overlay) == docs[i..k][j - i..] == docs[j..k];
      assert i < j < k;
      UncutGroups(docs, g.base, i, j);
      UncutGroups(docs, g.overlay, j, k);
      UncutStretches(docs, i, j, k);
    }
  }

  /** The grouping that resolving uses. */
  function InOrder(docs: seq<Deploy>): Grouping
    requires docs != []
  {
    if |docs| == 1 then One(docs[0]) else Join(InOrder(docs[..|docs| - 1]), One(docs[|docs| - 1]))
  }

  lemma {:induction false} InOrderResolves(docs: seq<Deploy>)
    requires docs != []
    ensures Documents(InOrder(docs)) == docs && Fold(InOrder(docs)) == ResolveDeployYaml(docs)
  {
    hide MergeDeploy;
    if |docs| == 1 {
    } else {
      var n := |docs| - 1;
      InOrderResolves(docs[..n]);
      assert docs == docs[..n] + [docs[n]];
    }
  }

  lemma FreeStretch(docs: seq<Deploy>, g: Grouping, i: nat, k: nat)
    requires GroupsFreely(docs) && i < k <= |docs| && Documents(g) == docs[i..k]
    ensures Fold(g) == ResolveDeployYaml(docs[i..k])
  {
    hide Fold, ResolveDeployYaml;
    assert Stretch(docs, Documents(g));
  }

  lemma Neighbours(docs: seq<Deploy>, i: nat, j: nat, k: nat)
    requires i < j < k < |docs|
    ensures docs[i..j] + docs[j..k] == docs[i..k]
    ensures docs[i..j] + (docs[j..k] + [docs[k]]) == docs[i..k + 1]
  {
  }

  lemma FoldJoins(x: Grouping, y: Grouping, d: Deploy)
    ensures Fold(Join(x, y)) == MergeDeploy(Fold(x), Fold(y)) && Documents(Join(x, y)) == Documents(x) + Documents(y)
    ensures Fold(Join(x, Join(y, One(d)))) == MergeDeploy(Fold(x), MergeDeploy(Fold(y), d))
    ensures Documents(Join(x, Join(y, One(d)))) == Documents(x) + (Documents(y) + [d])
  {
    hide MergeDeploy;
    var z := One(d);
    assert Fold(z) == d && Documents(z) == [d];
    assert Fold(Join(y, z)) == MergeDeploy(Fold(y), d) && Documents(Join(y, z)) == Documents(y) + [d];
  }

  /** Two groupings of one stretch that differ by one regrouping. */
  lemma FreeIsUncut(docs: seq<Deploy>, i: nat, j: nat, k: nat)
    requires AllWellFormed(docs) && GroupsFreely(docs) && i < j < k < |docs|
    ensures UncutAt(docs, i, j, k)
  {
    hide *;
    var x, y := InOrder(docs[i..j]), InOrder(docs[j..k]);
    InOrderResolves(docs[i..j]);
    InOrderResolves(docs[j..k]);
    FoldJoins(x, y, docs[k]);
    Neighbours(docs, i, j, k);
    FreeStretch(docs, Join(x, y), i, k);
    FreeStretch(docs, Join(x, Join(y, One(docs[k]))), i, k + 1);
    ResolveOneMore(docs, i, k);
    UncutIff(docs, i, j, k);
  }

  /** A chain of documents may be grouped at will if and only if no scalar cuts a merge between
      neighbouring stretches. */
  lemma GroupsFreelyIff(docs: seq<Deploy>)
    requires AllWellFormed(docs)
    ensures GroupsFreely(docs) <==> NoScalarCuts(docs)
  {
    hide AllWellFormed, Fold, ResolveDeployYaml, UncutAt;
    if NoScalarCuts(docs) {
      forall g | Stretch(docs, Documents(g))
        ensures Fold(g) == ResolveDeployYaml(Documents(g))
      {
        var i, j :| 0 <= i < j <= |docs| && Documents(g) == docs[i..j];
        UncutGroups(docs, g, i, j);
      }
    }
    if GroupsFreely(docs) {
      forall i, j, k | 0 <= i < j < k < |docs|
        ensures UncutAt(docs, i, j, k)
      {
        FreeIsUncut(docs, i, j, k);
      }
    }
  }
}
