/** Who wins: what a merged document says at every place, read off the documents merged. */
module DeployPrecedence {
  import opened DeployMerge

  // ---- values ----------------------------------------------------------------------------

  datatype Leaf = IsScalar(id: int) | IsDict

  /** What stands at the end of a path, if anything does. */
  function Lookup(v: Value, path: seq<string>): Option<Leaf>
    decreases path
  {
    if path == [] then Some(if v.Scalar? then IsScalar(v.id) else IsDict)
    else if v.Dict? && path[0] in v.entries then Lookup(v.entries[path[0]], path[1..])
    else None
  }

  /** The value speaks about a path: it has something there, or a scalar above it. */
  predicate Speaks(v: Value, path: seq<string>)
    decreases path
  {
    path == [] || v.Scalar? || (path[0] in v.entries && Speaks(v.entries[path[0]], path[1..]))
  }

  lemma {:induction false} FoundSpeaks(v: Value, path: seq<string>)
    ensures Lookup(v, path).Some? ==> Speaks(v, path)
    decreases path
  {
    if path == [] {
    } else if v.Dict? && path[0] in v.entries {
      FoundSpeaks(v.entries[path[0]], path[1..]);
    }
  }

  /** At every path the overlay decides if it speaks, and the base does otherwise. */
  lemma {:induction false} MergeLookup(base: Value, overlay: Value, path: seq<string>)
    ensures Lookup(Merge(base, overlay), path) == if Speaks(overlay, path) then Lookup(overlay, path) else Lookup(base, path)
    decreases path
  {
    if path == [] {
    } else if base.Dict? && overlay.Dict? {
      var k := path[0];
      if k in base.entries && k in overlay.entries {
        MergeLookup(base.entries[k], overlay.entries[k], path[1..]);
      } else if k in overlay.entries {
        FoundSpeaks(overlay.entries[k], path[1..]);
      }
    } else {
      FoundSpeaks(overlay, path);
    }
  }

  /** The paths of a value determine it. */
  lemma {:induction false} SamePathsSameValue(a: Value, b: Value)
    requires forall path :: Lookup(a, path) == Lookup(b, path)
    ensures a == b
    decreases a
  {
    assert Lookup(a, []) == Lookup(b, []);
    if a.Scalar? {
    } else {
      forall k | k in a.entries || k in b.entries
        ensures k in a.entries && k in b.entries && a.entries[k] == b.entries[k]
      {
        assert [k][1..] == [];
        assert Lookup(a, [k]) == Lookup(b, [k]);
        assert k in a.entries ==> Lookup(a, [k]) == Lookup(a.entries[k], []);
        assert k in b.entries ==> Lookup(b, [k]) == Lookup(b.entries[k], []);
        forall path
          ensures Lookup(a.entries[k], path) == Lookup(b.entries[k], path)
        {
          assert ([k] + path)[1..] == path;
          assert Lookup(a, [k] + path) == Lookup(b, [k] + path);
        }
        SamePathsSameValue(a.entries[k], b.entries[k]);
      }
      assert a.entries == b.entries;
    }
  }

  predicate Decided(merged: Value, base: Value, overlay: Value, path: seq<string>) {
    Lookup(merged, path) == if Speaks(overlay, path) then Lookup(overlay, path) else Lookup(base, path)
  }

  /** So merging is the only operation in which the overlay decides wherever it speaks. */
  lemma MergeIsPrecedence(base: Value, overlay: Value, merged: Value)
    ensures merged == Merge(base, overlay) <==> forall path :: Decided(merged, base, overlay, path)
  {
    hide Lookup, Speaks, Merge;
    forall path
      ensures Decided(Merge(base, overlay), base, overlay, path)
    {
      MergeLookup(base, overlay, path);
    }
    if forall path :: Decided(merged, base, overlay, path) {
      forall path
        ensures Lookup(merged, path) == Lookup(Merge(base, overlay), path)
      {
        assert Decided(merged, base, overlay, path) && Decided(Merge(base, overlay), base, overlay, path);
      }
      SamePathsSameValue(merged, Merge(base, overlay));
    }
  }

  // ---- stages ----------------------------------------------------------------------------

  function FieldLookup(f: Fields, k: string, path: seq<string>): Option<Leaf> {
    if k in f then Lookup(f[k], path) else None
  }

  /** The four keys whose dicts are merged; under any other key the overlay's value replaces. */
  predicate IsDeep(k: string) {
    k == "default_sampling_params" || k == "subtalker_sampling_params" || k == "engine_extras" || k == "engine_args"
  }

  predicate StageSpeaks(f: Fields, k: string, path: seq<string>) {
    k in f && (IsDeep(k) ==> Speaks(f[k], path))
  }

  lemma StageLookup(base: Fields, overlay: Fields, k: string, path: seq<string>)
    ensures FieldLookup(MergeStage(base, overlay), k, path)
            == if StageSpeaks(overlay, k, path) then FieldLookup(overlay, k, path) else FieldLookup(base, k, path)
  {
    hide Merge;
    assert IsDeep(k) <==> k in DEEP_MERGE_KEYS;
    if k in base && k in overlay && IsDeep(k) {
      MergeLookup(base[k], overlay[k], path);
    } else if k in overlay && IsDeep(k) {
      FoundSpeaks(overlay[k], path);
    }
  }

  // ---- stage lists -----------------------------------------------------------------------

  /** The last entry under an id. */
  function StageOf(stages: seq<Entry>, id: int): Fields {
    if stages == [] then map[]
    else if stages[|stages| - 1].id == id then stages[|stages| - 1].fields
    else StageOf(stages[..|stages| - 1], id)
  }

  /** What an overlay list says about a place of a stage: its last entry that speaks decides. */
  function ListSays(overlay: seq<Entry>, id: int, k: string, path: seq<string>, otherwise: Option<Leaf>): Option<Leaf> {
    if overlay == [] then otherwise
    else
      var e := overlay[|overlay| - 1];
      if e.id == id && StageSpeaks(e.fields, k, path) then FieldLookup(e.fields, k, path)
      else ListSays(overlay[..|overlay| - 1], id, k, path, otherwise)
  }

  function ById(o: Ordered, id: int): Fields {
    if id in o.byId then o.byId[id] else map[]
  }

  lemma {:induction false} IndexById(stages: seq<Entry>, id: int)
    ensures ById(Index(stages), id) == StageOf(stages, id)
  {
    if stages == [] {
    } else {
      IndexById(stages[..|stages| - 1], id);
    }
  }

  lemma LayerLookup(o: Ordered, e: Entry, id: int, k: string, path: seq<string>)
    ensures FieldLookup(ById(Layer(o, e), id), k, path)
            == if e.id == id && StageSpeaks(e.fields, k, path) then FieldLookup(e.fields, k, path) else FieldLookup(ById(o, id), k, path)
  {
    hide MergeStage, Lookup, Speaks;
    if e.id == id {
      StageLookup(ById(o, id), e.fields, k, path);
      if id !in o.byId && k in e.fields {
        FoundSpeaks(e.fields[k], path);
      }
    }
  }

  lemma {:induction false} OverlayLookup(o: Ordered, stages: seq<Entry>, id: int, k: string, path: seq<string>)
    ensures FieldLookup(ById(Overlay(o, stages), id), k, path) == ListSays(stages, id, k, path, FieldLookup(ById(o, id), k, path))
  {
    hide Layer, FieldLookup, StageSpeaks, ById;
    if stages == [] {
    } else {
      var n := |stages| - 1;
      OverlayLookup(o, stages[..n], id, k, path);
      LayerLookup(Overlay(o, stages[..n]), stages[n], id, k, path);
    }
  }

  lemma ListedById(o: Ordered, id: int)
    requires Valid(o)
    ensures StageOf(Listed(o), id) == ById(o, id)
  {
    IndexOfListed(o);
    IndexById(Listed(o), id);
  }

  lemma MergedListLookup(base: seq<Entry>, overlay: seq<Entry>, id: int, k: string, path: seq<string>)
    ensures FieldLookup(StageOf(MergeLists(base, overlay), id), k, path)
            == ListSays(overlay, id, k, path, FieldLookup(StageOf(base, id), k, path))
  {
    hide FieldLookup, ListSays, Overlay, Index, Listed, ById, StageOf;
    IndexValid(base);
    OverlayValid(Index(base), overlay);
    ListedById(Overlay(Index(base), overlay), id);
    IndexById(base, id);
    OverlayLookup(Index(base), overlay, id, k, path);
  }

  // ---- documents -------------------------------------------------------------------------

  /** A place of a document: a path under a top-level key, a stage's key, a platform's key, or
      the key of a platform's stage. */
  datatype Place =
    | Top(key: string, path: seq<string>)
    | OfStage(id: int, key: string, path: seq<string>)
    | OfPlatform(name: string, key: string, path: seq<string>)
    | OfPlatformStage(name: string, id: int, key: string, path: seq<string>)

  function At(d: Deploy, place: Place): Option<Leaf> {
    match place
    case Top(k, path) => FieldLookup(d.fields, k, path)
    case OfStage(id, k, path) => FieldLookup(StageOf(Or(d.stages), id), k, path)
    case OfPlatform(name, k, path) => FieldLookup(Section(Sections(d.platforms), name).fields, k, path)
    case OfPlatformStage(name, id, k, path) => FieldLookup(StageOf(Or(Section(Sections(d.platforms), name).stages), id), k, path)
  }

  /** What a document makes of a place, given what the documents under it do. */
  function Says(d: Deploy, place: Place, otherwise: Option<Leaf>): Option<Leaf> {
    match place
    case Top(k, path) => if k in d.fields then FieldLookup(d.fields, k, path) else otherwise
    case OfStage(id, k, path) => ListSays(Or(d.stages), id, k, path, otherwise)
    case OfPlatform(name, k, path) =>
      var f := Section(Sections(d.platforms), name).fields;
      if k in f then FieldLookup(f, k, path) else otherwise
    case OfPlatformStage(name, id, k, path) => ListSays(Or(Section(Sections(d.platforms), name).stages), id, k, path, otherwise)
  }

  lemma EmptyListSays(id: int, k: string, path: seq<string>)
    ensures FieldLookup(StageOf(MergeLists([], []), id), k, path) == None
  {
    MergedListLookup([], [], id, k, path);
    assert FieldLookup(StageOf([], id), k, path) == None;
  }

  lemma MergedSection(a: Deploy, b: Deploy, name: string)
    ensures var x, y := Section(Sections(a.platforms), name), Section(Sections(b.platforms), name);
            var m := Section(Sections(MergeDeploy(a, b).platforms), name);
            && m.fields == x.fields + y.fields
            && (m.stages == Some(MergeLists(Or(x.stages), Or(y.stages)))
                || (m == Platform(map[], None) && Or(x.stages) == [] && Or(y.stages) == []))
  {
    hide MergeLists;
    MergedSections(a, b);
  }

  /** One overlay: at every place it decides if it speaks. */
  lemma MergeDeployAt(a: Deploy, b: Deploy, place: Place)
    ensures At(MergeDeploy(a, b), place) == Says(b, place, At(a, place))
  {
    hide FieldLookup, ListSays, MergeLists, MergePlatforms, StageOf;
    match place
    case Top(k, path) => MergedFields(a.fields, b.fields, k, path);
    case OfStage(id, k, path) => MergedListLookup(Or(a.stages), Or(b.stages), id, k, path);
    case OfPlatform(name, k, path) =>
      MergedSection(a, b, name);
      MergedFields(Section(Sections(a.platforms), name).fields, Section(Sections(b.platforms), name).fields, k, path);
    case OfPlatformStage(name, id, k, path) =>
      MergedSection(a, b, name);
      var x, y := Section(Sections(a.platforms), name), Section(Sections(b.platforms), name);
      MergedListLookup(Or(x.stages), Or(y.stages), id, k, path);
      if Section(Sections(MergeDeploy(a, b).platforms), name) == Platform(map[], None) {
        EmptyListSays(id, k, path);
        NoStages(id, k, path);
      }
  }

  lemma NoStages(id: int, k: string, path: seq<string>)
    ensures FieldLookup(StageOf([], id), k, path) == None
  {
  }

  lemma MergedFields(a: Fields, b: Fields, k: string, path: seq<string>)
    ensures FieldLookup(a + b, k, path) == if k in b then FieldLookup(b, k, path) else FieldLookup(a, k, path)
  {
    hide Lookup;
  }

  // ---- chains ----------------------------------------------------------------------------

  /** The document says something of its own about a place. */
  predicate DocumentSpeaks(d: Deploy, place: Place) {
    match place
    case Top(k, _) => k in d.fields
    case OfStage(id, k, path) => StageSpeaks(StageOf(Or(d.stages), id), k, path)
    case OfPlatform(name, k, _) => k in Section(Sections(d.platforms), name).fields
    case OfPlatformStage(name, id, k, path) => StageSpeaks(StageOf(Or(Section(Sections(d.platforms), name).stages), id), k, path)
  }

  lemma {:induction false} OtherIdsSilent(stages: seq<Entry>, id: int, k: string, path: seq<string>, otherwise: Option<Leaf>)
    requires forall i | 0 <= i < |stages| :: stages[i].id != id
    ensures ListSays(stages, id, k, path, otherwise) == otherwise && StageOf(stages, id) == map[]
  {
    if stages == [] {
    } else {
      OtherIdsSilent(stages[..|stages| - 1], id, k, path, otherwise);
    }
  }

  lemma {:induction false} UniqueListSays(stages: seq<Entry>, id: int, k: string, path: seq<string>, otherwise: Option<Leaf>)
    requires UniqueIds(stages)
    ensures ListSays(stages, id, k, path, otherwise)
            == if StageSpeaks(StageOf(stages, id), k, path) then FieldLookup(StageOf(stages, id), k, path) else otherwise
  {
    hide StageSpeaks, FieldLookup;
    if stages == [] {
      NothingSpeaks(k, path);
    } else {
      var n := |stages| - 1;
      if stages[n].id == id {
        OtherIdsSilent(stages[..n], id, k, path, otherwise);
      } else {
        UniqueListSays(stages[..n], id, k, path, otherwise);
      }
    }
  }

  lemma NothingSpeaks(k: string, path: seq<string>)
    ensures !StageSpeaks(map[], k, path)
  {
  }

  lemma WellFormedSays(d: Deploy, place: Place, otherwise: Option<Leaf>)
    requires WellFormed(d)
    ensures Says(d, place, otherwise) == if DocumentSpeaks(d, place) then At(d, place) else otherwise
  {
    hide FieldLookup, ListSays, StageSpeaks, StageOf, UniqueIds;
    match place
    case Top(_, _) =>
    case OfStage(id, k, path) => UniqueListSays(Or(d.stages), id, k, path, otherwise);
    case OfPlatform(_, _, _) =>
    case OfPlatformStage(name, id, k, path) =>
      EmptyUnique();
      UniqueListSays(Or(Section(Sections(d.platforms), name).stages), id, k, path, otherwise);
  }

  /** The last document of a chain that speaks about a place, or the root if none does, decides
      what the resolved document has there. */
  lemma {:induction false} LastWordWins(chain: seq<Deploy>, place: Place, i: nat)
    requires AllWellFormed(chain) && i < |chain|
    requires i > 0 ==> DocumentSpeaks(chain[i], place)
    requires forall j | i < j < |chain| :: !DocumentSpeaks(chain[j], place)
    ensures At(ResolveDeployYaml(chain), place) == At(chain[i], place)
  {
    hide At, DocumentSpeaks, MergeDeploy, WellFormed, Says;
    if |chain| == 1 {
    } else {
      var n := |chain| - 1;
      MergeDeployAt(ResolveDeployYaml(chain[..n]), chain[n], place);
      WellFormedSays(chain[n], place, At(ResolveDeployYaml(chain[..n]), place));
      if i < n {
        LastWordWins(chain[..n], place, i);
      }
    }
  }
}
