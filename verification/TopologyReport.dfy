/** What the topology validator reports: each error exactly where its rule is broken. */
module TopologyReport {
  import opened DiffusionTopology

  // ---- roles ------------------------------------------------------------------------------

  /** All of s outside [i, j) is space. */
  predicate SpaceAround(s: string, i: nat, j: nat) {
    i <= j <= |s| && forall k | 0 <= k < |s| :: k < i || j <= k ==> IsSpace(s[k])
  }

  /** r is s without its surrounding space. */
  ghost predicate Trims(s: string, r: string) {
    && (exists i: nat, j: nat :: SpaceAround(s, i, j) && r == s[i..j])
    && (r != "" ==> !IsSpace(r[0]) && !IsSpace(r[|r| - 1]))
  }

  lemma {:induction false} StripTrims(s: string)
    ensures Trims(s, Strip(s))
  {
    hide IsSpace;
    if s == "" {
      assert SpaceAround(s, 0, 0);
    } else if IsSpace(s[0]) {
      StripTrims(s[1..]);
      var i: nat, j: nat :| SpaceAround(s[1..], i, j) && Strip(s[1..]) == s[1..][i..j];
      SpaceBefore(s, i, j);
    } else if IsSpace(s[|s| - 1]) {
      StripTrims(s[..|s| - 1]);
      var i: nat, j: nat :| SpaceAround(s[..|s| - 1], i, j) && Strip(s[..|s| - 1]) == s[..|s| - 1][i..j];
      assert SpaceAround(s, i, j) && s[..|s| - 1][i..j] == s[i..j];
    } else {
      assert SpaceAround(s, 0, |s|) && s[0..|s|] == s;
    }
  }

  lemma SpaceBefore(s: string, i: nat, j: nat)
    requires s != "" && IsSpace(s[0]) && SpaceAround(s[1..], i, j)
    ensures SpaceAround(s, i + 1, j + 1) && s[1..][i..j] == s[i + 1..j + 1]
  {
    hide IsSpace;
    forall k | 0 <= k < |s| && (k < i + 1 || j + 1 <= k)
      ensures IsSpace(s[k])
    {
      assert k > 0 ==> s[k] == s[1..][k - 1];
    }
  }

  predicate Blank(s: string) {
    forall k | 0 <= k < |s| :: IsSpace(s[k])
  }

  /** A role is the stage's name without surrounding space, "diffusion" if nothing is left or
      there is none. */
  lemma RoleIs(s: Stage)
    ensures if s.modelStage.None? || Blank(s.modelStage.value) then Role(s) == "diffusion" else Trims(s.modelStage.value, Role(s))
  {
    hide IsSpace, Strip;
    if s.modelStage.Some? {
      var name := s.modelStage.value;
      StripTrims(name);
      var i: nat, j: nat :| SpaceAround(name, i, j) && Strip(name) == name[i..j];
      if Strip(name) != "" {
        assert name[i] == Strip(name)[0];
      }
    }
  }

  // ---- the rules, one error each ------------------------------------------------------------

  /** Stage j is the one the validator finds under an id: the last of that id. */
  predicate Found(stages: seq<Stage>, id: int, j: nat) {
    Names(stages, id, j) && forall k | j < k < |stages| :: stages[k].id != id
  }

  predicate Consumer(s: Stage) {
    Role(s) == "denoise" || Role(s) == "decode"
  }

  predicate Feeds(s: Stage, up: Stage) {
    Role(up) == "denoise" || (Role(s) == "denoise" && Role(up) == "encode")
  }

  ghost predicate Broken(stages: seq<Stage>, e: TopologyError) {
    match e
    case NoStages => stages == []
    case DuplicateId(id) => exists i, j :: 0 <= i < j < |stages| && stages[i].id == id && stages[j].id == id
    case FinalCount(count) => stages != [] && count == |FinalIndices(stages)| != 1
    case FinalNotDecode(id) => exists i: nat :: IsFinal(stages, i) && stages[i].id == id && Role(stages[i]) != "decode" && HasDecode(stages)
    case _ => exists i :: 0 <= i < |stages| && BrokenAt(stages, stages[i], e)
  }

  predicate IsFinal(stages: seq<Stage>, i: nat) {
    i < |stages| && forall j | 0 <= j < |stages| :: stages[j].finalOutput <==> j == i
  }

  function FinalIndices(stages: seq<Stage>): set<nat> {
    set i: nat | i < |stages| && stages[i].finalOutput
  }

  ghost predicate BrokenAt(stages: seq<Stage>, s: Stage, e: TopologyError) {
    match e
    case SelfReference(id) => s.id == id && id in s.sources
    case MissingSource(id, source) => s.id == id && source in s.sources && source != id && forall j: nat :: !Names(stages, source, j)
    case EncodeHasSources(id) => s.id == id && Role(s) == "encode" && s.sources != []
    case NoUpstream(id) => s.id == id && Consumer(s) && s.sources == []
    case WrongUpstream(id) =>
      s.id == id && Consumer(s) && s.sources != [] && forall j: nat :: j < |stages| && FoundSource(stages, s, j) ==> !Feeds(s, stages[j])
    case TooManySources(id, count) => s.id == id && Consumer(s) && |s.sources| == count > 1
    case _ => false
  }

  predicate FoundSource(stages: seq<Stage>, s: Stage, j: nat)
    requires j < |stages|
  {
    stages[j].id in s.sources && Found(stages, stages[j].id, j)
  }

  // ---- proofs --------------------------------------------------------------------------------

  lemma {:induction false} ByIdIsFound(stages: seq<Stage>, id: int)
    ensures id in ById(stages) <==> exists j: nat :: Found(stages, id, j)
    ensures forall j: nat | Found(stages, id, j) :: id in ById(stages) && ById(stages)[id] == stages[j]
    ensures id in ById(stages) <==> exists j: nat :: Names(stages, id, j)
  {
    if stages == [] {
    } else {
      var n := |stages| - 1;
      var rest := stages[..n];
      ByIdIsFound(rest, id);
      if stages[n].id == id {
        assert Found(stages, id, n);
      } else {
        forall j: nat
          ensures Found(stages, id, j) <==> Found(rest, id, j)
          ensures Names(stages, id, j) <==> Names(rest, id, j)
        {
        }
      }
    }
  }

  lemma {:induction false} DuplicatesAre(stages: seq<Stage>, e: TopologyError)
    ensures e in Duplicates(stages) <==> e.DuplicateId? && exists i, j :: 0 <= i < j < |stages| && stages[i].id == e.id && stages[j].id == e.id
  {
    if stages == [] {
    } else {
      var n := |stages| - 1;
      var rest := stages[..n];
      DuplicatesAre(rest, e);
      ByIdIsFound(rest, stages[n].id);
      if stages[n].id in ById(rest) {
        var j: nat :| Names(rest, stages[n].id, j);
        assert stages[j].id == stages[n].id;
      }
      if e.DuplicateId? {
        if i, j :| 0 <= i < j < |stages| && stages[i].id == e.id && stages[j].id == e.id {
          if j == n {
            assert Names(rest, stages[n].id, i);
          } else {
            assert rest[i].id == e.id && rest[j].id == e.id;
          }
        }
        if i, j :| 0 <= i < j < n && rest[i].id == e.id && rest[j].id == e.id {
          assert stages[i].id == e.id && stages[j].id == e.id;
        }
      }
    }
  }

  lemma {:induction false} SourceErrorsAre(byId: map<int, Stage>, id: int, sources: seq<int>, e: TopologyError)
    ensures e in SourceErrors(byId, id, sources) <==>
            || (e == SelfReference(id) && id in sources)
            || (e.MissingSource? && e.id == id && e.source in sources && e.source != id && e.source !in byId)
  {
    if sources == [] {
    } else {
      var n := |sources| - 1;
      assert sources == sources[..n] + [sources[n]];
      SourceErrorsAre(byId, id, sources[..n], e);
    }
  }

  lemma UpstreamIs(stages: seq<Stage>, s: Stage, wanted: set<string>)
    ensures UpstreamRoles(ById(stages), s) * wanted != {} <==>
            exists j: nat :: j < |stages| && FoundSource(stages, s, j) && Role(stages[j]) in wanted
  {
    hide Role, ById;
    if role :| role in UpstreamRoles(ById(stages), s) * wanted {
      var id :| id in s.sources && id in ById(stages) && Role(ById(stages)[id]) == role;
      ByIdIsFound(stages, id);
      var j: nat :| Found(stages, id, j);
      assert FoundSource(stages, s, j);
    }
    if j: nat :| j < |stages| && FoundSource(stages, s, j) && Role(stages[j]) in wanted {
      ByIdIsFound(stages, stages[j].id);
      assert Role(stages[j]) in UpstreamRoles(ById(stages), s) * wanted;
    }
  }

  lemma ConsumerErrorsAre(stages: seq<Stage>, s: Stage, wanted: set<string>, e: TopologyError)
    ensures e in ConsumerErrors(ById(stages), s, wanted) <==>
            || (e == NoUpstream(s.id) && s.sources == [])
            || (e == WrongUpstream(s.id) && s.sources != []
                && forall j: nat :: j < |stages| && FoundSource(stages, s, j) ==> Role(stages[j]) !in wanted)
            || (e == TooManySources(s.id, |s.sources|) && |s.sources| > 1)
  {
    hide Role, ById, UpstreamRoles, FoundSource;
    UpstreamIs(stages, s, wanted);
  }

  lemma StageErrorsAre(stages: seq<Stage>, s: Stage, e: TopologyError)
    ensures e in StageErrors(ById(stages), s) <==> BrokenAt(stages, s, e)
  {
    hide NormalizeStageRole, Role, ById, ConsumerErrors, SourceErrors, FoundSource;
    SourceErrorsAre(ById(stages), s.id, s.sources, e);
    if e.MissingSource? {
      ByIdIsFound(stages, e.source);
    }
    ConsumerErrorsAre(stages, s, {ENCODE, DENOISE}, e);
    ConsumerErrorsAre(stages, s, {DENOISE}, e);
  }

  lemma {:induction false} AllStageErrorsAre(byId: map<int, Stage>, stages: seq<Stage>, e: TopologyError)
    ensures e in AllStageErrors(byId, stages) <==> exists i :: 0 <= i < |stages| && e in StageErrors(byId, stages[i])
  {
    hide StageErrors;
    if stages == [] {
    } else {
      var n := |stages| - 1;
      AllStageErrorsAre(byId, stages[..n], e);
      if i :| 0 <= i < |stages| && e in StageErrors(byId, stages[i]) {
        assert i < n ==> stages[..n][i] == stages[i];
      }
      if i :| 0 <= i < n && e in StageErrors(byId, stages[..n][i]) {
        assert stages[i] == stages[..n][i];
      }
    }
  }

  lemma {:induction false} FinalsAreIndices(stages: seq<Stage>)
    ensures |Finals(stages)| == |FinalIndices(stages)|
    ensures forall i: nat | i in FinalIndices(stages) :: stages[i] in Finals(stages)
  {
    if stages == [] {
      assert FinalIndices(stages) == {};
    } else {
      var n := |stages| - 1;
      var rest := stages[..n];
      FinalsAreIndices(rest);
      assert FinalIndices(stages) == FinalIndices(rest) + if stages[n].finalOutput then {n} else {};
      forall i: nat | i in FinalIndices(stages)
        ensures stages[i] in Finals(stages)
      {
        assert i < n ==> i in FinalIndices(rest) && rest[i] == stages[i];
      }
    }
  }

  lemma FinalErrorsAre(stages: seq<Stage>, e: TopologyError)
    requires stages != []
    ensures e in FinalErrors(stages) <==> (e.FinalCount? || e.FinalNotDecode?) && Broken(stages, e)
  {
    hide Role;
    FinalsAreIndices(stages);
    var ix := FinalIndices(stages);
    if |ix| == 1 {
      var i: nat :| i in ix;
      OneIndex(ix, i);
      assert forall j: nat | j < |stages| :: j in ix <==> stages[j].finalOutput;
      assert stages[i] in Finals(stages);
      assert IsFinal(stages, i) && Finals(stages)[0] == stages[i];
    } else {
      forall i: nat
        ensures !IsFinal(stages, i)
      {
        OnlyIndex(stages, i);
      }
    }
  }

  lemma OnlyIndex(stages: seq<Stage>, i: nat)
    ensures IsFinal(stages, i) ==> FinalIndices(stages) == {i}
  {
  }

  lemma OneIndex(ix: set<nat>, i: nat)
    requires |ix| == 1 && i in ix
    ensures ix == {i}
  {
    assert |ix - {i}| == 0;
  }

  /** The report holds an error exactly where its rule is broken, whatever the stage list. */
  lemma ErrorIff(stages: seq<Stage>, e: TopologyError)
    ensures e in Errors(stages) <==> Broken(stages, e)
  {
    hide StageErrors, BrokenAt, Role, FinalErrors, Duplicates, AllStageErrors;
    if stages == [] {
      NothingBroken(e);
    } else {
      DuplicatesAre(stages, e);
      AllStageErrorsAre(ById(stages), stages, e);
      FinalErrorsAre(stages, e);
      forall i | 0 <= i < |stages|
        ensures e in StageErrors(ById(stages), stages[i]) <==> BrokenAt(stages, stages[i], e)
      {
        StageErrorsAre(stages, stages[i], e);
      }
      if e.NoStages? || e.DuplicateId? || e.FinalCount? || e.FinalNotDecode? {
        ByStageOnly(stages, e);
      }
    }
  }

  lemma NothingBroken(e: TopologyError)
    ensures Broken([], e) <==> e.NoStages?
  {
    hide Role;
  }

  lemma ByStageOnly(stages: seq<Stage>, e: TopologyError)
    requires e.NoStages? || e.DuplicateId? || e.FinalCount? || e.FinalNotDecode?
    ensures forall i | 0 <= i < |stages| :: !BrokenAt(stages, stages[i], e)
  {
  }
}
