/** Validation of an encode -> denoise -> decode topology, and what acceptance is worth. */
module DiffusionTopology {

  datatype Option<T> = None | Some(value: T)

  datatype Stage = Stage(id: int, modelStage: Option<string>, sources: seq<int>, finalOutput: bool)

  datatype TopologyError =
    | NoStages
    | DuplicateId(id: int)
    | SelfReference(id: int)
    | MissingSource(id: int, source: int)
    | EncodeHasSources(id: int)
    | NoUpstream(id: int)
    | WrongUpstream(id: int)
    | TooManySources(id: int, count: nat)
    | FinalCount(count: nat)
    | FinalNotDecode(id: int)

  const ENCODE := "encode"
  const DENOISE := "denoise"
  const DECODE := "decode"
  const MONOLITHIC := "diffusion"

  // ---- roles -------------------------------------------------------------------------

  predicate IsSpace(c: char) {
    var k := c as int;
    || 0x09 <= k <= 0x0d || 0x1c <= k <= 0x20 || k in {0x85, 0xa0, 0x1680}
    || 0x2000 <= k <= 0x200a || k in {0x2028, 0x2029, 0x202f, 0x205f, 0x3000}
  }

  function Strip(s: string): string {
    if s == "" then s
    else if IsSpace(s[0]) then Strip(s[1..])
    else if IsSpace(s[|s| - 1]) then Strip(s[..|s| - 1])
    else s
  }

  function NormalizeStageRole(modelStage: Option<string>): string {
    if modelStage.None? || Strip(modelStage.value) == "" then MONOLITHIC else Strip(modelStage.value)
  }

  function Role(s: Stage): string {
    NormalizeStageRole(s.modelStage)
  }

  /** A normalised role has no surrounding space, is never empty, and normalising it again
      changes nothing. */
  lemma {:induction false} RoleIsCanonical(modelStage: Option<string>)
    ensures var r := NormalizeStageRole(modelStage);
            r != "" && !IsSpace(r[0]) && !IsSpace(r[|r| - 1]) && NormalizeStageRole(Some(r)) == r
  {
    if modelStage.Some? {
      Stripped(modelStage.value);
    }
  }

  lemma {:induction false} Stripped(s: string)
    ensures var r := Strip(s); Strip(r) == r && (r != "" ==> !IsSpace(r[0]) && !IsSpace(r[|r| - 1]))
  {
    if s == "" {
    } else {
      if IsSpace(s[0]) {
        Stripped(s[1..]);
      } else if IsSpace(s[|s| - 1]) {
        Stripped(s[..|s| - 1]);
      }
    }
  }

  // ---- the validator, as a function of the stage list -------------------------------------

  function ById(stages: seq<Stage>): map<int, Stage> {
    if stages == [] then map[]
    else var last := stages[|stages| - 1]; ById(stages[..|stages| - 1])[last.id := last]
  }

  function Duplicates(stages: seq<Stage>): seq<TopologyError> {
    if stages == [] then []
    else
      var rest := stages[..|stages| - 1];
      var last := stages[|stages| - 1];
      Duplicates(rest) + if last.id in ById(rest) then [DuplicateId(last.id)] else []
  }

  function SourceErrors(byId: map<int, Stage>, id: int, sources: seq<int>): seq<TopologyError> {
    if sources == [] then []
    else
      var last := sources[|sources| - 1];
      SourceErrors(byId, id, sources[..|sources| - 1]) +
      if last == id then [SelfReference(id)]
      else if last !in byId then [MissingSource(id, last)]
      else []
  }

  function UpstreamRoles(byId: map<int, Stage>, s: Stage): set<string> {
    set src | src in s.sources && src in byId :: Role(byId[src])
  }

  /** Rules for a consumer that needs one upstream stage of a given kind. */
  function ConsumerErrors(byId: map<int, Stage>, s: Stage, wanted: set<string>): seq<TopologyError> {
    if s.sources == [] then [NoUpstream(s.id)]
    else
      (if UpstreamRoles(byId, s) * wanted == {} then [WrongUpstream(s.id)] else []) +
      (if |s.sources| > 1 then [TooManySources(s.id, |s.sources|)] else [])
  }

  function StageErrors(byId: map<int, Stage>, s: Stage): seq<TopologyError> {
    SourceErrors(byId, s.id, s.sources) +
    (if Role(s) == ENCODE && s.sources != [] then [EncodeHasSources(s.id)] else []) +
    (if Role(s) == DENOISE then ConsumerErrors(byId, s, {ENCODE, DENOISE}) else []) +
    (if Role(s) == DECODE then ConsumerErrors(byId, s, {DENOISE}) else [])
  }

  function AllStageErrors(byId: map<int, Stage>, stages: seq<Stage>): seq<TopologyError> {
    if stages == [] then []
    else AllStageErrors(byId, stages[..|stages| - 1]) + StageErrors(byId, stages[|stages| - 1])
  }

  function Finals(stages: seq<Stage>): seq<Stage> {
    if stages == [] then []
    else Finals(stages[..|stages| - 1]) + if stages[|stages| - 1].finalOutput then [stages[|stages| - 1]] else []
  }

  predicate HasDecode(stages: seq<Stage>) {
    exists i :: 0 <= i < |stages| && Role(stages[i]) == DECODE
  }

  function FinalErrors(stages: seq<Stage>): seq<TopologyError> {
    var finals := Finals(stages);
    if |finals| != 1 then [FinalCount(|finals|)]
    else if HasDecode(stages) && Role(finals[0]) != DECODE then [FinalNotDecode(finals[0].id)]
    else []
  }

  function Errors(stages: seq<Stage>): seq<TopologyError> {
    if stages == [] then [NoStages]
    else Duplicates(stages) + AllStageErrors(ById(stages), stages) + FinalErrors(stages)
  }

  method ValidateLinearDiffusionTopology(stages: seq<Stage>) returns (errors: seq<TopologyError>)
    ensures errors == Errors(stages)
    ensures errors == [] <==> Linear(stages)
  {
    hide StageErrors, FinalErrors, Role, Linear, ById, Duplicates;
    NoErrorsIffLinear(stages);
    if stages == [] {
      return [NoStages];
    }
    var byId;
    byId, errors := IndexStages(stages);
    for i := 0 to |stages|
      invariant errors == Duplicates(stages) + AllStageErrors(byId, stages[..i])
    {
      assert stages[..i + 1][..i] == stages[..i];
      var found := CheckStage(byId, stages[i]);
      errors := errors + found;
    }
    assert stages[..|stages|] == stages;
    errors := errors + FinalErrors(stages);
  }

  /** The last stage of each id, and the ids seen more than once. */
  method IndexStages(stages: seq<Stage>) returns (byId: map<int, Stage>, errors: seq<TopologyError>)
    ensures byId == ById(stages) && errors == Duplicates(stages)
  {
    byId, errors := map[], [];
    for i := 0 to |stages|
      invariant byId == ById(stages[..i]) && errors == Duplicates(stages[..i])
    {
      assert stages[..i + 1][..i] == stages[..i];
      if stages[i].id in byId {
        errors := errors + [DuplicateId(stages[i].id)];
      }
      byId := byId[stages[i].id := stages[i]];
    }
    assert stages[..|stages|] == stages;
  }

  method CheckStage(byId: map<int, Stage>, s: Stage) returns (errors: seq<TopologyError>)
    ensures errors == StageErrors(byId, s)
  {
    hide Role, ConsumerErrors;
    errors := [];
    for i := 0 to |s.sources|
      invariant errors == SourceErrors(byId, s.id, s.sources[..i])
    {
      var src := s.sources[i];
      assert s.sources[..i + 1][..i] == s.sources[..i];
      if src == s.id {
        errors := errors + [SelfReference(s.id)];
      } else if src !in byId {
        errors := errors + [MissingSource(s.id, src)];
      }
    }
    assert s.sources[..|s.sources|] == s.sources;
    if Role(s) == ENCODE && s.sources != [] {
      errors := errors + [EncodeHasSources(s.id)];
    }
    if Role(s) == DENOISE {
      errors := errors + ConsumerErrors(byId, s, {ENCODE, DENOISE});
    }
    if Role(s) == DECODE {
      errors := errors + ConsumerErrors(byId, s, {DENOISE});
    }
  }

  // ---- the rules, declaratively ------------------------------------------------------------

  /** Stage j is the upstream stage named by id. */
  predicate Names(stages: seq<Stage>, id: int, j: nat) {
    j < |stages| && stages[j].id == id
  }

  ghost predicate UniqueIds(stages: seq<Stage>) {
    forall i, j | 0 <= i < j < |stages| :: stages[i].id != stages[j].id
  }

  /** Every source names another stage. */
  ghost predicate SourcesNamed(stages: seq<Stage>, s: Stage) {
    forall k | 0 <= k < |s.sources| :: s.sources[k] != s.id && exists j: nat :: Names(stages, s.sources[k], j)
  }

  /** Encode stages are entries; a denoise stage has exactly one source, an encode or denoise
      stage; a decode stage has exactly one source, a denoise stage. */
  ghost predicate RoleLinked(stages: seq<Stage>, s: Stage) {
    && (Role(s) == ENCODE ==> s.sources == [])
    && (Role(s) == DENOISE ==>
          |s.sources| == 1 && exists j: nat :: Names(stages, s.sources[0], j) && Role(stages[j]) in {ENCODE, DENOISE})
    && (Role(s) == DECODE ==>
          |s.sources| == 1 && exists j: nat :: Names(stages, s.sources[0], j) && Role(stages[j]) == DENOISE)
  }

  ghost predicate IsOnlyFinal(stages: seq<Stage>, i: nat) {
    && i < |stages|
    && (forall j | 0 <= j < |stages| :: stages[j].finalOutput <==> j == i)
    && (HasDecode(stages) ==> Role(stages[i]) == DECODE)
  }

  ghost predicate Linear(stages: seq<Stage>) {
    && UniqueIds(stages)
    && (forall i | 0 <= i < |stages| :: SourcesNamed(stages, stages[i]) && RoleLinked(stages, stages[i]))
    && exists i: nat :: IsOnlyFinal(stages, i)
  }

  // ---- no errors exactly when the rules hold --------------------------------------------------

  lemma {:induction false} ByIdAt(stages: seq<Stage>, id: int)
    ensures (exists j: nat :: Names(stages, id, j)) ==> id in ById(stages)
    ensures id in ById(stages) ==> exists j: nat :: Names(stages, id, j) && ById(stages)[id] == stages[j]
  {
    if stages == [] {
    } else {
      var n := |stages| - 1;
      var rest := stages[..n];
      ByIdAt(rest, id);
      if id == stages[n].id {
        assert Names(stages, id, n);
      } else {
        if j: nat :| Names(stages, id, j) {
          assert rest[j] == stages[j];
          assert Names(rest, id, j);
        }
        if id in ById(rest) {
          var j: nat :| Names(rest, id, j) && ById(rest)[id] == rest[j];
          assert Names(stages, id, j);
        }
      }
    }
  }

  lemma ByIdLast(stages: seq<Stage>)
    ensures forall id :: id in ById(stages) <==> exists j: nat :: Names(stages, id, j)
    ensures forall id | id in ById(stages) :: exists j: nat :: Names(stages, id, j) && ById(stages)[id] == stages[j]
  {
    hide ById;
    forall id
      ensures id in ById(stages) <==> exists j: nat :: Names(stages, id, j)
      ensures id in ById(stages) ==> exists j: nat :: Names(stages, id, j) && ById(stages)[id] == stages[j]
    {
      ByIdAt(stages, id);
    }
  }

  lemma {:induction false} NoDuplicates(stages: seq<Stage>)
    ensures Duplicates(stages) == [] <==> UniqueIds(stages)
  {
    if stages == [] {
    } else {
      var n := |stages| - 1;
      var rest := stages[..n];
      NoDuplicates(rest);
      ByIdLast(rest);
      if stages[n].id !in ById(rest) && UniqueIds(rest) {
        forall i, j | 0 <= i < j < |stages|
          ensures stages[i].id != stages[j].id
        {
          assert Names(rest, stages[i].id, i);
        }
      }
      if j: nat :| Names(rest, stages[n].id, j) {
        assert stages[j].id == stages[n].id;
      }
    }
  }

  lemma {:induction false} NoSourceErrors(byId: map<int, Stage>, id: int, sources: seq<int>)
    ensures SourceErrors(byId, id, sources) == [] <==>
            forall k | 0 <= k < |sources| :: sources[k] != id && sources[k] in byId
  {
    if sources == [] {
    } else {
      NoSourceErrors(byId, id, sources[..|sources| - 1]);
    }
  }

  lemma {:induction false} NoStageErrors(byId: map<int, Stage>, stages: seq<Stage>)
    ensures AllStageErrors(byId, stages) == [] <==> forall i | 0 <= i < |stages| :: StageErrors(byId, stages[i]) == []
  {
    hide StageErrors;
    if stages == [] {
    } else {
      NoStageErrors(byId, stages[..|stages| - 1]);
    }
  }

  lemma {:induction false} FinalsAre(stages: seq<Stage>)
    ensures |Finals(stages)| == 0 <==> forall j | 0 <= j < |stages| :: !stages[j].finalOutput
    ensures |Finals(stages)| == 1 <==> exists i: nat :: OnlyFinal(stages, i)
    ensures |Finals(stages)| == 1 ==> exists i: nat :: OnlyFinal(stages, i) && Finals(stages)[0] == stages[i]
  {
    if stages == [] {
    } else {
      var n := |stages| - 1;
      var rest := stages[..n];
      FinalsAre(rest);
      if stages[n].finalOutput {
        if |Finals(rest)| == 0 {
          assert OnlyFinal(stages, n);
        }
        if i: nat :| OnlyFinal(stages, i) {
          assert i == n;
        }
      } else {
        if |Finals(rest)| == 1 {
          var i: nat :| OnlyFinal(rest, i) && Finals(rest)[0] == rest[i];
          assert OnlyFinal(stages, i);
        }
        if i: nat :| OnlyFinal(stages, i) {
          assert OnlyFinal(rest, i);
        }
      }
    }
  }

  ghost predicate OnlyFinal(stages: seq<Stage>, i: nat) {
    i < |stages| && forall j | 0 <= j < |stages| :: stages[j].finalOutput <==> j == i
  }

  lemma FinalPlaced(stages: seq<Stage>)
    ensures FinalErrors(stages) == [] <==> exists i: nat :: IsOnlyFinal(stages, i)
  {
    hide Finals, Role;
    FinalsAre(stages);
    if |Finals(stages)| == 1 {
      var i: nat :| OnlyFinal(stages, i) && Finals(stages)[0] == stages[i];
      if FinalErrors(stages) == [] {
        assert IsOnlyFinal(stages, i);
      }
      if k: nat :| IsOnlyFinal(stages, k) {
        assert stages[k].finalOutput;
      }
    }
    if k: nat :| IsOnlyFinal(stages, k) {
      assert OnlyFinal(stages, k);
    }
  }

  /** With distinct ids the upstream roles of a single source are those of the stage it names. */
  lemma OneSource(stages: seq<Stage>, s: Stage, wanted: set<string>)
    requires UniqueIds(stages)
    requires forall k | 0 <= k < |s.sources| :: s.sources[k] in ById(stages)
    ensures ConsumerErrors(ById(stages), s, wanted) == [] <==>
            |s.sources| == 1 && exists j: nat :: Names(stages, s.sources[0], j) && Role(stages[j]) in wanted
  {
    hide Role, ById;
    ByIdLast(stages);
    var byId := ById(stages);
    if |s.sources| == 1 {
      var j: nat :| Names(stages, s.sources[0], j) && byId[s.sources[0]] == stages[j];
      assert UpstreamRoles(byId, s) == {Role(stages[j])} by {
        assert s.sources[0] in s.sources && s.sources[0] in byId;
        assert Role(byId[s.sources[0]]) in UpstreamRoles(byId, s);
      }
      assert forall k: nat | Names(stages, s.sources[0], k) :: k == j;
      var r := Role(stages[j]);
      assert r in wanted ==> r in {r} * wanted;
    }
  }

  lemma SourceErrorsNamed(stages: seq<Stage>, s: Stage)
    ensures SourceErrors(ById(stages), s.id, s.sources) == [] <==> SourcesNamed(stages, s)
    ensures SourcesNamed(stages, s) ==> forall k | 0 <= k < |s.sources| :: s.sources[k] in ById(stages)
  {
    hide ById;
    ByIdLast(stages);
    NoSourceErrors(ById(stages), s.id, s.sources);
    if SourceErrors(ById(stages), s.id, s.sources) == [] {
      forall k | 0 <= k < |s.sources|
        ensures exists j: nat :: Names(stages, s.sources[k], j)
      {
        assert s.sources[k] in ById(stages);
        var j: nat :| Names(stages, s.sources[k], j);
      }
    }
    if SourcesNamed(stages, s) {
      forall k | 0 <= k < |s.sources|
        ensures s.sources[k] in ById(stages)
      {
        var j: nat :| Names(stages, s.sources[k], j);
      }
    }
  }

  lemma StageLinked(stages: seq<Stage>, s: Stage)
    requires UniqueIds(stages)
    ensures StageErrors(ById(stages), s) == [] <==>
            SourcesNamed(stages, s) && RoleLinked(stages, s)
  {
    hide Role, ById, ConsumerErrors, UniqueIds, SourceErrors, SourcesNamed, Names;
    SourceErrorsNamed(stages, s);
    if SourceErrors(ById(stages), s.id, s.sources) == [] {
      OneSource(stages, s, {ENCODE, DENOISE});
      OneSource(stages, s, {DENOISE});
    }
  }

  /** The validator reports no error exactly when the stage list meets the declared rules. */
  lemma NoErrorsIffLinear(stages: seq<Stage>)
    ensures Errors(stages) == [] <==> Linear(stages)
  {
    hide StageErrors, RoleLinked, SourcesNamed, FinalErrors, ById, Duplicates, AllStageErrors, UniqueIds, IsOnlyFinal;
    NoDuplicates(stages);
    FinalPlaced(stages);
    NoStageErrors(ById(stages), stages);
    if UniqueIds(stages) {
      forall i | 0 <= i < |stages|
        ensures StageErrors(ById(stages), stages[i]) == [] <==> SourcesNamed(stages, stages[i]) && RoleLinked(stages, stages[i])
      {
        StageLinked(stages, stages[i]);
      }
    }
    NoneIsFinal(stages);
  }

  lemma NoneIsFinal(stages: seq<Stage>)
    ensures stages == [] ==> !exists i: nat :: IsOnlyFinal(stages, i)
  {
  }

  // ---- walking upstream --------------------------------------------------------------------

  predicate Consumer(stages: seq<Stage>, i: nat) {
    i < |stages| && Role(stages[i]) in {DENOISE, DECODE}
  }

  /** The stage a consumer takes its input from. */
  ghost function Up(stages: seq<Stage>, i: nat): (j: nat)
    requires Linear(stages) && Consumer(stages, i)
    ensures j < |stages| && j != i && stages[i].sources == [stages[j].id]
    ensures Role(stages[i]) == DECODE ==> Role(stages[j]) == DENOISE
    ensures Role(stages[i]) == DENOISE ==> Role(stages[j]) in {ENCODE, DENOISE}
  {
    assert RoleLinked(stages, stages[i]);
    assert stages[i].sources[0] != stages[i].id;
    var j: nat :| Names(stages, stages[i].sources[0], j) && Role(stages[j]) in {ENCODE, DENOISE}
                  && (Role(stages[i]) == DECODE ==> Role(stages[j]) == DENOISE);
    j
  }

  predicate Traced(stages: seq<Stage>, i: nat) {
    i < |stages| && Role(stages[i]) in {ENCODE, DENOISE, DECODE}
  }

  /** The stage k source links upstream of i; an encode stage ends the walk. */
  ghost function At(stages: seq<Stage>, i: nat, k: nat): (j: nat)
    requires Linear(stages) && Traced(stages, i)
    ensures Traced(stages, j)
    ensures k > 0 ==> Role(stages[j]) != DECODE
  {
    if k == 0 then i
    else var j := At(stages, i, k - 1); if Role(stages[j]) == ENCODE then j else Up(stages, j)
  }

  lemma {:induction false} AtShift(stages: seq<Stage>, i: nat, k: nat)
    requires Linear(stages) && Consumer(stages, i)
    ensures At(stages, Up(stages, i), k) == At(stages, i, k + 1)
  {
    hide Linear, Role;
    if k == 0 {
    } else {
      AtShift(stages, i, k - 1);
    }
  }

  /** Once at an encode stage, always there. */
  lemma {:induction false} AtEnds(stages: seq<Stage>, i: nat, k: nat, n: nat)
    requires Linear(stages) && Traced(stages, i) && k <= n
    requires Role(stages[At(stages, i, k)]) == ENCODE
    ensures At(stages, i, n) == At(stages, i, k)
    decreases n
  {
    hide Linear, Role;
    if k == n {
    } else {
      AtEnds(stages, i, k, n - 1);
    }
  }

  lemma {:induction false} BelowBound(a: set<nat>, bound: nat)
    requires forall x | x in a :: x < bound
    ensures |a| <= bound
  {
    if bound == 0 {
      assert a == {};
    } else {
      BelowBound(a - {bound - 1}, bound - 1);
    }
  }

  /** More values than slots: two of them agree. */
  lemma Pigeonhole(values: seq<nat>, bound: nat)
    requires |values| > bound && forall i | 0 <= i < |values| :: values[i] < bound
    ensures exists a, b :: 0 <= a < b < |values| && values[a] == values[b]
  {
    if forall a, b | 0 <= a < b < |values| :: values[a] != values[b] {
      CountDistinct(values);
      BelowBound(set i | 0 <= i < |values| :: values[i], bound);
    }
  }

  lemma {:induction false} CountDistinct(values: seq<nat>)
    requires forall i, j | 0 <= i < j < |values| :: values[i] != values[j]
    ensures |set i | 0 <= i < |values| :: values[i]| == |values|
  {
    if values == [] {
    } else {
      var n := |values| - 1;
      CountDistinct(values[..n]);
      assert (set i | 0 <= i < |values| :: values[i]) ==
             (set i | 0 <= i < n :: values[..n][i]) + {values[n]};
    }
  }

  /** From a decode stage of an accepted topology the unique source links lead through denoise
      stages only, and within as many links as there are stages either end at an encode entry
      or come back to a denoise stage already passed. */
  lemma DecodePath(stages: seq<Stage>, i: nat)
    requires Linear(stages) && i < |stages| && Role(stages[i]) == DECODE
    ensures forall k: nat | 0 < k :: Role(stages[At(stages, i, k)]) in {ENCODE, DENOISE}
    ensures var n := |stages|;
            || (Role(stages[At(stages, i, n)]) == ENCODE && stages[At(stages, i, n)].sources == [])
            || exists a, b: nat :: 1 <= a < b <= n && At(stages, i, a) == At(stages, i, b) && Role(stages[At(stages, i, a)]) == DENOISE
  {
    hide Role, Linear;
    var n := |stages|;
    var end := At(stages, i, n);
    if Role(stages[end]) == ENCODE {
      EncodeIsEntry(stages, end);
    } else {
      var a, b := Revisits(stages, i);
      if Role(stages[At(stages, i, a)]) == ENCODE {
        AtEnds(stages, i, a, n);
      }
    }
  }

  lemma EncodeIsEntry(stages: seq<Stage>, i: nat)
    requires Linear(stages) && i < |stages| && Role(stages[i]) == ENCODE
    ensures stages[i].sources == []
  {
    assert RoleLinked(stages, stages[i]);
  }

  lemma Revisits(stages: seq<Stage>, i: nat) returns (a: nat, b: nat)
    requires Linear(stages) && Traced(stages, i)
    ensures a < b <= |stages| && At(stages, i, a) == At(stages, i, b)
  {
    hide Role, Linear;
    var n := |stages|;
    var walk := seq(n + 1, k requires 0 <= k < n + 1 => At(stages, i, k));
    Pigeonhole(walk, n);
    a, b :| 0 <= a < b < |walk| && walk[a] == walk[b];
  }

  // ---- which accepted topologies reach an encode stage ---------------------------------------

  /** The source links of denoise and decode stages run downhill in `rank`. */
  ghost predicate Ranked(stages: seq<Stage>, rank: seq<nat>) {
    |rank| == |stages| &&
    forall i, j | 0 <= i < |stages| && 0 <= j < |stages| && Consumer(stages, i) && stages[i].sources == [stages[j].id] ::
      rank[j] < rank[i]
  }

  ghost predicate Acyclic(stages: seq<Stage>) {
    exists rank: seq<nat> :: Ranked(stages, rank)
  }

  ghost predicate ReachesEncode(stages: seq<Stage>, i: nat)
    requires Linear(stages) && Traced(stages, i)
  {
    Role(stages[At(stages, i, |stages|)]) == ENCODE
  }

  lemma {:induction false} RankFalls(stages: seq<Stage>, rank: seq<nat>, i: nat, a: nat, b: nat)
    requires Linear(stages) && Ranked(stages, rank) && Traced(stages, i) && a < b
    requires forall k: nat | k < b :: Role(stages[At(stages, i, k)]) != ENCODE
    ensures rank[At(stages, i, b)] < rank[At(stages, i, a)]
    decreases b
  {
    hide Linear, Role;
    var j := At(stages, i, b - 1);
    assert Role(stages[j]) != ENCODE;
    assert stages[j].sources == [stages[Up(stages, j)].id];
    assert rank[At(stages, i, b)] < rank[j];
    if a >= b - 1 {
    } else {
      RankFalls(stages, rank, i, a, b - 1);
    }
  }

  lemma RankedReaches(stages: seq<Stage>, rank: seq<nat>, i: nat)
    requires Linear(stages) && Ranked(stages, rank) && Traced(stages, i)
    ensures ReachesEncode(stages, i)
  {
    hide Role, Ranked, Linear;
    var n := |stages|;
    if Role(stages[At(stages, i, n)]) != ENCODE {
      forall k: nat | k <= n
        ensures Role(stages[At(stages, i, k)]) != ENCODE
      {
        if Role(stages[At(stages, i, k)]) == ENCODE {
          AtEnds(stages, i, k, n);
        }
      }
      var a, b := Revisits(stages, i);
      RankFalls(stages, rank, i, a, b);
    }
  }

  ghost function Distance(stages: seq<Stage>, i: nat, fuel: nat): nat
    requires Linear(stages) && Traced(stages, i)
    decreases fuel
  {
    if fuel == 0 || Role(stages[i]) == ENCODE then 0 else 1 + Distance(stages, Up(stages, i), fuel - 1)
  }

  lemma {:induction false} DistanceStable(stages: seq<Stage>, i: nat, fuel: nat)
    requires Linear(stages) && Traced(stages, i) && Role(stages[At(stages, i, fuel)]) == ENCODE
    ensures Distance(stages, i, fuel + 1) == Distance(stages, i, fuel)
    decreases fuel
  {
    hide Linear, Role;
    if fuel == 0 || Role(stages[i]) == ENCODE {
    } else {
      AtShift(stages, i, fuel - 1);
      DistanceStable(stages, Up(stages, i), fuel - 1);
    }
  }

  /** An accepted topology leads every denoise and decode stage back to an encode entry
      exactly when its links are acyclic.  The validator does not check that. */
  lemma ReachesEncodeIffAcyclic(stages: seq<Stage>)
    requires Linear(stages)
    ensures Acyclic(stages) <==> forall i: nat | Consumer(stages, i) :: ReachesEncode(stages, i)
  {
    hide Role;
    var n := |stages|;
    if rank: seq<nat> :| Ranked(stages, rank) {
      forall i: nat | Consumer(stages, i)
        ensures ReachesEncode(stages, i)
      {
        RankedReaches(stages, rank, i);
      }
    }
    if forall i: nat | Consumer(stages, i) :: ReachesEncode(stages, i) {
      var rank := seq(n, i requires 0 <= i < n => if Traced(stages, i) then Distance(stages, i, n) else 0);
      forall i, j | 0 <= i < n && 0 <= j < n && Consumer(stages, i) && stages[i].sources == [stages[j].id]
        ensures rank[j] < rank[i]
      {
        CloserToEncode(stages, i, j);
      }
      assert Ranked(stages, rank);
    }
  }

  lemma UpIs(stages: seq<Stage>, i: nat, j: nat)
    requires Linear(stages) && Consumer(stages, i) && j < |stages| && stages[i].sources == [stages[j].id]
    ensures Up(stages, i) == j
  {
    hide Role, SourcesNamed;
    var u := Up(stages, i);
    assert [stages[u].id][0] == [stages[j].id][0];
  }

  lemma CloserToEncode(stages: seq<Stage>, i: nat, j: nat)
    requires Linear(stages) && Consumer(stages, i) && j < |stages| && stages[i].sources == [stages[j].id]
    requires ReachesEncode(stages, i)
    ensures Traced(stages, j) && Distance(stages, j, |stages|) < Distance(stages, i, |stages|)
  {
    hide Role, Linear;
    var n := |stages|;
    UpIs(stages, i, j);
    AtShift(stages, i, n - 1);
    DistanceStable(stages, j, n - 1);
  }

  /** Two denoise stages feeding each other, with no encode stage at all, are accepted. */
  lemma CycleAccepted()
    ensures var stages := [Stage(0, Some(DENOISE), [1], false), Stage(1, Some(DENOISE), [0], false), Stage(2, Some(DECODE), [0], true)];
            Errors(stages) == [] && (forall i | 0 <= i < |stages| :: Role(stages[i]) != ENCODE) && !Acyclic(stages)
  {
    var stages := [Stage(0, Some(DENOISE), [1], false), Stage(1, Some(DENOISE), [0], false), Stage(2, Some(DECODE), [0], true)];
    RoleOf(stages[0]);
    RoleOf(stages[1]);
    RoleOf(stages[2]);
    assert Linear(stages) by {
      hide Role;
      assert Names(stages, 1, 1) && Names(stages, 0, 0);
      assert IsOnlyFinal(stages, 2);
    }
    NoErrorsIffLinear(stages);
    assert Consumer(stages, 0) && Consumer(stages, 1);
  }

  lemma RoleOf(s: Stage)
    requires s.modelStage in {Some(DENOISE), Some(DECODE)}
    ensures Role(s) == s.modelStage.value
  {
  }
}
