/** What arrives under a key, read off the payloads sent and not off the accumulator. */
module OutputArrivals {
  import opened OutputAccumulation
  import opened OutputLedger
  import opened OutputDrain

  // ---- modality ----------------------------------------------------------------------------

  predicate IsUpper(c: char) { 'A' <= c <= 'Z' }

  predicate IsLower(c: char) { 'a' <= c <= 'z' }

  /** Equal but for the case of ASCII letters. */
  predicate SameButCase(s: string, t: string) {
    && |s| == |t|
    && forall i | 0 <= i < |s| ::
         || s[i] == t[i]
         || (IsUpper(s[i]) && IsLower(t[i]) && s[i] - 'A' == t[i] - 'a')
         || (IsLower(s[i]) && IsUpper(t[i]) && s[i] - 'a' == t[i] - 'A')
  }

  /** Lower-casing is the choice of the spelling without capitals. */
  lemma LowerIff(s: string, t: string)
    ensures t == Lower(s) <==> SameButCase(s, t) && forall i | 0 <= i < |t| :: !IsUpper(t[i])
  {
  }

  lemma AnyCase(s: string, t: string)
    requires SameButCase(s, t)
    ensures Lower(s) == Lower(t)
  {
  }

  /** The modality in force: that of the last payload that named one. */
  function Modality(ops: seq<Op>): string {
    if ops == [] then ""
    else
      var op := ops[|ops| - 1];
      if op.AddOp? && op.mmType != "" then Lower(op.mmType) else Modality(ops[..|ops| - 1])
  }

  lemma {:induction false} ModalityInForce(kind: Kind, ops: seq<Op>)
    ensures State(kind, ops).mmType == if Modality(ops) == "" then None else Some(Modality(ops))
  {
    hide Consolidate, Incoming, Merge, Lower;
    if ops == [] {
    } else {
      ModalityInForce(kind, ops[..|ops| - 1]);
      MergeKeepsType(State(kind, ops[..|ops| - 1]), ops[|ops| - 1]);
      ConsolidateKeepsType(State(kind, ops[..|ops| - 1]));
    }
  }

  lemma MergeKeepsType(a: Acc, op: Op)
    ensures op.AddOp? ==> Add(a, op.items, op.mmType).mmType == TypeAfter(a, op.mmType)
    ensures op.AddOp? && op.mmType != "" ==> Lower(op.mmType) != ""
  {
    hide Incoming;
  }

  lemma ConsolidateKeepsType(a: Acc)
    ensures Consolidate(a).mmType == a.mmType
  {
    hide Joined;
  }

  // ---- payloads ----------------------------------------------------------------------------

  /** The runners' own keys stand for the modality, "hidden" while none was named. */
  predicate IsProducerKey(k: string) {
    k == "hidden" || k == "model_outputs"
  }

  /** The item of a payload that lands under a key: the last of those sent for it. */
  predicate LandsAt(items: seq<(string, Value)>, modality: string, k: string, i: nat)
    requires i < |items|
  {
    && Destination(items[i].0, modality) == k
    && forall j | i < j < |items| :: Destination(items[j].0, modality) != k
  }

  function Destination(producer: string, modality: string): string {
    if !IsProducerKey(producer) then producer else if modality == "" then "hidden" else modality
  }

  function Sent(items: seq<(string, Value)>, modality: string, k: string): Option<Value> {
    if items == [] then None
    else if Destination(items[|items| - 1].0, modality) == k then Some(items[|items| - 1].1)
    else Sent(items[..|items| - 1], modality, k)
  }

  lemma LandsBefore(items: seq<(string, Value)>, modality: string, k: string, i: nat)
    requires i < |items| - 1
    ensures var n := |items| - 1;
            LandsAt(items, modality, k, i) <==> LandsAt(items[..n], modality, k, i) && Destination(items[n].0, modality) != k
  {
    hide Destination;
  }

  lemma {:induction false} LandingIsSent(items: seq<(string, Value)>, modality: string, k: string, i: nat)
    requires i < |items| && LandsAt(items, modality, k, i)
    ensures Sent(items, modality, k) == Some(items[i].1)
  {
    hide Destination, LandsAt;
    LandsLast(items, modality, k);
    if i == |items| - 1 {
    } else {
      LandsBefore(items, modality, k, i);
      LandingIsSent(items[..|items| - 1], modality, k, i);
    }
  }

  lemma {:induction false} SentLands(items: seq<(string, Value)>, modality: string, k: string) returns (i: nat)
    requires Sent(items, modality, k).Some?
    ensures i < |items| && LandsAt(items, modality, k, i)
  {
    hide Destination, LandsAt;
    var n := |items| - 1;
    LandsLast(items, modality, k);
    if Destination(items[n].0, modality) == k {
      i := n;
    } else {
      i := SentLands(items[..n], modality, k);
      LandsBefore(items, modality, k, i);
    }
  }

  /** Exactly the item that lands there is sent. */
  lemma SentIff(items: seq<(string, Value)>, modality: string, k: string, v: Value)
    ensures Sent(items, modality, k) == Some(v) <==> exists i: nat :: i < |items| && LandsAt(items, modality, k, i) && items[i].1 == v
  {
    hide Sent, LandsAt;
    if Sent(items, modality, k).Some? {
      var i := SentLands(items, modality, k);
      LandingIsSent(items, modality, k, i);
    }
    if i: nat :| i < |items| && LandsAt(items, modality, k, i) && items[i].1 == v {
      LandingIsSent(items, modality, k, i);
    }
  }

  lemma LandsLast(items: seq<(string, Value)>, modality: string, k: string)
    requires items != []
    ensures LandsAt(items, modality, k, |items| - 1) <==> Destination(items[|items| - 1].0, modality) == k
  {
  }

  lemma {:induction false} RemapIsSent(items: seq<(string, Value)>, modality: string, k: string)
    ensures var target := if modality == "" then "hidden" else modality;
            Sent(items, modality, k) == if k in Remap(items, target) then Some(Remap(items, target)[k]) else None
  {
    if items == [] {
    } else {
      RemapIsSent(items[..|items| - 1], modality, k);
    }
  }

  /** What arrived under a key is what the payloads sent there, whatever was joined, handed out
      or drained on the way. */
  function SentTo(ops: seq<Op>, k: string): seq<Value> {
    if ops == [] then []
    else
      var n := |ops| - 1;
      SentTo(ops[..n], k) +
      if ops[n].AddOp? && Sent(ops[n].items, Modality(ops), k).Some? then [Sent(ops[n].items, Modality(ops), k).value] else []
  }

  lemma BroughtIsSent(kind: Kind, ops: seq<Op>, op: Op, k: string)
    ensures Brought(State(kind, ops), op, k) == if op.AddOp? then Sent(op.items, Modality(ops + [op]), k) else None
  {
    hide Lower, State, Modality, Remap, Sent;
    ModalityInForce(kind, ops);
    if op.AddOp? {
      NextModality(ops, op);
      LowerEmpty(op.mmType);
      RemapIsSent(op.items, Modality(ops + [op]), k);
    }
  }

  lemma NextModality(ops: seq<Op>, op: Op)
    ensures Modality(ops + [op]) == if op.AddOp? && op.mmType != "" then Lower(op.mmType) else Modality(ops)
  {
    assert (ops + [op])[..|ops|] == ops;
  }

  lemma LowerEmpty(s: string)
    ensures Lower(s) == "" <==> s == ""
  {
  }

  lemma {:induction false} ArrivedIsSent(kind: Kind, ops: seq<Op>, k: string)
    ensures Arrived(kind, ops, k) == SentTo(ops, k)
  {
    hide Brought, State, Sent, Modality;
    if ops == [] {
    } else {
      var n := |ops| - 1;
      ArrivedIsSent(kind, ops[..n], k);
      BroughtIsSent(kind, ops[..n], ops[n], k);
      assert ops[..n] + [ops[n]] == ops;
    }
  }

  /** A runner's payload sent with a modality in any case arrives under the modality, and under
      no other key. */
  lemma ProducerArrives(kind: Kind, ops: seq<Op>, producer: string, v: Value, modality: string, name: string, k: string)
    requires IsProducerKey(producer) && SameButCase(modality, name) && name == Lower(name) && name != ""
    ensures SentTo(ops + [AddOp([(producer, v)], modality)], k) == SentTo(ops, k) + if k == name then [v] else []
  {
    hide Modality;
    var op := AddOp([(producer, v)], modality);
    AnyCase(modality, name);
    NextModality(ops, op);
    assert (ops + [op])[..|ops|] == ops;
    assert op.items[..0] == [];
    assert Sent(op.items, name, k) == if k == name then Some(v) else None;
    assert SentTo(ops, k) + [] == SentTo(ops, k);
  }

  // ---- deliveries, from what was sent -------------------------------------------------------

  /** In delta mode what was handed out under a drained key and what still waits are exactly
      the tensors sent there, in order, if and only if no step lost one. */
  lemma DeliversWhatWasSent(ops: seq<Op>, k: string)
    requires k in DRAINABLE && Countable(k, SentTo(ops, k))
    ensures Pieces(Emitted(Delta, ops), k) + Slices(ChunksAt(State(Delta, ops).tensors, k)) == Slices(TensorsIn(SentTo(ops, k)))
            <==> !LosesDrained(ops, k)
  {
    ArrivedIsSent(Delta, ops, k);
    DrainedOnceIff(ops, k);
  }

  lemma ConsolidateKeepsMeta(a: Acc)
    ensures Consolidate(a).metadata == a.metadata
  {
    hide Joined;
  }

  /** Every output handed out carries the last value that is not a tensor sent under a key. */
  lemma OutputShowsMetadata(kind: Kind, ops: seq<Op>, finished: bool, held: bool, k: string, id: int)
    ensures var out := Output(State(kind, ops), kind, finished, held).1;
            out.Some? ==> (k in out.value && out.value[k] == Meta(id) <==> Latest(SentTo(ops, k)) == Some(id))
  {
    hide Consolidate, State, Latest;
    ArrivedIsSent(kind, ops, k);
    MetadataIsLatest(kind, ops, k);
    ConsolidateKeepsMeta(State(kind, ops));
  }

  /** Of what is accumulated, an output handed out in delta mode takes audio and image away and
      nothing else. */
  lemma TakesAudioAndImage(a: Acc, finished: bool, k: string)
    requires k in a.tensors && a.tensors[k] != []
    ensures var a1 := Output(a, Delta, finished, false).0;
            && (k in a1.tensors <==> k != "audio" && k != "image")
            && (k in a1.tensors && !finished ==> a1.tensors[k] == a.tensors[k])
  {
    hide Joined;
  }
}
