/** Runs as sequences of handler calls. */
module OrchestratorRuns {
  import opened CfgTracker
  import opened OrchestratorSpec

  lemma {:induction false} RunSplit(cfg: Config, s: Sys, a: seq<Call>, b: seq<Call>)
    ensures Run(cfg, s, a + b) == Run(cfg, Run(cfg, s, a), b)
    decreases |a|
  {
    if a == [] {
      assert a + b == b;
    } else {
      assert (a + b)[0] == a[0] && (a + b)[1..] == a[1..] + b;
      RunSplit(cfg, Step(cfg, s, a[0]), a[1..], b);
    }
  }

  lemma RunOne(cfg: Config, s: Sys, calls: seq<Call>, c: Call)
    ensures Run(cfg, s, calls + [c]) == Step(cfg, Run(cfg, s, calls), c)
  {
    var r := Run(cfg, s, calls);
    RunSplit(cfg, s, calls, [c]);
    assert [c][1..] == [];
    assert Run(cfg, Step(cfg, r, c), []) == Step(cfg, r, c);
  }

  /** Handler calls for a batch of processed outputs, each with its next-stage input count. */
  function OutputCalls(stage: nat, outs: seq<(Output, nat)>): (calls: seq<Call>)
    ensures |calls| == |outs|
  {
    seq(|outs|, i requires 0 <= i < |outs| => StageOutput(stage, outs[i].0, outs[i].1))
  }

  function KvReadyCalls(stage: nat, outs: seq<(Output, nat)>): (calls: seq<Call>)
    ensures |calls| == |outs|
  {
    seq(|outs|, i requires 0 <= i < |outs| => KvReady(stage, outs[i].0, outs[i].1))
  }
}
