/** Softmax attention over the reals: the direct definition, and the running
    (max, normaliser, accumulator) triple that the decode kernels keep instead. */
module OnlineSoftmax {

  /** A masked score is minus infinity; every other score is a real. */
  datatype Logit = NegInf | Fin(x: real)

  /** What one query head keeps while it streams over keys. */
  datatype Lane = Lane(m: Logit, l: real, acc: seq<real>)

  // ---- exponential -------------------------------------------------------

  ghost predicate MulLaw(e: real -> real, a: real, b: real) {
    e(a + b) == e(a) * e(b)
  }

  /** All the kernels need of `exp`: it is positive and turns sums into products
      (so exp(0) is 1). */
  ghost predicate IsExp(e: real -> real) {
    && (forall a :: e(a) > 0.0)
    && (forall a, b :: MulLaw(e, a, b))
  }

  /** exp(a - m).  `m` must be finite: -inf minus -inf would be NaN. */
  function Weight(e: real -> real, a: Logit, m: Logit): real
    requires m.Fin?
  {
    if a.NegInf? then 0.0 else e(a.x - m.x)
  }

  function MaxL(a: Logit, b: Logit): Logit {
    if a.NegInf? then b
    else if b.NegInf? then a
    else if a.x >= b.x then a else b
  }

  function MaxOf(s: seq<Logit>): Logit {
    if s == [] then NegInf else MaxL(MaxOf(s[..|s| - 1]), s[|s| - 1])
  }

  // ---- weighted sums relative to a reference score c ---------------------

  predicate Rows(vs: seq<seq<real>>, dim: nat) {
    forall j | 0 <= j < |vs| :: |vs[j]| == dim
  }

  function Norm(e: real -> real, s: seq<Logit>, c: real): real {
    if s == [] then 0.0
    else Norm(e, s[..|s| - 1], c) + Weight(e, s[|s| - 1], Fin(c))
  }

  function Moment(e: real -> real, s: seq<Logit>, vs: seq<seq<real>>, d: nat, c: real): real
    requires |s| == |vs|
    requires forall j | 0 <= j < |vs| :: d < |vs[j]|
  {
    if s == [] then 0.0
    else Moment(e, s[..|s| - 1], vs[..|s| - 1], d, c) + Weight(e, s[|s| - 1], Fin(c)) * vs[|s| - 1][d]
  }

  // ---- the direct definition ---------------------------------------------

  function SumExp(e: real -> real, scores: seq<real>): real {
    if scores == [] then 0.0
    else SumExp(e, scores[..|scores| - 1]) + e(scores[|scores| - 1])
  }

  function SumExpV(e: real -> real, scores: seq<real>, vals: seq<real>): real
    requires |scores| == |vals|
  {
    if scores == [] then 0.0
    else SumExpV(e, scores[..|scores| - 1], vals[..|scores| - 1])
         + e(scores[|scores| - 1]) * vals[|scores| - 1]
  }

  lemma {:induction false} SumExpPositive(e: real -> real, scores: seq<real>)
    requires IsExp(e) && scores != []
    ensures SumExp(e, scores) > 0.0
  {
    var n := |scores| - 1;
    var last := scores[n];
    assert e(last) > 0.0;
    if n == 0 {
      assert SumExp(e, scores[..n]) == 0.0;
    } else {
      SumExpPositive(e, scores[..n]);
    }
  }

  /** Softmax-weighted average of `vals`; 0 over an empty sequence. */
  function Attend(e: real -> real, scores: seq<real>, vals: seq<real>): real
    requires IsExp(e)
    requires |scores| == |vals|
  {
    if scores == [] then 0.0
    else
      SumExpPositive(e, scores);
      SumExpV(e, scores, vals) / SumExp(e, scores)
  }

  // ---- algebra of the sums -----------------------------------------------

  lemma WeightShift(e: real -> real, a: Logit, c: real, c': real)
    requires IsExp(e)
    ensures Weight(e, a, Fin(c')) == Weight(e, a, Fin(c)) * e(c - c')
  {
    if a.Fin? {
      assert MulLaw(e, a.x - c, c - c');
      assert (a.x - c) + (c - c') == a.x - c';
    }
  }

  lemma {:induction false} NormShift(e: real -> real, s: seq<Logit>, c: real, c': real)
    requires IsExp(e)
    ensures Norm(e, s, c') == Norm(e, s, c) * e(c - c')
  {
    if s == [] {
    } else {
      var t, a := s[..|s| - 1], s[|s| - 1];
      NormShift(e, t, c, c');
      WeightShift(e, a, c, c');
      Distribute(Norm(e, t, c), Weight(e, a, Fin(c)), e(c - c'));
    }
  }

  lemma {:induction false} MomentShift(e: real -> real, s: seq<Logit>, vs: seq<seq<real>>, d: nat, c: real, c': real)
    requires IsExp(e)
    requires |s| == |vs| && forall j | 0 <= j < |vs| :: d < |vs[j]|
    ensures Moment(e, s, vs, d, c') == Moment(e, s, vs, d, c) * e(c - c')
  {
    if s == [] {
    } else {
      var n := |s| - 1;
      var w, k, v := Weight(e, s[n], Fin(c)), e(c - c'), vs[n][d];
      MomentShift(e, s[..n], vs[..n], d, c, c');
      WeightShift(e, s[n], c, c');
      Distribute(Moment(e, s[..n], vs[..n], d, c), w * v, k);
      Commute3(w, v, k);
    }
  }

  lemma Distribute(a: real, b: real, k: real)
    ensures (a + b) * k == a * k + b * k
  {
  }

  lemma Commute3(w: real, v: real, k: real)
    ensures (w * v) * k == (w * k) * v
  {
  }

  lemma {:induction false} NormConcat(e: real -> real, s: seq<Logit>, t: seq<Logit>, c: real)
    ensures Norm(e, s + t, c) == Norm(e, s, c) + Norm(e, t, c)
  {
    if t == [] {
      assert s + t == s;
    } else {
      var n := |t| - 1;
      assert (s + t)[..|s + t| - 1] == s + t[..n];
      NormConcat(e, s, t[..n], c);
    }
  }

  lemma {:induction false} MomentConcat(e: real -> real, s: seq<Logit>, t: seq<Logit>,
                                        vs: seq<seq<real>>, ws: seq<seq<real>>, d: nat, c: real)
    requires |s| == |vs| && |t| == |ws|
    requires forall j | 0 <= j < |vs| :: d < |vs[j]|
    requires forall j | 0 <= j < |ws| :: d < |ws[j]|
    ensures Moment(e, s + t, vs + ws, d, c) == Moment(e, s, vs, d, c) + Moment(e, t, ws, d, c)
  {
    if t == [] {
      assert s + t == s && vs + ws == vs;
    } else {
      var n := |t| - 1;
      assert (s + t)[..|s + t| - 1] == s + t[..n];
      assert (vs + ws)[..|s + t| - 1] == vs + ws[..n];
      MomentConcat(e, s, t[..n], vs, ws[..n], d, c);
    }
  }

  lemma {:induction false} MaxConcat(s: seq<Logit>, t: seq<Logit>)
    ensures MaxOf(s + t) == MaxL(MaxOf(s), MaxOf(t))
  {
    if t == [] {
      assert s + t == s;
    } else {
      var n := |t| - 1;
      assert (s + t)[..|s + t| - 1] == s + t[..n];
      MaxConcat(s, t[..n]);
    }
  }

  lemma {:induction false} MaxOfFinite(s: seq<Logit>, j: nat)
    requires j < |s| && s[j].Fin?
    ensures MaxOf(s).Fin?
  {
    if j == |s| - 1 {
    } else {
      MaxOfFinite(s[..|s| - 1], j);
    }
  }

  lemma {:induction false} AllMasked(e: real -> real, s: seq<Logit>, vs: seq<seq<real>>, d: nat, c: real)
    requires MaxOf(s).NegInf?
    requires |s| == |vs| && forall j | 0 <= j < |vs| :: d < |vs[j]|
    ensures Norm(e, s, c) == 0.0 && Moment(e, s, vs, d, c) == 0.0
  {
    if s == [] {
    } else {
      AllMasked(e, s[..|s| - 1], vs[..|s| - 1], d, c);
    }
  }

  // ---- the running triple ------------------------------------------------

  /** `lane` is the exact state after streaming scores `s` with value rows `vs`. */
  ghost predicate Summarises(e: real -> real, lane: Lane, s: seq<Logit>, vs: seq<seq<real>>, dim: nat)
  {
    && |s| == |vs| && Rows(vs, dim) && |lane.acc| == dim
    && lane.m == MaxOf(s)
    && (lane.m.NegInf? ==> lane.l == 0.0 && forall d | 0 <= d < dim :: lane.acc[d] == 0.0)
    && (lane.m.Fin? ==>
          && lane.l == Norm(e, s, lane.m.x)
          && forall d | 0 <= d < dim :: lane.acc[d] == Moment(e, s, vs, d, lane.m.x))
  }

  function EmptyLane(dim: nat): Lane {
    Lane(NegInf, 0.0, seq(dim, _ => 0.0))
  }

  /** Contribution of a lane to sums taken relative to the finite score `m`. */
  lemma RescaledNorm(e: real -> real, lane: Lane, s: seq<Logit>, vs: seq<seq<real>>, dim: nat, m: Logit)
    requires IsExp(e) && m.Fin?
    requires Summarises(e, lane, s, vs, dim)
    ensures lane.l * Weight(e, lane.m, m) == Norm(e, s, m.x)
  {
    if lane.m.NegInf? {
      AllMasked'(e, s, m.x);
    } else {
      NormShift(e, s, lane.m.x, m.x);
    }
  }

  lemma RescaledMoment(e: real -> real, lane: Lane, s: seq<Logit>, vs: seq<seq<real>>, dim: nat, m: Logit, d: nat)
    requires IsExp(e) && m.Fin? && d < dim
    requires Summarises(e, lane, s, vs, dim)
    ensures lane.acc[d] * Weight(e, lane.m, m) == Moment(e, s, vs, d, m.x)
  {
    if lane.m.NegInf? {
      AllMasked(e, s, vs, d, m.x);
    } else {
      MomentShift(e, s, vs, d, lane.m.x, m.x);
    }
  }

  lemma {:induction false} AllMasked'(e: real -> real, s: seq<Logit>, c: real)
    requires MaxOf(s).NegInf?
    ensures Norm(e, s, c) == 0.0
  {
    if s == [] {
    } else {
      AllMasked'(e, s[..|s| - 1], c);
    }
  }

  /** One loop iteration of a decode kernel for one head: rescale by
      alpha = exp(m - m_new) and add the block's weights and weighted rows. */
  function Absorb(e: real -> real, lane: Lane, qk: seq<Logit>, vb: seq<seq<real>>, dim: nat): Lane
    requires |qk| == |vb| && Rows(vb, dim) && |lane.acc| == dim
    requires MaxL(lane.m, MaxOf(qk)).Fin?
  {
    var mNew := MaxL(lane.m, MaxOf(qk));
    var alpha := Weight(e, lane.m, mNew);
    Lane(mNew,
         lane.l * alpha + Norm(e, qk, mNew.x),
         seq(dim, d requires 0 <= d < dim => lane.acc[d] * alpha + Moment(e, qk, vb, d, mNew.x)))
  }

  lemma AbsorbMoment(e: real -> real, lane: Lane, s: seq<Logit>, vs: seq<seq<real>>,
                     qk: seq<Logit>, vb: seq<seq<real>>, dim: nat, mNew: Logit, d: nat)
    requires IsExp(e) && mNew.Fin? && d < dim
    requires Summarises(e, lane, s, vs, dim)
    requires |qk| == |vb| && Rows(vb, dim)
    ensures |lane.acc| == dim && |s + qk| == |vs + vb| && Rows(vs + vb, dim)
    ensures lane.acc[d] * Weight(e, lane.m, mNew) + Moment(e, qk, vb, d, mNew.x)
         == Moment(e, s + qk, vs + vb, d, mNew.x)
  {
    RescaledMoment(e, lane, s, vs, dim, mNew, d);
    MomentConcat(e, s, qk, vs, vb, d, mNew.x);
  }

  lemma AbsorbNorm(e: real -> real, lane: Lane, s: seq<Logit>, vs: seq<seq<real>>, qk: seq<Logit>, dim: nat, mNew: Logit)
    requires IsExp(e) && mNew.Fin?
    requires Summarises(e, lane, s, vs, dim)
    ensures lane.l * Weight(e, lane.m, mNew) + Norm(e, qk, mNew.x) == Norm(e, s + qk, mNew.x)
  {
    RescaledNorm(e, lane, s, vs, dim, mNew);
    NormConcat(e, s, qk, mNew.x);
  }

  lemma AbsorbSummarises(e: real -> real, lane: Lane, s: seq<Logit>, vs: seq<seq<real>>,
                         qk: seq<Logit>, vb: seq<seq<real>>, dim: nat)
    requires IsExp(e)
    requires Summarises(e, lane, s, vs, dim)
    requires |qk| == |vb| && Rows(vb, dim)
    requires MaxL(lane.m, MaxOf(qk)).Fin?
    ensures Summarises(e, Absorb(e, lane, qk, vb, dim), s + qk, vs + vb, dim)
  {
    hide Norm, Moment, Weight;
    var next := Absorb(e, lane, qk, vb, dim);
    MaxConcat(s, qk);
    AbsorbNorm(e, lane, s, vs, qk, dim, next.m);
    forall d | 0 <= d < dim
      ensures next.acc[d] == Moment(e, s + qk, vs + vb, d, next.m.x)
    {
      AbsorbMoment(e, lane, s, vs, qk, vb, dim, next.m, d);
    }
  }

  // ---- combining lanes of different splits --------------------------------

  /** `lane` holds the sums of `s` relative to its own, already final, maximum. */
  ghost predicate SumsAt(e: real -> real, lane: Lane, s: seq<Logit>, vs: seq<seq<real>>, dim: nat)
  {
    && |s| == |vs| && Rows(vs, dim) && |lane.acc| == dim && lane.m.Fin?
    && lane.l == Norm(e, s, lane.m.x)
    && forall d | 0 <= d < dim :: lane.acc[d] == Moment(e, s, vs, d, lane.m.x)
  }

  /** One iteration of the second combine loop for one head. */
  function AddSplit(e: real -> real, lane: Lane, part: Lane, dim: nat): Lane
    requires lane.m.Fin? && |lane.acc| == dim && |part.acc| == dim
  {
    var weight := Weight(e, part.m, lane.m);
    Lane(lane.m,
         lane.l + part.l * weight,
         seq(dim, d requires 0 <= d < dim => lane.acc[d] + part.acc[d] * weight))
  }

  lemma AddSplitSums(e: real -> real, lane: Lane, s: seq<Logit>, vs: seq<seq<real>>,
                     part: Lane, t: seq<Logit>, ws: seq<seq<real>>, dim: nat)
    requires IsExp(e)
    requires SumsAt(e, lane, s, vs, dim) && Summarises(e, part, t, ws, dim)
    ensures SumsAt(e, AddSplit(e, lane, part, dim), s + t, vs + ws, dim)
  {
    hide Norm, Moment, Weight;
    var next := AddSplit(e, lane, part, dim);
    RescaledNorm(e, part, t, ws, dim, lane.m);
    NormConcat(e, s, t, lane.m.x);
    forall d | 0 <= d < dim
      ensures next.acc[d] == Moment(e, s + t, vs + ws, d, lane.m.x)
    {
      AddSplitMoment(e, lane, s, vs, part, t, ws, dim, d);
    }
  }

  lemma AddSplitMoment(e: real -> real, lane: Lane, s: seq<Logit>, vs: seq<seq<real>>,
                       part: Lane, t: seq<Logit>, ws: seq<seq<real>>, dim: nat, d: nat)
    requires IsExp(e) && d < dim
    requires SumsAt(e, lane, s, vs, dim) && Summarises(e, part, t, ws, dim)
    ensures |s + t| == |vs + ws| && Rows(vs + ws, dim)
    ensures lane.acc[d] + part.acc[d] * Weight(e, part.m, lane.m) == Moment(e, s + t, vs + ws, d, lane.m.x)
  {
    RescaledMoment(e, part, t, ws, dim, lane.m, d);
    MomentConcat(e, s, t, vs, ws, d, lane.m.x);
  }

  /** The stored row: acc / l, or 0 when nothing was summed. */
  function Finish(lane: Lane, d: nat): real
    requires d < |lane.acc|
  {
    var denom := if lane.l > 0.0 then lane.l else 1.0;
    if lane.l > 0.0 then lane.acc[d] / denom else 0.0
  }

  // ---- from the triple back to the direct definition ---------------------

  /** `s` is `scores` followed by any number of masked columns. */
  predicate Padded(s: seq<Logit>, scores: seq<real>) {
    && |scores| <= |s|
    && (forall j | 0 <= j < |scores| :: s[j] == Fin(scores[j]))
    && (forall j | |scores| <= j < |s| :: s[j].NegInf?)
  }

  lemma {:induction false} PaddedSums(e: real -> real, s: seq<Logit>, vs: seq<seq<real>>, d: nat,
                                      scores: seq<real>, vals: seq<real>)
    requires |s| == |vs| && (forall j | 0 <= j < |vs| :: d < |vs[j]|)
    requires Padded(s, scores) && |vals| == |scores|
    requires forall j | 0 <= j < |vals| :: vals[j] == vs[j][d]
    ensures Norm(e, s, 0.0) == SumExp(e, scores)
    ensures Moment(e, s, vs, d, 0.0) == SumExpV(e, scores, vals)
  {
    if s == [] {
    } else {
      var n := |s| - 1;
      if |scores| == |s| {
        PaddedSums(e, s[..n], vs[..n], d, scores[..n], vals[..n]);
        assert scores[n] - 0.0 == scores[n];
      } else {
        PaddedSums(e, s[..n], vs[..n], d, scores, vals);
      }
    }
  }

  lemma RatioOfScaled(a: real, b: real, k: real, a': real, b': real)
    requires b > 0.0 && k > 0.0 && a' == a * k && b' == b * k
    ensures b' > 0.0 && a' / b' == a / b
  {
    var r := a / b;
    assert r * b == a;
    assert r * b' == (r * b) * k;
  }

  /** The one-pass triple refines softmax attention: whatever order of blocks led
      to `lane`, its stored row is the softmax average over the unmasked scores. */
  lemma FinishIsAttention(e: real -> real, lane: Lane, s: seq<Logit>, vs: seq<seq<real>>, dim: nat, d: nat,
                          scores: seq<real>, vals: seq<real>)
    requires IsExp(e) && d < dim
    requires Summarises(e, lane, s, vs, dim)
    requires Padded(s, scores) && |vals| == |scores|
    requires forall j | 0 <= j < |vals| :: vals[j] == vs[j][d]
    ensures Finish(lane, d) == Attend(e, scores, vals)
  {
    hide Norm, Moment, SumExp, SumExpV;
    PaddedSums(e, s, vs, d, scores, vals);
    if scores == [] {
      MaxOfMasked(s);
    } else {
      MaxOfFinite(s, 0);
      var m := lane.m.x;
      NormShift(e, s, 0.0, m);
      MomentShift(e, s, vs, d, 0.0, m);
      SumExpPositive(e, scores);
      var k := 0.0 - m;
      RatioOfScaled(SumExpV(e, scores, vals), SumExp(e, scores), e(k), lane.acc[d], lane.l);
    }
  }

  lemma {:induction false} MaxOfMasked(s: seq<Logit>)
    requires forall j | 0 <= j < |s| :: s[j].NegInf?
    ensures MaxOf(s).NegInf?
  {
    if s == [] {
    } else {
      MaxOfMasked(s[..|s| - 1]);
    }
  }

  // ---- columns that visit a token more than once ---------------------------

  /** A token counts as often as it is visited. */
  function CountedTotal(ws: seq<real>, visits: multiset<nat>): real {
    if ws == [] then 0.0
    else CountedTotal(ws[..|ws| - 1], visits) + visits[|ws| - 1] as real * ws[|ws| - 1]
  }

  function Exps(e: real -> real, scores: seq<real>): (ws: seq<real>)
    ensures |ws| == |scores|
  {
    seq(|scores|, t requires 0 <= t < |scores| => e(scores[t]))
  }

  function ExpsV(e: real -> real, scores: seq<real>, vals: seq<real>): (ws: seq<real>)
    requires |scores| == |vals|
    ensures |ws| == |scores|
  {
    seq(|scores|, t requires 0 <= t < |scores| => e(scores[t]) * vals[t])
  }

  /** Softmax average in which every token counts as often as it is visited; 0 if none is. */
  function CountedAttend(e: real -> real, scores: seq<real>, vals: seq<real>, visits: multiset<nat>): real
    requires |scores| == |vals|
  {
    var denom := CountedTotal(Exps(e, scores), visits);
    if denom > 0.0 then CountedTotal(ExpsV(e, scores, vals), visits) / denom else 0.0
  }

  /** Visiting every token once is plain attention. */
  lemma CountedOnce(e: real -> real, scores: seq<real>, vals: seq<real>, visits: multiset<nat>)
    requires IsExp(e) && |scores| == |vals|
    requires forall t: nat | t < |scores| :: visits[t] == 1
    ensures CountedAttend(e, scores, vals, visits) == Attend(e, scores, vals)
  {
    OnceSums(e, scores, vals, visits);
    if scores != [] {
      SumExpPositive(e, scores);
    }
  }

  lemma {:induction false} OnceSums(e: real -> real, scores: seq<real>, vals: seq<real>, visits: multiset<nat>)
    requires |scores| == |vals| && forall t: nat | t < |scores| :: visits[t] == 1
    ensures CountedTotal(Exps(e, scores), visits) == SumExp(e, scores)
    ensures CountedTotal(ExpsV(e, scores, vals), visits) == SumExpV(e, scores, vals)
  {
    if scores == [] {
    } else {
      var n := |scores| - 1;
      OnceSums(e, scores[..n], vals[..n], visits);
      ExpsFront(e, scores, vals, n);
    }
  }

  lemma ExpsFront(e: real -> real, scores: seq<real>, vals: seq<real>, n: nat)
    requires n <= |scores| == |vals|
    ensures Exps(e, scores)[..n] == Exps(e, scores[..n])
    ensures ExpsV(e, scores, vals)[..n] == ExpsV(e, scores[..n], vals[..n])
  {
    assert forall t | 0 <= t < n :: ExpsV(e, scores, vals)[..n][t] == e(scores[t]) * vals[t];
    assert forall t | 0 <= t < n :: ExpsV(e, scores[..n], vals[..n])[t] == e(scores[t]) * vals[t];
  }

  lemma {:induction false} AddVisit(ws: seq<real>, visits: multiset<nat>, t: nat)
    ensures CountedTotal(ws, visits + multiset{t}) == CountedTotal(ws, visits) + if t < |ws| then ws[t] else 0.0
  {
    if ws == [] {
    } else {
      var n := |ws| - 1;
      AddVisit(ws[..n], visits, t);
      OneMore(visits[n], ws[n]);
    }
  }

  lemma OneMore(n: nat, w: real)
    ensures (n + 1) as real * w == n as real * w + w
  {
  }

  function Picked(ws: seq<real>, visits: seq<nat>): real {
    if visits == [] then 0.0
    else
      var t := visits[|visits| - 1];
      Picked(ws, visits[..|visits| - 1]) + if t < |ws| then ws[t] else 0.0
  }

  lemma {:induction false} PickedIsCounted(ws: seq<real>, visits: seq<nat>)
    ensures Picked(ws, visits) == CountedTotal(ws, multiset(visits))
  {
    if visits == [] {
      NoVisits(ws);
    } else {
      var n := |visits| - 1;
      PickedIsCounted(ws, visits[..n]);
      assert visits == visits[..n] + [visits[n]];
      AddVisit(ws, multiset(visits[..n]), visits[n]);
    }
  }

  lemma {:induction false} NoVisits(ws: seq<real>)
    ensures CountedTotal(ws, multiset{}) == 0.0
  {
    if ws == [] {
    } else {
      NoVisits(ws[..|ws| - 1]);
    }
  }

  /** Column j of `s` and `vs` is token visits[j], or masked if there is no such token. */
  predicate Visiting(s: seq<Logit>, vs: seq<seq<real>>, visits: seq<nat>, d: nat, scores: seq<real>, vals: seq<real>)
    requires |scores| == |vals|
  {
    && |s| == |vs| == |visits|
    && (forall j | 0 <= j < |vs| :: d < |vs[j]|)
    && (forall j | 0 <= j < |s| :: s[j] == if visits[j] < |scores| then Fin(scores[visits[j]]) else NegInf)
    && (forall j | 0 <= j < |vs| :: visits[j] < |vals| ==> vs[j][d] == vals[visits[j]])
  }

  lemma {:induction false} NormIsPicked(e: real -> real, s: seq<Logit>, visits: seq<nat>, scores: seq<real>)
    requires |s| == |visits|
    requires forall j | 0 <= j < |s| :: s[j] == if visits[j] < |scores| then Fin(scores[visits[j]]) else NegInf
    ensures Norm(e, s, 0.0) == Picked(Exps(e, scores), visits)
  {
    if s == [] {
    } else {
      var n := |s| - 1;
      NormIsPicked(e, s[..n], visits[..n], scores);
      assert s[n].Fin? ==> s[n].x - 0.0 == s[n].x;
    }
  }

  lemma {:induction false} MomentIsPicked(e: real -> real, s: seq<Logit>, vs: seq<seq<real>>, visits: seq<nat>, d: nat,
                                          scores: seq<real>, vals: seq<real>)
    requires |scores| == |vals| && Visiting(s, vs, visits, d, scores, vals)
    ensures Moment(e, s, vs, d, 0.0) == Picked(ExpsV(e, scores, vals), visits)
  {
    if s == [] {
    } else {
      var n := |s| - 1;
      MomentIsPicked(e, s[..n], vs[..n], visits[..n], d, scores, vals);
      assert s[n].Fin? ==> s[n].x - 0.0 == s[n].x;
    }
  }

  lemma VisitSums(e: real -> real, s: seq<Logit>, vs: seq<seq<real>>, visits: seq<nat>, d: nat, scores: seq<real>, vals: seq<real>)
    requires |scores| == |vals| && Visiting(s, vs, visits, d, scores, vals)
    ensures Norm(e, s, 0.0) == CountedTotal(Exps(e, scores), multiset(visits))
    ensures Moment(e, s, vs, d, 0.0) == CountedTotal(ExpsV(e, scores, vals), multiset(visits))
  {
    hide Norm, Moment, Picked, CountedTotal, Exps, ExpsV;
    NormIsPicked(e, s, visits, scores);
    MomentIsPicked(e, s, vs, visits, d, scores, vals);
    PickedIsCounted(Exps(e, scores), visits);
    PickedIsCounted(ExpsV(e, scores, vals), visits);
  }

  lemma {:induction false} NormPositive(e: real -> real, s: seq<Logit>, c: real)
    requires IsExp(e)
    ensures Norm(e, s, c) >= 0.0 && (MaxOf(s).Fin? ==> Norm(e, s, c) > 0.0)
  {
    if s == [] {
    } else {
      NormPositive(e, s[..|s| - 1], c);
    }
  }

  /** Final sums over columns that visit tokens give the counted average. */
  lemma FinishIsCounted(e: real -> real, lane: Lane, s: seq<Logit>, vs: seq<seq<real>>, visits: seq<nat>, dim: nat, d: nat,
                        scores: seq<real>, vals: seq<real>)
    requires IsExp(e) && d < dim && |scores| == |vals|
    requires SumsAt(e, lane, s, vs, dim) && lane.m == MaxOf(s)
    requires Visiting(s, vs, visits, d, scores, vals)
    ensures Finish(lane, d) == CountedAttend(e, scores, vals, multiset(visits))
  {
    hide Visiting, CountedTotal, Exps, ExpsV, Norm, Moment;
    VisitSums(e, s, vs, visits, d, scores, vals);
    var m := lane.m.x;
    NormShift(e, s, 0.0, m);
    MomentShift(e, s, vs, d, 0.0, m);
    NormPositive(e, s, 0.0);
    RatioOfScaled(Moment(e, s, vs, d, 0.0), Norm(e, s, 0.0), e(0.0 - m), lane.acc[d], lane.l);
  }

  /** Columns that are all masked visit no token. */
  lemma NothingCounted(e: real -> real, s: seq<Logit>, vs: seq<seq<real>>, visits: seq<nat>, d: nat, scores: seq<real>, vals: seq<real>)
    requires |scores| == |vals| && Visiting(s, vs, visits, d, scores, vals) && MaxOf(s).NegInf?
    ensures CountedAttend(e, scores, vals, multiset(visits)) == 0.0
  {
    VisitSums(e, s, vs, visits, d, scores, vals);
    AllMasked'(e, s, 0.0);
  }
}
