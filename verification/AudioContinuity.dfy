/** Streaming-audio underrun metric: a player consumes at a constant rate from the first
    chunk on, and the metric is the worst time it is starved. */
module AudioContinuity {

  datatype ContinuityStats = ContinuityStats(maxUnderrun: real, underrunEvents: nat, isContinuous: bool)

  function BytesPerSecond(sampleRate: int, sampleWidth: int, channels: int): int {
    sampleRate * sampleWidth * channels
  }

  function Sum(bytes: seq<int>): int {
    if bytes == [] then 0 else Sum(bytes[..|bytes| - 1]) + bytes[|bytes| - 1]
  }

  /** Bytes played in a time span, and the time a number of bytes lasts. */
  function Played(span: real, rate: real): real {
    span * rate
  }

  function Seconds(bytes: real, rate: real): real
    requires rate > 0.0
  {
    bytes / rate
  }

  /** Seconds the player is short of when chunk i arrives, counting only the chunks before it. */
  function Deficit(times: seq<real>, bytes: seq<int>, rate: real, i: nat): real
    requires i < |times| == |bytes| && rate > 0.0
  {
    Seconds(Played(times[i] - times[0], rate) - Sum(bytes[..i]) as real, rate)
  }

  /** Gaps among the first n chunks. */
  function Gaps(times: seq<real>, bytes: seq<int>, rate: real, n: nat): (g: nat)
    requires n <= |times| == |bytes| && rate > 0.0
  {
    if n <= 1 then 0 else Gaps(times, bytes, rate, n - 1) + if Deficit(times, bytes, rate, n - 1) > 0.0 then 1 else 0
  }

  method ComputeContinuityStats(times: seq<real>, bytes: seq<int>, sampleRate: int, sampleWidth: int, channels: int, threshold: real)
    returns (stats: ContinuityStats)
    ensures var rate := BytesPerSecond(sampleRate, sampleWidth, channels);
            |times| == 0 || |times| != |bytes| || rate <= 0 ==> stats == ContinuityStats(0.0, 0, true)
    ensures var rate := BytesPerSecond(sampleRate, sampleWidth, channels);
            0 < |times| == |bytes| && rate > 0 ==>
              && IsWorst(times, bytes, rate as real, stats.maxUnderrun)
              && stats.underrunEvents == Gaps(times, bytes, rate as real, |times|)
              && (stats.isContinuous <==> stats.maxUnderrun <= threshold)
  {
    hide Played, Seconds, BytesPerSecond;
    var n := |times|;
    if n == 0 || n != |bytes| {
      return ContinuityStats(0.0, 0, true);
    }
    var rate := BytesPerSecond(sampleRate, sampleWidth, channels);
    if rate <= 0 {
      return ContinuityStats(0.0, 0, true);
    }
    var bytesPerSecond := rate as real;
    var received, worst, events := 0, 0.0, 0;
    for i := 0 to n
      invariant received == Sum(bytes[..i])
      invariant events == Gaps(times, bytes, bytesPerSecond, i)
      invariant worst >= 0.0 && forall k | 1 <= k < i :: Deficit(times, bytes, bytesPerSecond, k) <= worst
      invariant worst == 0.0 || exists k :: 1 <= k < i && Deficit(times, bytes, bytesPerSecond, k) == worst
    {
      if i > 0 {
        var deficitBytes := Played(times[i] - times[0], bytesPerSecond) - received as real;
        Sign(deficitBytes, bytesPerSecond);
        assert Seconds(deficitBytes, bytesPerSecond) == Deficit(times, bytes, bytesPerSecond, i);
        if deficitBytes > 0.0 {
          var deficit := Seconds(deficitBytes, bytesPerSecond);
          if deficit > worst {
            worst := deficit;
          }
          events := events + 1;
        }
      }
      assert bytes[..i + 1][..i] == bytes[..i];
      received := received + bytes[i];
    }
    return ContinuityStats(worst, events, worst <= threshold);
  }

  lemma Sign(x: real, rate: real)
    requires rate > 0.0
    ensures Seconds(x, rate) > 0.0 <==> x > 0.0
  {
    assert x / rate * rate == x;
  }

  /** The rate is that of the samples: n of them on every channel last n / sampleRate seconds. */
  lemma RateOfSamples(samples: nat, sampleRate: int, sampleWidth: int, channels: int)
    requires sampleRate > 0 && sampleWidth > 0 && channels > 0
    ensures BytesPerSecond(sampleRate, sampleWidth, channels) > 0
    ensures Seconds((samples * sampleWidth * channels) as real, BytesPerSecond(sampleRate, sampleWidth, channels) as real)
         == samples as real / sampleRate as real
  {
    var frame := sampleWidth * channels;
    Positive(sampleWidth, channels);
    Positive(sampleRate, frame);
    assert BytesPerSecond(sampleRate, sampleWidth, channels) == sampleRate * frame by {
      assert sampleRate * sampleWidth * channels == sampleRate * (sampleWidth * channels);
    }
    assert samples * sampleWidth * channels == samples * frame;
    SameRatio(samples, sampleRate, frame);
  }

  lemma Positive(a: int, b: int)
    requires a > 0 && b > 0
    ensures a * b > 0
  {
  }

  lemma SameRatio(a: nat, b: nat, k: nat)
    requires b > 0 && k > 0 && b * k > 0
    ensures (a * k) as real / (b * k) as real == a as real / b as real
  {
    var q := a as real / b as real;
    assert q * b as real == a as real;
    assert (a * k) as real == a as real * k as real && (b * k) as real == b as real * k as real;
    assert q * (b * k) as real == (q * b as real) * k as real;
  }

  /** The chunks among the first n before which the player ran dry. */
  function Starved(times: seq<real>, bytes: seq<int>, rate: real, n: nat): set<nat>
    requires n <= |times| == |bytes|
  {
    set k: nat | 1 <= k < n && Played(times[k] - times[0], rate) > Sum(bytes[..k]) as real
  }

  /** Gaps are counted once for each such chunk. */
  lemma {:induction false} GapsAreStarved(times: seq<real>, bytes: seq<int>, rate: real, n: nat)
    requires n <= |times| == |bytes| && rate > 0.0
    ensures Gaps(times, bytes, rate, n) == |Starved(times, bytes, rate, n)|
  {
    hide Played, Sum, Seconds;
    if n <= 1 {
      assert Starved(times, bytes, rate, n) == {};
    } else {
      GapsAreStarved(times, bytes, rate, n - 1);
      var k := n - 1;
      var short := Played(times[k] - times[0], rate) - Sum(bytes[..k]) as real;
      Sign(short, rate);
      assert Starved(times, bytes, rate, n) == Starved(times, bytes, rate, k) + if short > 0.0 then {k} else {};
    }
  }

  /** The largest deficit, or zero when the player is never short. */
  ghost predicate IsWorst(times: seq<real>, bytes: seq<int>, rate: real, worst: real)
    requires |times| == |bytes| && rate > 0.0
  {
    && worst >= 0.0
    && (forall k | 1 <= k < |times| :: Deficit(times, bytes, rate, k) <= worst)
    && (worst == 0.0 || exists k :: 1 <= k < |times| && Deficit(times, bytes, rate, k) == worst)
  }

  // ---- what a listener needs -------------------------------------------------------------

  /** Bytes that arrived strictly before t. */
  function Arrived(times: seq<real>, bytes: seq<int>, t: real): int
    requires |times| == |bytes|
  {
    if times == [] then 0
    else
      var n := |times| - 1;
      Arrived(times[..n], bytes[..n], t) + if times[n] < t then bytes[n] else 0
  }

  /** Bytes a player started `delay` seconds after the first chunk has consumed by t. */
  function Consumed(start: real, rate: real, delay: real, t: real): real {
    if t <= start + delay then 0.0 else Played(t - start - delay, rate)
  }

  /** Up to the last arrival the player never consumes a byte that has not arrived. */
  ghost predicate Suffices(times: seq<real>, bytes: seq<int>, rate: real, delay: real)
    requires 0 < |times| == |bytes|
  {
    forall t: real | t <= times[|times| - 1] :: Consumed(times[0], rate, delay, t) <= Arrived(times, bytes, t) as real
  }

  ghost predicate Monotone(times: seq<real>) {
    forall i, j | 0 <= i <= j < |times| :: times[i] <= times[j]
  }

  ghost predicate NonNegative(bytes: seq<int>) {
    forall i | 0 <= i < |bytes| :: bytes[i] >= 0
  }

  lemma {:induction false} SumGrows(bytes: seq<int>, i: nat, j: nat)
    requires NonNegative(bytes) && i <= j <= |bytes|
    ensures 0 <= Sum(bytes[..i]) <= Sum(bytes[..j])
    decreases j
  {
    if j == 0 {
    } else {
      assert bytes[..j][..j - 1] == bytes[..j - 1];
      SumGrows(bytes, if i < j then i else j - 1, j - 1);
    }
  }

  /** With arrivals in order, what arrived before t is a prefix of the chunks. */
  lemma {:induction false} ArrivedIsPrefix(times: seq<real>, bytes: seq<int>, t: real) returns (k: nat)
    requires |times| == |bytes| && Monotone(times)
    ensures k <= |times| && Arrived(times, bytes, t) == Sum(bytes[..k])
    ensures forall i | 0 <= i < |times| :: times[i] < t <==> i < k
    decreases |times|
  {
    if times == [] {
      k := 0;
    } else {
      var n := |times| - 1;
      k := ArrivedIsPrefix(times[..n], bytes[..n], t);
      if times[n] < t {
        assert k == n;
        assert bytes[..n + 1][..n] == bytes[..n];
        assert bytes[..n][..n] == bytes[..n];
        k := n + 1;
      } else {
        assert bytes[..n][..k] == bytes[..k];
      }
    }
  }

  /** A delay covers the deficit at chunk k when the bytes before k last until it arrives. */
  lemma Covers(times: seq<real>, bytes: seq<int>, rate: real, delay: real, k: nat)
    requires 1 <= k < |times| == |bytes| && rate > 0.0
    ensures Deficit(times, bytes, rate, k) <= delay <==> Played(times[k] - times[0] - delay, rate) <= Sum(bytes[..k]) as real
  {
    hide Sum;
    Lasts(times[k] - times[0], Sum(bytes[..k]) as real, rate, delay);
  }

  lemma Lasts(span: real, got: real, rate: real, delay: real)
    requires rate > 0.0
    ensures Seconds(Played(span, rate) - got, rate) <= delay <==> Played(span - delay, rate) <= got
  {
    var x := span * rate - got;
    Sign(x - delay * rate, rate);
    assert (x - delay * rate) / rate == x / rate - delay;
  }

  /** The metric is the least start delay that suffices: a delay suffices exactly when it
      is at least the worst deficit. */
  lemma WorstIsLeastDelay(times: seq<real>, bytes: seq<int>, rate: real, worst: real, delay: real)
    requires 0 < |times| == |bytes| && rate > 0.0 && Monotone(times) && NonNegative(bytes)
    requires IsWorst(times, bytes, rate, worst) && delay >= 0.0
    ensures Suffices(times, bytes, rate, delay) <==> worst <= delay
  {
    if worst <= delay {
      forall t: real | t <= times[|times| - 1]
        ensures Consumed(times[0], rate, delay, t) <= Arrived(times, bytes, t) as real
      {
        EnoughArrived(times, bytes, rate, delay, t);
      }
    }
    if Suffices(times, bytes, rate, delay) && worst > 0.0 {
      var k :| 1 <= k < |times| && Deficit(times, bytes, rate, k) == worst;
      DeficitNeedsDelay(times, bytes, rate, delay, k);
    }
  }

  lemma EnoughArrived(times: seq<real>, bytes: seq<int>, rate: real, delay: real, t: real)
    requires 0 < |times| == |bytes| && rate > 0.0 && Monotone(times) && NonNegative(bytes)
    requires t <= times[|times| - 1] && delay >= 0.0
    requires forall k | 1 <= k < |times| :: Deficit(times, bytes, rate, k) <= delay
    ensures Consumed(times[0], rate, delay, t) <= Arrived(times, bytes, t) as real
  {
    hide Played, Deficit, Sum, Arrived;
    var k := ArrivedIsPrefix(times, bytes, t);
    SumGrows(bytes, k, |bytes|);
    if t > times[0] + delay {
      assert 1 <= k < |times|;
      Covers(times, bytes, rate, delay, k);
      Faster(t - times[0] - delay, times[k] - times[0] - delay, rate);
    }
  }

  lemma Faster(a: real, b: real, rate: real)
    requires a <= b && rate > 0.0
    ensures Played(a, rate) <= Played(b, rate)
    ensures Played(0.0, rate) == 0.0
  {
  }

  lemma DeficitNeedsDelay(times: seq<real>, bytes: seq<int>, rate: real, delay: real, k: nat)
    requires 1 <= k < |times| == |bytes| && rate > 0.0 && Monotone(times) && NonNegative(bytes)
    requires Suffices(times, bytes, rate, delay) && delay >= 0.0
    ensures Deficit(times, bytes, rate, k) <= delay
  {
    hide Played, Deficit, Sum, Arrived;
    var j := ArrivedIsPrefix(times, bytes, times[k]);
    assert Consumed(times[0], rate, delay, times[k]) <= Arrived(times, bytes, times[k]) as real;
    SumGrows(bytes, j, k);
    Covers(times, bytes, rate, delay, k);
    if times[k] <= times[0] + delay {
      Faster(times[k] - times[0] - delay, 0.0, rate);
    }
  }

  /** A request is called continuous exactly when starting `threshold` late would have
      been enough; nothing is said about empty, mismatched or rateless timelines. */
  lemma ContinuousIffThresholdSuffices(times: seq<real>, bytes: seq<int>, rate: real, worst: real, threshold: real)
    requires 0 < |times| == |bytes| && rate > 0.0 && Monotone(times) && NonNegative(bytes)
    requires IsWorst(times, bytes, rate, worst)
    ensures worst <= threshold <==> threshold >= 0.0 && Suffices(times, bytes, rate, threshold)
  {
    if threshold >= 0.0 {
      WorstIsLeastDelay(times, bytes, rate, worst, threshold);
    }
  }

  // ---- arrivals in any order -----------------------------------------------------------------

  /** The first arrival at or after t. */
  lemma {:induction false} NextArrival(times: seq<real>, t: real) returns (k: nat)
    requires exists i :: 0 <= i < |times| && t <= times[i]
    ensures k < |times| && t <= times[k] && forall i | 0 <= i < |times| && t <= times[i] :: times[k] <= times[i]
  {
    var n := |times| - 1;
    var front := times[..n];
    if i :| 0 <= i < n && t <= times[i] {
      assert front[i] == times[i];
      k := NextArrival(front, t);
      if t <= times[n] < times[k] {
        k := n;
      }
    } else {
      k := n;
    }
  }

  lemma {:induction false} NothingBetween(times: seq<real>, bytes: seq<int>, t: real, u: real)
    requires |times| == |bytes| && t <= u
    requires forall i | 0 <= i < |times| :: times[i] < t || u <= times[i]
    ensures Arrived(times, bytes, t) == Arrived(times, bytes, u)
  {
    if times == [] {
    } else {
      var n := |times| - 1;
      NothingBetween(times[..n], bytes[..n], t, u);
    }
  }

  /** Whatever order the chunks are listed in, a delay suffices at every real time exactly when
      it does at the arrival instants. */
  lemma SufficesAtArrivals(times: seq<real>, bytes: seq<int>, rate: real, delay: real)
    requires 0 < |times| == |bytes| && rate > 0.0
    ensures Suffices(times, bytes, rate, delay) <==>
            forall k | 0 <= k < |times| && times[k] <= times[|times| - 1] ::
              Consumed(times[0], rate, delay, times[k]) <= Arrived(times, bytes, times[k]) as real
  {
    var last := times[|times| - 1];
    if forall k | 0 <= k < |times| && times[k] <= last :: Consumed(times[0], rate, delay, times[k]) <= Arrived(times, bytes, times[k]) as real {
      forall t: real | t <= last
        ensures Consumed(times[0], rate, delay, t) <= Arrived(times, bytes, t) as real
      {
        hide Played, Arrived;
        var k := NextArrival(times, t);
        NothingBetween(times, bytes, t, times[k]);
        ConsumesMore(times[0], rate, delay, t, times[k]);
      }
    }
  }

  lemma ConsumesMore(start: real, rate: real, delay: real, t: real, u: real)
    requires rate > 0.0 && t <= u
    ensures Consumed(start, rate, delay, t) <= Consumed(start, rate, delay, u)
  {
    if t > start + delay {
      Faster(t - start - delay, u - start - delay, rate);
    } else if u > start + delay {
      Faster(0.0, u - start - delay, rate);
    }
  }
}
