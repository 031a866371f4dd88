/** The waveform extractor: the absolute amplitudes of a decoded signal are
    averaged over chunks of `len / n` samples, scaled so the loudest chunk
    is 1, and cut to `n` values. Downloading and decoding are outside the
    model (a failure there returns the empty list like any other
    exception); arithmetic is on reals. */
module AudioProcessor {
  import opened Common

  function Abs(x: real): (r: real)
    ensures r >= 0.0 && (r == x || r == -x)
  {
    if x < 0.0 then -x else x
  }

  function AbsAll(xs: seq<real>): (r: seq<real>)
    ensures |r| == |xs| && forall k :: 0 <= k < |xs| ==> r[k] == Abs(xs[k])
  {
    seq(|xs|, k requires 0 <= k < |xs| => Abs(xs[k]))
  }

  predicate NonNegative(xs: seq<real>)
  {
    forall k :: 0 <= k < |xs| ==> xs[k] >= 0.0
  }

  function Sum(xs: seq<real>): real
    decreases |xs|
  {
    if |xs| == 0 then 0.0 else xs[0] + Sum(xs[1..])
  }

  /** `np.mean`. */
  function Mean(xs: seq<real>): real
    requires |xs| > 0
  {
    Sum(xs) / (|xs| as real)
  }

  lemma {:induction false} SumNonNegative(xs: seq<real>)
    requires NonNegative(xs)
    ensures Sum(xs) >= 0.0
    decreases |xs|
  {
    if |xs| > 0 {
      assert NonNegative(xs[1..]) by {
        forall k | 0 <= k < |xs| - 1 ensures xs[1..][k] >= 0.0 {
          assert xs[1..][k] == xs[k + 1];
        }
      }
      SumNonNegative(xs[1..]);
    }
  }

  /** The chunk loop: `range(0, len, step)` with `y_abs[i:i+step]`, which is
      never empty, so every chunk gives a value. */
  function Chunks(xs: seq<real>, step: nat): (r: seq<real>)
    requires step > 0
    ensures |xs| == 0 <==> |r| == 0
    ensures |r| <= |xs|
    decreases |xs|
  {
    if |xs| == 0 then []
    else
      var m := Min(step, |xs|);
      [Mean(xs[..m])] + Chunks(xs[m..], step)
  }

  /** Means of non-negative runs are non-negative. */
  lemma {:induction false} ChunksNonNegative(xs: seq<real>, step: nat)
    requires step > 0 && NonNegative(xs)
    ensures NonNegative(Chunks(xs, step))
    decreases |xs|
  {
    if |xs| > 0 {
      var m := Min(step, |xs|);
      assert NonNegative(xs[..m]) by {
        forall k | 0 <= k < m ensures xs[..m][k] >= 0.0 {
          assert xs[..m][k] == xs[k];
        }
      }
      assert NonNegative(xs[m..]) by {
        forall k | 0 <= k < |xs| - m ensures xs[m..][k] >= 0.0 {
          assert xs[m..][k] == xs[m + k];
        }
      }
      SumNonNegative(xs[..m]);
      ChunksNonNegative(xs[m..], step);
      var r := Chunks(xs, step);
      assert r == [Mean(xs[..m])] + Chunks(xs[m..], step);
      forall k | 0 <= k < |r| ensures r[k] >= 0.0 {
        if k > 0 {
          assert r[k] == Chunks(xs[m..], step)[k - 1];
        }
      }
    }
  }

  lemma MulSucc(c: nat, s: nat)
    ensures (c + 1) * s == c * s + s
  {
  }

  /** Where the `i`-th run of `step` samples starts: `i * step`, by
      repeated addition. */
  function Start(i: nat, step: nat): nat
  {
    if i == 0 then 0 else Start(i - 1, step) + step
  }

  /** The `i`-th value is the mean of the `i`-th run of `step` samples,
      the last run possibly shorter. */
  lemma {:induction false} ChunkIsMean(xs: seq<real>, step: nat, i: nat)
    requires step > 0 && i < |Chunks(xs, step)|
    ensures Start(i, step) < |xs|
    ensures Chunks(xs, step)[i] == Mean(xs[Start(i, step)..Min(Start(i + 1, step), |xs|)])
    decreases i
  {
    if i == 0 {
      FirstChunkIsMean(xs, step);
    } else {
      var j: nat := i - 1;
      ChunkAfterFirst(xs, step, i);
      ChunkIsMean(xs[step..], step, j);
      ChunkStep(xs, step, i, j);
    }
  }

  /** The inductive step of `ChunkIsMean`, from run `j` of the rest to run
      `i = j + 1` of the whole. */
  lemma ChunkStep(xs: seq<real>, step: nat, i: nat, j: nat)
    requires step > 0 && i == j + 1 && i < |Chunks(xs, step)|
    requires step < |xs| && j < |Chunks(xs[step..], step)|
    requires Chunks(xs, step)[i] == Chunks(xs[step..], step)[j]
    requires Start(j, step) < |xs[step..]|
    requires Chunks(xs[step..], step)[j]
      == Mean(xs[step..][Start(j, step)..Min(Start(j + 1, step), |xs[step..]|)])
    ensures Start(i, step) < |xs|
    ensures Chunks(xs, step)[i] == Mean(xs[Start(i, step)..Min(Start(i + 1, step), |xs|)])
  {
    ChunkShift(xs, step, i);
  }

  lemma FirstChunkIsMean(xs: seq<real>, step: nat)
    requires step > 0 && |xs| > 0
    ensures Start(0, step) < |xs|
    ensures Chunks(xs, step)[0] == Mean(xs[Start(0, step)..Min(Start(1, step), |xs|)])
  {
    assert Start(1, step) == step;
    assert xs[0..Min(step, |xs|)] == xs[..Min(step, |xs|)];
    assert Chunks(xs, step)[0] == Mean(xs[..Min(step, |xs|)]);
  }

  /** The inductive step: the run found in the rest is the next run of the
      whole signal. */
  lemma ChunkShift(xs: seq<real>, step: nat, i: nat)
    requires step > 0 && 0 < i && step < |xs|
    requires Start(i - 1, step) < |xs[step..]|
    ensures Start(i, step) < |xs|
    ensures xs[step..][Start(i - 1, step)..Min(Start(i, step), |xs[step..]|)]
      == xs[Start(i, step)..Min(Start(i + 1, step), |xs|)]
  {
    var a, b := Start(i - 1, step), Start(i, step);
    assert b == a + step && Start(i + 1, step) == b + step;
    var hi := Min(b, |xs| - step);
    ShiftedRun(xs, step, a, hi);
  }

  /** Past the first run, the chunks are those of the rest. */
  lemma ChunkAfterFirst(xs: seq<real>, step: nat, i: nat)
    requires step > 0 && 0 < i < |Chunks(xs, step)|
    ensures step < |xs| && i - 1 < |Chunks(xs[step..], step)|
    ensures Chunks(xs, step)[i] == Chunks(xs[step..], step)[i - 1]
  {
    var m := Min(step, |xs|);
    assert Chunks(xs, step) == [Mean(xs[..m])] + Chunks(xs[m..], step);
    assert |Chunks(xs[m..], step)| > 0;
  }

  /** A run of the rest after the first `step` samples is the run `step`
      further on in the whole signal. */
  lemma ShiftedRun(xs: seq<real>, step: nat, lo: nat, hi: nat)
    requires step <= |xs| && lo <= hi <= |xs| - step
    ensures xs[step..][lo..hi] == xs[lo + step..hi + step]
  {
  }

  /** The chunks cover the signal: `step` times their number is at least
      its length. */
  lemma {:induction false} ChunksCover(xs: seq<real>, step: nat)
    requires step > 0
    ensures |Chunks(xs, step)| * step >= |xs|
    decreases |xs|
  {
    if |xs| > 0 {
      var m := Min(step, |xs|);
      var c := |Chunks(xs[m..], step)|;
      assert |Chunks(xs, step)| == c + 1;
      ChunksCover(xs[m..], step);
      MulSucc(c, step);
    }
  }

  /** With a step of one sample every value is a sample. */
  lemma {:induction false} StepOneKeepsSamples(xs: seq<real>)
    ensures Chunks(xs, 1) == xs
    decreases |xs|
  {
    if |xs| > 0 {
      assert xs[..1] == [xs[0]];
      assert Sum([xs[0]]) == xs[0] + Sum([]);
      StepOneKeepsSamples(xs[1..]);
      assert [xs[0]] + xs[1..] == xs;
    }
  }

  /** `len // n` for a positive `n`: at most `len / n` whole runs, and zero
      exactly when the signal is shorter than `n`. */
  lemma StepBounds(len: nat, n: nat)
    requires n > 0
    ensures len / n >= 0
    ensures (len / n) * n <= len
    ensures len / n == 0 <==> len < n
  {
    var q, r := len / n, len % n;
    assert len == q * n + r && 0 <= r < n;
    if q >= 1 {
      MulSucc(q - 1, n);
    }
  }

  function MaxOf(xs: seq<real>): (m: real)
    requires |xs| > 0
    ensures m in xs && forall k :: 0 <= k < |xs| ==> xs[k] <= m
    decreases |xs|
  {
    if |xs| == 1 then xs[0] else Max2(xs[0], MaxOf(xs[1..]))
  }

  function Max2(a: real, b: real): real
  {
    if a >= b then a else b
  }

  /** Scale by the maximum when it is positive; otherwise leave alone. */
  function Normalize(ws: seq<real>): (r: seq<real>)
    ensures |r| == |ws|
    ensures |ws| > 0 && MaxOf(ws) > 0.0 ==> forall k :: 0 <= k < |ws| ==> r[k] == ws[k] / MaxOf(ws)
    ensures |ws| == 0 || MaxOf(ws) <= 0.0 ==> r == ws
  {
    if |ws| > 0 && MaxOf(ws) > 0.0 then
      var m := MaxOf(ws);
      seq(|ws|, k requires 0 <= k < |ws| => ws[k] / m)
    else ws
  }

  /** The chunk means scaled; never negative. */
  function Waveform(samples: seq<real>, step: nat): (r: seq<real>)
    requires step > 0
    ensures NonNegative(r)
  {
    var w := Chunks(AbsAll(samples), step);
    ChunksNonNegative(AbsAll(samples), step);
    NormalizeNonNegative(w);
    Normalize(w)
  }

  lemma NormalizeNonNegative(w: seq<real>)
    requires NonNegative(w)
    ensures NonNegative(Normalize(w))
  {
    if |w| > 0 && MaxOf(w) > 0.0 {
      forall k | 0 <= k < |w| ensures Normalize(w)[k] >= 0.0 {
        assert w[k] >= 0.0;
      }
    }
  }

  /** `extract_waveform`. A zero `n` (the division) or a signal shorter
      than `n` (a zero range step) raises, which gives []; a negative `n`
      gives a negative step over an empty range, so [] as well. */
  function ExtractWaveform(samples: seq<real>, n: int): (r: seq<real>)
    ensures n <= 0 ==> r == []
    ensures |r| <= Max(n, 0)
    ensures NonNegative(r)
  {
    if n <= 0 then []
    else
      var step := |samples| / n;
      if step == 0 then []
      else
        var w := Waveform(samples, step);
        w[..Min(n, |w|)]
  }

  /** Fewer samples than points give nothing; enough give exactly `n`
      values. */
  lemma ExactLength(samples: seq<real>, n: nat)
    requires 0 < n
    ensures |samples| < n ==> ExtractWaveform(samples, n) == []
    ensures n <= |samples| ==> |ExtractWaveform(samples, n)| == n
  {
    var step := |samples| / n;
    StepBounds(|samples|, n);
    if n <= |samples| {
      var c := |Chunks(AbsAll(samples), step)|;
      ChunksCover(AbsAll(samples), step);
      MulCancel(c, n, step);
    }
  }

  lemma MulCancel(c: nat, n: nat, step: nat)
    requires step > 0 && c * step >= n * step
    ensures c >= n
  {
  }

  /** A signal with some sound is scaled into [0, 1]; the values are the
      chunk means over the loudest chunk mean. */
  lemma ScaledIntoUnitRange(samples: seq<real>, n: nat, k: nat)
    requires 0 < n <= |samples|
    requires k < |ExtractWaveform(samples, n)|
    ensures 0.0 <= ExtractWaveform(samples, n)[k] <= 1.0
  {
    var w := WaveformAt(samples, n, k);
    NormalizedAtMostOne(w, k);
  }

  /** Where the `k`-th value comes from: the scaled `k`-th chunk mean of
      the magnitudes. */
  lemma WaveformAt(samples: seq<real>, n: nat, k: nat) returns (w: seq<real>)
    requires 0 < n <= |samples|
    requires k < |ExtractWaveform(samples, n)|
    ensures |samples| / n > 0 && w == Chunks(AbsAll(samples), |samples| / n)
    ensures k < |w| && NonNegative(w)
    ensures ExtractWaveform(samples, n)[k] == Normalize(w)[k]
  {
    StepBounds(|samples|, n);
    var step := |samples| / n;
    w := Chunks(AbsAll(samples), step);
    AbsAllNonNegative(samples);
    ChunksNonNegative(AbsAll(samples), step);
    var v := Waveform(samples, step);
    assert v == Normalize(w);
    assert ExtractWaveform(samples, n) == v[..Min(n, |v|)];
  }

  lemma AbsAllNonNegative(xs: seq<real>)
    ensures NonNegative(AbsAll(xs))
  {
    forall k | 0 <= k < |xs| ensures AbsAll(xs)[k] >= 0.0 {
      assert AbsAll(xs)[k] == Abs(xs[k]);
    }
  }

  lemma NormalizedAtMostOne(w: seq<real>, k: nat)
    requires k < |w| && NonNegative(w)
    ensures 0.0 <= Normalize(w)[k] <= 1.0
  {
    if MaxOf(w) > 0.0 {
      assert w[k] <= MaxOf(w);
      DivAtMostOne(w[k], MaxOf(w));
    } else {
      assert w[k] <= 0.0 && w[k] >= 0.0;
    }
  }

  lemma DivAtMostOne(a: real, m: real)
    requires 0.0 <= a <= m && m > 0.0
    ensures 0.0 <= a / m <= 1.0
  {
  }

  /** A silent signal stays all zeros: nothing is scaled. */
  lemma SilenceStaysZero(samples: seq<real>, n: nat, k: nat)
    requires forall j :: 0 <= j < |samples| ==> samples[j] == 0.0
    requires 0 < n <= |samples| && k < |ExtractWaveform(samples, n)|
    ensures ExtractWaveform(samples, n)[k] == 0.0
  {
    var w := WaveformAt(samples, n, k);
    ZeroChunksPeak(AbsAll(samples), |samples| / n);
    assert w[k] == 0.0;
    assert Normalize(w) == w;
  }

  lemma {:induction false} SumOfZeros(xs: seq<real>)
    requires forall j :: 0 <= j < |xs| ==> xs[j] == 0.0
    ensures Sum(xs) == 0.0
    decreases |xs|
  {
    if |xs| > 0 {
      SumOfZeros(xs[1..]);
    }
  }

  /** Silent chunks average to zero, so the loudest is not positive. */
  lemma {:induction false} ZeroChunksPeak(xs: seq<real>, step: nat)
    requires step > 0
    requires forall j :: 0 <= j < |xs| ==> xs[j] == 0.0
    ensures forall k :: 0 <= k < |Chunks(xs, step)| ==> Chunks(xs, step)[k] == 0.0
    decreases |xs|
  {
    if |xs| > 0 {
      var m := Min(step, |xs|);
      SumOfZeros(xs[..m]);
      ZeroChunksPeak(xs[m..], step);
    }
  }

  /** Cutting to `n` comes after scaling, so the loudest kept value can be
      below 1: three samples for two points keep the two quiet ones. */
  lemma CutAfterScaling()
    ensures ExtractWaveform([0.5, 0.5, 1.0], 2) == [0.5, 0.5]
  {
    var xs: seq<real> := [0.5, 0.5, 1.0];
    assert AbsAll(xs) == xs;
    StepOneKeepsSamples(xs);
    assert MaxOf([1.0]) == 1.0;
    assert MaxOf([0.5, 1.0]) == 1.0;
    assert MaxOf(xs) == 1.0;
    assert Normalize(xs) == xs;
  }
}
