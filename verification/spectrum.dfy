/** The spectral view of a tone: FFT bins up to a display ceiling, with
    magnitudes normalised so the loudest bin is 1. The FFT magnitudes
    themselves are an opaque non-negative input. */
module Spectrum {
  import opened Wrappers

  /** Number of spectral bars drawn by the controller window. */
  const BarCount: nat := 60

  /** What numpy raises: rfft of an empty buffer, 1 / 0 for a zero sample
      rate, or max() of an empty selection. */
  datatype SpectrumError = EmptySample | ZeroSampleRate | NothingInRange

  /** Parallel bin frequencies and magnitudes. */
  datatype SpectrumView = SpectrumView(freqs: seq<real>, mags: seq<real>)

  ghost predicate NonNegative(s: seq<real>)
  {
    forall i :: 0 <= i < |s| ==> s[i] >= 0.0
  }

  /** The largest element, as ndarray.max(). */
  function Max(s: seq<real>): (top: real)
    requires |s| > 0
    ensures forall i :: 0 <= i < |s| ==> s[i] <= top
    ensures exists i :: 0 <= i < |s| && s[i] == top
  {
    if |s| == 1 then s[0]
    else
      var rest := Max(s[1..]);
      if s[0] >= rest then s[0] else rest
  }

  /** Every element divided by a positive maximum lands in [0, 1] and scales back. */
  function Scaled(mags: seq<real>, top: real): (r: seq<real>)
    requires top > 0.0 && NonNegative(mags)
    requires forall i :: 0 <= i < |mags| ==> mags[i] <= top
    ensures |r| == |mags|
    ensures forall i :: 0 <= i < |r| ==> 0.0 <= r[i] <= 1.0 && r[i] == mags[i] / top
  {
    seq(|mags|, i requires 0 <= i < |mags| => QuotientInUnit(mags[i], top); mags[i] / top)
  }

  /** x / top lies in [0, 1] when 0 <= x <= top. */
  lemma QuotientInUnit(x: real, top: real)
    requires top > 0.0 && 0.0 <= x <= top
    ensures 0.0 <= x / top <= 1.0
  {
  }

  /** Where the maximum is attained, the scaled sequence is 1. */
  lemma UnitAtMax(mags: seq<real>, r: seq<real>, top: real)
    requires |mags| > 0 && top == Max(mags) && top > 0.0
    requires |r| == |mags| && forall i :: 0 <= i < |r| ==> r[i] == mags[i] / top
    ensures exists i :: 0 <= i < |r| && r[i] == 1.0
  {
    var j :| 0 <= j < |mags| && mags[j] == top;
    SelfQuotient(top);
  }

  lemma SelfQuotient(x: real)
    requires x > 0.0
    ensures x / x == 1.0
  {
  }

  /** Divide by the maximum when it is positive; otherwise leave as is. */
  function Normalize(mags: seq<real>): (r: seq<real>)
    requires |mags| > 0 && NonNegative(mags)
    ensures |r| == |mags|
    ensures Max(mags) > 0.0 ==>
      && (forall i :: 0 <= i < |r| ==> 0.0 <= r[i] <= 1.0 && r[i] == mags[i] / Max(mags))
      && (exists i :: 0 <= i < |r| && r[i] == 1.0)
    ensures Max(mags) <= 0.0 ==> r == mags && forall i :: 0 <= i < |r| ==> r[i] == 0.0
  {
    var top := Max(mags);
    if top > 0.0 then
      var r := Scaled(mags, top);
      UnitAtMax(mags, r, top);
      r
    else mags
  }

  /** np.fft.rfftfreq(n, 1 / sample_rate): bin i lies at i * sample_rate / n Hz. */
  function RfftFreqs(n: nat, sampleRate: nat): (freqs: seq<real>)
    requires n > 0
    ensures |freqs| == n / 2 + 1
    ensures forall i :: 0 <= i < |freqs| ==> freqs[i] == BinFrequency(i, n, sampleRate)
  {
    seq(n / 2 + 1, i requires 0 <= i => BinFrequency(i, n, sampleRate))
  }

  function BinFrequency(i: nat, n: nat, sampleRate: nat): real
    requires n > 0
  {
    (i as real) * (sampleRate as real) / (n as real)
  }

  /** Bin frequencies rise with the bin index and start at 0 Hz. */
  lemma BinsAscend(n: nat, sampleRate: nat, i: nat, j: nat)
    requires n > 0 && i <= j
    ensures 0.0 <= BinFrequency(i, n, sampleRate) <= BinFrequency(j, n, sampleRate)
  {
    var sr, nn := sampleRate as real, n as real;
    assert (i as real) * sr <= (j as real) * sr;
  }

  ghost predicate Ascending(s: seq<real>)
  {
    forall i, j :: 0 <= i <= j < |s| ==> s[i] <= s[j]
  }

  /** np.where(freqs <= ceiling)[0] from position `start` on: positions of
      bins at or below the ceiling, in increasing order. */
  function KeptFrom(freqs: seq<real>, ceiling: real, start: nat): (idx: seq<nat>)
    requires start <= |freqs|
    ensures forall j :: 0 <= j < |idx| ==> start <= idx[j] < |freqs| && freqs[idx[j]] <= ceiling
    ensures forall j :: 0 < j < |idx| ==> idx[j - 1] < idx[j]
    decreases |freqs| - start
  {
    if start == |freqs| then []
    else
      var rest := KeptFrom(freqs, ceiling, start + 1);
      if freqs[start] <= ceiling then [start] + rest else rest
  }

  /** No bin from `start` on that lies at or below the ceiling is missed. */
  lemma {:induction false} KeptFromComplete(freqs: seq<real>, ceiling: real, start: nat, i: nat)
    requires start <= i < |freqs| && freqs[i] <= ceiling
    ensures i in KeptFrom(freqs, ceiling, start)
    decreases |freqs| - start
  {
    var idx := KeptFrom(freqs, ceiling, start);
    if i == start {
      assert idx[0] == i;
    } else {
      KeptFromComplete(freqs, ceiling, start + 1, i);
      var rest := KeptFrom(freqs, ceiling, start + 1);
      var j :| 0 <= j < |rest| && rest[j] == i;
      if freqs[start] <= ceiling {
        assert idx[j + 1] == i;
      } else {
        assert idx[j] == i;
      }
    }
  }

  /** The positions np.where keeps over the whole axis. */
  function KeptPositions(freqs: seq<real>, ceiling: real): (idx: seq<nat>)
    ensures forall j :: 0 <= j < |idx| ==> idx[j] < |freqs| && freqs[idx[j]] <= ceiling
    ensures forall j :: 0 < j < |idx| ==> idx[j - 1] < idx[j]
  {
    KeptFrom(freqs, ceiling, 0)
  }

  /** The kept positions are exactly the bins at or below the ceiling. */
  lemma KeptPositionsExact(freqs: seq<real>, ceiling: real)
    ensures forall i :: 0 <= i < |freqs| ==> (i in KeptPositions(freqs, ceiling) <==> freqs[i] <= ceiling)
  {
    forall i | 0 <= i < |freqs| && freqs[i] <= ceiling
      ensures i in KeptPositions(freqs, ceiling)
    {
      KeptFromComplete(freqs, ceiling, 0, i);
    }
  }

  /** The bins whose frequency is at or below the ceiling, in order: both
      arrays indexed with np.where's positions. */
  function Keep(freqs: seq<real>, mags: seq<real>, ceiling: real): (r: SpectrumView)
    requires |freqs| == |mags|
    ensures |r.freqs| == |r.mags| <= |freqs|
    ensures forall j :: 0 <= j < |r.freqs| ==> r.freqs[j] <= ceiling
  {
    if |freqs| == 0 then SpectrumView([], [])
    else
      var rest := Keep(freqs[1..], mags[1..], ceiling);
      if freqs[0] <= ceiling then SpectrumView([freqs[0]] + rest.freqs, [mags[0]] + rest.mags)
      else rest
  }

  /** Keep selects exactly np.where's positions from both arrays, so each
      kept frequency stays paired with its own magnitude and no bin at or
      below the ceiling is lost. */
  lemma KeepPairs(freqs: seq<real>, mags: seq<real>, ceiling: real)
    requires |freqs| == |mags|
    ensures var r := Keep(freqs, mags, ceiling); var idx := KeptPositions(freqs, ceiling);
      && |r.freqs| == |idx|
      && forall j :: 0 <= j < |idx| ==> r.freqs[j] == freqs[idx[j]] && r.mags[j] == mags[idx[j]]
  {
    KeepPairsFrom(freqs, mags, ceiling, 0);
    assert freqs[0..] == freqs && mags[0..] == mags;
  }

  /** KeepPairs for the bins from position `start` on. */
  lemma {:induction false} KeepPairsFrom(freqs: seq<real>, mags: seq<real>, ceiling: real, start: nat)
    requires |freqs| == |mags| && start <= |freqs|
    ensures var r := Keep(freqs[start..], mags[start..], ceiling); var idx := KeptFrom(freqs, ceiling, start);
      && |r.freqs| == |idx|
      && forall j :: 0 <= j < |idx| ==> r.freqs[j] == freqs[idx[j]] && r.mags[j] == mags[idx[j]]
    decreases |freqs| - start
  {
    if start < |freqs| {
      KeepPairsFrom(freqs, mags, ceiling, start + 1);
      assert freqs[start..][1..] == freqs[start + 1..];
      assert mags[start..][1..] == mags[start + 1..];
    }
  }

  /** Number of leading bins at or below the ceiling. */
  function LeadingAtMost(freqs: seq<real>, ceiling: real): (k: nat)
    ensures k <= |freqs|
  {
    if |freqs| == 0 || freqs[0] > ceiling then 0 else 1 + LeadingAtMost(freqs[1..], ceiling)
  }

  /** On ascending bin frequencies the kept bins are exactly a prefix: every
      bin before it is at or below the ceiling, every bin after it above. */
  lemma {:induction false} KeepAscendingIsPrefix(freqs: seq<real>, mags: seq<real>, ceiling: real)
    requires |freqs| == |mags| && Ascending(freqs)
    ensures var k := LeadingAtMost(freqs, ceiling);
      && Keep(freqs, mags, ceiling) == SpectrumView(freqs[..k], mags[..k])
      && (forall i :: 0 <= i < k ==> freqs[i] <= ceiling)
      && (forall i :: k <= i < |freqs| ==> freqs[i] > ceiling)
  {
    if |freqs| > 0 {
      var k := LeadingAtMost(freqs, ceiling);
      KeepAscendingIsPrefix(freqs[1..], mags[1..], ceiling);
      var k' := LeadingAtMost(freqs[1..], ceiling);
      if freqs[0] <= ceiling {
        assert k == k' + 1;
        assert freqs[..k] == [freqs[0]] + freqs[1..][..k'];
        assert mags[..k] == [mags[0]] + mags[1..][..k'];
        forall i | k <= i < |freqs|
          ensures freqs[i] > ceiling
        {
          assert freqs[i] == freqs[1..][i - 1];
        }
      } else {
        assert k == 0;
        forall i | 0 <= i < |freqs|
          ensures freqs[i] > ceiling
        {
          assert freqs[0] <= freqs[i];
        }
      }
    }
  }

  /** The bin frequencies, taken together, form an ascending sequence that
      starts at 0 Hz. */
  lemma BinsAreAscending(n: nat, sampleRate: nat)
    requires n > 0
    ensures Ascending(RfftFreqs(n, sampleRate))
    ensures RfftFreqs(n, sampleRate)[0] == 0.0
  {
    var bins := RfftFreqs(n, sampleRate);
    forall i, j | 0 <= i <= j < |bins| ensures bins[i] <= bins[j] {
      BinsAscend(n, sampleRate, i, j);
    }
    BinsAscend(n, sampleRate, 0, 0);
  }

  /** analyze_spectrum: bins of the buffer's real FFT up to the ceiling, the
      magnitudes divided by their maximum when it is positive. */
  function Analyze(sampleRate: nat, sample: seq<real>, mags: seq<real>, ceiling: real)
    : (r: Result<SpectrumView, SpectrumError>)
    requires |sample| > 0 ==> |mags| == |sample| / 2 + 1
    requires NonNegative(mags)
    ensures r.Success? <==> |sample| > 0 && sampleRate > 0 && ceiling >= 0.0
    ensures |sample| == 0 ==> r == Failure(EmptySample)
    ensures r.Success? ==>
      var v := r.value;
      var n := |sample|;
      && |v.freqs| == |v.mags| > 0
      && (forall j :: 0 <= j < |v.freqs| ==> v.freqs[j] == BinFrequency(j, n, sampleRate) <= ceiling)
      && (|v.freqs| < n / 2 + 1 ==> BinFrequency(|v.freqs|, n, sampleRate) > ceiling)
      && (forall j :: 0 <= j < |v.mags| ==> 0.0 <= v.mags[j] <= 1.0)
      && ((exists j :: 0 <= j < |v.mags| && v.mags[j] == 1.0)
          || (forall j :: 0 <= j < |v.mags| ==> v.mags[j] == 0.0))
    ensures r.Success? ==>
      && |r.value.freqs| <= |mags|
      && r.value.mags == Normalize(mags[..|r.value.freqs|])
  {
    if |sample| == 0 then Failure(EmptySample)
    else if sampleRate == 0 then Failure(ZeroSampleRate)
    else
      var n := |sample|;
      var bins := RfftFreqs(n, sampleRate);
      BinsAreAscending(n, sampleRate);
      KeepAscendingIsPrefix(bins, mags, ceiling);
      var kept := Keep(bins, mags, ceiling);
      if |kept.mags| == 0 then Failure(NothingInRange)
      else
        assert NonNegative(kept.mags);
        Success(SpectrumView(kept.freqs, Normalize(kept.mags)))
  }

  /** The controller window's bar heights: divided by the maximum when it is
      positive, otherwise all zero. */
  function NormalizeBars(mags: seq<real>): (r: seq<real>)
    requires |mags| == BarCount && NonNegative(mags)
    ensures |r| == BarCount
    ensures forall i :: 0 <= i < |r| ==> 0.0 <= r[i] <= 1.0
    ensures Max(mags) > 0.0 ==> forall i :: 0 <= i < |r| ==> r[i] == mags[i] / Max(mags)
    ensures Max(mags) <= 0.0 ==> forall i :: 0 <= i < |r| ==> r[i] == 0.0
  {
    var top := Max(mags);
    if top > 0.0 then Scaled(mags, top)
    else
      var zeros := seq(|mags|, i => 0.0);
      assert forall i :: 0 <= i < |zeros| ==> zeros[i] == 0.0;
      zeros
  }

  /** On magnitudes, which are never negative, the bars' zeroing branch and
      the engine's leave-unchanged branch agree. */
  lemma BarsAgreeWithNormalize(mags: seq<real>)
    requires |mags| == BarCount && NonNegative(mags)
    ensures NormalizeBars(mags) == Normalize(mags)
  {
  }
}
