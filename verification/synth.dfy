/** Shape of a rendered tone: sample count, attack length and the
    attack-then-decay envelope. Waveform values stay uninterpreted: sin,
    exp and ln come from the opaque `Math` record. */
module Synth {
  import opened Wrappers
  import opened Numerics

  /** Attack time in seconds. */
  const AttackTime: real := 0.005
  /** Note duration used by the cache, in seconds. */
  const DefaultDuration: real := 0.45
  /** Relative amplitudes of the 2nd and 3rd harmonics. */
  const SecondHarmonic: real := 0.3
  const ThirdHarmonic: real := 0.15

  /** What numpy raises when the buffer cannot hold the envelope. */
  datatype SynthError =
    | NegativeSampleCount(count: int)
    | AttackDoesNotFit(count: int, attack: int)
    | AttackEndOutOfRange(count: int)

  /** Python's int() on a float: truncation toward zero. */
  function Truncate(x: real): (r: int)
    ensures x >= 0.0 ==> 0 <= r && r as real <= x < r as real + 1.0
    ensures x < 0.0 ==> r <= 0 && r as real - 1.0 < x <= r as real
  {
    if x >= 0.0 then x.Floor else -((-x).Floor)
  }

  /** Number of samples of a tone: int(sample_rate * duration), the whole
      samples that fit in the duration; never negative for a non-negative
      duration. */
  function SampleCount(sampleRate: nat, duration: real): (n: int)
    ensures duration >= 0.0 ==>
      0 <= n && n as real <= sampleRate as real * duration < n as real + 1.0
    ensures duration < 0.0 ==> n <= 0
  {
    ProductSign(sampleRate as real, duration);
    Truncate(sampleRate as real * duration)
  }

  /** Length of the attack ramp: max(1, int(sample_rate * 0.005)). */
  function AttackSamples(sampleRate: nat): (a: int)
    ensures a >= 1
    ensures a == 1 || a == Truncate(sampleRate as real * AttackTime)
    ensures a >= Truncate(sampleRate as real * AttackTime)
  {
    var t := Truncate(sampleRate as real * AttackTime);
    if 1 >= t then 1 else t
  }

  /** Element i of np.linspace(0, 1, a): i / (a - 1), the last one set to 1 exactly. */
  function Ramp(a: nat, i: nat): (v: real)
    requires i < a
    ensures 0.0 <= v <= 1.0
    ensures i == 0 ==> v == 0.0
    ensures a > 1 && i == a - 1 ==> v == 1.0
  {
    if a == 1 then 0.0
    else if i == a - 1 then 1.0
    else (i as real) / ((a - 1) as real)
  }

  /** Element i of np.linspace(0, duration, n, endpoint=False): the first
      time is 0 and, the end point being excluded, every time of the buffer
      falls before the end of the note. */
  function TimeAt(n: nat, duration: real, i: nat): (t: real)
    requires n > 0
    ensures i == 0 ==> t == 0.0
    ensures 0.0 < duration && i < n ==> 0.0 <= t < duration
  {
    TimeBeforeEnd(n, duration, i);
    (i as real) * (duration / (n as real))
  }

  /** The times are evenly spaced: consecutive samples lie duration / n
      apart, as linspace without its end point spaces them. */
  lemma TimeAtUniform(n: nat, duration: real, i: nat)
    requires n > 0
    ensures TimeAt(n, duration, i + 1) - TimeAt(n, duration, i) == duration / (n as real)
  {
    var step := duration / (n as real);
    assert ((i + 1) as real) * step == (i as real) * step + step;
  }

  /** i steps of duration / n stay below the duration when i < n. */
  lemma TimeBeforeEnd(n: nat, duration: real, i: nat)
    requires n > 0
    ensures 0.0 < duration && i < n ==> 0.0 <= (i as real) * (duration / (n as real)) < duration
  {
    if 0.0 < duration && i < n {
      var step := duration / (n as real);
      assert step > 0.0;
      assert (i as real) * step <= ((n - 1) as real) * step;
      assert (n as real) * step == duration;
    }
  }

  /** Ones of length n whose first a entries are replaced by the ramp from 0
      to 1 and the rest by the decay curve. */
  function Envelope(n: nat, a: nat, decay: nat -> real): (env: seq<real>)
    requires 1 <= a <= n
    ensures |env| == n
    ensures env[0] == 0.0
    ensures a > 1 ==> env[a - 1] == 1.0
    ensures forall i :: 0 <= i < a ==> env[i] == Ramp(a, i) && 0.0 <= env[i] <= 1.0
    ensures forall i :: a <= i < n ==> env[i] == decay(i)
  {
    var env := seq(n, i requires 0 <= i < n => if i < a then Ramp(a, i) else decay(i));
    assert env[0] == Ramp(a, 0);
    assert a > 1 ==> env[a - 1] == Ramp(a, a - 1);
    env
  }

  /** The decay constant of the engine: -3 * ln(0.01) / duration, so that
      over the whole note the decay exponent is 3 ln(0.01), a fall to 10^-6
      whatever the duration. */
  function DecayRate(duration: real, m: Math): (k: real)
    requires duration != 0.0
    ensures k * duration == -3.0 * m.ln(0.01)
  {
    -3.0 * m.ln(0.01) / duration
  }

  /** The fundamental sin(2 pi f t). */
  function Fundamental(f: real, t: real, m: Math): (w: real)
    ensures SineBounded(m) ==> -1.0 <= w <= 1.0
    ensures t == 0.0 ==> w == m.sin(0.0)
  {
    assert t == 0.0 ==> 2.0 * m.pi * f * t == 0.0;
    m.sin(2.0 * m.pi * f * t)
  }

  /** The fundamental plus, when enabled, the 2nd and 3rd harmonics at 0.3
      and 0.15; with a sine bounded by 1 the wave never exceeds 1.45 in
      magnitude (1 without harmonics). */
  function Wave(f: real, t: real, harmonics: bool, m: Math): (w: real)
    ensures !harmonics ==> w == Fundamental(f, t, m)
    ensures SineBounded(m) ==> -1.45 <= w <= 1.45
    ensures SineBounded(m) && !harmonics ==> -1.0 <= w <= 1.0
  {
    Fundamental(f, t, m)
      + (if harmonics then SecondHarmonic * Fundamental(f * 2.0, t, m) + ThirdHarmonic * Fundamental(f * 3.0, t, m)
         else 0.0)
  }

  /** A non-negative factor times a non-positive one is non-positive. */
  lemma ProductSign(a: real, b: real)
    requires a >= 0.0
    ensures b <= 0.0 ==> a * b <= 0.0
  {
  }

  /** A tone that fills at least one sample lasts a positive time. */
  lemma PositiveDuration(sampleRate: nat, duration: real)
    requires SampleCount(sampleRate, duration) >= 1
    ensures duration > 0.0
  {
    ProductSign(sampleRate as real, duration);
  }

  /** The engine's decay at sample i of n: exp(-k t_i) with k = DecayRate. */
  function DecayAt(n: nat, duration: real, m: Math, i: nat): real
    requires n > 0 && duration != 0.0
  {
    m.exp(-DecayRate(duration, m) * TimeAt(n, duration, i))
  }

  /** The engine's envelope: linear attack, then exp(-k t) with k = DecayRate. */
  function ToneEnvelope(sampleRate: nat, duration: real, m: Math): (env: seq<real>)
    requires SampleCount(sampleRate, duration) >= AttackSamples(sampleRate)
    ensures duration > 0.0
    ensures |env| == SampleCount(sampleRate, duration)
    ensures env[0] == 0.0
    ensures var a := AttackSamples(sampleRate);
      && (a > 1 ==> env[a - 1] == 1.0)
      && (forall i :: 0 <= i < a ==> env[i] == Ramp(a, i) && 0.0 <= env[i] <= 1.0)
    ensures forall i :: AttackSamples(sampleRate) <= i < |env| ==> env[i] == DecayAt(|env|, duration, m, i)
  {
    var n := SampleCount(sampleRate, duration);
    var a := AttackSamples(sampleRate);
    PositiveDuration(sampleRate, duration);
    Envelope(n, a, (i: nat) => DecayAt(n, duration, m, i))
  }

  /** One output sample: the wave's value scaled by the envelope and the volume. */
  function Mixed(wave: real, envelope: real, volume: real): real
  {
    wave * envelope * volume
  }

  /** The buffer wave * envelope * volume over n evenly spaced times. */
  function Render(n: nat, duration: real, f: real, harmonics: bool, env: seq<real>, volume: real, m: Math)
    : (s: seq<real>)
    requires n > 0 && |env| == n
    ensures |s| == n
    ensures forall i :: 0 <= i < n ==> s[i] == Mixed(Wave(f, TimeAt(n, duration, i), harmonics, m), env[i], volume)
  {
    seq(n, i requires 0 <= i < n => Mixed(Wave(f, TimeAt(n, duration, i), harmonics, m), env[i], volume))
  }

  /** The tone once its attack fits: n samples of the wave times the
      envelope times the volume, silent at the start. */
  function Tone(sampleRate: nat, volume: real, f: real, duration: real, harmonics: bool, m: Math)
    : (s: seq<real>)
    requires SampleCount(sampleRate, duration) >= AttackSamples(sampleRate)
    ensures duration > 0.0 && |s| == SampleCount(sampleRate, duration) >= 1
    ensures s[0] == 0.0
    ensures forall i :: 0 <= i < |s| ==>
              s[i] == Mixed(Wave(f, TimeAt(|s|, duration, i), harmonics, m), ToneEnvelope(sampleRate, duration, m)[i], volume)
  {
    var n := SampleCount(sampleRate, duration);
    PositiveDuration(sampleRate, duration);
    var env := ToneEnvelope(sampleRate, duration, m);
    var sample := Render(n, duration, f, harmonics, env, volume, m);
    SilentFactor(Wave(f, TimeAt(n, duration, 0), harmonics, m), volume);
    assert sample[0] == 0.0;
    sample
  }

  /** generate_sample: the wave times the envelope times the volume, or the
      error numpy raises. A negative count fails in linspace; a buffer
      shorter than an attack of two or more samples fails to take the ramp.
      A one-sample ramp broadcasts into any slice, so with a one-sample
      attack an empty buffer (below 400 Hz) renders as an empty tone. */
  function GenerateSample(sampleRate: nat, volume: real, f: real, duration: real, harmonics: bool, m: Math)
    : (r: Result<seq<real>, SynthError>)
    ensures var n := SampleCount(sampleRate, duration); var a := AttackSamples(sampleRate);
      && (r.Success? <==> n >= 0 && (n >= a || a == 1))
      && (r.Failure? && n < 0 ==> r.error == NegativeSampleCount(n))
      && (r.Failure? && n >= 0 ==> r.error == AttackDoesNotFit(n, a))
    ensures r.Success? ==> |r.value| == SampleCount(sampleRate, duration)
    ensures r.Success? && |r.value| == 0 ==> r.value == []
    ensures r.Success? && |r.value| > 0 ==>
      && duration > 0.0 && r.value[0] == 0.0
      && r.value == Tone(sampleRate, volume, f, duration, harmonics, m)
  {
    var n := SampleCount(sampleRate, duration);
    var a := AttackSamples(sampleRate);
    if n < 0 then Failure(NegativeSampleCount(n))
    else if n < a && a > 1 then Failure(AttackDoesNotFit(n, a))
    else if n == 0 then Success([])
    else Success(Tone(sampleRate, volume, f, duration, harmonics, m))
  }

  /** Below 400 Hz the attack is a single sample; an engine at 0 Hz then
      renders every tone as the empty buffer instead of failing. */
  lemma SilentEngineRendersEmpty(volume: real, f: real, duration: real, harmonics: bool, m: Math)
    ensures AttackSamples(0) == 1 && SampleCount(0, duration) == 0
    ensures GenerateSample(0, volume, f, duration, harmonics, m) == Success([])
  {
    assert (0 as real) * duration == 0.0;
    assert (0 as real) * AttackTime == 0.0;
  }

  /** The cache's 0.45 s tone renders at every sample rate: either the
      attack fits, or it is a single sample. */
  lemma DefaultDurationRenders(sampleRate: nat)
    ensures var n := SampleCount(sampleRate, DefaultDuration); var a := AttackSamples(sampleRate);
      n >= 0 && (n >= a || a == 1)
  {
    var sr := sampleRate as real;
    assert sr * AttackTime <= sr * DefaultDuration;
    TruncateMonotone(sr * AttackTime, sr * DefaultDuration);
  }

  /** A silent envelope sample silences the wave whatever the volume. */
  lemma SilentFactor(wave: real, volume: real)
    ensures Mixed(wave, 0.0, volume) == 0.0
  {
  }

  /** The attack ramp is linear: equal steps of 1 / (a - 1). */
  lemma RampIsLinear(a: nat, i: nat)
    requires i + 1 < a
    ensures Ramp(a, i + 1) - Ramp(a, i) == 1.0 / ((a - 1) as real)
  {
  }

  /** int() of a larger non-negative real is never smaller. */
  lemma TruncateMonotone(x: real, y: real)
    requires 0.0 <= x <= y
    ensures Truncate(x) <= Truncate(y)
  {
  }

  /** At any sample rate of 3 Hz or more the 0.45 s cache tone holds its
      attack, so rendering it never fails. */
  lemma DefaultDurationFits(sampleRate: nat)
    requires sampleRate >= 3
    ensures SampleCount(sampleRate, DefaultDuration) >= AttackSamples(sampleRate) >= 1
  {
    var sr := sampleRate as real;
    assert sr * DefaultDuration >= 1.35;
    TruncateMonotone(1.0, sr * DefaultDuration);
    TruncateMonotone(sr * AttackTime, sr * DefaultDuration);
  }

  /** A 0.1 s tone at 44100 Hz renders: 4410 samples, more than its 220
      attack samples. */
  lemma ShortToneRenders(volume: real, f: real, harmonics: bool, m: Math)
    ensures GenerateSample(44100, volume, f, 0.1, harmonics, m).Success?
    ensures |GenerateSample(44100, volume, f, 0.1, harmonics, m).value| == 4410
  {
    assert (44100 as real) * 0.1 == 4410.0;
    assert (44100 as real) * AttackTime == 220.5;
    assert AttackSamples(44100) == 220;
  }
}
