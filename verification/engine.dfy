/** The audio engine object: its configuration, its sample cache, and the
    error translation of its file adapters. */
module Engine {
  import opened Wrappers
  import opened Numerics
  import opened Synth
  import ToneCache

  /** The defaults of AudioCore(): 44100 Hz at volume 0.7. */
  const DefaultSampleRate: nat := 44100
  const DefaultVolume: real := 0.7

  /** The engine: sample rate, master volume and the cache from round(f, 2)
      (in hundredths of a hertz) to the rendered buffer. */
  datatype AudioCore = AudioCore(sampleRate: nat, volume: real, cache: map<int, seq<real>>)

  /** The audio-file library: absent, or present with a write that reports
      whether it succeeded (false where it raises) and a read that gives the
      samples or nothing (where it raises). */
  datatype AudioIo =
    | Unavailable
    | Available(write: (string, seq<real>, nat) -> bool, read: string -> Option<seq<real>>)

  /** The tone the cache renders for a frequency: 0.45 s, with harmonics. */
  function CacheTone(core: AudioCore, m: Math): real -> Result<seq<real>, SynthError>
  {
    f => GenerateSample(core.sampleRate, core.volume, f, DefaultDuration, true, m)
  }

  /** Every cached buffer has the shape of a cache tone: the right number of
      samples and, when there is one, a silent first sample. */
  ghost predicate CacheFits(core: AudioCore)
  {
    forall k :: k in core.cache ==>
      && |core.cache[k]| == SampleCount(core.sampleRate, DefaultDuration)
      && (|core.cache[k]| > 0 ==> core.cache[k][0] == 0.0)
  }

  /** AudioCore(), as the module-level engine both windows share is built:
      the default rate and volume and an empty cache, whose tones will
      then be 19845 samples long. */
  function NewCore(): (core: AudioCore)
    ensures core.sampleRate == DefaultSampleRate && core.volume == DefaultVolume
    ensures core.cache == map[] && CacheFits(core)
    ensures SampleCount(core.sampleRate, DefaultDuration) == 19845
    ensures AttackSamples(core.sampleRate) == 220
  {
    assert (DefaultSampleRate as real) * DefaultDuration == 19845.0;
    assert (DefaultSampleRate as real) * AttackTime == 220.5;
    AudioCore(DefaultSampleRate, DefaultVolume, map[])
  }

  /** get_cached_sample: the buffer stored under round(f, 2), rendered and
      stored first when the key is absent. The 0.45 s tone renders at every
      rate, so the call never fails. */
  function GetCachedSample(core: AudioCore, f: real, m: Math): (r: (AudioCore, seq<real>))
    ensures m.hundredths(f) in core.cache ==> r == (core, core.cache[m.hundredths(f)])
    ensures m.hundredths(f) !in core.cache ==>
      GenerateSample(core.sampleRate, core.volume, f, DefaultDuration, true, m) == Success(r.1)
    ensures m.hundredths(f) !in core.cache && core.sampleRate >= 3 ==> |r.1| >= 1
    ensures var (core', sample) := r;
      && core'.sampleRate == core.sampleRate && core'.volume == core.volume
      && m.hundredths(f) in core'.cache && core'.cache[m.hundredths(f)] == sample
      && core'.cache.Keys == core.cache.Keys + {m.hundredths(f)}
      && (forall k :: k in core.cache ==> core'.cache[k] == core.cache[k])
      && (CacheFits(core) ==> CacheFits(core'))
  {
    var lookup := ToneCache.GetOrRender(core.cache, f, m.hundredths, CacheTone(core, m));
    DefaultDurationRenders(core.sampleRate);
    assert CacheTone(core, m)(f).Success?;
    assert core.sampleRate >= 3 ==> SampleCount(core.sampleRate, DefaultDuration) >= 1 by {
      if core.sampleRate >= 3 {
        DefaultDurationFits(core.sampleRate);
      }
    }
    (core.(cache := lookup.value.cache), lookup.value.sample)
  }

  /** clear_cache: the configuration stays, the cache empties. */
  function ClearCache(core: AudioCore): (r: AudioCore)
    ensures r.sampleRate == core.sampleRate && r.volume == core.volume
    ensures r.cache.Keys == {}
    ensures CacheFits(r)
  {
    core.(cache := ToneCache.Clear(core.cache))
  }

  /** Two requests for the same key in a row give the same buffer, and the
      second renders nothing and changes nothing. */
  lemma CachedTwiceSame(core: AudioCore, f: real, g: real, m: Math)
    requires m.hundredths(g) == m.hundredths(f)
    ensures var (core', sample) := GetCachedSample(core, f, m);
      GetCachedSample(core', g, m) == (core', sample)
  {
  }

  /** save_recording: False without the library, otherwise whether the
      write went through. */
  function SaveRecording(io: AudioIo, samples: seq<real>, path: string, sampleRate: nat): (ok: bool)
    ensures io.Unavailable? ==> !ok
    ensures io.Available? ==> (ok <==> io.write(path, samples, sampleRate))
  {
    match io
    case Unavailable => false
    case Available(write, _) => write(path, samples, sampleRate)
  }

  /** load_recording: None without the library or when reading fails,
      otherwise the samples read. */
  function LoadRecording(io: AudioIo, path: string): (r: Option<seq<real>>)
    ensures io.Unavailable? ==> r == None
    ensures io.Available? ==> r == io.read(path)
  {
    match io
    case Unavailable => None
    case Available(_, read) => read(path)
  }
}
