/** The older front-end, the controller window: its own 22 frequencies
    counted in semitones above C4, its per-bar note cache, the keyboard
    handling with a set of held keys, and the record buffer. */
module ControllerWindow {
  import opened Wrappers
  import opened Numerics
  import opened Synth
  import Scale
  import Pitch
  import Keys
  import Take
  import Engine
  import Arith

  /** Frequency of C4, the lowest bar of this window, in hertz. */
  const C4Hz: real := 261.6256
  const InitialSampleRate: nat := 44100
  const InitialVolume: real := 0.6
  /** The style selected when the window opens. */
  const InitialScale: string := "Pentatonique"
  /** Length of a note rendered on the fly when its bar has no cached buffer. */
  const FallbackDuration: real := 0.8
  /** The note cache's decay: exp(-3 t) after the attack. */
  const DecayPerSecond: real := 3.0

  /** The window's state: the take, the keys held down, the selected style,
      the bars as semitone offsets above C4, the cache from bar index to
      buffer, and the audio settings. */
  datatype Window = Window(
    recorder: Take.Recorder,
    pressed: set<string>,
    scale: string,
    frequencies: seq<int>,
    noteCache: map<nat, seq<real>>,
    sampleRate: nat,
    volume: real)

  /** The frequency in hertz of the bar `offset` semitones above C4:
      positive under the exponent laws, and C4 itself at offset 0. */
  function ControllerHz(offset: int, m: Math): (hz: real)
    ensures ExponentLaws(m) ==> hz > 0.0
    ensures ExponentLaws(m) && offset == 0 ==> hz == C4Hz
  {
    var x := offset as real / 12.0;
    assert ExponentLaws(m) ==> m.pow2(x) > 0.0 by {
      if ExponentLaws(m) {
        Pow2Positive(m, x);
      }
    }
    C4Hz * m.pow2(x)
  }

  /** The pattern of a combo label other than "Chromatique": the heptatonic
      one for "Heptatonique", the pentatonic one for anything else. */
  function PatternOf(style: string): (p: seq<int>)
    ensures Scale.WellFormed(p)
    ensures style == "Heptatonique" ==> p == Scale.Major
    ensures style != "Heptatonique" ==> p == Scale.Pentatonic
  {
    if style == "Heptatonique" then Scale.Major else Scale.Pentatonic
  }

  /** The 22 offsets of pattern p repeated once per octave. */
  function Offsets(p: seq<int>): seq<int>
    requires |p| > 0
  {
    seq(Scale.NoteCount, i requires 0 <= i => Scale.Step(p, i))
  }

  /** The 22 offsets above C4 of a style: one semitone apart for
      "Chromatique", the repeated pattern otherwise. */
  function FrequenciesOf(style: string): (r: seq<int>)
    ensures |r| == Scale.NoteCount
    ensures style == "Chromatique" ==> forall i :: 0 <= i < |r| ==> r[i] == i
    ensures style != "Chromatique" ==> r == Offsets(PatternOf(style))
  {
    if style == "Chromatique" then seq(Scale.NoteCount, i => i)
    else Offsets(PatternOf(style))
  }

  /** Each style's offsets climb strictly; the chromatic branch is the same
      expansion with every semitone as the pattern. */
  lemma FrequenciesAscend(style: string)
    ensures var r := FrequenciesOf(style);
      forall i, j :: 0 <= i < j < |r| ==> r[i] < r[j]
    ensures style == "Chromatique" ==> FrequenciesOf(style) == Offsets(Scale.ChromaticSteps)
  {
    var r := FrequenciesOf(style);
    if style == "Chromatique" {
      forall i | 0 <= i < Scale.NoteCount
        ensures Scale.Step(Scale.ChromaticSteps, i) == i
      {
        assert i == 12 * (i / 12) + i % 12;
      }
    } else {
      var p := PatternOf(style);
      forall i, j | 0 <= i < j < |r|
        ensures r[i] < r[j]
      {
        Scale.StepAscending(p, i, j);
      }
    }
  }

  /** The two windows lay out the same bars: for matching combo labels, the
      i-th offset above C4 is the engine's i-th bar measured from A4 plus the
      nine semitones from C4 to A4. */
  lemma BarsMatchEngine(caption: string, style: string, i: nat)
    requires || (caption == "Pentatonique" && style == "pentatonic")
             || (caption == "Heptatonique" && style == "major")
             || (caption == "Chromatique" && style == "chromatic")
    requires i < Scale.NoteCount
    ensures FrequenciesOf(caption)[i]
            == Scale.ScaleOf(Scale.PatternFor(style))[i].frequency.fromA4 + Pitch.A4Index
  {
    var p := Scale.PatternFor(style);
    Scale.ScaleOfAt(p, i);
    Scale.ScaleNoteDistance(p, i);
    if caption == "Chromatique" {
      FrequenciesAscend(caption);
      assert FrequenciesOf(caption)[i] == Offsets(Scale.ChromaticSteps)[i];
    }
  }

  /** The offset of step k of the pattern in cycle c is bar c * |p| + k. */
  lemma OffsetAt(p: seq<int>, c: nat, k: nat)
    requires 0 <= k < |p| && c * |p| + k < Scale.NoteCount
    ensures Offsets(p)[c * |p| + k] == 12 * c + p[k]
  {
    Arith.DivModUnique(c, k, |p|);
  }

  /** One pass of the inner loop of build_frequencies: append the pattern's
      offsets for one cycle of 12 semitones, breaking right after the 22nd. */
  method AppendCycle(pattern: seq<int>, built: seq<int>, n: int) returns (grown: seq<int>)
    requires |pattern| > 0 && n >= 0 && n % 12 == 0
    requires |built| == (n / 12) * |pattern| < Scale.NoteCount
    requires built == Offsets(pattern)[..|built|]
    ensures |grown| == if |built| + |pattern| < Scale.NoteCount then |built| + |pattern| else Scale.NoteCount
    ensures grown == Offsets(pattern)[..|grown|]
  {
    ghost var target := Offsets(pattern);
    ghost var cycle: nat := n / 12;
    assert n == 12 * cycle;
    grown := built;
    var k := 0;
    while k < |pattern|
      invariant 0 <= k <= |pattern|
      invariant |grown| == |built| + k < Scale.NoteCount
      invariant grown == target[..|grown|]
    {
      ghost var i := |grown|;
      assert i == cycle * |pattern| + k;
      OffsetAt(pattern, cycle, k);
      Scale.PrefixSnoc(target, i);
      grown := grown + [n + pattern[k]];
      if |grown| >= Scale.NoteCount {
        break;
      }
      k := k + 1;
    }
  }

  /** build_frequencies: 22 semitone offsets above C4, counted in a plain
      loop for "Chromatique" and by repeating a pattern otherwise. */
  method BuildFrequencies(style: string) returns (freqs: seq<int>)
    ensures freqs == FrequenciesOf(style)
  {
    freqs := [];
    if style == "Chromatique" {
      var n := 0;
      while n < Scale.NoteCount
        invariant 0 <= n <= Scale.NoteCount
        invariant |freqs| == n
        invariant forall i :: 0 <= i < n ==> freqs[i] == i
      {
        freqs := freqs + [n];
        n := n + 1;
      }
    } else {
      var pattern := PatternOf(style);
      var n := 0;
      while |freqs| < Scale.NoteCount
        invariant n >= 0 && n % 12 == 0
        invariant |freqs| <= Scale.NoteCount
        invariant |freqs| == Scale.NoteCount || |freqs| == (n / 12) * |pattern|
        invariant freqs == Offsets(pattern)[..|freqs|]
        decreases Scale.NoteCount - |freqs|
      {
        freqs := AppendCycle(pattern, freqs, n);
        assert ((n + 12) / 12) * |pattern| == (n / 12) * |pattern| + |pattern|;
        n := n + 12;
      }
    }
  }

  /** The cache's decay at sample i: exp(-3 (t_i - t_a)), counted from the
      first sample after the attack. */
  function NoteDecay(n: nat, a: nat, duration: real, m: Math, i: nat): (d: real)
    requires n > 0
    ensures i == a ==> d == m.exp(0.0)
  {
    m.exp(-DecayPerSecond * (TimeAt(n, duration, i) - TimeAt(n, duration, a)))
  }

  /** The cache's envelope: the linear attack, then the decay from the
      attack's end on, starting at exp(0). */
  function NoteEnvelope(n: nat, a: nat, duration: real, m: Math): (env: seq<real>)
    requires 1 <= a < n
    ensures |env| == n && env[0] == 0.0
    ensures forall i :: 0 <= i < a ==> env[i] == Ramp(a, i)
    ensures forall i :: a <= i < n ==> env[i] == NoteDecay(n, a, duration, m, i)
    ensures env[a] == m.exp(0.0)
  {
    var decay := (i: nat) => NoteDecay(n, a, duration, m, i);
    var env := Envelope(n, a, decay);
    assert env[a] == NoteDecay(n, a, duration, m, a);
    env
  }

  /** The cached buffer of the bar `offset` semitones above C4: the plain
      sine times the envelope times the volume. */
  function NoteBuffer(offset: int, n: nat, a: nat, duration: real, volume: real, m: Math): (s: seq<real>)
    requires 1 <= a < n
    ensures |s| == n && s[0] == 0.0
    ensures forall i :: 0 <= i < n ==>
      s[i] == Mixed(Wave(ControllerHz(offset, m), TimeAt(n, duration, i), false, m),
                    NoteEnvelope(n, a, duration, m)[i], volume)
  {
    var env := NoteEnvelope(n, a, duration, m);
    Render(n, duration, ControllerHz(offset, m), false, env, volume, m)
  }

  /** build_note_cache: one buffer per bar, keyed by the bar's index, or the
      error numpy raises on the first bar: a negative count in linspace, a
      buffer too short to take a ramp of two or more samples, or no sample
      left to read t[a] from (which is also where an empty buffer with a
      one-sample attack fails, the ramp having broadcast into it). */
  function BuildNoteCache(freqs: seq<int>, sampleRate: nat, volume: real, duration: real, m: Math)
    : (r: Result<map<nat, seq<real>>, SynthError>)
    ensures var n := SampleCount(sampleRate, duration); var a := AttackSamples(sampleRate);
      && (r.Success? <==> |freqs| == 0 || n > a)
      && (r.Failure? && n < 0 ==> r.error == NegativeSampleCount(n))
      && (r.Failure? && 0 <= n < a && a > 1 ==> r.error == AttackDoesNotFit(n, a))
      && (r.Failure? && 0 <= n && (n == a || a == 1) ==> r.error == AttackEndOutOfRange(n))
    ensures r.Success? ==> forall i: nat :: i in r.value <==> i < |freqs|
    ensures r.Success? ==> forall i: nat :: i in r.value ==>
      var n := SampleCount(sampleRate, duration); var a := AttackSamples(sampleRate);
      && |r.value[i]| == n && r.value[i][0] == 0.0
      && r.value[i] == NoteBuffer(freqs[i], n, a, duration, volume, m)
  {
    var n := SampleCount(sampleRate, duration);
    var a := AttackSamples(sampleRate);
    if |freqs| == 0 then Success(map[])
    else if n < 0 then Failure(NegativeSampleCount(n))
    else if n < a && a > 1 then Failure(AttackDoesNotFit(n, a))
    else if n <= a then Failure(AttackEndOutOfRange(n))
    else Success(map i: nat | i < |freqs| :: NoteBuffer(freqs[i], n, a, duration, volume, m))
  }

  /** From 5 Hz on, a 0.45 s note leaves room after the attack, so the note
      cache can always be built at the rates the settings allow. */
  lemma NoteCacheFits(sampleRate: nat)
    requires sampleRate >= 5
    ensures SampleCount(sampleRate, DefaultDuration) > AttackSamples(sampleRate)
  {
    var sr := sampleRate as real;
    assert sr * DefaultDuration >= 2.0;
    assert sr * DefaultDuration >= sr * AttackTime + 1.0;
    TruncateMonotone(2.0, sr * DefaultDuration);
    TruncateMonotone(sr * AttackTime + 1.0, sr * DefaultDuration);
    assert Truncate(sr * AttackTime + 1.0) == Truncate(sr * AttackTime) + 1;
  }

  /** The window as it opens: not recording, nothing held, the pentatonic
      bars, and a buffer cached for each of them. */
  function Open(m: Math): (w: Window)
    ensures w.recorder == Take.Idle && w.pressed == {}
    ensures w.frequencies == FrequenciesOf(InitialScale)
    ensures w.scale == InitialScale && w.sampleRate == InitialSampleRate && w.volume == InitialVolume
    ensures BuildNoteCache(FrequenciesOf(InitialScale), InitialSampleRate, InitialVolume, DefaultDuration, m)
            == Success(w.noteCache)
    ensures forall i: nat :: i in w.noteCache <==> i < Scale.NoteCount
  {
    NoteCacheFits(InitialSampleRate);
    var freqs := FrequenciesOf(InitialScale);
    var cache := BuildNoteCache(freqs, InitialSampleRate, InitialVolume, DefaultDuration, m);
    Window(Take.Idle, {}, InitialScale, freqs, cache.value, InitialSampleRate, InitialVolume)
  }

  /** on_scale_change: the new style's bars, and a cache rebuilt from
      scratch; when the rebuild raises, the cache is left empty and the
      error is reported. */
  function OnScaleChange(w: Window, text: string, m: Math): (r: (Window, Option<SynthError>))
    ensures r.0.scale == text && r.0.frequencies == FrequenciesOf(text)
    ensures r.0.recorder == w.recorder && r.0.pressed == w.pressed
    ensures r.0.sampleRate == w.sampleRate && r.0.volume == w.volume
    ensures r.1.None? <==> SampleCount(w.sampleRate, DefaultDuration) > AttackSamples(w.sampleRate)
    ensures r.1.Some? ==> r.0.noteCache == map[]
    ensures r.1.None? ==> forall i: nat :: i in r.0.noteCache <==> i < Scale.NoteCount
    ensures r.1.None? ==> forall i: nat :: i in r.0.noteCache ==>
      |r.0.noteCache[i]| == SampleCount(w.sampleRate, DefaultDuration) && r.0.noteCache[i][0] == 0.0
    ensures r.1.None? ==>
      BuildNoteCache(FrequenciesOf(text), w.sampleRate, w.volume, DefaultDuration, m) == Success(r.0.noteCache)
    ensures r.1.None? ==> forall i: nat :: i in r.0.noteCache ==>
      r.0.noteCache[i] == NoteBuffer(FrequenciesOf(text)[i], SampleCount(w.sampleRate, DefaultDuration),
                                     AttackSamples(w.sampleRate), DefaultDuration, w.volume, m)
  {
    var freqs := FrequenciesOf(text);
    var w' := w.(scale := text, frequencies := freqs);
    match BuildNoteCache(freqs, w.sampleRate, w.volume, DefaultDuration, m)
    case Success(cache) => (w'.(noteCache := cache), None)
    case Failure(e) => (w'.(noteCache := map[]), Some(e))
  }

  /** The note rendered on the fly: the plain sine at the volume, 0.8 s
      long, without envelope. */
  function FallbackTone(sampleRate: nat, volume: real, hz: real, m: Math): (s: seq<real>)
    ensures |s| == SampleCount(sampleRate, FallbackDuration)
    ensures forall i :: 0 <= i < |s| ==> s[i] == Fundamental(hz, TimeAt(|s|, FallbackDuration, i), m) * volume
    ensures SineBounded(m) && volume >= 0.0 ==> forall i :: 0 <= i < |s| ==> -volume <= s[i] <= volume
  {
    var n := SampleCount(sampleRate, FallbackDuration);
    assert SineBounded(m) && volume >= 0.0 ==> forall i :: 0 <= i < n ==>
      -volume <= Fundamental(hz, TimeAt(n, FallbackDuration, i), m) * volume <= volume
    by {
      if SineBounded(m) && volume >= 0.0 {
        forall i | 0 <= i < n
          ensures -volume <= Fundamental(hz, TimeAt(n, FallbackDuration, i), m) * volume <= volume
        {
          Arith.UnitTimesBounded(Fundamental(hz, TimeAt(n, FallbackDuration, i), m), volume);
        }
      }
    }
    seq(n, i requires 0 <= i < n => Fundamental(hz, TimeAt(n, FallbackDuration, i), m) * volume)
  }

  /** The wave play_note uses: the cached buffer of the nearest bar when
      there is one, the on-the-fly tone otherwise. `nearest` is the argmin
      lookup, which stays opaque. */
  function SelectWave(noteCache: map<nat, seq<real>>, nearest: Option<nat>, fallback: seq<real>)
    : (wave: seq<real>)
    ensures nearest.Some? && nearest.value in noteCache ==> wave == noteCache[nearest.value]
    ensures !(nearest.Some? && nearest.value in noteCache) ==> wave == fallback
  {
    if nearest.Some? && nearest.value in noteCache then noteCache[nearest.value] else fallback
  }

  /** What escapes play_note: the spectrum drawn before the take is
      extended takes the real FFT of the wave, which raises on an empty one. */
  datatype PlotError = EmptyWave

  /** play_note, as far as state goes: the selected wave is drawn, then
      joins the take while recording; nothing else changes. An empty wave
      makes the drawing raise before the take is touched. */
  function PlayNote(w: Window, offset: int, nearest: Option<nat>, m: Math): (r: Result<(Window, seq<real>), PlotError>)
    ensures var wave := SelectWave(w.noteCache, nearest,
                                   FallbackTone(w.sampleRate, w.volume, ControllerHz(offset, m), m));
      && (r.Failure? <==> |wave| == 0)
      && (r.Failure? ==> r.error == EmptyWave)
      && (r.Success? ==> r.value.1 == wave)
    ensures r.Success? ==>
      && r.value.0 == w.(recorder := r.value.0.recorder)
      && r.value.0.recorder.recording == w.recorder.recording
      && (w.recorder.recording ==> r.value.0.recorder.take == w.recorder.take + r.value.1)
      && (!w.recorder.recording ==> r.value.0.recorder == w.recorder)
    ensures w.sampleRate >= 2 && (forall i :: i in w.noteCache ==> |w.noteCache[i]| > 0) ==> r.Success?
  {
    var wave := SelectWave(w.noteCache, nearest,
                           FallbackTone(w.sampleRate, w.volume, ControllerHz(offset, m), m));
    assert w.sampleRate >= 2 ==> SampleCount(w.sampleRate, FallbackDuration) >= 1 by {
      if w.sampleRate >= 2 {
        assert (w.sampleRate as real) * FallbackDuration >= 1.6;
        TruncateMonotone(1.0, (w.sampleRate as real) * FallbackDuration);
      }
    }
    if |wave| == 0 then Failure(EmptyWave)
    else Success((w.(recorder := Take.Append(w.recorder, wave)), wave))
  }

  /** start_record: recording from an empty buffer. */
  function StartRecord(w: Window): (r: Window)
    ensures r.recorder.recording && r.recorder.take == []
    ensures r == w.(recorder := r.recorder)
  {
    w.(recorder := Take.Start(w.recorder))
  }

  /** stop_record: recording ends, the buffer is kept. */
  function StopRecord(w: Window): (r: Window)
    ensures !r.recorder.recording && r.recorder.take == w.recorder.take
    ensures r == w.(recorder := r.recorder)
  {
    w.(recorder := Take.Stop(w.recorder))
  }

  /** What escapes the controller's save: the file write is not guarded,
      so its failure leaves the handler as an exception. */
  datatype SaveError = WriteRaised(path: string)

  /** save_recording: an empty buffer is refused; without the library the
      buffer is kept; otherwise it is written at the window's rate and
      cleared. A failing write raises before the buffer is cleared. */
  function SaveRecording(w: Window, io: Engine.AudioIo, path: string)
    : (r: Result<(Window, Take.SaveOutcome), SaveError>)
    ensures r.Failure? <==>
      w.recorder.take != [] && io.Available? && !io.write(path, w.recorder.take, w.sampleRate)
    ensures r.Failure? ==> r.error == WriteRaised(path)
    ensures r.Success? ==>
      && r.value.0 == w.(recorder := r.value.0.recorder)
      && (r.value.1 == Take.NothingToSave <==> w.recorder.take == [])
      && (r.value.1 == Take.Saved <==> w.recorder.take != [] && io.Available?)
      && (r.value.1 == Take.Saved ==> r.value.0.recorder == Take.Recorder(w.recorder.recording, []))
      && (r.value.1 != Take.Saved ==> r.value.0 == w)
  {
    if w.recorder.take != [] && io.Available? && !io.write(path, w.recorder.take, w.sampleRate) then
      Failure(WriteRaised(path))
    else
      var (recorder, outcome) := Take.Save(w.recorder, io.Available?);
      Success((w.(recorder := recorder), outcome))
  }

  /** keyPressEvent: with the focus in a text field, or no text, the event
      is passed on; a held key is swallowed; a mapped key whose bar exists
      plays the bar and is marked held, unless playing raises, in which case
      the key is not marked; a mapped key beyond the bars is swallowed;
      anything else is passed on. */
  function KeyPress(w: Window, text: string, editFocused: bool, nearest: Option<nat>, m: Math)
    : (r: Result<(Window, Keys.KeyOutcome), PlotError>)
    ensures var key := Keys.Upper(text);
      var plays := && !editFocused && key != [] && key !in w.pressed && key in Keys.ControllerKeyMap()
                   && Keys.ControllerKeyMap()[key] < |w.frequencies|;
      && (r.Failure? <==> plays && PlayNote(w, w.frequencies[Keys.ControllerKeyMap()[key]], nearest, m).Failure?)
      && (r.Success? ==>
            && (r.value.1 == Keys.PassedOn <==>
                  editFocused || key == [] || (key !in w.pressed && key !in Keys.ControllerKeyMap()))
            && (r.value.1.Played? <==> plays)
            && (r.value.1.Played? ==>
                  r.value.1.index == Keys.ControllerKeyMap()[key] && r.value.0.pressed == w.pressed + {key})
            && (!r.value.1.Played? ==> r.value.0 == w)
            && r.value.1 != Keys.Released)
    ensures r.Success? && r.value.1.Played? ==>
      r.value.0 == PlayNote(w, w.frequencies[r.value.1.index], nearest, m).value.0.(pressed := r.value.0.pressed)
  {
    var key := Keys.Upper(text);
    if editFocused || key == [] then Success((w, Keys.PassedOn))
    else if key in w.pressed then Success((w, Keys.Ignored))
    else if key in Keys.ControllerKeyMap() then
      var idx := Keys.ControllerKeyMap()[key];
      if idx < |w.frequencies| then
        match PlayNote(w, w.frequencies[idx], nearest, m)
        case Failure(e) => Failure(e)
        case Success((w', _)) => Success((w'.(pressed := w.pressed + {key}), Keys.Played(idx)))
      else Success((w, Keys.Ignored))
    else Success((w, Keys.PassedOn))
  }

  /** keyReleaseEvent: letting go of a held key unmarks it; any other event
      is passed on. */
  function KeyRelease(w: Window, text: string): (r: (Window, Keys.KeyOutcome))
    ensures var key := Keys.Upper(text);
      && (r.1 == Keys.Released <==> key != [] && key in w.pressed)
      && (r.1 == Keys.Released ==> r.0 == w.(pressed := w.pressed - {key}))
      && (r.1 != Keys.Released ==> r.1 == Keys.PassedOn && r.0 == w)
  {
    var key := Keys.Upper(text);
    if key == [] then (w, Keys.PassedOn)
    else if key in w.pressed then (w.(pressed := w.pressed - {key}), Keys.Released)
    else (w, Keys.PassedOn)
  }

  /** Only letters of the key row are ever held down. */
  ghost predicate HeldKeysMapped(w: Window)
  {
    w.pressed <= Keys.ControllerKeyMap().Keys
  }

  /** Pressing and releasing keys keeps the held set within the key row. */
  lemma KeyEventsKeepHeldKeysMapped(w: Window, text: string, editFocused: bool, nearest: Option<nat>, m: Math)
    requires HeldKeysMapped(w)
    ensures KeyPress(w, text, editFocused, nearest, m).Success? ==>
      HeldKeysMapped(KeyPress(w, text, editFocused, nearest, m).value.0)
    ensures HeldKeysMapped(KeyRelease(w, text).0)
  {
  }

  /** A key that has just played is swallowed by every further press, auto-
      repeat included, until it is released; after the release it plays the
      same bar again. */
  lemma HeldKeyIgnoredUntilReleased(w: Window, text: string, nearest: Option<nat>, nearest': Option<nat>, m: Math)
    requires KeyPress(w, text, false, nearest, m).Success?
    requires KeyPress(w, text, false, nearest, m).value.1.Played?
    ensures var w1 := KeyPress(w, text, false, nearest, m).value.0;
      && KeyPress(w1, text, false, nearest', m) == Success((w1, Keys.Ignored))
      && KeyRelease(w1, text).1 == Keys.Released
      && KeyPress(KeyRelease(w1, text).0, text, false, nearest, m).Success?
      && KeyPress(KeyRelease(w1, text).0, text, false, nearest, m).value.1
         == KeyPress(w, text, false, nearest, m).value.1
  {
  }

  /** A played key records the cached buffer of its own bar, when the
      nearest-bar lookup finds that bar and its buffer is cached. */
  lemma PressRecordsCachedBar(w: Window, text: string, idx: nat, m: Math)
    requires w.recorder.recording
    requires KeyPress(w, text, false, Some(idx), m).Success?
    requires KeyPress(w, text, false, Some(idx), m).value.1 == Keys.Played(idx)
    requires idx in w.noteCache
    ensures KeyPress(w, text, false, Some(idx), m).value.0.recorder.take == w.recorder.take + w.noteCache[idx]
  {
  }
}
