/** The main window of the newer front-end: the engine's 22 bars, one key
    button per bar, the engine itself (shared, with its sample cache), and
    the take being recorded. */
module BalafonWindow {
  import opened Wrappers
  import opened Numerics
  import opened Pitch
  import Scale
  import Keys
  import Take
  import Engine

  /** The combo box's captions and the engine styles they select. */
  const StyleLabels: map<string, string> :=
    map["Pentatonique" := "pentatonic", "Majeure" := "major", "Chromatique" := "chromatic"]

  /** The style the window opens with. */
  const InitialStyle: string := "pentatonic"

  /** What escapes a handler: a caption missing from the style table
      (KeyError), or a bar index past the end of the notes (IndexError). */
  datatype UiError = UnknownScaleLabel(caption: string) | IndexError(index: nat)

  /** The window's state: the take, the bars, the note each key button
      carries, and the engine. */
  datatype Window = Window(recorder: Take.Recorder, notes: seq<Note>, keys: seq<Note>, core: Engine.AudioCore)

  /** Every button carries the note of its bar, and there are 22 of each. */
  ghost predicate Valid(w: Window)
  {
    |w.notes| == Scale.NoteCount && w.keys == w.notes
  }

  /** The window as it opens on the shared engine: the pentatonic bars, one
      button per bar, nothing recorded. */
  function Open(core: Engine.AudioCore): (w: Window)
    ensures Valid(w)
    ensures w.recorder == Take.Idle && w.core == core
    ensures w.notes == Scale.ScaleOf(Scale.Pentatonic)
  {
    var notes := Scale.ScaleOf(Scale.PatternFor(InitialStyle));
    Window(Take.Idle, notes, notes, core)
  }

  /** zip(buttons, notes): the first min(|keys|, |notes|) buttons take the
      new notes in order; any button beyond keeps its note. */
  function Relabel(keys: seq<Note>, notes: seq<Note>): (r: seq<Note>)
    ensures |r| == |keys|
    ensures forall i :: 0 <= i < |keys| && i < |notes| ==> r[i] == notes[i]
    ensures forall i :: |notes| <= i < |keys| ==> r[i] == keys[i]
  {
    seq(|keys|, i requires 0 <= i < |keys| => if i < |notes| then notes[i] else keys[i])
  }

  /** on_scale_change: the caption's style is looked up (an unknown caption
      raises), the engine builds the bars, and the buttons are relabelled. */
  function OnScaleChange(w: Window, caption: string): (r: Result<Window, UiError>)
    ensures r.Failure? <==> caption !in StyleLabels
    ensures r.Failure? ==> r.error == UnknownScaleLabel(caption)
    ensures r.Success? ==>
      && r.value.notes == Scale.ScaleOf(Scale.PatternFor(StyleLabels[caption]))
      && r.value.keys == Relabel(w.keys, r.value.notes)
      && r.value.recorder == w.recorder && r.value.core == w.core
  {
    if caption !in StyleLabels then Failure(UnknownScaleLabel(caption))
    else
      var notes := Scale.ScaleOf(Scale.PatternFor(StyleLabels[caption]));
      Success(w.(notes := notes, keys := Relabel(w.keys, notes)))
  }

  /** Changing the scale keeps every button on its own bar. */
  lemma ScaleChangeKeepsValid(w: Window, caption: string)
    requires Valid(w)
    requires OnScaleChange(w, caption).Success?
    ensures Valid(OnScaleChange(w, caption).value)
  {
    var w' := OnScaleChange(w, caption).value;
    Scale.ScaleShape(StyleLabels[caption]);
    assert |w'.keys| == |w'.notes|;
  }

  /** Each caption of the combo box selects the matching engine style. */
  lemma CaptionsSelectStyles()
    ensures Scale.PatternFor(StyleLabels["Pentatonique"]) == Scale.Pentatonic
    ensures Scale.PatternFor(StyleLabels["Majeure"]) == Scale.Major
    ensures Scale.PatternFor(StyleLabels["Chromatique"]) == Scale.ChromaticSteps
  {
  }

  /** on_key_pressed: fetch the note's buffer from the engine's cache and,
      while recording, append it to the take. */
  function OnKeyPressed(w: Window, f: Frequency, m: Math): (r: Window)
    ensures var (core, sample) := Engine.GetCachedSample(w.core, Hz(f, m), m);
      && r.core == core
      && r.notes == w.notes && r.keys == w.keys
      && r.recorder.recording == w.recorder.recording
      && (w.recorder.recording ==> r.recorder.take == w.recorder.take + sample)
      && (!w.recorder.recording ==> r.recorder == w.recorder)
  {
    var (core, sample) := Engine.GetCachedSample(w.core, Hz(f, m), m);
    w.(core := core, recorder := Take.Append(w.recorder, sample))
  }

  /** start_record: recording from an empty take. */
  function StartRecord(w: Window): (r: Window)
    ensures r.recorder.recording && r.recorder.take == []
    ensures r == w.(recorder := r.recorder)
  {
    w.(recorder := Take.Start(w.recorder))
  }

  /** stop_record: recording ends, the take is kept. */
  function StopRecord(w: Window): (r: Window)
    ensures !r.recorder.recording && r.recorder.take == w.recorder.take
    ensures r == w.(recorder := r.recorder)
  {
    w.(recorder := Take.Stop(w.recorder))
  }

  /** save_recording: an empty take is refused; otherwise the engine writes
      it, and the take is cleared only when the engine reports success. */
  function SaveRecording(w: Window, io: Engine.AudioIo, path: string): (r: (Window, Take.SaveOutcome))
    ensures r.0 == w.(recorder := r.0.recorder)
    ensures r.1 == Take.NothingToSave <==> w.recorder.take == []
    ensures r.1 == Take.Saved <==>
      w.recorder.take != [] && Engine.SaveRecording(io, w.recorder.take, path, w.core.sampleRate)
    ensures r.1 == Take.Saved ==> r.0.recorder == Take.Recorder(w.recorder.recording, [])
    ensures r.1 != Take.Saved ==> r.0 == w
    ensures io.Unavailable? ==> r.0 == w
  {
    if w.recorder.take == [] then (w, Take.NothingToSave)
    else
      var written := Engine.SaveRecording(io, w.recorder.take, path, w.core.sampleRate);
      var (recorder, outcome) := Take.Save(w.recorder, written);
      (w.(recorder := recorder), outcome)
  }

  /** play_async, as far as state goes: with a sound device, the note's
      buffer is fetched through the cache before playback starts. */
  function PlayAsync(core: Engine.AudioCore, f: Frequency, soundDevice: bool, m: Math)
    : (r: Engine.AudioCore)
    ensures !soundDevice ==> r == core
    ensures soundDevice ==> r == Engine.GetCachedSample(core, Hz(f, m), m).0
    ensures m.hundredths(Hz(f, m)) in core.cache ==> r == core
  {
    if !soundDevice then core
    else Engine.GetCachedSample(core, Hz(f, m), m).0
  }

  /** keyPressEvent: auto-repeats, unmapped characters and keys past the
      last button are swallowed; a mapped key plays its bar and hands it to
      on_key_pressed. */
  function KeyPressEvent(w: Window, autoRepeat: bool, text: string, soundDevice: bool, m: Math)
    : (r: Result<(Window, Keys.KeyOutcome), UiError>)
    ensures var key := Keys.Upper(text);
      var bar := !autoRepeat && key in Keys.WindowKeyMap && Keys.WindowKeyMap[key] < |w.keys|;
      && (!bar ==> r == Success((w, Keys.Ignored)))
      && (bar && Keys.WindowKeyMap[key] >= |w.notes| ==> r == Failure(IndexError(Keys.WindowKeyMap[key])))
      && (r.Success? && r.value.1 != Keys.Ignored ==> bar && r.value.1 == Keys.Played(Keys.WindowKeyMap[key]))
    ensures r.Success? ==> r.value.1 == Keys.Ignored || r.value.1.Played?
    ensures Valid(w) && !autoRepeat && Keys.Upper(text) in Keys.WindowKeyMap ==>
      r.Success? && r.value.1 == Keys.Played(Keys.WindowKeyMap[Keys.Upper(text)])
    ensures r.Success? && r.value.1.Played? ==>
      var idx := r.value.1.index;
      && idx < |w.notes|
      && var cacheKey := m.hundredths(Hz(w.notes[idx].frequency, m));
      && r.value.0.notes == w.notes && r.value.0.keys == w.keys
      && cacheKey in r.value.0.core.cache
      && (w.recorder.recording ==>
            r.value.0.recorder.take == w.recorder.take + r.value.0.core.cache[cacheKey])
      && (!w.recorder.recording ==> r.value.0.recorder == w.recorder)
    ensures r.Success? && r.value.1.Played? ==>
      var (core, sample) := Engine.GetCachedSample(w.core, Hz(w.notes[r.value.1.index].frequency, m), m);
      && r.value.0.core == core
      && r.value.0.recorder.recording == w.recorder.recording
      && (w.recorder.recording ==> r.value.0.recorder.take == w.recorder.take + sample)
  {
    if autoRepeat then Success((w, Keys.Ignored))
    else
      var key := Keys.Upper(text);
      if key !in Keys.WindowKeyMap then Success((w, Keys.Ignored))
      else
        var idx := Keys.WindowKeyMap[key];
        if idx >= |w.keys| then Success((w, Keys.Ignored))
        else if idx >= |w.notes| then Failure(IndexError(idx))
        else
          var f := w.notes[idx].frequency;
          var core := PlayAsync(w.core, f, soundDevice, m);
          assert OnKeyPressed(w.(core := core), f, m) == OnKeyPressed(w, f, m) by {
            var hz := Hz(f, m);
            Engine.CachedTwiceSame(w.core, hz, hz, m);
          }
          Success((OnKeyPressed(w.(core := core), f, m), Keys.Played(idx)))
  }

  /** Whether a sound device is present changes nothing the window keeps:
      play_async's fetch leaves the entry that on_key_pressed then hits. */
  lemma SoundDeviceIrrelevant(w: Window, autoRepeat: bool, text: string, m: Math)
    ensures KeyPressEvent(w, autoRepeat, text, true, m) == KeyPressEvent(w, autoRepeat, text, false, m)
  {
    var key := Keys.Upper(text);
    if !autoRepeat && key in Keys.WindowKeyMap {
      var idx := Keys.WindowKeyMap[key];
      if idx < |w.keys| && idx < |w.notes| {
        var hz := Hz(w.notes[idx].frequency, m);
        Engine.CachedTwiceSame(w.core, hz, hz, m);
      }
    }
  }

  /** In a valid window no key reaches past the notes, and since the
      engine's cache tone renders at every rate, no key press fails. */
  lemma ValidWindowKeysSafe(w: Window, autoRepeat: bool, text: string, soundDevice: bool, m: Math)
    requires Valid(w)
    ensures KeyPressEvent(w, autoRepeat, text, soundDevice, m).Success?
  {
    SoundDeviceIrrelevant(w, autoRepeat, text, m);
  }

  /** Every letter of the key row plays its own bar in a valid window that
      is not inside an auto-repeat. */
  lemma EveryRowKeyPlays(w: Window, i: nat, soundDevice: bool, m: Math)
    requires Valid(w)
    requires i < |Keys.KeyRow|
    ensures KeyPressEvent(w, false, Keys.KeyRow[i], soundDevice, m).Success?
    ensures KeyPressEvent(w, false, Keys.KeyRow[i], soundDevice, m).value.1 == Keys.Played(i)
  {
    Keys.WindowKeyMapFollowsRow(i);
    Keys.RowIsUpper(i);
    ValidWindowKeysSafe(w, false, Keys.KeyRow[i], soundDevice, m);
  }
}
