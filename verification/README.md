# Symphony balafon engine — a Dafny model

Symphony is a virtual balafon. A small audio engine (`AudioCore`) derives the
pitches of 22 bars from a scale pattern and renders each note as a short
percussive tone: a sine with two harmonics, a linear attack and an
exponential decay. It caches rendered tones under their frequency rounded to
two decimals. It also normalises a magnitude spectrum for display. Two Qt
front-ends wrap the engine:

- the older controller window (`ui_controller.py`) builds its own 22
  frequencies above C4 and its own per-bar note cache;
- the newer main window (`ui.py`) drives the shared engine.

Both windows map 22 AZERTY letters onto the bars and record a "take" of the
notes played between start and stop.

This project models that core in Dafny and proves what it promises.

- Pitches are exact integers, counted in semitones. The engine measures them
  from A4 and the controller measures them from C4.
- `sin`, `exp`, `ln`, `2^x`, `pi` and `round(f, 2)` are the fields of one
  uninterpreted record, `Numerics.Math`. A property that needs a law of
  `2^x` states that law as a precondition (`Numerics.ExponentLaws`).
- An exception that escapes an operation is a `Result` failure naming it.
  `ControllerWindow.OnScaleChange` raises after it has changed the bars, so
  it returns the state it leaves behind together with an optional error.
  The window handlers return their new state explicitly.

Modules follow the source's structure:

| module | what it holds |
|---|---|
| `Pitch` | `get_frequency` |
| `Scale` | `build_balafon_scale` |
| `Synth` | the shape and envelope of `generate_sample` |
| `ToneCache` | a generic get-or-render map, with a sequential model of the locked section |
| `Engine` | `AudioCore`'s cache, clear and file adapters |
| `Spectrum` | `analyze_spectrum` and the controller's bar normalisation |
| `Keys` | the key maps and upper-casing |
| `Take` | the record-buffer state machine shared by both windows |
| `ControllerWindow` | `ui_controller.py` |
| `BalafonWindow` | `ui.py` |

## Numerical details the model keeps

- **Sample count.** The engine and the controller count samples with
  `int(sample_rate * duration)`, which truncates toward zero
  (`Synth.Truncate`, `Synth.SampleCount`).
- **Decay rate.** The engine's decay constant is `-3 * ln(0.01) / duration`.
  The envelope therefore falls to 1% of its peak a third of the way through
  the note, not at its end (`Synth.DecayRate`).
- **Short tones in the engine.** `envelope[:a] = linspace(0, 1, a)` raises
  when fewer than `a` samples are left for the attack. numpy broadcasts a
  single value, though, so with a one-sample attack and no samples at all
  the engine returns an empty buffer instead of raising
  (`Synth.GenerateSample`, `Synth.SilentEngineRendersEmpty`).
- **Short tones in the controller.** The controller's cache rebuild also
  reads `t[a]`. That read raises `IndexError` when the tone has exactly `a`
  samples, or none with a one-sample attack. The engine never reads
  `t[a]` and accepts both cases (`ControllerWindow.BuildNoteCache`).
- **Empty waves in the controller.** The controller draws the spectrum of
  every played wave before it records it, and the FFT of an empty wave
  raises. Only the on-the-fly tone at a rate of 1 Hz or less is empty
  (`ControllerWindow.PlayNote`).

## Model

| member | source | states |
|---|---|---|
| Pitch.GetFrequency | core.py:45-52 | fails exactly for names outside the 12-name chromatic table, with that name as the error; on success the distance from A4 gives back the same name and octave |
| Pitch.Hz | core.py:52 | 440 · 2^(d/12) is positive, and exactly 440 Hz at distance 0, once 2^x obeys the exponent laws |
| Numerics.Pow2Positive | core.py:52 | 2^x is positive under the exponent laws, so no note has a zero or negative frequency |
| Pitch.FrequencyRoundTrip | core.py:50-52 | every semitone distance from A4 is the frequency of its own name and octave, so names with octaves and distances are in one-to-one correspondence |
| Pitch.DistanceSplits | core.py:50-52 | the distance built from octave o and chromatic position k names position k and octave o again |
| Pitch.NameAndOctaveDetermine | core.py:50-52 | two distances with the same name and octave are equal: no two notes share a name and octave |
| Pitch.A4IsReference | core.py:33-34 | A4 is distance 0, which is 440 Hz once 2^0 = 1 |
| Pitch.OctaveUp | core.py:51-52 | one octave up adds exactly 12 semitones, which doubles the frequency |
| Pitch.HzIncreasing | core.py:52 | a larger semitone distance gives a strictly higher frequency when 2^x is increasing |
| Pitch.IndexOf | core.py:50 | `list.index`: the first position holding the element |
| Pitch.ChromaticIndex | core.py:36 | the name at position k of the table is found at position k, so the 12 names are distinct |
| Scale.PatternFor | core.py:56-62 | "major" and "chromatic" select their patterns; every other name, known or not, gets the pentatonic one; each pattern climbs within one octave |
| Scale.StepAscending | core.py:66-77 | along the expanded pattern, pitch strictly rises and the octave never falls |
| Scale.ScaleNoteDistance | core.py:70-75 | bar i sits Step(p, i) - 9 semitones from A4 |
| Scale.ScaleOf | core.py:66-77 | the closed form of the scale the loop builds: exactly 22 bars, bar i in octave 4 + i / (pattern length) |
| Scale.ScaleShape | core.py:54-79 | every style gives 22 bars starting at octave 4; octaves never decrease and pitches strictly rise; each bar carries the chromatic name of its step and `get_frequency` of that name and octave |
| Scale.ScaleAscends | core.py:66-77 | along any well-formed pattern's scale, octaves never fall and pitches strictly rise |
| Scale.ScaleNamed | core.py:70-75 | each bar carries the chromatic name of its step and the `get_frequency` of that name and octave |
| Scale.AppendOctave | core.py:67-76 | one octave's pass appends that octave's bars in order and stops at 22 |
| Scale.AppendBar | core.py:70-75 | one `notes.append` step extends the prefix of the scale by exactly its next bar |
| Scale.GrowByBar | core.py:70-75 | the bar for step k of cycle c, appended after c whole cycles of the pattern and k more bars, is the next bar of the scale |
| Scale.BuildBalafonScale | core.py:54-79 | the loop yields exactly 22 notes, equal to the bar-by-bar definition of the scale |
| Synth.Truncate | core.py:88 | `int()` on a float: the integer part, rounded toward zero |
| Synth.SampleCount | core.py:88 | for a non-negative duration the count is the largest whole number of samples that fits, n ≤ sr·d < n + 1; a negative duration gives a non-positive count |
| Synth.TimeAt | core.py:89 | `linspace(0, d, n, endpoint=False)`: the first time is 0 and every time lies in [0, d) |
| Synth.TimeAtUniform | core.py:89 | consecutive sample times lie exactly duration / n apart: the even spacing of `linspace` without its end point |
| Synth.Fundamental | core.py:92 | `sin(2π f t)` stays in [-1, 1] for a bounded sine and is sin(0) at t = 0 |
| Synth.Wave | core.py:92-97 | without harmonics the wave is the fundamental; with a bounded sine it stays within ±1.45, and within ±1 without harmonics |
| Synth.DecayRate | core.py:106 | the decay rate times the duration is -3 ln(0.01) |
| Synth.DecayAt | core.py:106-107 | the decay curve after the attack is exp(-k t_i) at the sample's own time |
| Synth.AttackSamples | core.py:100-101 | the attack length is at least 1 and otherwise `int(sr * 0.005)` |
| Synth.Ramp | core.py:103 | `linspace(0, 1, a)` starts at 0, ends at exactly 1 and stays in [0, 1] |
| Synth.RampIsLinear | core.py:103 | the ramp rises in equal steps of 1/(a - 1) |
| Synth.Envelope | core.py:102-107 | the envelope has n samples: the ramp over the first a, the decay curve after them |
| Synth.ToneEnvelope | core.py:99-107 | the tone's envelope has a positive duration, starts silent, rises linearly to 1 at the attack's last sample, and from there on sample i is exp(-k t_i) for the note's decay rate k |
| Synth.GenerateSample | core.py:81-110 | renders iff `int(sr * duration)` is not negative and either covers the attack or the attack is a single sample; otherwise the matching numpy error; a rendered buffer has `int(sr * duration)` samples, is empty when that count is 0, and is otherwise the tone of `Synth.Tone` |
| Synth.Tone | core.py:87-110 | the tone has `int(sr * duration)` samples, at least one, starts at 0, and each sample is the (harmonic) wave at its time times the envelope times the volume |
| Synth.Render | core.py:109 | the buffer has n samples, and sample i is the wave at time t_i times the envelope at i times the volume |
| Synth.DefaultDurationFits | core.py:84-101 | from 3 Hz on, a 0.45 s note always holds its attack |
| Synth.DefaultDurationRenders | core.py:84-101 | at every rate a 0.45 s note either covers its attack or has a single-sample attack, so it renders |
| Synth.SilentEngineRendersEmpty | core.py:88-107 | at rate 0 the attack is one sample, the count is 0, and `generate_sample` returns an empty buffer |
| Synth.ShortToneRenders | test_symphony.py:30-33 | a 0.1 s tone at 44100 Hz renders 4410 samples |
| Synth.TruncateMonotone | core.py:88 | `int()` keeps the order of non-negative reals |
| ToneCache.GetOrRender | core.py:112-119 | a hit returns the stored buffer and changes nothing; a miss renders once and stores the result under its key, keeping every other entry; a render error leaves the cache untouched |
| ToneCache.Clear | core.py:121-124 | the cache becomes empty |
| ToneCache.RepeatIsHit | core.py:112-119 | a second request with the same key returns the same buffer and renders nothing |
| ToneCache.ClearThenRenders | core.py:121-124 | after clearing, the next request renders afresh and the cache holds that single entry |
| ToneCache.Serve | core.py:116-119 | serving requests one at a time, as the lock makes them, gives one reply per request |
| ToneCache.ServeRendersOncePerKey | core.py:116-119 | over any run of requests, existing entries are never replaced; keys are rendered only if new, and each at most once; every buffer handed out is the one finally stored under its key |
| Engine.NewCore | core.py:38-43 | the shared engine starts at 44100 Hz and volume 0.7 with an empty cache, so a 0.45 s note has 19845 samples and a 220-sample attack |
| Engine.GetCachedSample | core.py:112-119 | keyed by round(f, 2): a hit returns the stored buffer and changes nothing; a miss returns exactly what `generate_sample` renders for the default 0.45 s harmonic note, which never fails, and stores it under its key while keeping every other entry and the configuration; from 3 Hz on the buffer is non-empty; cache entries keep the tone's length and silent start |
| Engine.ClearCache | core.py:121-124 | the configuration is kept and the cache is emptied |
| Engine.CachedTwiceSame | core.py:112-119 | fetching a rounded frequency a second time returns the same buffer and leaves the engine as the first fetch left it |
| Engine.SaveRecording | core.py:161-170 | False without the audio-file library; otherwise whether the write went through, an exception counting as False |
| Engine.LoadRecording | core.py:172-181 | None without the library or when reading fails; otherwise the samples read |
| Spectrum.Max | core.py:155-156 | the maximum bounds every element and is one of them |
| Spectrum.Scaled | core.py:156 | dividing non-negative values by their positive maximum puts each in [0, 1] |
| Spectrum.Normalize | core.py:154-156 | with a positive maximum, every value is divided by it, so all lie in [0, 1] and one equals 1; otherwise the values are left as they are |
| Spectrum.RfftFreqs | core.py:147 | `rfftfreq(n, 1/sr)`: n/2 + 1 bins, bin i at i * sr / n |
| Spectrum.BinsAscend | core.py:147 | bin frequencies start at 0 Hz and never descend |
| Spectrum.BinsAreAscending | core.py:147 | the whole rfft frequency axis is ascending and starts at 0 Hz |
| Spectrum.Keep | core.py:149-152 | `np.where(freqs <= range)`: keeps freqs and mags paired, never more bins than given, and only bins at or below the ceiling |
| Spectrum.KeptFrom | core.py:149 | the positions from a start on whose frequency is at or below the ceiling, strictly increasing |
| Spectrum.KeptFromComplete | core.py:149 | every position from the start on whose frequency is at or below the ceiling is among them |
| Spectrum.KeptPositions | core.py:149 | `np.where(freqs <= range)[0]`: strictly increasing positions, each within the axis and at or below the ceiling |
| Spectrum.KeptPositionsExact | core.py:149 | a position is kept exactly when its frequency is at or below the ceiling |
| Spectrum.KeepPairs | core.py:149-152 | the kept bins are `freqs[idx]` and `fft[idx]` for the kept positions idx, entry by entry |
| Spectrum.KeepPairsFrom | core.py:149-152 | the same pairing for the axis from any start position on |
| Spectrum.KeepAscendingIsPrefix | core.py:147-152 | on ascending bins, the kept bins and their magnitudes are exactly the leading bins at or below the ceiling |
| Spectrum.Analyze | core.py:145-159 | fails on an empty sample, a zero rate or an empty selection; otherwise freqs and mags have equal length; every kept frequency is an rfft bin within the range, and the first bin dropped lies above it; the magnitudes are the normalised magnitudes of exactly the kept leading bins, so they lie in [0, 1] with maximum 1, unless all are 0 |
| Spectrum.NormalizeBars | ui_controller.py:584-591 | the 60 bar heights are divided by their maximum when it is positive and zeroed otherwise, so they always lie in [0, 1] |
| Spectrum.BarsAgreeWithNormalize | ui_controller.py:588-591 | on non-negative magnitudes the bars' zeroing branch and the engine's keep-as-is branch agree |
| Keys.Upper | ui_controller.py:428 | `str.upper()` on ASCII: lower-case letters move to capitals, everything else is kept |
| Keys.UpperIdempotent | ui_controller.py:428 | upper-casing twice is upper-casing once |
| Keys.RowIsUpper | ui_controller.py:408-412 | each row letter, typed in either case, upper-cases to itself |
| Keys.Enumerate | ui_controller.py:413 | the dict comprehension's keys are the listed keys, and each maps to a position holding it |
| Keys.EnumerateDistinct | ui_controller.py:413 | with distinct keys, each key maps to its own position |
| Keys.KeyRowDistinct | ui_controller.py:408-412 | the row has 22 different letters |
| Keys.KeyMapBijective | ui_controller.py:405-413 | the controller's map is a bijection from the row's letters onto 0..21 |
| Keys.WindowKeyMapFollowsRow | ui.py:750-754 | the literal map sends the row's i-th letter to i |
| Keys.KeyMapsAgree | ui_controller.py:408-413 | both windows map the keyboard identically |
| Take.Start | ui_controller.py:622-625 | recording starts from an empty buffer |
| Take.Stop | ui_controller.py:628-630 | recording ends and the buffer is kept |
| Take.Append | ui_controller.py:607-608 | a played wave joins the end of the buffer only while recording |
| Take.TakeRecordsInOrder | ui_controller.py:607-608 | after a start, the buffer is exactly the played waves laid end to end in playing order |
| Take.StoppedTakeUnchanged | ui_controller.py:607-608 | while stopped, playing any notes leaves the buffer unchanged |
| Take.Save | ui_controller.py:633-650 | an empty buffer is refused; the buffer is cleared exactly when it was non-empty and written; otherwise nothing changes |
| ControllerWindow.PatternOf | ui_controller.py:494-508 | "Heptatonique" selects the heptatonic (major) pattern and every other non-chromatic label the pentatonic one |
| ControllerWindow.ControllerHz | ui_controller.py:493-499 | `f0 * 2 ** (n / 12)` is positive, and exactly C4 at offset 0, once 2^x obeys the exponent laws |
| ControllerWindow.FrequenciesOf | ui_controller.py:486-512 | 22 offsets above C4 for every style: offset i for "Chromatique", the repeated pattern otherwise |
| ControllerWindow.FrequenciesAscend | ui_controller.py:490-511 | every style's offsets strictly rise, and the chromatic branch is the pattern expansion with all 12 semitones |
| ControllerWindow.BarsMatchEngine | ui_controller.py:486-512 | for matching labels, the controller's i-th bar is the engine's i-th bar, shifted from A4 to C4 by 9 semitones |
| ControllerWindow.OffsetAt | ui_controller.py:500-501 | step k of cycle c is bar c * (pattern length) + k, at 12c + pattern[k] semitones |
| ControllerWindow.AppendCycle | ui_controller.py:499-503 | one pass of the inner loop appends one cycle's offsets in order and breaks right after the 22nd |
| ControllerWindow.BuildFrequencies | ui_controller.py:486-512 | the loops produce exactly the 22 offsets of the style |
| ControllerWindow.NoteEnvelope | ui_controller.py:530-535 | the note cache's envelope ramps over the attack, then decays as exp(-3 (t - t_a)), starting at exp(0) |
| ControllerWindow.NoteDecay | ui_controller.py:535 | the decay is measured from the attack's end, so at the first sample after the attack it is exp(0) |
| ControllerWindow.NoteBuffer | ui_controller.py:528-536 | each cached buffer has int(sr * duration) samples, starts silent, and sample i is the plain sine at the bar's pitch and time t_i, times the note envelope at i, times the volume |
| ControllerWindow.BuildNoteCache | ui_controller.py:514-537 | succeeds iff there are no bars or the tone is longer than its attack; a tone shorter than a multi-sample attack fails the slice assignment, and a tone of exactly the attack's length, or an empty one with a one-sample attack, fails with IndexError at `t[a]`; on success the keys are exactly the bar indices, each holding that bar's buffer of int(sr * duration) samples |
| ControllerWindow.NoteCacheFits | ui_controller.py:514-531 | from 5 Hz on, and so at every rate the settings allow, the note cache can be built |
| ControllerWindow.Open | ui_controller.py:281-298 | the window opens idle with nothing held, on "Pentatonique" at 44100 Hz and volume 0.6, with the pentatonic bars and exactly the note cache `build_note_cache` makes for them: one buffer for each of the 22 bars |
| ControllerWindow.OnScaleChange | ui_controller.py:479-537 | the style's bars replace the old ones; the cache is rebuilt from scratch from the NEW bars, entry i being the buffer of the new bar i, or left empty when the rebuild raises; the take, the held keys and the settings are untouched |
| ControllerWindow.FallbackTone | ui_controller.py:565-573 | the on-the-fly tone has int(sr * 0.8) samples; sample i is the plain sine at the note's pitch and time t_i times the volume, with no envelope, so with a bounded sine it never exceeds the volume |
| ControllerWindow.SelectWave | ui_controller.py:563-573 | the nearest bar's cached buffer when present, the on-the-fly tone otherwise |
| ControllerWindow.PlayNote | ui_controller.py:553-608 | the selected wave is the nearest bar's cached buffer or the on-the-fly tone; an empty wave raises in the spectrum's FFT with nothing changed, which never happens from 2 Hz on with non-empty cached buffers; otherwise only the take changes, by appending the wave while recording |
| ControllerWindow.StartRecord | ui_controller.py:622-625 | recording from an empty buffer, nothing else changed |
| ControllerWindow.StopRecord | ui_controller.py:628-631 | recording stops with the buffer kept, nothing else changed |
| ControllerWindow.SaveRecording | ui_controller.py:633-650 | an empty buffer is refused; with the library present the write is unguarded, so a failing write raises with the buffer kept; a successful write clears the buffer; without the library nothing changes; nothing but the buffer ever changes |
| ControllerWindow.KeyPress | ui_controller.py:417-452 | a focused text field or an empty text passes the event on; a held key is ignored; a mapped key with an existing bar plays that bar and is marked held, unless playing raises, which propagates with the key not marked; a mapped key past the bars is ignored; an unmapped key is passed on |
| ControllerWindow.KeyRelease | ui_controller.py:454-473 | releasing a held key unmarks it; anything else is passed on unchanged |
| ControllerWindow.KeyEventsKeepHeldKeysMapped | ui_controller.py:433-461 | only key-map letters are ever held |
| ControllerWindow.HeldKeyIgnoredUntilReleased | ui_controller.py:433-461 | a key that just played is ignored until it is released, and afterwards plays the same bar again without raising |
| ControllerWindow.PressRecordsCachedBar | ui_controller.py:563-608 | while recording, a key whose bar has a cached buffer appends exactly that buffer |
| BalafonWindow.Open | ui.py:458-460 | the window opens idle, with the pentatonic bars and one button per bar |
| BalafonWindow.Relabel | ui.py:680-682 | `zip`: the first min(buttons, notes) buttons receive the new notes in order; the rest keep theirs |
| BalafonWindow.OnScaleChange | ui.py:671-682 | an unknown caption raises; otherwise the caption's style gives the engine's bars and the buttons are relabelled, with the take and engine untouched |
| BalafonWindow.ScaleChangeKeepsValid | ui.py:671-682 | after a scale change every button still carries its own bar's note |
| BalafonWindow.CaptionsSelectStyles | ui.py:673-678 | the three captions select the pentatonic, major and chromatic patterns |
| BalafonWindow.OnKeyPressed | ui.py:684-690 | the note's buffer is the one the engine's cache hands out, the engine keeps the cache that fetch leaves, and the buffer is appended while recording; bars and buttons are kept |
| BalafonWindow.StartRecord | ui.py:692-696 | recording from an empty take, nothing else changed |
| BalafonWindow.StopRecord | ui.py:698-701 | recording stops with the take kept, nothing else changed |
| BalafonWindow.SaveRecording | ui.py:703-717 | an empty take is refused; the take is cleared exactly when it was non-empty and the engine's save reports success; otherwise nothing changes |
| BalafonWindow.PlayAsync | core.py:126-130 | with a sound device, the buffer is fetched through the cache before playback, which changes nothing for a note already cached; without one, nothing happens |
| BalafonWindow.KeyPressEvent | ui.py:744-761 | auto-repeats, unmapped characters and keys past the last button are ignored; a bar past the notes raises IndexError; in a window whose buttons match its bars, every mapped key plays its own bar; a played bar leaves the engine exactly as one cache fetch of its frequency does, and appends that fetch's buffer while recording |
| BalafonWindow.SoundDeviceIrrelevant | ui.py:759-761 | with or without a sound device, a key press leaves the same state and outcome |
| BalafonWindow.ValidWindowKeysSafe | ui.py:756-761 | in a window whose buttons match its bars, no key press raises |
| BalafonWindow.EveryRowKeyPlays | ui.py:750-761 | in a window whose buttons match its bars, each of the 22 row letters plays its own bar, at any rate |

## Left out

- Threads and playback. The detached playback thread of `play_async` (core.py:132-143) and of the controller's `play_note` (ui_controller.py:611-620) is left out. `BalafonWindow.PlayAsync` keeps only the cache fetch that precedes it.
- Waveform values. `sin`, `exp`, `ln`, `2^x` and `pi` are opaque fields of `Numerics.Math`. No property depends on their numeric values.
- Float32 and float64 arithmetic. The `astype(np.float32)` cast is not modelled and reals are exact.
- `round(f, 2)`: modelled only as an opaque key function.
- The display range of `analyze_spectrum`. Its default of 2000 Hz is not fixed in the model; the range is the `ceiling` argument of `Spectrum.Analyze`.
- FFT and bar statistics. The FFT magnitudes are a non-negative input of `Spectrum.Analyze`. The controller's `array_split` into 60 bars and the per-bar means are not modelled; `Spectrum.NormalizeBars` starts from the 60 bar means.
- Nearest-bar lookup. The argmin lookup in `play_note` (ui_controller.py:557-561) is an opaque `nearest` argument.
- The controller's waveform choice. The `square` branch of the on-the-fly tone (ui_controller.py:569-570) is not modelled. `waveform` is set to `sine` at start-up and nothing changes it.
- File I/O. `sf.write` and `sf.read` are the opaque `write` and `read` functions of `Engine.AudioIo`, which report whether the call succeeded. The engine's save and load keep the library-absent branch and turn an exception into False or None. The controller's write is unguarded, and its failure is `ControllerWindow.SaveError`. The file name built from the clock, `os.makedirs`, and the database metadata insert in the controller's save are left out.
- Message boxes, button styling, the spectrum plots (ui.py:304-329, ui_controller.py:575-605), themes and layout. The main window's plot catches its own exceptions and only re-reads a cache entry that is already present. The controller's plot catches nothing; the one exception it can raise, the FFT of an empty wave, is modelled as `ControllerWindow.PlotError`.
- `on_key_click` and `ModernKey._on_click`. Clicks play notes through the same paths as the keys.
- The settings dialog. It changes the controller's rate and volume without rebuilding the note cache (ui_controller.py:706-745).
- `set_volume` and `switch_theme` in ui.py. Both only restyle the window; `set_volume` does nothing.
- Other modules. db_manager.py, database.py, musiq.py, main.py and config.py are not part of this model. The cache never enforces config.py's `CACHE_SIZE`, so there is no eviction.
- ControllerWindow.KeyPress: `str.upper()` is modelled for ASCII only (`Keys.Upper`); other scripts' case mappings are not.
