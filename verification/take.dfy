/** The take (record buffer) of a window: a recording flag and the samples
    played since recording started, in playback order. */
module Take {

  datatype Recorder = Recorder(recording: bool, take: seq<real>)

  /** A window opens not recording, with an empty buffer. */
  const Idle: Recorder := Recorder(false, [])

  /** start_record: recording from an empty take. */
  function Start(r: Recorder): (s: Recorder)
    ensures s.recording && s.take == []
  {
    Recorder(true, [])
  }

  /** stop_record: recording ends; the take is kept. */
  function Stop(r: Recorder): (s: Recorder)
    ensures !s.recording && s.take == r.take
  {
    r.(recording := false)
  }

  /** A played wave joins the end of the take only while recording. */
  function Append(r: Recorder, wave: seq<real>): (s: Recorder)
    ensures s.recording == r.recording
    ensures r.recording ==> s.take == r.take + wave && s.take[..|r.take|] == r.take
    ensures !r.recording ==> s == r
  {
    if r.recording then r.(take := r.take + wave) else r
  }

  /** The waves laid end to end. */
  function Concat(waves: seq<seq<real>>): seq<real>
  {
    if waves == [] then [] else Concat(waves[..|waves| - 1]) + waves[|waves| - 1]
  }

  /** The recorder after playing the waves in order. */
  function PlayAll(r: Recorder, waves: seq<seq<real>>): Recorder
  {
    if waves == [] then r else Append(PlayAll(r, waves[..|waves| - 1]), waves[|waves| - 1])
  }

  /** After start_record, the take is exactly the played waves, in the order
      they were played. */
  lemma {:induction false} TakeRecordsInOrder(r: Recorder, waves: seq<seq<real>>)
    ensures PlayAll(Start(r), waves) == Recorder(true, Concat(waves))
  {
    if waves != [] {
      TakeRecordsInOrder(r, waves[..|waves| - 1]);
    }
  }

  /** When not recording, playing leaves the take untouched. */
  lemma {:induction false} StoppedTakeUnchanged(r: Recorder, waves: seq<seq<real>>)
    requires !r.recording
    ensures PlayAll(r, waves) == r
  {
    if waves != [] {
      StoppedTakeUnchanged(r, waves[..|waves| - 1]);
    }
  }

  /** The messages a save ends with. */
  datatype SaveOutcome = NothingToSave | Saved | NotSaved

  /** save_recording, given whether the file write succeeded: an empty take
      is refused, a written take is cleared, an unwritten one is kept. */
  function Save(r: Recorder, written: bool): (s: (Recorder, SaveOutcome))
    ensures s.1 == NothingToSave <==> |r.take| == 0
    ensures s.1 == Saved <==> |r.take| > 0 && written
    ensures s.1 != Saved ==> s.0 == r
    ensures s.1 == Saved ==> s.0 == Recorder(r.recording, [])
  {
    if |r.take| == 0 then (r, NothingToSave)
    else if written then (r.(take := []), Saved)
    else (r, NotSaved)
  }
}
