/** Pitches of the equal-tempered scale: the chromatic table of the audio
    engine and its semitone arithmetic around A4 = 440 Hz. */
module Pitch {
  import opened Wrappers
  import opened Numerics
  import Arith

  /** The twelve chromatic note names, C first; A sits at index 9. */
  const Chromatic: seq<string> := ["C", "C#", "D", "D#", "E", "F", "F#", "G", "G#", "A", "A#", "B"]
  const A4Index: nat := 9
  const TuningA4: real := 440.0

  datatype PitchError = UnknownNote(name: string)

  /** A frequency of the equal-tempered scale, kept exactly as its signed
      distance in semitones from A4: it denotes 440 * 2^(fromA4/12) Hz. */
  datatype Frequency = Tempered(fromA4: int)

  /** One bar of the balafon: a chromatic name, its frequency and octave. */
  datatype Note = Note(name: string, frequency: Frequency, octave: int)

  /** The frequency in hertz, given the (opaque) function 2^x: positive
      under the exponent laws, and 440 Hz at A4. */
  function Hz(f: Frequency, m: Math): (hz: real)
    ensures ExponentLaws(m) ==> hz > 0.0
    ensures ExponentLaws(m) && f.fromA4 == 0 ==> hz == TuningA4
  {
    var x := (f.fromA4 as real) / 12.0;
    assert ExponentLaws(m) ==> m.pow2(x) > 0.0 by {
      if ExponentLaws(m) {
        Pow2Positive(m, x);
      }
    }
    TuningA4 * m.pow2(x)
  }

  /** Position of the first occurrence of x in s, as Python's list.index. */
  function IndexOf<T(==)>(s: seq<T>, x: T): (i: nat)
    requires x in s
    ensures i < |s| && s[i] == x
    ensures forall j :: 0 <= j < i ==> s[j] != x
  {
    if s[0] == x then 0 else 1 + IndexOf(s[1..], x)
  }

  /** The chromatic table names every note once. */
  lemma ChromaticDistinct()
    ensures forall i, j :: 0 <= i < j < |Chromatic| ==> Chromatic[i] != Chromatic[j]
  {
  }

  /** Looking up the k-th chromatic name gives back k. */
  lemma ChromaticIndex(k: nat)
    requires k < |Chromatic|
    ensures IndexOf(Chromatic, Chromatic[k]) == k
  {
    ChromaticDistinct();
  }

  /** The chromatic name a frequency sounds. */
  function NoteName(f: Frequency): string
  {
    Chromatic[(f.fromA4 + A4Index) % 12]
  }

  /** The octave a frequency lies in (octaves start at C). */
  function NoteOctave(f: Frequency): int
  {
    (f.fromA4 + A4Index) / 12 + 4
  }

  /** The engine's frequency of a named note: rejected when the name is not
      in the chromatic table; otherwise the semitone distance from A4 is
      (octave - 4) * 12 + (index(note) - 9). */
  function GetFrequency(note: string, octave: int): (r: Result<Frequency, PitchError>)
    ensures r.Failure? <==> note !in Chromatic
    ensures r.Failure? ==> r.error == UnknownNote(note)
    ensures r.Success? ==> NoteName(r.value) == note && NoteOctave(r.value) == octave
  {
    if note !in Chromatic then Failure(UnknownNote(note))
    else
      var noteIndex := IndexOf(Chromatic, note);
      var f := Tempered((octave - 4) * 12 + (noteIndex - A4Index));
      DistanceSplits(octave, noteIndex);
      assert Chromatic[noteIndex] == note;
      Success(f)
  }

  /** The distance of position k in a given octave splits back into that
      octave and position. */
  lemma DistanceSplits(octave: int, k: nat)
    requires k < 12
    ensures var f := Tempered((octave - 4) * 12 + (k - A4Index));
      NoteName(f) == Chromatic[k] && NoteOctave(f) == octave
  {
    Arith.DivModUnique(octave - 4, k, 12);
  }

  /** Every tempered frequency is the frequency of its own name and octave,
      so (name, octave) and the semitone distance determine each other. */
  lemma FrequencyRoundTrip(f: Frequency)
    ensures GetFrequency(NoteName(f), NoteOctave(f)) == Success(f)
  {
    var r := GetFrequency(NoteName(f), NoteOctave(f));
    assert NoteName(f) in Chromatic;
    NameAndOctaveDetermine(r.value, f);
  }

  /** The name and the octave pin down the semitone distance. */
  lemma NameAndOctaveDetermine(f: Frequency, g: Frequency)
    requires NoteName(f) == NoteName(g) && NoteOctave(f) == NoteOctave(g)
    ensures f == g
  {
    var a, b := f.fromA4 + A4Index, g.fromA4 + A4Index;
    ChromaticDistinct();
    assert a % 12 == b % 12;
    assert a == 12 * (a / 12) + a % 12;
    assert b == 12 * (b / 12) + b % 12;
  }

  /** A4 is the reference: distance 0, and exactly 440 Hz since 2^0 = 1. */
  lemma A4IsReference(m: Math)
    requires ExponentLaws(m)
    ensures GetFrequency("A", 4) == Success(Tempered(0))
    ensures Hz(Tempered(0), m) == 440.0
  {
    ChromaticIndex(9);
  }

  /** One octave up adds exactly twelve semitones, which doubles the frequency. */
  lemma OctaveUp(note: string, octave: int, m: Math)
    requires ExponentLaws(m)
    requires note in Chromatic
    ensures GetFrequency(note, octave + 1).Success? && GetFrequency(note, octave).Success?
    ensures GetFrequency(note, octave + 1).value.fromA4 == GetFrequency(note, octave).value.fromA4 + 12
    ensures Hz(GetFrequency(note, octave + 1).value, m) == 2.0 * Hz(GetFrequency(note, octave).value, m)
  {
    var d := GetFrequency(note, octave).value.fromA4;
    var x := (d as real) / 12.0;
    assert ((d + 12) as real) / 12.0 == x + 1.0;
    assert m.pow2(x + 1.0) == 2.0 * m.pow2(x);
  }

  /** A larger semitone distance is a strictly higher frequency. */
  lemma HzIncreasing(a: Frequency, b: Frequency, m: Math)
    requires ExponentLaws(m)
    requires a.fromA4 < b.fromA4
    ensures Hz(a, m) < Hz(b, m)
  {
    var x, y := (a.fromA4 as real) / 12.0, (b.fromA4 as real) / 12.0;
    assert x < y;
    assert m.pow2(x) < m.pow2(y);
  }
}
