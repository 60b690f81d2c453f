/** The balafon scale of the audio engine: a semitone pattern expanded
    octave by octave, from octave 4, until there are 22 bars. */
module Scale {
  import opened Wrappers
  import opened Pitch
  import Arith

  /** Number of bars of the balafon. */
  const NoteCount: nat := 22

  const Pentatonic: seq<int> := [0, 2, 4, 7, 9]
  const Major: seq<int> := [0, 2, 4, 5, 7, 9, 11]
  /** list(range(12)) */
  const ChromaticSteps: seq<int> := [0, 1, 2, 3, 4, 5, 6, 7, 8, 9, 10, 11]

  /** A pattern of semitone steps within one octave, strictly ascending. */
  ghost predicate WellFormed(p: seq<int>)
  {
    && |p| > 0
    && (forall i :: 0 <= i < |p| ==> 0 <= p[i] < 12)
    && (forall i, j :: 0 <= i < j < |p| ==> p[i] < p[j])
  }

  /** The pattern of a style name; any other name gets the pentatonic one. */
  function PatternFor(style: string): (p: seq<int>)
    ensures WellFormed(p)
    ensures style == "major" ==> p == Major
    ensures style == "chromatic" ==> p == ChromaticSteps
    ensures style != "major" && style != "chromatic" ==> p == Pentatonic
  {
    if style == "pentatonic" then Pentatonic
    else if style == "major" then Major
    else if style == "chromatic" then ChromaticSteps
    else Pentatonic
  }

  /** Semitones above C4 of the i-th step when pattern p repeats once per octave. */
  function Step(p: seq<int>, i: nat): int
    requires |p| > 0
  {
    12 * (i / |p|) + p[i % |p|]
  }

  /** The i-th bar: pattern step i % |p| in octave 4 + i / |p|, at the
      engine's frequency for that name and octave. */
  function ScaleNote(p: seq<int>, i: nat): Note
    requires |p| > 0
  {
    var octave := 4 + i / |p|;
    var name := Chromatic[p[i % |p|] % 12];
    Note(name, GetFrequency(name, octave).value, octave)
  }

  /** The 22 bars generated from pattern p: the closed form against which
      the loop of build_balafon_scale is checked. */
  function ScaleOf(p: seq<int>): (s: seq<Note>)
    requires |p| > 0
    ensures |s| == NoteCount
    ensures forall i :: 0 <= i < |s| ==> s[i].octave == 4 + i / |p|
  {
    seq(NoteCount, i requires 0 <= i => ScaleNote(p, i))
  }

  /** Moving one step along the expanded pattern raises the pitch and moves
      the octave up by at most one. */
  lemma StepNext(p: seq<int>, i: nat)
    requires WellFormed(p)
    ensures Step(p, i) < Step(p, i + 1)
    ensures i / |p| <= (i + 1) / |p| <= i / |p| + 1
  {
    var n := |p|;
    var c, k := i / n, i % n;
    assert i == c * n + k;
    if k + 1 < n {
      Arith.DivModUnique(c, k + 1, n);
      assert i + 1 == c * n + (k + 1);
    } else {
      Arith.DivModUnique(c + 1, 0, n);
      assert i + 1 == (c + 1) * n + 0;
    }
  }

  /** The expanded pattern is strictly ascending and its octaves never decrease. */
  lemma {:induction false} StepAscending(p: seq<int>, i: nat, j: nat)
    requires WellFormed(p)
    requires i < j
    ensures Step(p, i) < Step(p, j)
    ensures i / |p| <= j / |p|
    decreases j - i
  {
    StepNext(p, i);
    if i + 1 < j {
      StepAscending(p, i + 1, j);
    }
  }

  /** The i-th bar lies Step(p, i) - 9 semitones from A4. */
  lemma ScaleNoteDistance(p: seq<int>, i: nat)
    requires WellFormed(p)
    ensures ScaleNote(p, i).frequency.fromA4 == Step(p, i) - A4Index
  {
    var k := p[i % |p|];
    assert k % 12 == k;
    ChromaticIndex(k);
  }

  /** Every style yields 22 bars starting at octave 4 whose octaves never
      decrease and whose pitches strictly ascend; each bar carries the
      chromatic name of its pattern step and the engine's frequency for
      that name and octave. */
  lemma ScaleShape(style: string)
    ensures var p := PatternFor(style); var s := ScaleOf(p);
      && |s| == NoteCount
      && s[0].octave == 4
      && (forall i, j :: 0 <= i <= j < |s| ==> s[i].octave <= s[j].octave)
      && (forall i, j :: 0 <= i < j < |s| ==> s[i].frequency.fromA4 < s[j].frequency.fromA4)
      && (forall i :: 0 <= i < |s| ==>
            && s[i].name == Chromatic[p[i % |p|]]
            && GetFrequency(s[i].name, s[i].octave) == Success(s[i].frequency))
  {
    var p := PatternFor(style);
    ScaleAscends(p);
    ScaleNamed(p);
  }

  /** Along the scale, octaves never fall and pitches strictly rise. */
  lemma ScaleAscends(p: seq<int>)
    requires WellFormed(p)
    ensures var s := ScaleOf(p);
      && (forall i, j :: 0 <= i <= j < |s| ==> s[i].octave <= s[j].octave)
      && (forall i, j :: 0 <= i < j < |s| ==> s[i].frequency.fromA4 < s[j].frequency.fromA4)
  {
    var s := ScaleOf(p);
    forall i, j | 0 <= i <= j < |s|
      ensures s[i].octave <= s[j].octave
    {
      if i < j { StepAscending(p, i, j); }
    }
    forall i, j | 0 <= i < j < |s|
      ensures s[i].frequency.fromA4 < s[j].frequency.fromA4
    {
      StepAscending(p, i, j);
      ScaleNoteDistance(p, i);
      ScaleNoteDistance(p, j);
    }
  }

  /** Each bar carries the chromatic name of its step and the engine's
      frequency for that name and octave. */
  lemma ScaleNamed(p: seq<int>)
    requires WellFormed(p)
    ensures var s := ScaleOf(p);
      forall i :: 0 <= i < |s| ==>
        && s[i].name == Chromatic[p[i % |p|]]
        && GetFrequency(s[i].name, s[i].octave) == Success(s[i].frequency)
  {
    var s := ScaleOf(p);
    forall i | 0 <= i < |s|
      ensures s[i].name == Chromatic[p[i % |p|]]
    {
      assert p[i % |p|] % 12 == p[i % |p|];
    }
  }

  /** Bar i of the scale is ScaleNote(p, i). */
  lemma ScaleOfAt(p: seq<int>, i: nat)
    requires |p| > 0 && i < NoteCount
    ensures ScaleOf(p)[i] == ScaleNote(p, i)
  {
  }

  /** Step k of the pattern in octave 4 + c is bar number c * |p| + k. */
  lemma ScaleNoteAt(p: seq<int>, c: nat, k: nat)
    requires 0 <= k < |p|
    ensures var name := Chromatic[p[k] % 12];
      ScaleNote(p, c * |p| + k) == Note(name, GetFrequency(name, 4 + c).value, 4 + c)
  {
    Arith.DivModUnique(c, k, |p|);
  }

  /** The bar appended for step k in octave 4 + c is the scale's bar c * |p| + k. */
  lemma NextBar(p: seq<int>, c: nat, k: nat)
    requires 0 <= k < |p| && c * |p| + k < NoteCount
    ensures var name := Chromatic[p[k] % 12];
      ScaleOf(p)[c * |p| + k] == Note(name, GetFrequency(name, 4 + c).value, 4 + c)
  {
    ScaleOfAt(p, c * |p| + k);
    ScaleNoteAt(p, c, k);
  }

  /** Extending a prefix by one element. */
  lemma PrefixSnoc<T>(s: seq<T>, i: nat)
    requires i < |s|
    ensures s[..i + 1] == s[..i] + [s[i]]
  {
  }

  /** Appending step k of octave 4 + c to the first c * |p| + k bars gives
      the next prefix of the scale. */
  lemma GrowByBar(p: seq<int>, c: nat, k: nat, built: seq<Note>)
    requires 0 <= k < |p| && |built| == c * |p| + k < NoteCount
    requires built == ScaleOf(p)[..|built|]
    ensures var name := Chromatic[p[k] % 12];
      built + [Note(name, GetFrequency(name, 4 + c).value, 4 + c)] == ScaleOf(p)[..|built| + 1]
  {
    NextBar(p, c, k);
    PrefixSnoc(ScaleOf(p), |built|);
  }

  /** The body of the inner loop: the bar for step k of the given octave. */
  method AppendBar(pattern: seq<int>, grown: seq<Note>, octave: int, ghost cycle: nat, k: nat)
    returns (next: seq<Note>)
    requires 0 <= k < |pattern| && octave == 4 + cycle
    requires |grown| == cycle * |pattern| + k < NoteCount
    requires grown == ScaleOf(pattern)[..|grown|]
    ensures |next| == |grown| + 1 && next == ScaleOf(pattern)[..|next|]
  {
    var semitone := pattern[k];
    var noteName := Chromatic[semitone % 12];
    var frequency := GetFrequency(noteName, octave);
    GrowByBar(pattern, cycle, k, grown);
    next := grown + [Note(noteName, frequency.value, octave)];
  }

  /** One pass of the inner loop of build_balafon_scale: append the pattern's
      bars for one octave, stopping early once there are 22. */
  method AppendOctave(pattern: seq<int>, built: seq<Note>, octave: int) returns (grown: seq<Note>)
    requires |pattern| > 0 && octave >= 4
    requires |built| == (octave - 4) * |pattern| < NoteCount
    requires built == ScaleOf(pattern)[..|built|]
    ensures |grown| == if |built| + |pattern| < NoteCount then |built| + |pattern| else NoteCount
    ensures grown == ScaleOf(pattern)[..|grown|]
  {
    ghost var cycle: nat := octave - 4;
    grown := built;
    var k := 0;
    while k < |pattern|
      invariant 0 <= k <= |pattern|
      invariant |grown| == |built| + k <= NoteCount
      invariant grown == ScaleOf(pattern)[..|grown|]
    {
      if |grown| >= NoteCount {
        break;
      }
      grown := AppendBar(pattern, grown, octave, cycle, k);
      k := k + 1;
    }
  }

  /** build_balafon_scale: walk the pattern once per octave from octave 4,
      stopping as soon as 22 bars have been produced. */
  method BuildBalafonScale(style: string) returns (notes: seq<Note>)
    ensures |notes| == NoteCount
    ensures notes == ScaleOf(PatternFor(style))
  {
    var pattern := PatternFor(style);
    var built: seq<Note> := [];
    var octave := 4;
    while |built| < NoteCount
      invariant octave >= 4
      invariant |built| <= NoteCount
      invariant |built| == NoteCount || |built| == (octave - 4) * |pattern|
      invariant built == ScaleOf(pattern)[..|built|]
      decreases NoteCount - |built|
    {
      built := AppendOctave(pattern, built, octave);
      assert (octave + 1 - 4) * |pattern| == (octave - 4) * |pattern| + |pattern|;
      octave := octave + 1;
    }
    notes := built[..NoteCount];
  }
}
