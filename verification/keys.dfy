/** The computer-keyboard mapping shared by both windows: 22 AZERTY
    letters, in order, onto bar indices 0..21. */
module Keys {

  /** The letters of the keyboard row, bar 0 first. */
  const KeyRow: seq<string> := ["A", "Z", "E", "R", "T", "Y", "U", "I", "O", "P",
                                "Q", "S", "D", "F", "G", "H", "J", "K", "L", "M",
                                "W", "X"]

  /** The first upper-casing step of event.text().upper(), for ASCII letters. */
  function UpperChar(c: char): char
  {
    if 'a' <= c <= 'z' then (c as int - 32) as char else c
  }

  /** str.upper() restricted to ASCII: lower-case letters become capitals,
      everything else is kept. */
  function Upper(s: string): (r: string)
    ensures |r| == |s|
    ensures forall i :: 0 <= i < |s| ==> !('a' <= r[i] <= 'z')
    ensures forall i :: 0 <= i < |s| && !('a' <= s[i] <= 'z') ==> r[i] == s[i]
    ensures forall i :: 0 <= i < |s| && 'a' <= s[i] <= 'z' ==> r[i] as int == s[i] as int - 32
  {
    seq(|s|, i requires 0 <= i < |s| => UpperChar(s[i]))
  }

  /** Upper-casing twice is upper-casing once. */
  lemma UpperIdempotent(s: string)
    ensures Upper(Upper(s)) == Upper(s)
  {
  }

  /** The letters of the row are already capitals, so they upper-case to
      themselves; their lower-case forms upper-case to them too. */
  lemma RowIsUpper(i: nat)
    requires i < |KeyRow|
    ensures Upper(KeyRow[i]) == KeyRow[i]
    ensures |KeyRow[i]| == 1 && Upper([(KeyRow[i][0] as int + 32) as char]) == KeyRow[i]
  {
    assert |KeyRow[i]| == 1 && 'A' <= KeyRow[i][0] <= 'Z' by {
      if i < 11 {
        assert i in {0, 1, 2, 3, 4, 5, 6, 7, 8, 9, 10};
      } else {
        assert i in {11, 12, 13, 14, 15, 16, 17, 18, 19, 20, 21};
      }
    }
  }

  /** {k: idx for idx, k in enumerate(keys)}: later duplicates win. */
  function Enumerate(keys: seq<string>): (m: map<string, nat>)
    ensures m.Keys == set k | k in keys
    ensures forall k :: k in m ==> m[k] < |keys| && keys[m[k]] == k
    decreases |keys|
  {
    if keys == [] then map[]
    else
      var prefix := keys[..|keys| - 1];
      var rest := Enumerate(prefix);
      assert forall k :: k in rest ==> keys[rest[k]] == prefix[rest[k]];
      rest[keys[|keys| - 1] := |keys| - 1]
  }

  ghost predicate Distinct(s: seq<string>)
  {
    forall i, j :: 0 <= i < j < |s| ==> s[i] != s[j]
  }

  /** For distinct keys the comprehension sends the i-th key to i. */
  lemma {:induction false} EnumerateDistinct(keys: seq<string>)
    requires Distinct(keys)
    ensures forall i :: 0 <= i < |keys| ==> Enumerate(keys)[keys[i]] == i
    decreases |keys|
  {
    if keys != [] {
      var prefix := keys[..|keys| - 1];
      assert Distinct(prefix);
      EnumerateDistinct(prefix);
    }
  }

  /** How a window answered a key event: handed on to the default
      handler, swallowed, a bar played, or a held key let go. */
  datatype KeyOutcome = PassedOn | Ignored | Played(index: nat) | Released

  /** The key map of the controller window. */
  function ControllerKeyMap(): map<string, nat>
  {
    Enumerate(KeyRow)
  }

  /** The key map written out literally in the main window. */
  const WindowKeyMap: map<string, nat> := map[
    "A" := 0, "Z" := 1, "E" := 2, "R" := 3, "T" := 4, "Y" := 5, "U" := 6, "I" := 7, "O" := 8, "P" := 9,
    "Q" := 10, "S" := 11, "D" := 12, "F" := 13, "G" := 14, "H" := 15, "J" := 16, "K" := 17, "L" := 18,
    "M" := 19, "W" := 20, "X" := 21]

  /** The 22 letters of the row are all different. */
  lemma KeyRowDistinct()
    ensures |KeyRow| == 22 && Distinct(KeyRow)
  {
  }

  /** The controller's key map is a bijection from the 22 letters of the row
      onto the bar indices 0..21. */
  lemma KeyMapBijective()
    ensures ControllerKeyMap().Keys == set k | k in KeyRow
    ensures forall i :: 0 <= i < |KeyRow| ==> ControllerKeyMap()[KeyRow[i]] == i
    ensures forall k :: k in ControllerKeyMap() ==> ControllerKeyMap()[k] < 22
    ensures forall k, k' :: k in ControllerKeyMap() && k' in ControllerKeyMap() && k != k' ==>
              ControllerKeyMap()[k] != ControllerKeyMap()[k']
  {
    KeyRowDistinct();
    EnumerateDistinct(KeyRow);
  }

  /** The literal map sends the i-th letter of the row to i. */
  lemma WindowKeyMapFollowsRow(i: nat)
    requires i < |KeyRow|
    ensures KeyRow[i] in WindowKeyMap && WindowKeyMap[KeyRow[i]] == i
  {
    if i < 11 {
      assert i in {0, 1, 2, 3, 4, 5, 6, 7, 8, 9, 10};
    } else {
      assert i in {11, 12, 13, 14, 15, 16, 17, 18, 19, 20, 21};
    }
  }

  /** Both windows map the keyboard the same way. */
  lemma KeyMapsAgree()
    ensures ControllerKeyMap() == WindowKeyMap
  {
    KeyMapBijective();
    var m := ControllerKeyMap();
    assert m.Keys == WindowKeyMap.Keys;
    forall k | k in m
      ensures m[k] == WindowKeyMap[k]
    {
      var i :| 0 <= i < |KeyRow| && KeyRow[i] == k;
      WindowKeyMapFollowsRow(i);
    }
  }
}
