/** The few Python string operations the runner relies on: `str.split` with a
    one-character separator, `str.join`, and slicing with only a stop index. */
module PyStr {

  /** `s.split(sep)` for a one-character separator: the maximal runs between
      separators, including the empty ones (so `"".split("/") == [""]`). */
  function Split(s: string, sep: char): (parts: seq<string>)
    ensures |parts| >= 1
    ensures forall i :: 0 <= i < |parts| ==> sep !in parts[i]
    decreases |s|
  {
    if |s| == 0 then [""]
    else if s[0] == sep then [""] + Split(s[1..], sep)
    else
      var rest := Split(s[1..], sep);
      [[s[0]] + rest[0]] + rest[1..]
  }

  /** `sep.join(parts)`. */
  function Join(sep: string, parts: seq<string>): string
  {
    if |parts| == 0 then ""
    else if |parts| == 1 then parts[0]
    else parts[0] + sep + Join(sep, parts[1..])
  }

  /** Every occurrence of `target` in `s` replaced by `replacement`. */
  function Replace(s: string, target: char, replacement: char): (r: string)
    ensures |r| == |s|
    ensures forall i :: 0 <= i < |s| ==> r[i] == (if s[i] == target then replacement else s[i])
  {
    if |s| == 0 then ""
    else [if s[0] == target then replacement else s[0]] + Replace(s[1..], target, replacement)
  }

  /** `s[:stop]`: a negative stop counts from the end, and an index past
      either end is clamped. */
  function SliceTo(s: string, stop: int): (r: string)
    ensures |r| <= |s| && r == s[..|r|]
    ensures stop >= 0 ==> |r| == if stop <= |s| then stop else |s|
    ensures stop < 0 ==> |r| == if -stop <= |s| then |s| + stop else 0
  {
    var end := if stop < 0 then |s| + stop else stop;
    if end < 0 then "" else if end > |s| then s else s[..end]
  }

  lemma {:induction false} JoinAbsorbsHead(sep: string, h: string, parts: seq<string>)
    requires |parts| >= 1
    ensures Join(sep, [h + parts[0]] + parts[1..]) == h + Join(sep, parts)
  {
    var joined := [h + parts[0]] + parts[1..];
    if |parts| > 1 {
      assert joined[1..] == parts[1..];
    }
  }

  /** Joining the pieces of a split with a one-character string is the
      character-wise replacement of the separator. */
  lemma {:induction false} JoinSplitIsReplace(s: string, sep: char, d: char)
    ensures Join([d], Split(s, sep)) == Replace(s, sep, d)
    decreases |s|
  {
    if |s| > 0 {
      JoinSplitIsReplace(s[1..], sep, d);
      var rest := Split(s[1..], sep);
      if s[0] == sep {
        assert ([""] + rest)[1..] == rest;
      } else {
        JoinAbsorbsHead([d], [s[0]], rest);
      }
    }
  }

  /** Split undoes Join for the same separator: `sep.join(s.split(sep)) == s`. */
  lemma JoinSplitRoundTrip(s: string, sep: char)
    ensures Join([sep], Split(s, sep)) == s
  {
    JoinSplitIsReplace(s, sep, sep);
  }

  lemma {:induction false} SplitPrefix(a: string, b: string, sep: char)
    requires sep !in a
    ensures Split(a + b, sep) == [a + Split(b, sep)[0]] + Split(b, sep)[1..]
    decreases |a|
  {
    if |a| > 0 {
      assert (a + b)[0] == a[0];
      assert (a + b)[1..] == a[1..] + b;
      SplitPrefix(a[1..], b, sep);
      assert [a[0]] + (a[1..] + Split(b, sep)[0]) == a + Split(b, sep)[0];
    } else {
      var parts := Split(b, sep);
      assert a + b == b;
      assert a + parts[0] == parts[0];
      assert parts == [parts[0]] + parts[1..];
    }
  }

  /** Join undoes Split for pieces free of the separator:
      `sep.join(parts).split(sep) == parts`. */
  lemma {:induction false} SplitJoinRoundTrip(parts: seq<string>, sep: char)
    requires |parts| >= 1
    requires forall i :: 0 <= i < |parts| ==> sep !in parts[i]
    ensures Split(Join([sep], parts), sep) == parts
  {
    if |parts| == 1 {
      SplitPrefix(parts[0], "", sep);
      assert parts[0] + "" == parts[0];
    } else {
      var tail := Join([sep], parts[1..]);
      SplitJoinRoundTrip(parts[1..], sep);
      assert ([sep] + tail)[1..] == tail;
      assert Split([sep] + tail, sep) == [""] + parts[1..];
      assert Join([sep], parts) == parts[0] + ([sep] + tail);
      SplitPrefix(parts[0], [sep] + tail, sep);
      assert parts[0] + "" == parts[0];
    }
  }
}
