/** The handful of Python string operations the core relies on: `''.join`, `in`,
    `str.split` with a non-empty separator. Strings are sequences of characters. */
module Text {
  import opened Wrappers

  /** `''.join(parts)`: the parts glued together in order. */
  function Concat(parts: seq<string>): string
  {
    if |parts| == 0 then "" else parts[0] + Concat(parts[1..])
  }

  /** Joining is a monoid homomorphism from lists of strings to strings. */
  lemma {:induction false} ConcatAppend(a: seq<string>, b: seq<string>)
    ensures Concat(a + b) == Concat(a) + Concat(b)
    decreases |a|
  {
    if |a| == 0 {
      assert a + b == b;
    } else {
      assert (a + b)[1..] == a[1..] + b;
      ConcatAppend(a[1..], b);
    }
  }

  /** Where part i starts inside `Concat(parts)`. */
  function Offset(parts: seq<string>, i: nat): nat
    requires i <= |parts|
  {
    |Concat(parts[..i])|
  }

  /** Part i appears verbatim in the joined string, right after the parts before it. */
  lemma ConcatAt(parts: seq<string>, i: nat)
    requires i < |parts|
    ensures Offset(parts, i) + |parts[i]| <= |Concat(parts)|
    ensures Concat(parts)[Offset(parts, i)..Offset(parts, i) + |parts[i]|] == parts[i]
  {
    assert parts == parts[..i] + ([parts[i]] + parts[i + 1..]);
    ConcatAppend(parts[..i], [parts[i]] + parts[i + 1..]);
    ConcatAppend([parts[i]], parts[i + 1..]);
    assert Concat([parts[i]]) == parts[i] + Concat([]);
  }

  /** `pat` occurs in `s` starting at index i. */
  predicate OccursAt(s: string, pat: string, i: nat) {
    i + |pat| <= |s| && s[i..i + |pat|] == pat
  }

  /** `s.find(pat, start)` with -1 rendered as None: the first occurrence at or after `start`. */
  function FindFrom(s: string, pat: string, start: nat): (r: Option<nat>)
    ensures r.Some? ==> start <= r.value && OccursAt(s, pat, r.value)
    ensures r.Some? ==> forall j :: start <= j < r.value ==> !OccursAt(s, pat, j)
    ensures r.None? ==> forall j :: start <= j ==> !OccursAt(s, pat, j)
    decreases |s| - start
  {
    if start + |pat| > |s| then None
    else if s[start..start + |pat|] == pat then Some(start)
    else FindFrom(s, pat, start + 1)
  }

  /** `s.find(pat)`; `pat in s` is `FindFirst(s, pat).Some?`. */
  function FindFirst(s: string, pat: string): Option<nat>
  {
    FindFrom(s, pat, 0)
  }

  /** `s.split(sep)` for a non-empty separator: the pieces between successive
      non-overlapping occurrences of `sep`, scanning left to right. */
  function Split(s: string, sep: string): (pieces: seq<string>)
    requires |sep| > 0
    ensures |pieces| >= 1
    ensures forall k :: 0 <= k < |pieces| ==> |pieces[k]| <= |s|
    ensures FindFirst(s, sep).None? ==> pieces == [s]
    ensures FindFirst(s, sep).Some? ==> |pieces| >= 2 && pieces[0] == s[..FindFirst(s, sep).value]
    decreases |s|
  {
    match FindFirst(s, sep)
    case None => [s]
    case Some(i) => [s[..i]] + Split(s[i + |sep|..], sep)
  }

  /** `sep.join(pieces)`. */
  function JoinWith(pieces: seq<string>, sep: string): string
  {
    if |pieces| == 0 then ""
    else if |pieces| == 1 then pieces[0]
    else pieces[0] + sep + JoinWith(pieces[1..], sep)
  }

  /** Splitting loses nothing: joining the pieces with the separator rebuilds the string. */
  lemma {:induction false} SplitJoin(s: string, sep: string)
    requires |sep| > 0
    ensures JoinWith(Split(s, sep), sep) == s
    decreases |s|
  {
    var found := FindFirst(s, sep);
    if found.Some? {
      var i := found.value;
      var rest := s[i + |sep|..];
      var tail := Split(rest, sep);
      var pieces := [s[..i]] + tail;
      assert Split(s, sep) == pieces;
      assert pieces[1..] == tail;
      assert JoinWith(pieces, sep) == s[..i] + sep + JoinWith(tail, sep);
      SplitJoin(rest, sep);
      assert OccursAt(s, sep, i);
      assert s == s[..i] + s[i..i + |sep|] + rest;
    }
  }

  /** None of the strings contains `sep`. */
  predicate NoneContains(pieces: seq<string>, sep: string) {
    forall k :: 0 <= k < |pieces| ==> FindFirst(pieces[k], sep).None?
  }

  /** No piece of a split contains the separator. */
  lemma {:induction false} SplitPiecesAvoidSeparator(s: string, sep: string)
    requires |sep| > 0
    ensures NoneContains(Split(s, sep), sep)
    decreases |s|
  {
    var found := FindFirst(s, sep);
    if found.Some? {
      var i := found.value;
      var rest := s[i + |sep|..];
      var tail := Split(rest, sep);
      assert Split(s, sep) == [s[..i]] + tail;
      SplitPiecesAvoidSeparator(rest, sep);
      PrefixBeforeFirstOccurrence(s, sep, i);
      ConsNoneContains(s[..i], tail, sep);
    }
  }

  lemma ConsNoneContains(head: string, tail: seq<string>, sep: string)
    requires FindFirst(head, sep).None? && NoneContains(tail, sep)
    ensures NoneContains([head] + tail, sep)
  {
    var pieces := [head] + tail;
    forall k | 1 <= k < |pieces|
      ensures FindFirst(pieces[k], sep).None?
    {
      assert pieces[k] == tail[k - 1];
    }
  }

  /** The text before the first occurrence of a pattern holds no occurrence of it. */
  lemma PrefixBeforeFirstOccurrence(s: string, sep: string, i: nat)
    requires |sep| > 0
    requires FindFirst(s, sep) == Some(i)
    ensures FindFirst(s[..i], sep).None?
  {
    forall j: nat
      ensures !OccursAt(s[..i], sep, j)
    {
      if j + |sep| <= i {
        assert s[..i][j..j + |sep|] == s[j..j + |sep|];
        assert !OccursAt(s, sep, j);
      }
    }
  }

  /** The first piece of a split on one character is the longest prefix free of it:
      it ends at the end of the string or right before the first occurrence. */
  lemma HeadBeforeChar(s: string, c: char)
    ensures Split(s, [c])[0] <= s
    ensures c !in Split(s, [c])[0]
    ensures |Split(s, [c])[0]| == |s| || s[|Split(s, [c])[0]|] == c
  {
    var h := Split(s, [c])[0];
    forall j | 0 <= j < |h|
      ensures h[j] != c
    {
      if h[j] == c {
        assert OccursAt(s, [c], j);
      }
    }
    match FindFirst(s, [c])
    case None =>
    case Some(i) =>
      assert OccursAt(s, [c], i);
  }

  /** A string without a given character contains no pattern that starts with it. */
  lemma NoOccurrenceWithoutFirstChar(s: string, pat: string)
    requires |pat| > 0 && pat[0] !in s
    ensures FindFirst(s, pat).None?
  {
  }
}
