/**
 * The few Python string operations the template relies on, with Python's
 * semantics: `str.rfind`, the prefix slice `s[:stop]` (negative `stop`
 * counts from the end), `str.split(sep)` on a one-character separator, and
 * `sep.join(parts)`.
 */
module PyStrings {

  /** Index of the first occurrence of `c` in `s`; `c` must occur. */
  function IndexOf(s: string, c: char): (i: nat)
    requires c in s
    ensures i < |s| && s[i] == c
    ensures c !in s[..i]
  {
    if s[0] == c then 0 else 1 + IndexOf(s[1..], c)
  }

  /**
   * Python's `s.rfind(c)`: the index of the last occurrence of `c`, or -1
   * when `c` does not occur.
   */
  function RFind(s: string, c: char): (r: int)
    ensures -1 <= r < |s|
    ensures r >= 0 ==> s[r] == c
    ensures forall j :: r < j < |s| ==> s[j] != c
  {
    if |s| == 0 then -1
    else if s[|s| - 1] == c then |s| - 1
    else RFind(s[..|s| - 1], c)
  }

  /**
   * Python's prefix slice `s[:stop]`: a non-negative `stop` is clamped to
   * the length, a negative one counts back from the end and clamps at 0.
   */
  function SliceTo(s: string, stop: int): (r: string)
    ensures |r| <= |s| && r == s[..|r|]
    ensures 0 <= stop <= |s| ==> |r| == stop
    ensures |s| < stop ==> r == s
    ensures -|s| <= stop < 0 ==> |r| == |s| + stop
    ensures stop < -|s| ==> r == []
  {
    if 0 <= stop then
      if stop <= |s| then s[..stop] else s
    else
      if |s| + stop >= 0 then s[..|s| + stop] else []
  }

  /** Python's `sep.join(parts)`. */
  function Join(parts: seq<string>, sep: char): string
  {
    if |parts| == 0 then ""
    else if |parts| == 1 then parts[0]
    else parts[0] + [sep] + Join(parts[1..], sep)
  }

  /** Joining a piece in front of at least one more piece puts a separator between them. */
  lemma JoinCons(a: string, rest: seq<string>, sep: char)
    requires |rest| >= 1
    ensures Join([a] + rest, sep) == a + [sep] + Join(rest, sep)
  {
    assert ([a] + rest)[1..] == rest;
  }

  /**
   * Python's `s.split(sep)` for a one-character separator: the pieces
   * between successive separators, empty pieces included; joining them back
   * with `sep` gives `s`, and there is exactly one piece when `sep` does not
   * occur.
   */
  function Split(s: string, sep: char): (parts: seq<string>)
    ensures |parts| >= 1
    ensures forall k :: 0 <= k < |parts| ==> sep !in parts[k]
    ensures Join(parts, sep) == s
    ensures |parts| == 1 <==> sep !in s
    decreases |s|
  {
    if sep !in s then [s]
    else
      var i := IndexOf(s, sep);
      var rest := Split(s[i + 1..], sep);
      assert s == s[..i] + [sep] + s[i + 1..];
      [s[..i]] + rest
  }

  /** A separator-free string splits into itself alone. */
  lemma SplitSingle(s: string, sep: char)
    requires sep !in s
    ensures Split(s, sep) == [s]
  {
    var parts := Split(s, sep);
    assert |parts| == 1;
    assert Join(parts, sep) == parts[0];
  }

  /** Splitting a piece followed by the separator peels that piece off. */
  lemma SplitCons(a: string, sep: char, b: string)
    requires sep !in a
    ensures Split(a + [sep] + b, sep) == [a] + Split(b, sep)
  {
    var s := a + [sep] + b;
    assert s[|a|] == sep;
    var i := IndexOf(s, sep);
    assert s[..|a|] == a;
    assert i == |a|;
    assert s[..i] == a;
    assert s[i + 1..] == b;
  }

  /** `Split` inverts `Join` on separator-free pieces. */
  lemma {:induction false} SplitJoin(parts: seq<string>, sep: char)
    requires |parts| >= 1
    requires forall k :: 0 <= k < |parts| ==> sep !in parts[k]
    ensures Split(Join(parts, sep), sep) == parts
  {
    if |parts| > 1 {
      var head, tail := parts[0], parts[1..];
      assert parts == [head] + tail;
      calc {
        Split(Join(parts, sep), sep);
        { JoinCons(head, tail, sep); }
        Split(head + [sep] + Join(tail, sep), sep);
        { SplitCons(head, sep, Join(tail, sep)); }
        [head] + Split(Join(tail, sep), sep);
        { SplitJoin(tail, sep); }
        [head] + tail;
      }
    }
  }

  /** Python's `s.endswith(t)`. */
  predicate EndsWith(s: string, t: string)
  {
    |t| <= |s| && s[|s| - |t|..] == t
  }

  /** A suffix of the last part of a concatenation is a suffix of the whole. */
  lemma EndsWithAppend(p: string, t: string, u: string)
    requires |u| <= |t|
    ensures EndsWith(p + t, u) <==> EndsWith(t, u)
  {
    assert (p + t)[|p + t| - |u|..] == t[|t| - |u|..];
  }

  /** Two suffixes of one string: the shorter is a suffix of the longer. */
  lemma EndsWithBoth(s: string, t: string, u: string)
    requires EndsWith(s, t) && |u| <= |t|
    ensures EndsWith(s, u) <==> EndsWith(t, u)
  {
    assert s[|s| - |u|..] == s[|s| - |t|..][|t| - |u|..];
  }
}
