/** Character-level string operations used by the scripts: stripping one
    character from either end (`str.rstrip` / `str.lstrip` with a one-character
    argument) and joining / splitting on a one-character separator. */
module Text {

  /** Every character of `s` is `c` (true of the empty string). */
  predicate AllOf(s: string, c: char) {
    forall i | 0 <= i < |s| :: s[i] == c
  }

  /** `s.rstrip(c)`: removes every trailing occurrence of `c`. The result is
      the longest prefix of `s` that does not end in `c` such that only `c`s
      were dropped. */
  function TrimEnd(s: string, c: char): (r: string)
    ensures r <= s
    ensures r == [] || r[|r| - 1] != c
    ensures AllOf(s[|r|..], c)
    decreases |s|
  {
    if |s| > 0 && s[|s| - 1] == c then
      var r := TrimEnd(s[..|s| - 1], c);
      assert s[|r|..] == s[..|s| - 1][|r|..] + [c];
      r
    else
      s
  }

  /** `s.lstrip(c)`: removes every leading occurrence of `c`. */
  function TrimStart(s: string, c: char): (r: string)
    ensures |r| <= |s| && r == s[|s| - |r|..]
    ensures r == [] || r[0] != c
    ensures AllOf(s[..|s| - |r|], c)
    decreases |s|
  {
    if |s| > 0 && s[0] == c then
      var r := TrimStart(s[1..], c);
      assert s[..|s| - |r|] == [c] + s[1..][..|s[1..]| - |r|];
      r
    else
      s
  }

  /** The three properties in TrimEnd's contract determine its result. */
  lemma TrimEndUnique(s: string, c: char, t: string)
    requires t <= s
    requires t == [] || t[|t| - 1] != c
    requires AllOf(s[|t|..], c)
    ensures TrimEnd(s, c) == t
  {
  }

  /** The three properties in TrimStart's contract determine its result. */
  lemma TrimStartUnique(s: string, c: char, t: string)
    requires |t| <= |s| && t == s[|s| - |t|..]
    requires t == [] || t[0] != c
    requires AllOf(s[..|s| - |t|], c)
    ensures TrimStart(s, c) == t
  {
    var r := TrimStart(s, c);
    assert forall i | 0 <= i < |s| - |r| :: s[i] == c by {
      assert forall i | 0 <= i < |s| - |r| :: s[i] == s[..|s| - |r|][i];
    }
    assert forall i | 0 <= i < |s| - |t| :: s[i] == c by {
      assert forall i | 0 <= i < |s| - |t| :: s[i] == s[..|s| - |t|][i];
    }
    assert t != [] ==> t[0] == s[|s| - |t|];
    assert r != [] ==> r[0] == s[|s| - |r|];
  }

  /** Stripping twice strips nothing more. */
  lemma TrimEndIdempotent(s: string, c: char)
    ensures TrimEnd(TrimEnd(s, c), c) == TrimEnd(s, c)
  {
  }

  lemma TrimStartIdempotent(s: string, c: char)
    ensures TrimStart(TrimStart(s, c), c) == TrimStart(s, c)
  {
  }

  /** Appending more `c`s to the end does not change what rstrip returns. */
  lemma TrimEndPadding(s: string, pad: string, c: char)
    requires AllOf(pad, c)
    ensures TrimEnd(s + pad, c) == TrimEnd(s, c)
  {
    var t := TrimEnd(s, c);
    assert (s + pad)[|t|..] == s[|t|..] + pad;
    TrimEndUnique(s + pad, c, t);
  }

  /** Prepending more `c`s does not change what lstrip returns. */
  lemma TrimStartPadding(pad: string, s: string, c: char)
    requires AllOf(pad, c)
    ensures TrimStart(pad + s, c) == TrimStart(s, c)
  {
    var t := TrimStart(s, c);
    var u := pad + s;
    var k := |s| - |t|;
    assert u[|pad| + k..] == s[k..];
    assert u[..|pad| + k] == pad + s[..k];
    TrimStartUnique(u, c, t);
  }

  /** Total length of the pieces. */
  function Width(parts: seq<string>): nat {
    if |parts| == 0 then 0 else |parts[0]| + Width(parts[1..])
  }

  /** `sep.join(parts)`: the pieces in order, one separator between each
      consecutive pair, and nothing else. */
  function Join(parts: seq<string>, sep: char): (r: string)
    ensures |parts| == 0 ==> r == ""
    ensures |parts| >= 1 ==> |r| == Width(parts) + |parts| - 1
    ensures |parts| >= 1 ==> parts[0] <= r
    ensures |parts| >= 2 ==> r[|parts[0]|] == sep
  {
    if |parts| == 0 then ""
    else if |parts| == 1 then parts[0]
    else parts[0] + [sep] + Join(parts[1..], sep)
  }

  /** `s.split(sep)`: the pieces between consecutive separators, always at
      least one (the empty string splits into one empty piece). */
  function Split(s: string, sep: char): (r: seq<string>)
    ensures |r| >= 1
    ensures forall i | 0 <= i < |r| :: sep !in r[i]
    decreases |s|
  {
    if |s| == 0 then [""]
    else
      var rest := Split(s[1..], sep);
      if s[0] == sep then [""] + rest
      else [[s[0]] + rest[0]] + rest[1..]
  }

  /** Appending a piece appends one separator and the piece; with the
      one-piece case this fixes Join on every input. */
  lemma {:induction false} JoinAppend(parts: seq<string>, x: string, sep: char)
    requires |parts| >= 1
    ensures Join(parts + [x], sep) == Join(parts, sep) + [sep] + x
    decreases |parts|
  {
    if |parts| > 1 {
      assert (parts + [x])[1..] == parts[1..] + [x];
      JoinAppend(parts[1..], x, sep);
    }
  }

  /** Joining the pieces of a split gives back the original string. */
  lemma {:induction false} JoinSplit(s: string, sep: char)
    ensures Join(Split(s, sep), sep) == s
    decreases |s|
  {
    if |s| > 0 {
      var rest := Split(s[1..], sep);
      JoinSplit(s[1..], sep);
      if s[0] == sep {
        assert Join(Split(s, sep), sep) == "" + [sep] + Join(rest, sep);
      } else if |rest| == 1 {
        assert Join(Split(s, sep), sep) == [s[0]] + rest[0];
      } else {
        assert Join(rest, sep) == rest[0] + [sep] + Join(rest[1..], sep);
        assert Join(Split(s, sep), sep) == [s[0]] + rest[0] + [sep] + Join(rest[1..], sep);
      }
      assert s == [s[0]] + s[1..];
    }
  }

  /** A string without separators is a single piece. */
  lemma {:induction false} SplitNoSeparator(x: string, sep: char)
    requires sep !in x
    ensures Split(x, sep) == [x]
    decreases |x|
  {
    if |x| > 0 {
      SplitNoSeparator(x[1..], sep);
      assert x == [x[0]] + x[1..];
    }
  }

  /** A separator after a separator-free prefix ends the first piece. */
  lemma {:induction false} SplitAtFirstSeparator(x: string, y: string, sep: char)
    requires sep !in x
    ensures Split(x + [sep] + y, sep) == [x] + Split(y, sep)
    decreases |x|
  {
    var s := x + [sep] + y;
    if |x| == 0 {
      assert s[1..] == y;
    } else {
      assert s[1..] == x[1..] + [sep] + y;
      SplitAtFirstSeparator(x[1..], y, sep);
      assert x == [x[0]] + x[1..];
    }
  }

  /** Splitting a join of separator-free pieces gives back the pieces. */
  lemma {:induction false} SplitJoin(parts: seq<string>, sep: char)
    requires |parts| >= 1
    requires forall i | 0 <= i < |parts| :: sep !in parts[i]
    ensures Split(Join(parts, sep), sep) == parts
    decreases |parts|
  {
    if |parts| == 1 {
      SplitNoSeparator(parts[0], sep);
    } else {
      SplitJoin(parts[1..], sep);
      SplitAtFirstSeparator(parts[0], Join(parts[1..], sep), sep);
    }
  }
}
