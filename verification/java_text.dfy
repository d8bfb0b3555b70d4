/** The `String` operations the codec and the service use: `startsWith`,
    `indexOf`, `split` on a literal separator, `trim`, and an ASCII
    `equalsIgnoreCase`; and the split of a text into the physical lines a
    `BufferedWriter` produces and a `BufferedReader` reads back. */
module JavaText {
  import opened JavaLang
  import opened Sequences

  predicate StartsWith(s: string, prefix: string)
  {
    |prefix| <= |s| && s[..|prefix|] == prefix
  }

  predicate EndsWith(s: string, suffix: string)
  {
    |suffix| <= |s| && s[|s| - |suffix|..] == suffix
  }

  /** `sep` occurs in `s` starting at index `k`. */
  predicate OccursAt(s: string, sep: string, k: int)
  {
    0 <= k && k + |sep| <= |s| && s[k..k + |sep|] == sep
  }

  /** `s.indexOf(sep, from)`, with `None` for -1. */
  function IndexOfFrom(s: string, sep: string, from: nat): (r: Option<nat>)
    decreases |s| - from
    ensures r.Some? ==> from <= r.value && OccursAt(s, sep, r.value)
    ensures r.Some? ==> forall j :: from <= j < r.value ==> !OccursAt(s, sep, j)
    ensures r.None? ==> forall j :: from <= j ==> !OccursAt(s, sep, j)
  {
    if from + |sep| > |s| then None
    else if s[from..from + |sep|] == sep then Some(from)
    else IndexOfFrom(s, sep, from + 1)
  }

  function IndexOf(s: string, sep: string): Option<nat>
  {
    IndexOfFrom(s, sep, 0)
  }

  /** `indexOf` finds an occurrence exactly when no earlier one exists. */
  lemma IndexOfIs(s: string, sep: string, k: nat)
    requires OccursAt(s, sep, k)
    requires forall j :: 0 <= j < k ==> !OccursAt(s, sep, j)
    ensures IndexOf(s, sep) == Some(k)
  {
  }

  predicate Contains(s: string, sep: string)
  {
    IndexOf(s, sep).Some?
  }

  /** `s.split(sep, -1)` for a separator without regular-expression
      metacharacters: cut at the leftmost occurrence, then go on after it;
      empty pieces, trailing ones included, are kept. */
  function SplitOn(s: string, sep: string): (parts: seq<string>)
    requires |sep| > 0
    ensures |parts| >= 1
    decreases |s|
  {
    match IndexOf(s, sep)
    case None => [s]
    case Some(k) => [s[..k]] + SplitOn(s[k + |sep|..], sep)
  }

  /** The pieces put back together with `sep` between them. */
  function Join(parts: seq<string>, sep: string): string
  {
    if |parts| == 0 then ""
    else if |parts| == 1 then parts[0]
    else parts[0] + sep + Join(parts[1..], sep)
  }

  /** Joining a list of at least two pieces puts the first in front. */
  lemma JoinCons(x: string, rest: seq<string>, sep: string)
    requires rest != []
    ensures Join([x] + rest, sep) == x + sep + Join(rest, sep)
  {
    assert ([x] + rest)[1..] == rest;
  }

  /** Joining `[a, b] + rest` is joining `[a + sep + b] + rest`. */
  lemma JoinMerge(a: string, b: string, rest: seq<string>, sep: string)
    requires rest != []
    ensures Join([a] + ([b] + rest), sep) == Join([a + sep + b] + rest, sep)
  {
    var tail := Join(rest, sep);
    JoinCons(b, rest, sep);
    JoinCons(a, [b] + rest, sep);
    JoinCons(a + sep + b, rest, sep);
    assert a + sep + (b + sep + tail) == a + sep + b + sep + tail;
  }

  /** Splitting and joining with the same separator gives the text back. */
  lemma {:induction false} JoinSplit(s: string, sep: string)
    requires |sep| > 0
    ensures Join(SplitOn(s, sep), sep) == s
    decreases |s|
  {
    match IndexOf(s, sep)
    case None =>
    case Some(k) =>
      var rest := s[k + |sep|..];
      var tail := SplitOn(rest, sep);
      JoinSplit(rest, sep);
      SplitAt(s, sep, k);
      JoinCons(s[..k], tail, sep);
      Slices(s, k, k + |sep|);
  }

  /** The first piece ends at the leftmost separator; the rest is split on. */
  lemma SplitAt(s: string, sep: string, k: nat)
    requires |sep| > 0 && IndexOf(s, sep) == Some(k)
    ensures SplitOn(s, sep) == [s[..k]] + SplitOn(s[k + |sep|..], sep)
  {
  }

  /** A text without the separator is its own single piece. */
  lemma SplitWithoutSeparator(s: string, sep: string)
    requires |sep| > 0 && !Contains(s, sep)
    ensures SplitOn(s, sep) == [s]
  {
  }

  /** The physical lines of a text written with `BufferedWriter.write` and
      read back with `BufferedReader.readLine`: the pieces between `'\n'`. */
  function SplitLines(s: string): (lines: seq<string>)
    ensures |lines| >= 1
  {
    SplitOn(s, "\n")
  }

  /** A one-character separator occurs exactly where its character stands. */
  lemma LineBreakAt(s: string, j: int)
    requires 0 <= j < |s|
    ensures OccursAt(s, "\n", j) <==> s[j] == '\n'
  {
    assert s[j..j + 1][0] == s[j];
    if s[j] == '\n' {
      assert s[j..j + 1] == "\n";
    }
  }

  /** A text without a line break is written as exactly one line. */
  lemma SingleLine(s: string)
    requires '\n' !in s
    ensures SplitLines(s) == [s]
  {
    forall j | 0 <= j < |s|
      ensures !OccursAt(s, "\n", j)
    {
      LineBreakAt(s, j);
    }
  }

  /** The first line of a text is empty exactly when the text starts with a
      line break. */
  lemma FirstLineEmpty(s: string)
    ensures SplitLines(s)[0] == "" <==> (s == "" || s[0] == '\n')
  {
    if |s| > 0 {
      LineBreakAt(s, 0);
    }
    match IndexOf(s, "\n")
    case None =>
    case Some(k) =>
      assert SplitLines(s)[0] == s[..k];
  }

  /** Characters that `String.trim()` strips: everything up to U+0020. */
  predicate Trimmable(c: char)
  {
    c <= ' '
  }

  /** `String.trim()`. */
  function Trim(s: string): (r: string)
    decreases |s|
  {
    if |s| > 0 && Trimmable(s[0]) then Trim(s[1..])
    else if |s| > 0 && Trimmable(s[|s| - 1]) then Trim(s[..|s| - 1])
    else s
  }

  /** `s.trim().isEmpty()`. */
  predicate Blank(s: string)
  {
    Trim(s) == ""
  }

  /** `trim()` yields the empty string exactly when every character is
      trimmable. */
  lemma {:induction false} BlankIffAllTrimmable(s: string)
    ensures Blank(s) <==> forall i :: 0 <= i < |s| ==> Trimmable(s[i])
    decreases |s|
  {
    if |s| > 0 && Trimmable(s[0]) {
      BlankIffAllTrimmable(s[1..]);
      assert forall i :: 0 < i < |s| ==> s[i] == s[1..][i - 1];
    } else if |s| > 0 && Trimmable(s[|s| - 1]) {
      BlankIffAllTrimmable(s[..|s| - 1]);
      assert forall i :: 0 <= i < |s| - 1 ==> s[i] == s[..|s| - 1][i];
    }
  }

  /** ASCII upper-case letters mapped to lower case; every other character
      kept. */
  function LowerAscii(c: char): (r: char)
    ensures 'A' <= c <= 'Z' ==> 'a' <= r <= 'z' && r as int == c as int + 32
    ensures !('A' <= c <= 'Z') ==> r == c
  {
    if 'A' <= c <= 'Z' then (c as int + 32) as char else c
  }

  /** `a.equalsIgnoreCase(b)`, with case folding restricted to ASCII letters. */
  predicate EqualsIgnoreCase(a: string, b: string)
  {
    |a| == |b| && forall i :: 0 <= i < |a| ==> LowerAscii(a[i]) == LowerAscii(b[i])
  }

  /** Case-insensitive equality is an equivalence relation. */
  lemma EqualsIgnoreCaseIsEquivalence(a: string, b: string, c: string)
    ensures EqualsIgnoreCase(a, a)
    ensures EqualsIgnoreCase(a, b) ==> EqualsIgnoreCase(b, a)
    ensures EqualsIgnoreCase(a, b) && EqualsIgnoreCase(b, c) ==> EqualsIgnoreCase(a, c)
  {
  }
}
