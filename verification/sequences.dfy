/** Small facts about sequences that the proofs about files of lines and
    lists of books use, stated once for any element type so that the
    solver does not have to rediscover them on large terms. */
module Sequences {

  /** No element occurs twice: for a list of objects, no object is listed
      at two positions. */
  predicate Distinct<T(==)>(s: seq<T>)
  {
    forall i, j :: 0 <= i < j < |s| ==> s[i] != s[j]
  }

  /** The head and tail of a concatenation whose first part is not empty. */
  lemma HeadOfAppend<T>(xs: seq<T>, ys: seq<T>)
    requires xs != []
    ensures (xs + ys)[0] == xs[0] && (xs + ys)[1..] == xs[1..] + ys
  {
  }

  /** A prefix one element longer. */
  lemma TakeOneMore<T>(s: seq<T>, i: nat)
    requires i < |s|
    ensures s[..i + 1] == s[..i] + [s[i]]
  {
  }

  /** A sequence is its prefix followed by its suffix. */
  lemma TakeDrop<T>(s: seq<T>, k: nat)
    requires k <= |s|
    ensures s == s[..k] + s[k..]
  {
  }

  /** A sequence is its three slices at `i` and `j`. */
  lemma Slices<T>(s: seq<T>, i: nat, j: nat)
    requires i <= j <= |s|
    ensures s == s[..i] + s[i..j] + s[j..]
  {
  }

  lemma AppendAssoc<T>(a: seq<T>, b: seq<T>, c: seq<T>)
    ensures a + (b + c) == (a + b) + c
  {
  }

  /** The last three parts of a concatenation of four, grouped. */
  lemma GroupLast<T>(a: seq<T>, b: seq<T>, c: seq<T>, d: seq<T>)
    ensures a + b + c + d == a + (b + c + d)
  {
    AppendAssoc(a, b, c);
    AppendAssoc(a, b + c, d);
  }

  /** A sequence is the prefix of itself followed by anything. */
  lemma PrefixOfAppend<T>(a: seq<T>, c: seq<T>)
    ensures (a + c)[..|a|] == a
  {
  }

  /** `a + [x]` is the prefix of `a + [x] + r + t`. */
  lemma OpensWith<T>(a: seq<T>, x: T, r: seq<T>, t: seq<T>)
    ensures |a + ([x] + r) + t| > |a|
    ensures (a + ([x] + r) + t)[..|a| + 1] == a + [x]
  {
    assert a + ([x] + r) + t == (a + [x]) + (r + t);
    PrefixOfAppend(a + [x], r + t);
  }
}
