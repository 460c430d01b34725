/** The string operations the cache relies on: first-occurrence search and
    the single replacement that `String.prototype.replace` performs when its
    pattern is a string. */
module Text {

  import opened Wrappers

  /** `pat` occurs in `s` starting at index `i`. */
  predicate OccursAt(s: string, pat: string, i: int) {
    0 <= i && i + |pat| <= |s| && s[i..i + |pat|] == pat
  }

  /** `i` is the first index at which `pat` occurs in `s`. */
  predicate FirstOccurrence(s: string, pat: string, i: int) {
    OccursAt(s, pat, i) && forall j :: 0 <= j < i ==> !OccursAt(s, pat, j)
  }

  /** The first index at or after `from` where `pat` occurs, if any. */
  function FindFrom(s: string, pat: string, from: nat): (r: Option<nat>)
    ensures r.Some? ==> from <= r.value && OccursAt(s, pat, r.value)
    ensures r.Some? ==> forall j :: from <= j < r.value ==> !OccursAt(s, pat, j)
    ensures r.None? ==> forall j :: from <= j ==> !OccursAt(s, pat, j)
    decreases |s| - from
  {
    if from + |pat| > |s| then None
    else if s[from..from + |pat|] == pat then Some(from)
    else FindFrom(s, pat, from + 1)
  }

  /** Replaces the first occurrence of `pat` in `s` by `rep`; without one, `s` is returned as is. */
  function ReplaceFirst(s: string, pat: string, rep: string): (r: string)
    ensures (forall j :: !OccursAt(s, pat, j)) ==> r == s
    ensures forall i :: FirstOccurrence(s, pat, i) ==> r == s[..i] + rep + s[i + |pat|..]
  {
    match FindFrom(s, pat, 0)
    case None => s
    case Some(i) =>
      assert FirstOccurrence(s, pat, i);
      s[..i] + rep + s[i + |pat|..]
  }

  /** A string with no `+` before a trailing `+00:00` has that suffix as its first occurrence. */
  lemma ReplaceUtcSuffix(d: string)
    requires '+' !in d
    ensures ReplaceFirst(d + "+00:00", "+00:00", "Z") == d + "Z"
  {
    var s := d + "+00:00";
    assert OccursAt(s, "+00:00", |d|);
    forall j | 0 <= j < |d|
      ensures !OccursAt(s, "+00:00", j)
    {
      assert s[j] == d[j];
    }
    assert FirstOccurrence(s, "+00:00", |d|);
    assert s[..|d|] == d;
  }

  /** A string without `+` holds no `+00:00`, so the replacement leaves it alone. */
  lemma ReplaceWithoutPlus(d: string)
    requires '+' !in d
    ensures ReplaceFirst(d, "+00:00", "Z") == d
  {
    forall j | 0 <= j && j + 6 <= |d|
      ensures !OccursAt(d, "+00:00", j)
    {
      assert d[j..j + 6][0] == d[j] != '+';
    }
  }

  /** A pattern has at most one first occurrence. */
  lemma FirstOccurrenceUnique(s: string, pat: string, i: int, j: int)
    requires FirstOccurrence(s, pat, i) && FirstOccurrence(s, pat, j)
    ensures i == j
  {
  }

  /** Joining two fields with a separator that the first field never contains
      can be undone: the first separator marks the boundary. */
  lemma SplitAtSeparator(a: string, b: string, c: string, d: string, sep: char)
    requires sep !in a && sep !in c
    requires a + [sep] + b == c + [sep] + d
    ensures a == c && b == d
  {
    var x := a + [sep] + b;
    forall j | 0 <= j < |a|
      ensures !OccursAt(x, [sep], j)
    {
      assert x[j..j + 1][0] == a[j];
    }
    forall j | 0 <= j < |c|
      ensures !OccursAt(x, [sep], j)
    {
      assert x[j..j + 1][0] == c[j];
    }
    assert x[|a|..|a| + 1] == [sep];
    assert (c + [sep] + d)[|c|..|c| + 1] == [sep];
    FirstOccurrenceUnique(x, [sep], |a|, |c|);
    assert a == x[..|a|] == c;
    assert b == x[|a| + 1..] == d;
  }
}
