/** Python's built-in `sorted`, on the two kinds of list the feature extractor
    sorts: strings (the document type and subtype names) and integer
    timestamps (the chat messages). Both are insertion sorts; what matters is
    that the result is ordered and a permutation of the input, and, for
    strings, that these two facts fix the result. */
module Sorting {

  /** Python's `a <= b` on `str`: lexicographic by code point, a proper
      prefix sorting first. */
  predicate StrLe(a: string, b: string)
  {
    |a| == 0 || (|b| > 0 && (a[0] < b[0] || (a[0] == b[0] && StrLe(a[1..], b[1..]))))
  }

  lemma {:induction false} StrLeReflexive(a: string)
    ensures StrLe(a, a)
  {
    if |a| > 0 { StrLeReflexive(a[1..]); }
  }

  lemma {:induction false} StrLeTotal(a: string, b: string)
    ensures StrLe(a, b) || StrLe(b, a)
  {
    if |a| > 0 && |b| > 0 && a[0] == b[0] { StrLeTotal(a[1..], b[1..]); }
  }

  lemma {:induction false} StrLeAntisymmetric(a: string, b: string)
    requires StrLe(a, b) && StrLe(b, a)
    ensures a == b
  {
    if |a| > 0 && |b| > 0 {
      StrLeAntisymmetric(a[1..], b[1..]);
      assert a == [a[0]] + a[1..] && b == [b[0]] + b[1..];
    }
  }

  lemma {:induction false} StrLeTransitive(a: string, b: string, c: string)
    requires StrLe(a, b) && StrLe(b, c)
    ensures StrLe(a, c)
  {
    if |a| > 0 && a[0] == b[0] && b[0] == c[0] {
      StrLeTransitive(a[1..], b[1..], c[1..]);
    }
  }

  /** Each string is <= its successor. */
  predicate StrSorted(s: seq<string>)
  {
    forall i :: 0 < i < |s| ==> StrLe(s[i - 1], s[i])
  }

  function InsertStr(x: string, s: seq<string>): (r: seq<string>)
    requires StrSorted(s)
    ensures StrSorted(r) && multiset(r) == multiset(s) + multiset{x} && |r| == |s| + 1
    ensures |r| > 0 && (r[0] == x || (|s| > 0 && r[0] == s[0]))
  {
    if |s| == 0 then [x]
    else if StrLe(x, s[0]) then [x] + s
    else
      StrLeTotal(x, s[0]);
      assert s == [s[0]] + s[1..];
      [s[0]] + InsertStr(x, s[1..])
  }

  /** Insertion sort on strings: proof that an ordered arrangement exists. */
  function InsertionSort(xs: seq<string>): (r: seq<string>)
    ensures StrSorted(r) && multiset(r) == multiset(xs) && |r| == |xs|
  {
    if |xs| == 0 then []
    else
      assert xs == xs[..|xs| - 1] + [xs[|xs| - 1]];
      InsertStr(xs[|xs| - 1], InsertionSort(xs[..|xs| - 1]))
  }

  /** How often `x` occurs in `s`. */
  function Occurrences(s: seq<string>, x: string): (n: nat)
    ensures n <= |s|
  {
    if s == [] then 0
    else Occurrences(s[..|s| - 1], x) + (if s[|s| - 1] == x then 1 else 0)
  }

  lemma {:induction false} OccurrencesAreMultiplicity(s: seq<string>, x: string)
    ensures Occurrences(s, x) == multiset(s)[x]
  {
    if s != [] {
      OccurrencesAreMultiplicity(s[..|s| - 1], x);
      assert s == s[..|s| - 1] + [s[|s| - 1]];
    }
  }

  lemma {:induction false} OccurrencesOfConcat(a: seq<string>, b: seq<string>, x: string)
    ensures Occurrences(a + b, x) == Occurrences(a, x) + Occurrences(b, x)
  {
    OccurrencesAreMultiplicity(a, x);
    OccurrencesAreMultiplicity(b, x);
    OccurrencesAreMultiplicity(a + b, x);
  }

  /** One more name at the end adds one occurrence when it is `x`. */
  lemma OccurrencesOfSnoc(s: seq<string>, y: string, x: string)
    ensures Occurrences(s + [y], x) == Occurrences(s, x) + (if y == x then 1 else 0)
  {
    assert (s + [y])[..|s|] == s;
  }

  lemma OccurringIsMember(s: seq<string>, x: string)
    ensures Occurrences(s, x) > 0 <==> x in s
  {
    OccurrencesAreMultiplicity(s, x);
  }

  /** `r` holds every string exactly as often as `xs` does (a string in
      neither occurs 0 times in both). */
  predicate SameStrings(r: seq<string>, xs: seq<string>)
  {
    (forall x | x in r :: Occurrences(r, x) == Occurrences(xs, x)) &&
    (forall x | x in xs :: Occurrences(r, x) == Occurrences(xs, x))
  }

  lemma SameStringsIsSameMultiset(r: seq<string>, xs: seq<string>)
    ensures SameStrings(r, xs) <==> multiset(r) == multiset(xs)
  {
    forall x ensures Occurrences(r, x) == multiset(r)[x] && Occurrences(xs, x) == multiset(xs)[x] {
      OccurrencesAreMultiplicity(r, x);
      OccurrencesAreMultiplicity(xs, x);
    }
  }

  lemma SameStringsCount(r: seq<string>, xs: seq<string>, x: string)
    requires SameStrings(r, xs)
    ensures Occurrences(r, x) == Occurrences(xs, x)
  {
    if x !in r && x !in xs {
      OccurringIsMember(r, x);
      OccurringIsMember(xs, x);
    }
  }

  lemma SortingExists(xs: seq<string>)
    ensures exists r :: StrSorted(r) && SameStrings(r, xs)
  {
    var r := InsertionSort(xs);
    SameStringsIsSameMultiset(r, xs);
  }

  lemma SortingIsUnique(xs: seq<string>)
    ensures forall a, b :: StrSorted(a) && StrSorted(b) && SameStrings(a, xs) && SameStrings(b, xs) ==> a == b
  {
    forall a, b | StrSorted(a) && StrSorted(b) && SameStrings(a, xs) && SameStrings(b, xs)
      ensures a == b
    {
      SameStringsIsSameMultiset(a, xs);
      SameStringsIsSameMultiset(b, xs);
      SortedUnique(a, b);
    }
  }

  /** `sorted(xs)` for a list of strings: the one ordered arrangement of
      `xs`. It is characterised rather than computed, so that the verifier
      never runs a sort on a fixed list of names. */
  function SortStrings(xs: seq<string>): (r: seq<string>)
    ensures StrSorted(r) && SameStrings(r, xs) && |r| == |xs|
  {
    SortingExists(xs);
    SortingIsUnique(xs);
    var r :| StrSorted(r) && SameStrings(r, xs);
    SameStringsIsSameMultiset(r, xs);
    assert |r| == |multiset(r)| == |xs|;
    r
  }

  lemma {:induction false} SortedHeadIsLeast(s: seq<string>, j: int)
    requires StrSorted(s) && 0 <= j < |s|
    ensures StrLe(s[0], s[j])
  {
    if j == 0 {
      StrLeReflexive(s[0]);
    } else {
      SortedHeadIsLeast(s, j - 1);
      StrLeTransitive(s[0], s[j - 1], s[j]);
    }
  }

  /** Two ordered arrangements of the same strings are the same list, so
      `sorted` has exactly one possible result. */
  lemma {:induction false} SortedUnique(a: seq<string>, b: seq<string>)
    requires StrSorted(a) && StrSorted(b) && multiset(a) == multiset(b)
    ensures a == b
  {
    if |a| > 0 {
      assert a == [a[0]] + a[1..] && b == [b[0]] + b[1..] by {
        assert a[0] in multiset(b);
        assert |b| > 0;
      }
      assert a[0] in multiset(b);
      var j :| 0 <= j < |b| && b[j] == a[0];
      assert b[0] in multiset(a);
      var k :| 0 <= k < |a| && a[k] == b[0];
      SortedHeadIsLeast(a, k);
      SortedHeadIsLeast(b, j);
      StrLeAntisymmetric(a[0], b[0]);
      assert multiset(a) == multiset{a[0]} + multiset(a[1..]);
      assert multiset(b) == multiset{b[0]} + multiset(b[1..]);
      assert multiset(a[1..]) == multiset(a) - multiset{a[0]};
      assert multiset(b[1..]) == multiset(b) - multiset{b[0]};
      SortedUnique(a[1..], b[1..]);
    } else {
      assert |multiset(b)| == 0;
    }
  }

  /** Each timestamp is <= every later one. */
  predicate IntSorted(s: seq<int>)
  {
    forall i, j :: 0 <= i < j < |s| ==> s[i] <= s[j]
  }

  function InsertInt(x: int, s: seq<int>): (r: seq<int>)
    requires IntSorted(s)
    ensures IntSorted(r) && multiset(r) == multiset(s) + multiset{x} && |r| == |s| + 1
  {
    if |s| == 0 || x <= s[0] then [x] + s
    else
      var t := InsertInt(x, s[1..]);
      assert s == [s[0]] + s[1..];
      ConsSorted(s[0], t);
      [s[0]] + t
  }

  /** Putting a lower bound of every element in front keeps a list sorted. */
  lemma ConsSorted(h: int, t: seq<int>)
    requires IntSorted(t)
    requires forall u :: u in multiset(t) ==> h <= u
    ensures IntSorted([h] + t)
  {
    forall j | 0 <= j < |t| ensures h <= t[j] {
      assert t[j] in multiset(t);
    }
  }

  /** `sorted(ts)` for a list of integers. */
  function SortInts(ts: seq<int>): (r: seq<int>)
    ensures IntSorted(r) && multiset(r) == multiset(ts) && |r| == |ts|
  {
    if |ts| == 0 then []
    else
      assert ts == ts[..|ts| - 1] + [ts[|ts| - 1]];
      InsertInt(ts[|ts| - 1], SortInts(ts[..|ts| - 1]))
  }

  /** After sorting, the first element is the least and the last the
      greatest of the input, so "last - first" is the input's spread. */
  lemma SortIntsEnds(ts: seq<int>)
    requires |ts| > 0
    ensures |SortInts(ts)| == |ts|
    ensures SortInts(ts)[0] in ts && SortInts(ts)[|ts| - 1] in ts
    ensures forall t :: t in ts ==> SortInts(ts)[0] <= t <= SortInts(ts)[|ts| - 1]
  {
    var r := SortInts(ts);
    assert |r| == |multiset(r)| == |multiset(ts)| == |ts|;
    assert r[0] in multiset(r) && r[|r| - 1] in multiset(r);
    forall t | t in ts ensures r[0] <= t <= r[|r| - 1] {
      assert t in multiset(r);
    }
  }
}
