/**
 * Strings and string lists as the configuration code uses them: one-character
 * prefixes (`!`, `^`, `$`), the order of Go's `sort.Strings`, sorting, and the
 * filters that split a list by prefix. Go compares strings byte by byte; on
 * UTF-8 text that is the order of code points, which is the order of Dafny's
 * `char` values used here.
 */
module Strings {
  import opened Wrappers

  /** `strings.HasPrefix(s, string(c))`. */
  predicate StartsWith(s: string, c: char) {
    |s| > 0 && s[0] == c
  }

  /** True if `s` starts with one of the characters in `cs`. */
  predicate StartsWithAny(s: string, cs: set<char>) {
    |s| > 0 && s[0] in cs
  }

  /** The set of elements of a list. */
  function Elems(s: seq<string>): set<string> {
    set x | x in s
  }

  // ---------------------------------------------------------------------------
  // The order of sort.Strings

  /** Lexicographic "less than or equal" on strings. */
  predicate Le(a: string, b: string)
    decreases |a|
  {
    |a| == 0 || (|b| > 0 && (a[0] < b[0] || (a[0] == b[0] && Le(a[1..], b[1..]))))
  }

  lemma {:induction false} LeRefl(a: string)
    ensures Le(a, a)
    decreases |a|
  {
    if |a| > 0 {
      LeRefl(a[1..]);
    }
  }

  lemma {:induction false} LeTotal(a: string, b: string)
    ensures Le(a, b) || Le(b, a)
    decreases |a|
  {
    if |a| > 0 && |b| > 0 && a[0] == b[0] {
      LeTotal(a[1..], b[1..]);
    }
  }

  lemma {:induction false} LeAntisymmetric(a: string, b: string)
    requires Le(a, b) && Le(b, a)
    ensures a == b
    decreases |a|
  {
    if |a| > 0 {
      LeAntisymmetric(a[1..], b[1..]);
      assert a == [a[0]] + a[1..];
      assert b == [b[0]] + b[1..];
    }
  }

  lemma {:induction false} LeTransitive(a: string, b: string, c: string)
    requires Le(a, b) && Le(b, c)
    ensures Le(a, c)
    decreases |a|
  {
    if |a| > 0 && a[0] == b[0] && b[0] == c[0] {
      LeTransitive(a[1..], b[1..], c[1..]);
    }
  }

  /** Sorted in the order of sort.Strings. */
  predicate Sorted(s: seq<string>) {
    forall i, j | 0 <= i < j < |s| :: Le(s[i], s[j])
  }

  /** No element occurs twice. */
  predicate NoDup(s: seq<string>) {
    forall i, j | 0 <= i < j < |s| :: s[i] != s[j]
  }

  /** `x` is at most every element of `s`. */
  predicate LowerBound(x: string, s: seq<string>) {
    forall i | 0 <= i < |s| :: Le(x, s[i])
  }

  lemma LowerBoundPermutation(x: string, a: seq<string>, b: seq<string>)
    requires LowerBound(x, a) && multiset(a) == multiset(b)
    ensures LowerBound(x, b)
  {
    forall i | 0 <= i < |b|
      ensures Le(x, b[i])
    {
      assert b[i] in multiset(a);
    }
  }

  // ---------------------------------------------------------------------------
  // Sorting

  /** Insertion of `x` into a sorted list. */
  function Insert(x: string, s: seq<string>): (r: seq<string>)
    requires Sorted(s)
    ensures Sorted(r)
    ensures multiset(r) == multiset(s) + multiset{x}
  {
    if s == [] then [x]
    else if Le(x, s[0]) then
      assert forall j | 0 <= j < |s| :: Le(x, s[j]) by {
        forall j | 0 <= j < |s| ensures Le(x, s[j]) {
          if j > 0 { LeTransitive(x, s[0], s[j]); }
        }
      }
      [x] + s
    else
      LeTotal(x, s[0]);
      var t := Insert(x, s[1..]);
      assert LowerBound(s[0], s[1..] + [x]);
      assert s == [s[0]] + s[1..];
      LowerBoundPermutation(s[0], s[1..] + [x], t);
      [s[0]] + t
  }

  /**
   * `sort.Strings`: the sorted permutation of `s`. Which algorithm Go uses
   * does not matter, since the sorted permutation is unique (SortedUnique).
   */
  function Sort(s: seq<string>): (r: seq<string>)
    ensures Sorted(r)
    ensures multiset(r) == multiset(s)
  {
    if s == [] then []
    else
      assert s == [s[0]] + s[1..];
      Insert(s[0], Sort(s[1..]))
  }

  /** Two sorted lists with the same elements, counted with multiplicity, are equal. */
  lemma {:induction false} SortedUnique(a: seq<string>, b: seq<string>)
    requires Sorted(a) && Sorted(b) && multiset(a) == multiset(b)
    ensures a == b
    decreases |a|
  {
    if |a| == 0 {
      assert |b| == |multiset(b)| == 0;
    } else {
      SortedHeads(a, b);
      assert a == [a[0]] + a[1..];
      assert b == [b[0]] + b[1..];
      assert multiset(a[1..]) == multiset(b[1..]) by {
        assert multiset(a) == multiset{a[0]} + multiset(a[1..]);
        assert multiset(b) == multiset{b[0]} + multiset(b[1..]);
        assert multiset(a[1..]) == multiset(a) - multiset{a[0]};
        assert multiset(b[1..]) == multiset(b) - multiset{b[0]};
      }
      assert Sorted(a[1..]) && Sorted(b[1..]);
      SortedUnique(a[1..], b[1..]);
    }
  }

  /** Two sorted lists with the same non-empty multiset start with the same element. */
  lemma SortedHeads(a: seq<string>, b: seq<string>)
    requires Sorted(a) && Sorted(b) && multiset(a) == multiset(b) && |a| > 0
    ensures |b| > 0 && a[0] == b[0]
  {
    assert |b| == |multiset(b)| == |a|;
    assert a[0] in multiset(b);
    assert b[0] in multiset(a);
    var j :| 0 <= j < |b| && b[j] == a[0];
    var k :| 0 <= k < |a| && a[k] == b[0];
    if k > 0 { assert Le(a[0], a[k]); } else { LeRefl(a[0]); }
    if j > 0 { assert Le(b[0], b[j]); } else { LeRefl(b[0]); }
    LeAntisymmetric(a[0], b[0]);
  }

  /** Sorting does not depend on the order of its input. */
  lemma SortPermutation(a: seq<string>, b: seq<string>)
    requires multiset(a) == multiset(b)
    ensures Sort(a) == Sort(b)
  {
    SortedUnique(Sort(a), Sort(b));
  }

  /** Sorting a sorted list leaves it as it is. */
  lemma SortSorted(s: seq<string>)
    requires Sorted(s)
    ensures Sort(s) == s
  {
    SortedUnique(Sort(s), s);
  }

  // ---------------------------------------------------------------------------
  // Duplicates

  lemma DuplicateCount(s: seq<string>, i: int, j: int)
    requires 0 <= i < j < |s| && s[i] == s[j]
    ensures multiset(s)[s[i]] >= 2
  {
    assert s == s[..j] + s[j..];
    assert s[i] in s[..j];
    assert s[j] in s[j..];
  }

  lemma {:induction false} NoDupCount(s: seq<string>, x: string)
    requires NoDup(s)
    ensures multiset(s)[x] == if x in s then 1 else 0
  {
    if s != [] {
      var init := s[..|s| - 1];
      assert s == init + [s[|s| - 1]];
      NoDupCount(init, x);
      assert s[|s| - 1] !in init;
    }
  }

  lemma NoDupPermutation(a: seq<string>, b: seq<string>)
    requires NoDup(a) && multiset(a) == multiset(b)
    ensures NoDup(b)
  {
    forall i, j | 0 <= i < j < |b| ensures b[i] != b[j] {
      if b[i] == b[j] {
        DuplicateCount(b, i, j);
        NoDupCount(a, b[i]);
        assert false;
      }
    }
  }

  /** Two duplicate-free lists with the same elements are permutations of each other. */
  lemma NoDupSameElems(a: seq<string>, b: seq<string>)
    requires NoDup(a) && NoDup(b) && Elems(a) == Elems(b)
    ensures multiset(a) == multiset(b)
  {
    forall x ensures multiset(a)[x] == multiset(b)[x] {
      NoDupCount(a, x);
      NoDupCount(b, x);
      assert x in a <==> x in Elems(a);
      assert x in b <==> x in Elems(b);
    }
  }

  /** The list with every repeated element after its first occurrence dropped. */
  function Dedup(s: seq<string>): (r: seq<string>)
    ensures NoDup(r)
    ensures Elems(r) == Elems(s)
  {
    if s == [] then []
    else
      var init := s[..|s| - 1];
      var d := Dedup(init);
      assert s == init + [s[|s| - 1]];
      assert Elems(s) == Elems(init) + {s[|s| - 1]};
      if s[|s| - 1] in d then
        assert s[|s| - 1] in Elems(d);
        d
      else
        assert Elems(d + [s[|s| - 1]]) == Elems(d) + {s[|s| - 1]};
        d + [s[|s| - 1]]
  }

  /**
   * A `util.Set` turned into a list and sorted: the elements of `s`, sorted
   * and each once.
   */
  function SortedSet(s: seq<string>): (r: seq<string>)
    ensures Sorted(r) && NoDup(r) && Elems(r) == Elems(s)
  {
    var d := Dedup(s);
    NoDupPermutation(d, Sort(d));
    assert Elems(Sort(d)) == Elems(d) by {
      forall x ensures x in Sort(d) <==> x in d {
        assert x in Sort(d) <==> x in multiset(Sort(d));
      }
    }
    Sort(d)
  }

  /** A sorted duplicate-free list is determined by its set of elements. */
  lemma SortedSetUnique(r: seq<string>, s: seq<string>)
    requires Sorted(r) && NoDup(r) && Elems(r) == Elems(s)
    ensures r == SortedSet(s)
  {
    NoDupSameElems(r, SortedSet(s));
    SortedUnique(r, SortedSet(s));
  }

  // ---------------------------------------------------------------------------
  // Splitting a list by prefix

  /** The last element of a non-empty list. */
  function Last(s: seq<string>): string
    requires s != []
  {
    s[|s| - 1]
  }

  /** The entries of `s` that start with `c`, with `c` removed, in order. */
  function Stripped(s: seq<string>, c: char): seq<string> {
    if s == [] then []
    else Stripped(s[..|s| - 1], c) + (if StartsWith(Last(s), c) then [Last(s)[1..]] else [])
  }

  /** The entries of `s` that start with none of the characters in `cs`, in order. */
  function Unprefixed(s: seq<string>, cs: set<char>): seq<string> {
    if s == [] then []
    else Unprefixed(s[..|s| - 1], cs) + (if StartsWithAny(Last(s), cs) then [] else [Last(s)])
  }

  /** Every entry of `s` with `c` put in front, in order. */
  function Prefixed(s: seq<string>, c: char): seq<string> {
    if s == [] then []
    else Prefixed(s[..|s| - 1], c) + [[c] + Last(s)]
  }

  /** Stripping `c` is undone by putting it back: strips of distinct sources are distinct. */
  lemma StripInverse(x: string, c: char, y: string)
    ensures (StartsWith(x, c) && x[1..] == y) <==> x == [c] + y
  {
    if StartsWith(x, c) {
      assert x == [x[0]] + x[1..];
    }
  }

  /** `Stripped` keeps every multiplicity: `y` occurs as often as `c + y` did. */
  lemma {:induction false} StrippedCount(s: seq<string>, c: char, y: string)
    ensures multiset(Stripped(s, c))[y] == multiset(s)[[c] + y]
  {
    if s != [] {
      var init := s[..|s| - 1];
      assert s == init + [Last(s)];
      StrippedCount(init, c, y);
      StripInverse(Last(s), c, y);
    }
  }

  /** `Unprefixed` keeps every multiplicity of an entry it keeps, and drops the others. */
  lemma {:induction false} UnprefixedCount(s: seq<string>, cs: set<char>, y: string)
    ensures multiset(Unprefixed(s, cs))[y] == if StartsWithAny(y, cs) then 0 else multiset(s)[y]
  {
    if s != [] {
      var init := s[..|s| - 1];
      assert s == init + [Last(s)];
      UnprefixedCount(init, cs, y);
    }
  }

  /** Every entry of `Prefixed(s, c)` is `c` followed by an entry of `s`, with the same multiplicity. */
  lemma {:induction false} PrefixedCount(s: seq<string>, c: char, x: string)
    ensures multiset(Prefixed(s, c))[x] == if StartsWith(x, c) then multiset(s)[x[1..]] else 0
  {
    if s != [] {
      var init := s[..|s| - 1];
      assert s == init + [Last(s)];
      PrefixedCount(init, c, x);
      StripInverse(x, c, Last(s));
    }
  }

  /** A list whose multiset is empty is empty. */
  lemma EmptyMultiset(s: seq<string>)
    requires forall x :: multiset(s)[x] == 0
    ensures s == []
  {
    assert multiset(s) == multiset{};
    assert |s| == |multiset(s)|;
  }

  // ---------------------------------------------------------------------------
  // First offending entry

  /** The index of the first entry of `s` for which `bad` holds, if any. */
  function FirstWhere(s: seq<string>, bad: string -> bool): (r: Option<nat>)
    ensures r.Some? ==> r.value < |s| && bad(s[r.value])
    ensures r.Some? ==> forall j | 0 <= j < r.value :: !bad(s[j])
    ensures r.None? <==> forall j | 0 <= j < |s| :: !bad(s[j])
  {
    if s == [] then None
    else if bad(s[0]) then Some(0)
    else match FirstWhere(s[1..], bad)
      case None => None
      case Some(i) => Some(i + 1)
  }

  // ---------------------------------------------------------------------------
  // util.Set

  /** `util.Set.UnsafeListOfStrings`: the elements of a set, each once, in no particular order. */
  method UnsafeListOfStrings(s: set<string>) returns (r: seq<string>)
    ensures NoDup(r) && Elems(r) == s
  {
    r := [];
    var rest := s;
    while rest != {}
      invariant rest <= s
      invariant NoDup(r)
      invariant Elems(r) == s - rest
      decreases rest
    {
      var x :| x in rest;
      assert x !in Elems(r);
      assert Elems(r + [x]) == Elems(r) + {x};
      r := r + [x];
      rest := rest - {x};
    }
  }
}
