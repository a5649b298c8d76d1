/** Facts about finite sequences that several components share. */
module Collections {

  predicate Distinct<T(==)>(s: seq<T>) {
    forall i, j :: 0 <= i < j < |s| ==> s[i] != s[j]
  }

  lemma ConcatAssociative<T>(a: seq<T>, b: seq<T>, c: seq<T>)
    ensures a + b + c == a + (b + c)
  {
  }

  function Elements<T(!new)>(s: seq<T>): set<T> {
    set x | x in s
  }

  lemma {:induction false} DistinctCount<T(!new)>(s: seq<T>)
    requires Distinct(s)
    ensures |Elements(s)| == |s|
  {
    if s != [] {
      var init, last := s[..|s| - 1], s[|s| - 1];
      DistinctCount(init);
      assert Elements(s) == Elements(init) + {last};
    }
  }

  lemma SubsetOfSameSize<T>(a: set<T>, b: set<T>)
    requires a <= b && |a| == |b|
    ensures a == b
  {
    assert |b - a| == |b| - |a|;
  }

  lemma {:induction false} DistinctMultiplicity<T>(s: seq<T>, x: T)
    requires Distinct(s)
    ensures multiset(s)[x] == if x in s then 1 else 0
  {
    if s != [] {
      var init, last := s[..|s| - 1], s[|s| - 1];
      DistinctMultiplicity(init, x);
      assert s == init + [last];
    }
  }

  /** Pigeonhole: as many distinct answer keys as distinct request keys, all of them known, are all
      of them. */
  lemma KnownKeysAreAllKeys<T(!new)>(known: seq<T>, given: seq<T>)
    requires Distinct(known) && Distinct(given) && |known| == |given|
    requires forall x :: x in given ==> x in known
    ensures Elements(given) == Elements(known) && multiset(given) == multiset(known)
  {
    DistinctCount(known);
    DistinctCount(given);
    SubsetOfSameSize(Elements(given), Elements(known));
    forall x ensures multiset(given)[x] == multiset(known)[x] {
      DistinctMultiplicity(known, x);
      DistinctMultiplicity(given, x);
      assert x in given <==> x in Elements(given);
      assert x in known <==> x in Elements(known);
    }
  }

  /** Equal key multisets carry over distinctness and length. */
  lemma {:induction false} SameMultisetDistinct<T>(known: seq<T>, given: seq<T>)
    requires Distinct(known) && multiset(known) == multiset(given)
    ensures Distinct(given) && |known| == |given| && forall x :: x in given ==> x in known
  {
    assert |known| == |multiset(known)| == |multiset(given)| == |given|;
    forall x | x in given ensures x in known {
      assert x in multiset(given);
    }
    forall i, j | 0 <= i < j < |given|
      ensures given[i] != given[j]
    {
      DistinctMultiplicity(known, given[i]);
      if given[i] == given[j] {
        TwiceMeansTwo(given, i, j);
      }
    }
  }

  lemma TwiceMeansTwo<T>(s: seq<T>, i: nat, j: nat)
    requires i < j < |s| && s[i] == s[j]
    ensures multiset(s)[s[i]] >= 2
  {
    assert s == s[..j] + [s[j]] + s[j + 1..];
    assert s[i] in s[..j];
  }
}
