/** Facts about sequences and their multisets that the task model relies on. */
module Sequences {

  /** No value occurs twice in `s`. */
  predicate NoDuplicates<T(==)>(s: seq<T>) {
    forall i, j :: 0 <= i < j < |s| ==> s[i] != s[j]
  }

  /** Two sequences hold the same elements with the same multiplicities. */
  predicate IsPermutation<T(==)>(a: seq<T>, b: seq<T>) {
    multiset(a) == multiset(b)
  }

  /** In a duplicate-free sequence every value occurs at most once. */
  lemma {:induction false} NoDuplicatesCountsAtMostOne<T>(s: seq<T>, x: T)
    requires NoDuplicates(s)
    ensures multiset(s)[x] <= 1
    decreases |s|
  {
    if s != [] {
      assert s == [s[0]] + s[1..];
      assert NoDuplicates(s[1..]) by {
        forall i, j | 0 <= i < j < |s[1..]|
          ensures s[1..][i] != s[1..][j]
        {
          assert s[1..][i] == s[i + 1] && s[1..][j] == s[j + 1];
        }
      }
      NoDuplicatesCountsAtMostOne(s[1..], x);
      if x == s[0] {
        assert x !in s[1..] by {
          forall k | 0 <= k < |s[1..]|
            ensures s[1..][k] != x
          {
            assert s[1..][k] == s[k + 1];
          }
        }
        assert multiset(s[1..])[x] == 0;
      }
      assert multiset(s) == multiset{s[0]} + multiset(s[1..]);
    }
  }

  /** A value found at two distinct positions occurs at least twice. */
  lemma RepeatedValueCountsTwice<T>(s: seq<T>, i: int, j: int)
    requires 0 <= i < j < |s| && s[i] == s[j]
    ensures multiset(s)[s[i]] >= 2
  {
    var x := s[i];
    assert s == s[..i] + [x] + s[i + 1..j] + [x] + s[j + 1..];
    assert multiset(s)
      == multiset(s[..i]) + multiset{x} + multiset(s[i + 1..j]) + multiset{x} + multiset(s[j + 1..]);
  }

  /** Being duplicate-free depends only on the multiset of a sequence. */
  lemma PermutationKeepsNoDuplicates<T>(a: seq<T>, b: seq<T>)
    requires IsPermutation(a, b) && NoDuplicates(a)
    ensures NoDuplicates(b)
  {
    forall i, j | 0 <= i < j < |b|
      ensures b[i] != b[j]
    {
      if b[i] == b[j] {
        RepeatedValueCountsTwice(b, i, j);
        NoDuplicatesCountsAtMostOne(a, b[i]);
        assert false;
      }
    }
  }
}
