/** `sortMatchesByConfidence`: the in-place exchange sort of the matches, highest confidence first. */
module Sorting {
  import opened Resources

  /** Confidences never increase from left to right. */
  predicate NonIncreasing(s: seq<Match>) {
    forall p, q :: 0 <= p < q < |s| ==> s[p].confidence >= s[q].confidence
  }

  /** Every match before `i` scores at least as high as every match from `i` on. */
  predicate Separated(s: seq<Match>, i: int) {
    forall p, q :: 0 <= p < i <= q < |s| ==> s[p].confidence >= s[q].confidence
  }

  /** `a[i]` scores at least as high as every match in `a[i + 1..j]`. */
  predicate Leads(s: seq<Match>, i: int, j: int)
    requires 0 <= i < |s| && j <= |s|
  {
    forall q :: i < q < j ==> s[i].confidence >= s[q].confidence
  }

  /** Exchanging two positions permutes the sequence. */
  lemma {:induction false} SwapPermutes(s: seq<Match>, i: int, j: int)
    requires 0 <= i < j < |s|
    ensures multiset(s[i := s[j]][j := s[i]]) == multiset(s)
  {
    var t := s[i := s[j]][j := s[i]];
    assert s == s[..i] + [s[i]] + s[i + 1..j] + [s[j]] + s[j + 1..];
    assert t == s[..i] + [s[j]] + s[i + 1..j] + [s[i]] + s[j + 1..];
  }

  /** An exchange at or after `i` keeps every match before `i` ahead of the rest. */
  lemma {:induction false} SwapKeepsSeparated(s: seq<Match>, i: int, j: int)
    requires 0 <= i < j < |s| && Separated(s, i)
    ensures Separated(s[i := s[j]][j := s[i]], i)
  {
    var t := s[i := s[j]][j := s[i]];
    forall p, q | 0 <= p < i <= q < |t| ensures t[p].confidence >= t[q].confidence {
      assert t[p] == s[p];
      if q == i {
        assert t[q] == s[j];
      } else if q == j {
        assert t[q] == s[i];
      } else {
        assert t[q] == s[q];
      }
    }
  }

  /** The inner pass: afterwards `a[i]` is a highest-scoring match of `a[i..]`. */
  method PassFrom(a: array<Match>, i: int)
    requires 0 <= i < a.Length && Separated(a[..], i)
    modifies a
    ensures Separated(a[..], i) && Leads(a[..], i, a.Length)
    ensures a[..i] == old(a[..i])
    ensures multiset(a[..]) == multiset(old(a[..]))
  {
    for j := i + 1 to a.Length
      invariant Separated(a[..], i) && Leads(a[..], i, j)
      invariant a[..i] == old(a[..i])
      invariant multiset(a[..]) == multiset(old(a[..]))
    {
      if a[i].confidence < a[j].confidence {
        ghost var s := a[..];
        SwapPermutes(s, i, j);
        SwapKeepsSeparated(s, i, j);
        a[i], a[j] := a[j], a[i];
        assert a[..] == s[i := s[j]][j := s[i]];
      }
    }
  }

  /**
   * For each `i`, compares `a[i]` with every later match and exchanges the two
   * whenever the later one scores higher.
   */
  method SortMatchesByConfidence(a: array<Match>)
    modifies a
    ensures NonIncreasing(a[..])
    ensures multiset(a[..]) == multiset(old(a[..]))
  {
    var n := a.Length;
    for i := 0 to n
      invariant NonIncreasing(a[..i])
      invariant Separated(a[..], i)
      invariant multiset(a[..]) == multiset(old(a[..]))
    {
      ghost var before := a[..];
      PassFrom(a, i);
      assert a[..i] == before[..i];
      assert NonIncreasing(a[..i + 1]) by {
        ghost var t := a[..i + 1];
        forall p, q | 0 <= p < q < i + 1 ensures t[p].confidence >= t[q].confidence {
          if q < i {
            assert t[p] == a[..i][p] && t[q] == a[..i][q];
          }
        }
      }
    }
    assert a[..n] == a[..];
  }

  /** Sorts a copy of `ms` in a fresh array, as the Go slice is sorted in place. */
  method SortedCopy(ms: seq<Match>) returns (sorted: seq<Match>)
    ensures NonIncreasing(sorted)
    ensures multiset(sorted) == multiset(ms)
  {
    var a := new Match[|ms|](k requires 0 <= k < |ms| => ms[k]);
    assert a[..] == ms;
    SortMatchesByConfidence(a);
    sorted := a[..];
  }
}
