/**
 * Chord candidates and their ranking: `list.sort(key=confidence, reverse=True)`, a stable
 * sort by non-increasing confidence, run in place on the candidate list.
 */
module Ranking {

  /** One chord hypothesis: its name and its (rounded) template score. */
  datatype Candidate = Candidate(chord: string, confidence: real)

  ghost predicate SortedDesc(s: seq<Candidate>)
  {
    forall i, j :: 0 <= i < j < |s| ==> s[i].confidence >= s[j].confidence
  }

  /** The candidates of `s` whose confidence is exactly `c`, in their order in `s`. */
  function WithConfidence(s: seq<Candidate>, c: real): seq<Candidate>
  {
    if s == [] then []
    else WithConfidence(s[..|s| - 1], c) + (if s[|s| - 1].confidence == c then [s[|s| - 1]] else [])
  }

  /**
   * Where a stable descending insertion puts `x` into `s`: just after the last element,
   * counted from the end, whose confidence is not below that of `x`.
   */
  function InsertPos(s: seq<Candidate>, x: Candidate): (p: nat)
    ensures p <= |s|
    ensures forall k :: p <= k < |s| ==> s[k].confidence < x.confidence
    ensures p > 0 ==> s[p - 1].confidence >= x.confidence
  {
    if s == [] || s[|s| - 1].confidence >= x.confidence then |s|
    else InsertPos(s[..|s| - 1], x)
  }

  function InsertAfterTies(s: seq<Candidate>, x: Candidate): (r: seq<Candidate>)
    ensures |r| == |s| + 1
  {
    var p := InsertPos(s, x);
    s[..p] + [x] + s[p..]
  }

  /** The reference stable sort by non-increasing confidence. */
  function SortDesc(s: seq<Candidate>): (r: seq<Candidate>)
    ensures |r| == |s|
  {
    if s == [] then []
    else InsertAfterTies(SortDesc(s[..|s| - 1]), s[|s| - 1])
  }

  lemma InsertAfterTiesPermutes(s: seq<Candidate>, x: Candidate)
    ensures multiset(InsertAfterTies(s, x)) == multiset(s) + multiset{x}
  {
    var p := InsertPos(s, x);
    assert s == s[..p] + s[p..];
  }

  /** The reference sort rearranges its input: same candidates, same multiplicities. */
  lemma {:induction false} SortDescPermutes(s: seq<Candidate>)
    ensures multiset(SortDesc(s)) == multiset(s)
  {
    if s != [] {
      var init := s[..|s| - 1];
      assert s == init + [s[|s| - 1]];
      SortDescPermutes(init);
      InsertAfterTiesPermutes(SortDesc(init), s[|s| - 1]);
    }
  }

  lemma {:induction false} WithConfidenceAppend(a: seq<Candidate>, b: seq<Candidate>, c: real)
    ensures WithConfidence(a + b, c) == WithConfidence(a, c) + WithConfidence(b, c)
    decreases |b|
  {
    if b == [] {
      assert a + b == a;
    } else {
      var b' := b[..|b| - 1];
      assert (a + b)[..|a + b| - 1] == a + b';
      WithConfidenceAppend(a, b', c);
    }
  }

  lemma {:induction false} WithConfidenceAllBelow(s: seq<Candidate>, c: real)
    requires forall k :: 0 <= k < |s| ==> s[k].confidence < c
    ensures WithConfidence(s, c) == []
  {
    if s != [] {
      WithConfidenceAllBelow(s[..|s| - 1], c);
    }
  }

  lemma InsertAfterTiesKeepsSorted(s: seq<Candidate>, x: Candidate)
    requires SortedDesc(s)
    ensures SortedDesc(InsertAfterTies(s, x))
  {
    var p := InsertPos(s, x);
    var r := InsertAfterTies(s, x);
    forall i, j | 0 <= i < j < |r|
      ensures r[i].confidence >= r[j].confidence
    {
      if i < p && j == p {
        assert r[i] == s[i];
        assert s[i].confidence >= s[p - 1].confidence;
      } else if i < p && j > p {
        assert r[i] == s[i] && r[j] == s[j - 1];
      } else if i < p {
        assert r[i] == s[i] && r[j] == s[j];
      } else if i == p {
        assert r[j] == s[j - 1];
      } else {
        assert r[i] == s[i - 1] && r[j] == s[j - 1];
      }
    }
  }

  lemma InsertAfterTiesStable(s: seq<Candidate>, x: Candidate, c: real)
    ensures WithConfidence(InsertAfterTies(s, x), c)
         == WithConfidence(s, c) + (if x.confidence == c then [x] else [])
  {
    var p := InsertPos(s, x);
    assert s == s[..p] + s[p..];
    WithConfidenceAroundInsert(s[..p], s[p..], x, c);
  }

  lemma WithConfidenceAroundInsert(pre: seq<Candidate>, post: seq<Candidate>, x: Candidate, c: real)
    requires forall k :: 0 <= k < |post| ==> post[k].confidence < x.confidence
    ensures WithConfidence(pre + [x] + post, c)
         == WithConfidence(pre + post, c) + (if x.confidence == c then [x] else [])
  {
    var single := if x.confidence == c then [x] else [];
    assert WithConfidence([x], c) == single by {
      assert [x][..0] == [];
    }
    calc {
      WithConfidence(pre + [x] + post, c);
      { WithConfidenceAppend(pre + [x], post, c); }
      WithConfidence(pre + [x], c) + WithConfidence(post, c);
      { WithConfidenceAppend(pre, [x], c); }
      WithConfidence(pre, c) + single + WithConfidence(post, c);
    }
    WithConfidenceAppend(pre, post, c);
    if x.confidence == c {
      WithConfidenceAllBelow(post, c);
    }
  }

  /** The reference sort orders candidates by non-increasing confidence. */
  lemma {:induction false} SortDescIsSorted(s: seq<Candidate>)
    ensures SortedDesc(SortDesc(s))
  {
    if s != [] {
      SortDescIsSorted(s[..|s| - 1]);
      InsertAfterTiesKeepsSorted(SortDesc(s[..|s| - 1]), s[|s| - 1]);
    }
  }

  /**
   * The reference sort is stable: the candidates sharing any one confidence value keep
   * their relative order.
   */
  lemma {:induction false} SortDescIsStable(s: seq<Candidate>, c: real)
    ensures WithConfidence(SortDesc(s), c) == WithConfidence(s, c)
  {
    if s != [] {
      SortDescIsStable(s[..|s| - 1], c);
      InsertAfterTiesStable(SortDesc(s[..|s| - 1]), s[|s| - 1], c);
    }
  }

  /** The first candidate after sorting is one of the inputs and no input outranks it. */
  lemma SortDescFirstIsMaximal(s: seq<Candidate>)
    requires |s| > 0
    ensures SortDesc(s)[0] in s
    ensures forall x :: x in s ==> x.confidence <= SortDesc(s)[0].confidence
  {
    var r := SortDesc(s);
    SortDescPermutes(s);
    assert r[0] in multiset(s);
    SortDescIsSorted(s);
    forall x | x in s
      ensures x.confidence <= r[0].confidence
    {
      assert x in multiset(r);
      var k :| 0 <= k < |r| && r[k] == x;
      SortedFirst(r, k);
    }
  }

  lemma SortedFirst(r: seq<Candidate>, k: nat)
    requires SortedDesc(r) && k < |r|
    ensures r[k].confidence <= r[0].confidence
  {
    if k > 0 {
      assert r[0].confidence >= r[k].confidence;
    }
  }

  /**
   * Sorts the candidate list in place, as `list.sort` does: by non-increasing confidence,
   * keeping the original order among equal confidences.
   */
  method SortByConfidence(a: array<Candidate>)
    modifies a
    ensures a[..] == SortDesc(old(a[..]))
  {
    ghost var original := a[..];
    var i := 0;
    while i < a.Length
      invariant 0 <= i <= a.Length
      invariant a[..i] == SortDesc(original[..i])
      invariant forall k :: i <= k < a.Length ==> a[k] == original[k]
    {
      label before:
      InsertNext(a, i);
      SortDescStep(original, i);
      assert old@before(a[i]) == original[i];
      i := i + 1;
    }
    assert a[..] == a[..a.Length] && original == original[..a.Length];
  }

  lemma SortDescStep(s: seq<Candidate>, i: nat)
    requires i < |s|
    ensures SortDesc(s[..i + 1]) == InsertAfterTies(SortDesc(s[..i]), s[i])
  {
    assert s[..i + 1][..i] == s[..i];
  }

  /** The insertion point is the only index with smaller-confidence elements after it and a not-smaller one just before. */
  lemma {:induction false} InsertPosUnique(s: seq<Candidate>, x: Candidate, j: nat)
    requires j <= |s|
    requires forall k :: j <= k < |s| ==> s[k].confidence < x.confidence
    requires j == 0 || s[j - 1].confidence >= x.confidence
    ensures InsertPos(s, x) == j
    decreases |s|
  {
    if |s| > j {
      var s' := s[..|s| - 1];
      InsertPosUnique(s', x, j);
    }
  }

  /**
   * One step of the insertion sort: `a[..i]` is already ranked; `a[i]` moves back past every
   * element of strictly lower confidence, so it lands after its ties.
   */
  method InsertNext(a: array<Candidate>, i: nat)
    requires i < a.Length
    modifies a
    ensures a[..i + 1] == InsertAfterTies(old(a[..i]), old(a[i]))
    ensures forall k :: i < k < a.Length ==> a[k] == old(a[k])
  {
    var x := a[i];
    ghost var sorted := a[..i];
    var j := i;
    while j > 0 && a[j - 1].confidence < x.confidence
      invariant 0 <= j <= i
      invariant forall k :: j <= k < i ==> sorted[k].confidence < x.confidence
      invariant forall k {:trigger a[k]} :: 0 <= k < j ==> a[k] == sorted[k]
      invariant forall k {:trigger a[k]} :: j < k <= i ==> a[k] == sorted[k - 1]
      invariant forall k :: i < k < a.Length ==> a[k] == old(a[k])
    {
      a[j] := a[j - 1];
      j := j - 1;
    }
    InsertPosUnique(sorted, x, j);
    a[j] := x;
    ghost var inserted := sorted[..j] + [x] + sorted[j..];
    assert forall k :: 0 <= k <= i ==> a[k] == inserted[k];
    assert a[..i + 1] == inserted;
    assert InsertAfterTies(sorted, x) == inserted;
  }
}
