/**
 * Chord identification by template matching: the mean chroma vector is normalised, every
 * rotation of a binary major and a binary minor triad template is scored by dot product,
 * and the 24 candidates are ranked by rounded score.
 */
module ChordDetection {
  import opened PyNumeric
  import opened Descriptors
  import opened Ranking

  /** A value standing for `np.linalg.norm` of the chroma vector, which is never negative. */
  type NonNegReal = x: real | 0.0 <= x

  /** Added to the norm before dividing, so that a silent (all-zero) chroma is not a division by zero. */
  const Epsilon: real := 0.000001

  const InvalidChroma: string := "Invalid chroma_mean; expected 12 pitch classes"

  /** Pitch classes in chromatic order, starting at C. */
  const PitchClasses: seq<string> := ["C", "C#", "D", "D#", "E", "F", "F#", "G", "G#", "A", "A#", "B"]

  datatype Quality = Major | Minor

  /** The template table in its iteration order: major before minor. */
  const Qualities: seq<Quality> := [Major, Minor]

  function QualityName(q: Quality): string
  {
    match q
    case Major => "major"
    case Minor => "minor"
  }

  /** Root, major third (+4) and perfect fifth (+7). */
  const MajorTemplate: seq<real> := [1.0, 0.0, 0.0, 0.0, 1.0, 0.0, 0.0, 1.0, 0.0, 0.0, 0.0, 0.0]

  /** Root, minor third (+3) and perfect fifth (+7). */
  const MinorTemplate: seq<real> := [1.0, 0.0, 0.0, 1.0, 0.0, 0.0, 0.0, 1.0, 0.0, 0.0, 0.0, 0.0]

  function Template(q: Quality): seq<real>
  {
    match q
    case Major => MajorTemplate
    case Minor => MinorTemplate
  }

  /** The interval of the triad's third above the root, in semitones. */
  function Third(q: Quality): nat
  {
    match q
    case Major => 4
    case Minor => 3
  }

  /** `np.roll(t, shift)`: element `j` of the result is element `j - shift` (cyclically) of `t`. */
  function Roll(t: seq<real>, shift: int): (r: seq<real>)
    ensures |r| == |t|
  {
    seq(|t|, j requires 0 <= j < |t| => t[(j - shift) % |t|])
  }

  /** Rolling by `shift` moves element `j` to position `j + shift`, wrapping around the end. */
  lemma RollMoves(t: seq<real>, shift: int, j: nat)
    requires j < |t|
    ensures Roll(t, shift)[(j + shift) % |t|] == t[j]
  {
    var n := |t|;
    var m := (j + shift) % n;
    var q := (j + shift) / n;
    assert j + shift == q * n + m;
    assert m - shift == j - q * n;
    ModOfShift(j, q, n);
  }

  /** Subtracting whole multiples of `n` leaves a residue unchanged. */
  lemma ModOfShift(j: nat, q: int, n: nat)
    requires j < n
    ensures (j - q * n) % n == j
  {
    var r := (j - q * n) % n;
    var e := (j - q * n) / n + q;
    assert j - r == e * n;
    if e > 0 {
      MultipleAtLeast(e, n);
    }
  }

  lemma {:induction false} MultipleAtLeast(e: nat, n: nat)
    requires e >= 1
    ensures e * n >= n
  {
    if e > 1 {
      MultipleAtLeast(e - 1, n);
      assert e * n == (e - 1) * n + n;
    }
  }

  /** `np.dot` of two vectors of equal length. */
  function Dot(a: seq<real>, b: seq<real>): real
    requires |a| == |b|
  {
    if |a| == 0 then 0.0 else a[0] * b[0] + Dot(a[1..], b[1..])
  }

  /** `chroma / (norm + 1e-6)`, element by element. */
  function Normalize(chroma: seq<real>, norm: NonNegReal): (n: seq<real>)
    ensures |n| == |chroma|
    ensures forall j :: 0 <= j < |n| ==> n[j] * (norm + Epsilon) == chroma[j]
  {
    seq(|chroma|, j requires 0 <= j < |chroma| => chroma[j] / (norm + Epsilon))
  }

  /** The raw score of the triad of quality `q` on `root`: the dot product with the rotated template. */
  function Score(n: seq<real>, root: nat, q: Quality): real
    requires |n| == 12 && root < 12
  {
    Dot(n, Roll(Template(q), root))
  }

  function ChordName(root: nat, q: Quality): string
    requires root < 12
  {
    PitchClasses[root] + " " + QualityName(q)
  }

  function CandidateFor(n: seq<real>, root: nat, q: Quality): Candidate
    requires |n| == 12 && root < 12
  {
    Candidate(ChordName(root, q), Round(Score(n, root, q), 4))
  }

  /** The 24 candidates in the order the nested loop appends them: roots ascending, major before minor. */
  function Candidates(n: seq<real>): (cs: seq<Candidate>)
    requires |n| == 12
    ensures |cs| == 24
  {
    seq(24, k requires 0 <= k < 24 => CandidateFor(n, k / 2, Qualities[k % 2]))
  }

  lemma CandidatesGrow(n: seq<real>, root: nat, t: nat)
    requires |n| == 12 && root < 12 && t < 2
    ensures Candidates(n)[..2 * root + t + 1]
         == Candidates(n)[..2 * root + t] + [CandidateFor(n, root, Qualities[t])]
  {
    CandidateAt(n, root, t);
    PrefixGrows(Candidates(n), 2 * root + t);
  }

  lemma PrefixGrows(s: seq<Candidate>, k: nat)
    requires k < |s|
    ensures s[..k + 1] == s[..k] + [s[k]]
  {
  }

  /** All 24 candidates for `chroma`, ranked as the detector ranks them. */
  function Ranked(chroma: seq<real>, norm: NonNegReal): (r: seq<Candidate>)
    requires |chroma| == 12
    ensures |r| == 24
  {
    SortDesc(Candidates(Normalize(chroma, norm)))
  }

  /** The chord stage's result record: an error record, or the best chord and the top five. */
  datatype ChordResult =
    | ChordError(error: string)
    | Chords(topChord: Candidate, alternatives: seq<Candidate>)

  /** What `detect_chords` returns for the descriptor bag `f`, `norm` being the chroma vector's norm. */
  function ChordsFor(f: Features, norm: NonNegReal): ChordResult
  {
    var chroma := f.Chroma();
    if |chroma| != 12 then ChordError(InvalidChroma)
    else
      var ranked := Ranked(chroma, norm);
      Chords(ranked[0], ranked[..5])
  }

  /**
   * `detect_chords`: scores every rotation of both templates in a nested loop, appending each
   * candidate to a list, sorts the list in place and reports its head and its first five entries.
   */
  method DetectChords(f: Features, norm: NonNegReal) returns (r: ChordResult)
    ensures r == ChordsFor(f, norm)
    ensures r.ChordError? <==> |f.Chroma()| != 12
    ensures r.Chords? ==> |r.alternatives| == 5 && r.topChord == r.alternatives[0]
  {
    var chroma := f.Chroma();
    if |chroma| != 12 {
      return ChordError(InvalidChroma);
    }
    var n := Normalize(chroma, norm);
    ghost var all := Candidates(n);
    var detected: seq<Candidate> := [];
    for root := 0 to 12
      invariant detected == all[..2 * root]
    {
      for t := 0 to |Qualities|
        invariant detected == all[..2 * root + t]
      {
        var q := Qualities[t];
        var rotated := Roll(Template(q), root);
        var confidence := Dot(n, rotated);
        CandidatesGrow(n, root, t);
        detected := detected + [Candidate(ChordName(root, q), Round(confidence, 4))];
      }
    }
    assert detected == all;
    var ranked := new Candidate[24](k requires 0 <= k < 24 => detected[k]);
    assert ranked[..] == detected;
    SortByConfidence(ranked);
    r := Chords(ranked[0], ranked[..5]);
  }

  /** The template of quality `q` has ones exactly at the root, the third and the fifth. */
  lemma TemplateAt(q: Quality, k: nat)
    requires k < 12
    ensures Template(q)[k] == if k == 0 || k == Third(q) || k == 7 then 1.0 else 0.0
  {
    if k == 0 {} else if k == 1 {} else if k == 2 {} else if k == 3 {} else if k == 4 {}
    else if k == 5 {} else if k == 6 {} else if k == 7 {} else if k == 8 {} else if k == 9 {}
    else if k == 10 {} else {}
  }

  /**
   * Rotating a template to `root` puts its ones exactly at the root, the third above it and the
   * fifth above it, counted modulo 12.
   */
  lemma RolledTemplateAt(q: Quality, root: nat, j: nat)
    requires root < 12 && j < 12
    ensures Roll(Template(q), root)[j]
         == if j == root || j == (root + Third(q)) % 12 || j == (root + 7) % 12 then 1.0 else 0.0
  {
    var k := (j - root) % 12;
    TemplateAt(q, k);
    assert k == 0 <==> j == root;
    assert k == Third(q) <==> j == (root + Third(q)) % 12;
    assert k == 7 <==> j == (root + 7) % 12;
  }

  /** The indicator vector of position `p`. */
  function Unit(len: nat, p: int): (u: seq<real>)
    ensures |u| == len
  {
    seq(len, j requires 0 <= j < len => if j == p then 1.0 else 0.0)
  }

  function Add(u: seq<real>, v: seq<real>): (w: seq<real>)
    requires |u| == |v|
    ensures |w| == |u|
  {
    seq(|u|, j requires 0 <= j < |u| => u[j] + v[j])
  }

  /** A dot product with an indicator vector picks out one element. */
  lemma {:induction false} DotUnit(a: seq<real>, p: int)
    ensures Dot(a, Unit(|a|, p)) == if 0 <= p < |a| then a[p] else 0.0
    decreases |a|
  {
    if |a| > 0 {
      assert Unit(|a|, p)[1..] == Unit(|a| - 1, p - 1);
      DotUnit(a[1..], p - 1);
    }
  }

  /** The dot product is additive in its second argument. */
  lemma {:induction false} DotAdd(a: seq<real>, u: seq<real>, v: seq<real>)
    requires |a| == |u| == |v|
    ensures Dot(a, Add(u, v)) == Dot(a, u) + Dot(a, v)
    decreases |a|
  {
    if |a| > 0 {
      assert Add(u, v)[1..] == Add(u[1..], v[1..]);
      DotAdd(a[1..], u[1..], v[1..]);
      assert a[0] * (u[0] + v[0]) == a[0] * u[0] + a[0] * v[0];
    }
  }

  /** The sum of the chroma bins at a root, the given interval above it, and its fifth. */
  function TriadSum(n: seq<real>, root: nat, third: nat): real
    requires |n| == 12 && root < 12
  {
    n[root] + n[(root + third) % 12] + n[(root + 7) % 12]
  }

  /** A candidate's raw score is the sum of the three chroma bins its triad covers. */
  lemma ScoreIsTriadSum(n: seq<real>, root: nat, q: Quality)
    requires |n| == 12 && root < 12
    ensures Score(n, root, q) == TriadSum(n, root, Third(q))
  {
    var third, fifth := (root + Third(q)) % 12, (root + 7) % 12;
    var rolled := Roll(Template(q), root);
    var units := Add(Add(Unit(12, root), Unit(12, third)), Unit(12, fifth));
    forall j | 0 <= j < 12
      ensures rolled[j] == units[j]
    {
      RolledTemplateAt(q, root, j);
    }
    assert rolled == units;
    DotAdd(n, Add(Unit(12, root), Unit(12, third)), Unit(12, fifth));
    DotAdd(n, Unit(12, root), Unit(12, third));
    DotUnit(n, root);
    DotUnit(n, third);
    DotUnit(n, fifth);
  }

  /** A candidate's confidence is its triad sum rounded to four decimals. */
  lemma CandidateConfidence(n: seq<real>, root: nat, t: nat, k: nat, third: nat)
    requires |n| == 12 && root < 12 && t < 2 && k == 2 * root + t && third == Third(Qualities[t])
    ensures Candidates(n)[k].confidence
         == Round(TriadSum(n, root, third), 4)
  {
    CandidateAt(n, root, t);
    ScoreIsTriadSum(n, root, Qualities[t]);
    RoundedSum(Candidates(n)[k].confidence, Score(n, root, Qualities[t]),
               TriadSum(n, root, third));
  }

  /** A candidate is named by its root and its quality. */
  lemma CandidateName(n: seq<real>, root: nat, t: nat, suffix: string)
    requires |n| == 12 && root < 12 && t < 2 && suffix == " " + QualityName(Qualities[t])
    ensures Candidates(n)[2 * root + t].chord == PitchClasses[root] + suffix
  {
    CandidateAt(n, root, t);
  }

  lemma RoundedSum(confidence: real, score: real, sum: real)
    requires confidence == Round(score, 4) && score == sum
    ensures confidence == Round(sum, 4)
  {
  }

  /**
   * The enumeration: for each root, in chromatic order from C, the major candidate and then
   * the minor one, named "<root> major" / "<root> minor" and scored by the rounded triad sum.
   */
  lemma CandidatesEnumeration(n: seq<real>, root: nat)
    requires |n| == 12 && root < 12
    ensures Candidates(n)[2 * root].chord == PitchClasses[root] + " major"
    ensures Candidates(n)[2 * root].confidence == Round(TriadSum(n, root, 4), 4)
    ensures Candidates(n)[2 * root + 1].chord == PitchClasses[root] + " minor"
    ensures Candidates(n)[2 * root + 1].confidence == Round(TriadSum(n, root, 3), 4)
  {
    CandidateName(n, root, 0, " major");
    CandidateName(n, root, 1, " minor");
    CandidateConfidence(n, root, 0, 2 * root, 4);
    CandidateConfidence(n, root, 1, 2 * root + 1, 3);
  }

  lemma CandidateAt(n: seq<real>, root: nat, t: nat)
    requires |n| == 12 && root < 12 && t < 2
    ensures Candidates(n)[2 * root + t] == CandidateFor(n, root, Qualities[t])
  {
    var k := 2 * root + t;
    assert k / 2 == root && k % 2 == t;
  }

  /** The sum of the squares of the first `k` entries of `v`. */
  function SumSquaresTo(v: seq<real>, k: nat): (s: real)
    requires k <= |v|
    ensures s >= 0.0
  {
    if k == 0 then 0.0 else SumSquaresTo(v, k - 1) + v[k - 1] * v[k - 1]
  }

  /** `norm` is what `np.linalg.norm(v)` computes: the non-negative square root of the sum of squares. */
  predicate IsEuclideanNorm(v: seq<real>, norm: real)
  {
    norm >= 0.0 && norm * norm == SumSquaresTo(v, |v|)
  }

  lemma {:induction false} SquareAtMostSum(v: seq<real>, j: nat, k: nat)
    requires j < k <= |v|
    ensures v[j] * v[j] <= SumSquaresTo(v, k)
  {
    if j < k - 1 {
      SquareAtMostSum(v, j, k - 1);
    }
    assert v[k - 1] * v[k - 1] >= 0.0;
  }

  lemma SquareMonotone(a: real, b: real)
    requires b >= 0.0
    ensures a > b ==> a * a > b * b
  {
    if a > b {
      assert (a - b) * a > 0.0;
      assert (a - b) * b >= 0.0;
    }
  }

  /** No entry of a vector exceeds its Euclidean norm. */
  lemma BinBelowNorm(v: seq<real>, norm: real, j: nat)
    requires IsEuclideanNorm(v, norm) && j < |v|
    ensures v[j] <= norm
  {
    SquareAtMostSum(v, j, |v|);
    SquareMonotone(v[j], norm);
  }

  /** A bin between 0 and the norm normalises to a value in [0, 1). */
  lemma NormalizedBinBounds(chroma: seq<real>, norm: NonNegReal, j: nat)
    requires j < |chroma| && 0.0 <= chroma[j] <= norm
    ensures 0.0 <= Normalize(chroma, norm)[j] < 1.0
  {
    var p := norm + Epsilon;
    DivMonotone(0.0, chroma[j], p);
    DivMonotone(chroma[j], norm, p);
    assert norm / p < 1.0;
  }

  /** A sum of three bins of [0, 1) rounds to a value of [0, 3]. */
  lemma RoundedTriadBounds(n: seq<real>, root: nat, third: nat)
    requires |n| == 12 && root < 12
    requires forall j :: 0 <= j < 12 ==> 0.0 <= n[j] < 1.0
    ensures 0.0 <= Round(TriadSum(n, root, third), 4) <= 3.0
  {
    var sum := TriadSum(n, root, third);
    assert 0.0 <= sum <= 3.0;
    RoundMonotone(0.0, sum, 4);
    RoundMonotone(sum, 3.0, 4);
    RoundKeepsGridValue(0.0, 4);
    RoundKeepsGridValue(3.0, 4);
  }

  /**
   * When `norm` is the chroma vector's Euclidean norm and no bin is negative, every candidate's
   * confidence lies in [0, 3]: it is a rounded sum of three normalised bins, each in [0, 1).
   */
  lemma ConfidenceBounds(chroma: seq<real>, norm: NonNegReal, root: nat, t: nat)
    requires |chroma| == 12 && root < 12 && t < 2
    requires IsEuclideanNorm(chroma, norm)
    requires forall j :: 0 <= j < 12 ==> 0.0 <= chroma[j]
    ensures 0.0 <= Candidates(Normalize(chroma, norm))[2 * root + t].confidence <= 3.0
  {
    var n := Normalize(chroma, norm);
    forall j | 0 <= j < 12
      ensures 0.0 <= n[j] < 1.0
    {
      BinBelowNorm(chroma, norm, j);
      NormalizedBinBounds(chroma, norm, j);
    }
    CandidateConfidence(n, root, t, 2 * root + t, Third(Qualities[t]));
    RoundedTriadBounds(n, root, Third(Qualities[t]));
  }

  /** A C-major-shaped chroma vector: 2, 1 and 2 on C, E and G, nothing elsewhere. */
  const TriadChroma: seq<real> := [2.0, 0.0, 0.0, 0.0, 1.0, 0.0, 0.0, 2.0, 0.0, 0.0, 0.0, 0.0]

  /** Its Euclidean norm is 3, since 4 + 1 + 4 = 9. */
  lemma TriadChromaNorm()
    ensures IsEuclideanNorm(TriadChroma, 3.0)
  {
    var v := TriadChroma;
    assert SumSquaresTo(v, 1) == 4.0;
    assert SumSquaresTo(v, 4) == 4.0;
    assert SumSquaresTo(v, 5) == 5.0;
    assert SumSquaresTo(v, 7) == 5.0;
    assert SumSquaresTo(v, 8) == 9.0;
    assert SumSquaresTo(v, 12) == 9.0;
  }

  /** A C-major triad sum of at least 1.6 gives "C major" a confidence above 1. */
  lemma CMajorAboveOne(n: seq<real>)
    requires |n| == 12 && n[0] + n[4] + n[7] >= 1.6
    ensures Candidates(n)[0].chord == "C major"
    ensures Candidates(n)[0].confidence > 1.0
  {
    CandidatesEnumeration(n, 0);
    RoundedAboveOne(TriadSum(n, 0, 4));
  }

  lemma RoundedAboveOne(x: real)
    requires x >= 1.6
    ensures Round(x, 4) > 1.0
  {
    RoundMonotone(1.6, x, 4);
    RoundKeepsGridValue(1.6, 4);
  }

  /**
   * A confidence above 1 does occur: for that chroma vector and its Euclidean norm, "C major"
   * scores about 5/3. This is why the performance score clamps the confidence.
   */
  lemma ConfidenceCanExceedOne()
    ensures IsEuclideanNorm(TriadChroma, 3.0)
    ensures Candidates(Normalize(TriadChroma, 3.0))[0].chord == "C major"
    ensures Candidates(Normalize(TriadChroma, 3.0))[0].confidence > 1.0
  {
    TriadChromaNorm();
    var n := Normalize(TriadChroma, 3.0);
    assert TriadChroma[0] == 2.0 && TriadChroma[4] == 1.0 && TriadChroma[7] == 2.0;
    assert n[0] + n[4] + n[7] == 5.0 / 3.000001;
    CMajorAboveOne(n);
  }

  /**
   * The ranking is the stable descending sort of the enumeration: ordered by non-increasing
   * confidence, the same 24 candidates, and candidates of equal confidence in enumeration order.
   */
  lemma RankedIsStableSort(chroma: seq<real>, norm: NonNegReal)
    requires |chroma| == 12
    ensures SortedDesc(Ranked(chroma, norm))
    ensures multiset(Ranked(chroma, norm)) == multiset(Candidates(Normalize(chroma, norm)))
    ensures forall c :: WithConfidence(Ranked(chroma, norm), c)
                     == WithConfidence(Candidates(Normalize(chroma, norm)), c)
  {
    var cs := Candidates(Normalize(chroma, norm));
    SortDescIsSorted(cs);
    SortDescPermutes(cs);
    forall c
      ensures WithConfidence(Ranked(chroma, norm), c) == WithConfidence(cs, c)
    {
      SortDescIsStable(cs, c);
    }
  }

  /**
   * For a 12-bin chroma the detector reports a top chord that is one of the 24 candidates and
   * that no candidate outranks, and the first five ranked candidates as alternatives, in order.
   */
  lemma TopChordIsBest(f: Features, norm: NonNegReal)
    requires |f.Chroma()| == 12
    ensures ChordsFor(f, norm).Chords?
    ensures ChordsFor(f, norm).topChord in Candidates(Normalize(f.Chroma(), norm))
    ensures forall c :: c in Candidates(Normalize(f.Chroma(), norm))
                    ==> c.confidence <= ChordsFor(f, norm).topChord.confidence
    ensures ChordsFor(f, norm).alternatives == Ranked(f.Chroma(), norm)[..5]
    ensures SortedDesc(ChordsFor(f, norm).alternatives)
  {
    var cs := Candidates(Normalize(f.Chroma(), norm));
    SortDescFirstIsMaximal(cs);
    SortDescIsSorted(cs);
  }
}
