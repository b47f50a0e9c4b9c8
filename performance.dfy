/**
 * Performance grading: the chord stage's top confidence and the rhythm stage's score, each
 * clamped to [0, 1], weighted 60/40, expressed as a percentage with one decimal, and mapped
 * to a grade with a fixed feedback sentence.
 */
module PerformanceGrading {
  import opened PyNumeric
  import opened Ranking
  import opened ChordDetection
  import opened RhythmScoring

  datatype Grade = Excellent | Good | Fair | NeedsPractice

  function GradeLabel(g: Grade): string
  {
    match g
    case Excellent => "Excellent"
    case Good => "Good"
    case Fair => "Fair"
    case NeedsPractice => "Needs Practice"
  }

  function Feedback(g: Grade): string
  {
    match g
    case Excellent => "Strong chord accuracy with very steady rhythm."
    case Good => "Mostly correct chords with decent rhythm stability."
    case Fair => "Chords are recognizable but rhythm needs improvement."
    case NeedsPractice => "Work on both chord accuracy and rhythmic consistency."
  }

  /** Position of a grade on the scale from "Needs Practice" (0) to "Excellent" (3). */
  function GradeRank(g: Grade): nat
  {
    match g
    case NeedsPractice => 0
    case Fair => 1
    case Good => 2
    case Excellent => 3
  }

  /** Grade tiers on the percentage score, each inclusive at its lower bound. */
  function GradeFor(percent: real): (g: Grade)
    ensures g == Excellent <==> percent >= 85.0
    ensures g == Good <==> 70.0 <= percent < 85.0
    ensures g == Fair <==> 50.0 <= percent < 70.0
    ensures g == NeedsPractice <==> percent < 50.0
  {
    if percent >= 85.0 then Excellent
    else if percent >= 70.0 then Good
    else if percent >= 50.0 then Fair
    else NeedsPractice
  }

  /** `min(max(x, 0.0), 1.0)`. */
  function Clamp01(x: real): (c: real)
    ensures 0.0 <= c <= 1.0
    ensures 0.0 <= x <= 1.0 ==> c == x
    ensures x < 0.0 ==> c == 0.0
    ensures x > 1.0 ==> c == 1.0
  {
    Min(Max(x, 0.0), 1.0)
  }

  /** The top chord's confidence; a result without a top chord (the error record) reads as 0.0. */
  function ChordConfidenceOf(chords: ChordResult): real
  {
    match chords
    case ChordError(_) => 0.0
    case Chords(top, _) => top.confidence
  }

  /** The rhythm score; a result without one (the error record) reads as 0.0. */
  function RhythmScoreOf(rhythm: RhythmResult): real
  {
    match rhythm
    case RhythmError(_) => 0.0
    case Rhythm(_, _, _, score, _) => score
  }

  /** The evaluation record, with the clamped inputs rounded to three decimals as details. */
  datatype Performance = Performance(score: real, grade: Grade, feedback: string,
                                     chordConfidence: real, rhythmScore: real)

  /** The weighted percentage before rounding. */
  function WeightedPercent(chord: real, rhythm: real): real
  {
    (0.6 * chord + 0.4 * rhythm) * 100.0
  }

  /** The percentage score of two clamped inputs, rounded to one decimal. */
  function PercentScore(chord: real, rhythm: real): real
  {
    Round(WeightedPercent(Clamp01(chord), Clamp01(rhythm)), 1)
  }

  /** `evaluate_performance`. */
  function EvaluatePerformance(chords: ChordResult, rhythm: RhythmResult): (p: Performance)
    ensures p.grade == GradeFor(p.score) && p.feedback == Feedback(p.grade)
    ensures 0.0 <= p.chordConfidence <= 1.0 && 0.0 <= p.rhythmScore <= 1.0
  {
    var c := Clamp01(ChordConfidenceOf(chords));
    var r := Clamp01(RhythmScoreOf(rhythm));
    var percent := PercentScore(ChordConfidenceOf(chords), RhythmScoreOf(rhythm));
    var grade := GradeFor(percent);
    RoundedUnitBounds(c, 3);
    RoundedUnitBounds(r, 3);
    Performance(percent, grade, Feedback(grade), Round(c, 3), Round(r, 3))
  }

  /** Rounding a value of [0, 1] stays in [0, 1]. */
  lemma RoundedUnitBounds(x: real, digits: nat)
    requires 0.0 <= x <= 1.0
    ensures 0.0 <= Round(x, digits) <= 1.0
  {
    RoundMonotone(0.0, x, digits);
    RoundMonotone(x, 1.0, digits);
    RoundKeepsGridValue(0.0, digits);
    RoundKeepsGridValue(1.0, digits);
  }

  /**
   * The string stored as `grade` names the band: "Excellent" exactly from 85, "Good" on
   * [70, 85), "Fair" on [50, 70), "Needs Practice" below 50.
   */
  lemma GradeLabelNamesBand(percent: real)
    ensures GradeLabel(GradeFor(percent)) == "Excellent" <==> percent >= 85.0
    ensures GradeLabel(GradeFor(percent)) == "Good" <==> 70.0 <= percent < 85.0
    ensures GradeLabel(GradeFor(percent)) == "Fair" <==> 50.0 <= percent < 70.0
    ensures GradeLabel(GradeFor(percent)) == "Needs Practice" <==> percent < 50.0
  {
  }

  /** Whatever the inputs, the score is a percentage: clamping keeps both terms in [0, 1]. */
  lemma ScoreIsPercentage(chords: ChordResult, rhythm: RhythmResult)
    ensures 0.0 <= EvaluatePerformance(chords, rhythm).score <= 100.0
  {
    var c := Clamp01(ChordConfidenceOf(chords));
    var r := Clamp01(RhythmScoreOf(rhythm));
    var w := WeightedPercent(c, r);
    assert 0.0 <= w <= 100.0;
    RoundMonotone(0.0, w, 1);
    RoundMonotone(w, 100.0, 1);
    RoundKeepsGridValue(0.0, 1);
    RoundKeepsGridValue(100.0, 1);
  }

  /** A better chord confidence or rhythm score never lowers the score or the grade. */
  lemma EvaluationMonotone(c1: real, r1: real, c2: real, r2: real)
    requires c1 <= c2 && r1 <= r2
    ensures PercentScore(c1, r1) <= PercentScore(c2, r2)
    ensures GradeRank(GradeFor(PercentScore(c1, r1))) <= GradeRank(GradeFor(PercentScore(c2, r2)))
  {
    assert Clamp01(c1) <= Clamp01(c2) && Clamp01(r1) <= Clamp01(r2);
    RoundMonotone(WeightedPercent(Clamp01(c1), Clamp01(r1)), WeightedPercent(Clamp01(c2), Clamp01(r2)), 1);
  }

  /**
   * When chord detection produced only an error record, the chord term is zero and the
   * score is at most 40, so the grade is always "Needs Practice".
   */
  lemma ChordErrorMeansNeedsPractice(message: string, rhythm: RhythmResult)
    ensures EvaluatePerformance(ChordError(message), rhythm).score <= 40.0
    ensures EvaluatePerformance(ChordError(message), rhythm).grade == NeedsPractice
  {
    var w := WeightedPercent(0.0, Clamp01(RhythmScoreOf(rhythm)));
    RoundMonotone(w, 40.0, 1);
    RoundKeepsGridValue(40.0, 1);
  }

  /**
   * When rhythm detection produced only an error record, the rhythm term is zero and the
   * score is at most 60, so the grade is at best "Fair".
   */
  lemma RhythmErrorCapsAtFair(chords: ChordResult, message: string)
    ensures EvaluatePerformance(chords, RhythmError(message)).score <= 60.0
    ensures GradeRank(EvaluatePerformance(chords, RhythmError(message)).grade) <= GradeRank(Fair)
  {
    var w := WeightedPercent(Clamp01(ChordConfidenceOf(chords)), 0.0);
    RoundMonotone(w, 60.0, 1);
    RoundKeepsGridValue(60.0, 1);
  }

  /** Both stages failing scores zero. */
  lemma BothErrorsScoreZero(chordMessage: string, rhythmMessage: string)
    ensures EvaluatePerformance(ChordError(chordMessage), RhythmError(rhythmMessage))
         == Performance(0.0, NeedsPractice, Feedback(NeedsPractice), 0.0, 0.0)
  {
    RoundKeepsGridValue(0.0, 1);
    RoundKeepsGridValue(0.0, 3);
  }

  /** Confidence 0.9 and rhythm 0.8 give 54 + 32 = 86 per cent, "Excellent". */
  lemma ExcellentExample(alternatives: seq<Candidate>, rhythm: RhythmResult)
    requires rhythm.Rhythm? && rhythm.rhythmScore == 0.8
    ensures EvaluatePerformance(Chords(Candidate("C major", 0.9), alternatives), rhythm)
         == Performance(86.0, Excellent, Feedback(Excellent), 0.9, 0.8)
    ensures GradeLabel(EvaluatePerformance(Chords(Candidate("C major", 0.9), alternatives), rhythm).grade)
         == "Excellent"
  {
    assert WeightedPercent(0.9, 0.8) == 86.0;
    RoundKeepsGridValue(86.0, 1);
    RoundKeepsGridValue(0.9, 3);
    RoundKeepsGridValue(0.8, 3);
  }

  /** Confidence 0.5 and rhythm 0.5 give exactly 50 per cent, the lowest "Fair" score. */
  lemma FairExample(alternatives: seq<Candidate>, rhythm: RhythmResult)
    requires rhythm.Rhythm? && rhythm.rhythmScore == 0.5
    ensures EvaluatePerformance(Chords(Candidate("C major", 0.5), alternatives), rhythm)
         == Performance(50.0, Fair, Feedback(Fair), 0.5, 0.5)
    ensures GradeLabel(EvaluatePerformance(Chords(Candidate("C major", 0.5), alternatives), rhythm).grade) == "Fair"
  {
    assert WeightedPercent(0.5, 0.5) == 50.0;
    RoundKeepsGridValue(50.0, 1);
    RoundKeepsGridValue(0.5, 3);
  }
}
