/**
 * Rhythm scoring: strums per second from the onset count, energy consistency from the
 * spread of the RMS energy, a tempo window score, their weighted sum rounded to three
 * decimals, and a three-tier quality label.
 */
module RhythmScoring {
  import opened Results
  import opened PyNumeric
  import opened Descriptors

  const InvalidDuration: string := "Invalid audio duration"

  /** Tempi in this window (inclusive) are taken as a comfortable guitar tempo. */
  const TempoLow: real := 60.0
  const TempoHigh: real := 180.0

  /** Strumming at this rate or faster earns the full strum term. */
  const FullStrumRate: real := 4.0

  datatype RhythmQuality = Steady | Moderate | Unstable

  function QualityLabel(q: RhythmQuality): string
  {
    match q
    case Steady => "steady"
    case Moderate => "moderate"
    case Unstable => "unstable"
  }

  /** Position of a label on the scale from unstable (0) to steady (2). */
  function QualityRank(q: RhythmQuality): nat
  {
    match q
    case Unstable => 0
    case Moderate => 1
    case Steady => 2
  }

  /**
   * One minus the coefficient of variation of the RMS energy, capped below at zero; a
   * non-positive mean energy scores zero.
   */
  function EnergyConsistency(rmsMean: real, rmsStd: real): (e: real)
    ensures rmsMean <= 0.0 ==> e == 0.0
    ensures rmsMean > 0.0 && rmsStd >= 0.0 ==> 0.0 <= e <= 1.0
    ensures rmsMean > 0.0 && rmsStd >= rmsMean ==> e == 0.0
    ensures rmsMean > 0.0 && rmsStd == 0.0 ==> e == 1.0
  {
    if rmsMean > 0.0 then
      RatioBounds(rmsStd, rmsMean);
      1.0 - Min(rmsStd / rmsMean, 1.0)
    else 0.0
  }

  /** 1.0 inside the tempo window, 0.5 outside it. */
  function TempoScore(tempo: real): (s: real)
    ensures s == 1.0 <==> TempoLow <= tempo <= TempoHigh
    ensures s == 0.5 <==> !(TempoLow <= tempo <= TempoHigh)
  {
    if TempoLow <= tempo <= TempoHigh then 1.0 else 0.5
  }

  /** The strum term: the strum rate as a fraction of the full rate, capped at 1. */
  function StrumTerm(strumsPerSecond: real): (s: real)
    ensures s <= 1.0
    ensures strumsPerSecond >= 0.0 ==> 0.0 <= s
    ensures strumsPerSecond >= FullStrumRate <==> s == 1.0
  {
    Min(strumsPerSecond / FullStrumRate, 1.0)
  }

  /** The weighted sum 0.4 energy + 0.3 tempo + 0.3 strums, before rounding. */
  function WeightedRhythm(energy: real, tempoScore: real, strums: real): real
  {
    0.4 * energy + 0.3 * tempoScore + 0.3 * StrumTerm(strums)
  }

  /** Quality tiers: steady from 0.8, moderate from 0.5, unstable below. */
  function ClassifyRhythm(score: real): (q: RhythmQuality)
    ensures q == Steady <==> score >= 0.8
    ensures q == Moderate <==> 0.5 <= score < 0.8
    ensures q == Unstable <==> score < 0.5
  {
    if score >= 0.8 then Steady
    else if score >= 0.5 then Moderate
    else Unstable
  }

  /** The rhythm stage's result record: an error record, or the rounded measurements. */
  datatype RhythmResult =
    | RhythmError(error: string)
    | Rhythm(tempoBpm: real, strumsPerSecond: real, energyConsistency: real,
             rhythmScore: real, rhythmQuality: RhythmQuality)

  /**
   * `detect_rhythm`. The score and the label are computed from the unrounded strum rate and
   * energy consistency; only the reported copies of those two are rounded.
   */
  function DetectRhythm(f: Features): (r: RhythmResult)
    ensures r.RhythmError? <==> f.Duration() <= 0.0
    ensures r.RhythmError? ==> r.error == InvalidDuration
    ensures r.Rhythm? ==> r.rhythmQuality == ClassifyRhythm(r.rhythmScore)
  {
    var duration := f.Duration();
    if duration <= 0.0 then RhythmError(InvalidDuration)
    else
      var strums := f.Onsets() as real / duration;
      var energy := EnergyConsistency(f.RmsMean(), f.RmsStd());
      var score := Round(WeightedRhythm(energy, TempoScore(f.Tempo()), strums), 3);
      Rhythm(Round(f.Tempo(), 2), Round(strums, 2), Round(energy, 3), score, ClassifyRhythm(score))
  }

  lemma RatioBounds(a: real, b: real)
    requires b > 0.0
    ensures a >= 0.0 ==> a / b >= 0.0
    ensures a >= b ==> a / b >= 1.0
  {
    if a >= 0.0 {
      DivMonotone(0.0, a, b);
    }
    if a >= b {
      DivMonotone(b, a, b);
      assert b / b == 1.0;
    }
  }

  /** Every weighted combination of in-range terms lies between 0.15 and 1. */
  lemma WeightedRhythmBounds(energy: real, tempoScore: real, strums: real)
    requires 0.0 <= energy <= 1.0 && (tempoScore == 1.0 || tempoScore == 0.5) && strums >= 0.0
    ensures 0.15 <= WeightedRhythm(energy, tempoScore, strums) <= 1.0
  {
  }

  /**
   * For a valid duration, a non-negative onset count and a non-negative energy spread, the
   * rhythm score lies in [0.15, 1]: the weights sum to one, every term is at most one, and the
   * tempo term is at least 0.5.
   */
  lemma RhythmScoreBounds(f: Features)
    requires f.Duration() > 0.0 && f.Onsets() >= 0
    requires f.RmsMean() > 0.0 ==> f.RmsStd() >= 0.0
    ensures DetectRhythm(f).Rhythm?
    ensures 0.15 <= DetectRhythm(f).rhythmScore <= 1.0
  {
    var strums := f.Onsets() as real / f.Duration();
    RatioBounds(f.Onsets() as real, f.Duration());
    var energy := EnergyConsistency(f.RmsMean(), f.RmsStd());
    var raw := WeightedRhythm(energy, TempoScore(f.Tempo()), strums);
    WeightedRhythmBounds(energy, TempoScore(f.Tempo()), strums);
    RoundMonotone(0.15, raw, 3);
    RoundMonotone(raw, 1.0, 3);
    RoundKeepsGridValue(0.15, 3);
    RoundKeepsGridValue(1.0, 3);
  }

  /** A descriptor bag without a duration entry is read as one second long, never as an error. */
  lemma MissingDurationIsOneSecond(f: Features)
    requires f.durationSec.None?
    ensures DetectRhythm(f).Rhythm?
    ensures DetectRhythm(f).strumsPerSecond == Round(f.Onsets() as real, 2)
  {
  }

  /** A higher score never earns a lower label. */
  lemma ClassifyRhythmMonotone(s1: real, s2: real)
    requires s1 <= s2
    ensures QualityRank(ClassifyRhythm(s1)) <= QualityRank(ClassifyRhythm(s2))
  {
  }

  /** The tier boundaries are inclusive at their lower end. */
  lemma ClassifyRhythmBoundaries()
    ensures ClassifyRhythm(0.8) == Steady && ClassifyRhythm(0.799) == Moderate
    ensures ClassifyRhythm(0.5) == Moderate && ClassifyRhythm(0.499) == Unstable
  {
  }

  /**
   * The string stored as `rhythm_quality` names the tier: "steady" exactly from 0.8,
   * "moderate" exactly on [0.5, 0.8), "unstable" exactly below 0.5.
   */
  lemma QualityLabelNamesTier(score: real)
    ensures QualityLabel(ClassifyRhythm(score)) == "steady" <==> score >= 0.8
    ensures QualityLabel(ClassifyRhythm(score)) == "moderate" <==> 0.5 <= score < 0.8
    ensures QualityLabel(ClassifyRhythm(score)) == "unstable" <==> score < 0.5
  {
  }

  /**
   * More onsets over the same recording never lower the rhythm score: the strum term is
   * monotone in the strum rate and rounding preserves order.
   */
  lemma MoreOnsetsNeverLowerScore(f: Features, g: Features)
    requires f.Duration() > 0.0 && g == f.(onsetCount := g.onsetCount)
    requires f.Onsets() <= g.Onsets()
    ensures DetectRhythm(f).Rhythm? && DetectRhythm(g).Rhythm?
    ensures DetectRhythm(f).rhythmScore <= DetectRhythm(g).rhythmScore
  {
    var d := f.Duration();
    DivMonotone(f.Onsets() as real, g.Onsets() as real, d);
    var energy := EnergyConsistency(f.RmsMean(), f.RmsStd());
    var tempo := TempoScore(f.Tempo());
    RoundMonotone(WeightedRhythm(energy, tempo, f.Onsets() as real / d),
                  WeightedRhythm(energy, tempo, g.Onsets() as real / d), 3);
  }

  /**
   * A four-second take at 120 BPM with eight onsets and RMS energy 0.5 +/- 0.1: two strums a
   * second (half the full rate), consistency 0.8, full tempo score, so 0.32 + 0.3 + 0.15 = 0.77,
   * which is "moderate".
   */
  lemma WorkedExample()
    ensures DetectRhythm(Features(Some(4.0), Some(120.0), Some(8), Some(0.5), Some(0.1), None))
         == Rhythm(120.0, 2.0, 0.8, 0.77, Moderate)
    ensures QualityLabel(DetectRhythm(Features(Some(4.0), Some(120.0), Some(8), Some(0.5), Some(0.1), None))
                           .rhythmQuality) == "moderate"
  {
    var f := Features(Some(4.0), Some(120.0), Some(8), Some(0.5), Some(0.1), None);
    assert f.Onsets() as real / f.Duration() == 2.0;
    assert EnergyConsistency(0.5, 0.1) == 0.8;
    assert WeightedRhythm(0.8, 1.0, 2.0) == 0.77;
    RoundKeepsGridValue(120.0, 2);
    RoundKeepsGridValue(2.0, 2);
    RoundKeepsGridValue(0.8, 3);
    RoundKeepsGridValue(0.77, 3);
  }
}
