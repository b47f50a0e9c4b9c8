/**
 * The descriptor bag that the feature extractor hands to the chord and rhythm stages.
 * The scorers read it with `dict.get(key, default)`, so every entry may be absent and
 * each accessor supplies the default the scorer uses.
 */
module Descriptors {
  import opened Results

  datatype Features = Features(
    durationSec: Option<real>,
    tempoBpm: Option<real>,
    onsetCount: Option<int>,
    rmsEnergyMean: Option<real>,
    rmsEnergyStd: Option<real>,
    chromaMean: Option<seq<real>>)
  {
    /** Duration in seconds; an absent entry reads as 1.0. */
    function Duration(): real { durationSec.GetOr(1.0) }

    /** Tempo estimate in beats per minute; an absent entry reads as 0.0. */
    function Tempo(): real { tempoBpm.GetOr(0.0) }

    /** Number of detected onsets; an absent entry reads as 0. */
    function Onsets(): int { onsetCount.GetOr(0) }

    function RmsMean(): real { rmsEnergyMean.GetOr(0.0) }

    function RmsStd(): real { rmsEnergyStd.GetOr(0.0) }

    /** The mean chroma vector; an absent entry reads as the empty vector. */
    function Chroma(): seq<real> { chromaMean.GetOr([]) }
  }
}
