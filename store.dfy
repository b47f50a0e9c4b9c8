/**
 * The `videos` collection of job records and the two writes the worker makes to it: storing
 * an analysis and setting a status. Each write is an `update_one` filtered on `s3_key`, so it
 * changes the first matching record, and only the named fields of it; no match changes nothing.
 */
module VideoStore {
  import opened Results
  import opened ChordDetection
  import opened RhythmScoring
  import opened PerformanceGrading

  /** An instant as `datetime.utcnow()` returns it; only its identity matters here. */
  type Timestamp = nat

  const Analyzed: string := "analyzed"
  const Processed: string := "processed"

  const DbNotInitialized: string := "MongoDB (sync) not initialized"

  /** What indexing the missing database handle raises inside `update_video_status`. */
  const DbHandleMissing: string := "'NoneType' object is not subscriptable"

  /** The three stage results stored under a record's `analysis` field. */
  datatype Analysis = Analysis(chords: ChordResult, rhythm: RhythmResult, performanceScore: Performance)

  /** One document of the `videos` collection. */
  datatype VideoRecord = VideoRecord(
    id: string,
    originalFilename: string,
    s3Key: string,
    status: string,
    createdAt: Timestamp,
    updatedAt: Timestamp,
    analysis: Option<Analysis>,
    analyzedAt: Option<Timestamp>)

  /** Index of the first record whose `s3_key` is `s3Key`, or -1 when there is none. */
  function FindVideo(videos: seq<VideoRecord>, s3Key: string): (i: int)
    ensures -1 <= i < |videos|
    ensures i >= 0 ==> videos[i].s3Key == s3Key
    ensures forall k :: 0 <= k < |videos| && (i < 0 || k < i) ==> videos[k].s3Key != s3Key
  {
    if |videos| == 0 then -1
    else if videos[0].s3Key == s3Key then 0
    else
      var j := FindVideo(videos[1..], s3Key);
      if j < 0 then -1 else j + 1
  }

  /** The `$set` of `save_analysis_result` applied to one record. */
  function WithAnalysis(v: VideoRecord, a: Analysis, now: Timestamp): VideoRecord
  {
    v.(analysis := Some(a), status := Analyzed, analyzedAt := Some(now))
  }

  /** The `$set` of `update_video_status` applied to one record. */
  function WithStatus(v: VideoRecord, status: string, now: Timestamp): VideoRecord
  {
    v.(status := status, updatedAt := now)
  }

  /** The collection after `save_analysis_result(s3Key, ...)` has matched its filter. */
  function SaveAnalysis(videos: seq<VideoRecord>, s3Key: string, a: Analysis, now: Timestamp)
    : (r: seq<VideoRecord>)
    ensures |r| == |videos|
    ensures forall k :: 0 <= k < |videos| && k != FindVideo(videos, s3Key) ==> r[k] == videos[k]
  {
    var i := FindVideo(videos, s3Key);
    if i < 0 then videos else videos[i := WithAnalysis(videos[i], a, now)]
  }

  /** The collection after `update_video_status(s3Key, status)` has matched its filter. */
  function SetStatus(videos: seq<VideoRecord>, s3Key: string, status: string, now: Timestamp)
    : (r: seq<VideoRecord>)
    ensures |r| == |videos|
    ensures forall k :: 0 <= k < |videos| && k != FindVideo(videos, s3Key) ==> r[k] == videos[k]
  {
    var i := FindVideo(videos, s3Key);
    if i < 0 then videos else videos[i := WithStatus(videos[i], status, now)]
  }

  /** Which way a write ended: it matched a record, matched none (a logged warning), or raised. */
  datatype WriteOutcome = Matched | NoMatch | Raised(message: string)

  /** The worker's synchronous database client together with the collection it writes. */
  class VideoCollection {
    /** Whether `connect` has set the database handle (`db is not None`). */
    var connected: bool
    var videos: seq<VideoRecord>

    constructor (videos: seq<VideoRecord>)
      ensures !connected && this.videos == videos
    {
      connected := false;
      this.videos := videos;
    }

    /** `connect`: sets the handle once; connecting again changes nothing. */
    method Connect()
      modifies this
      ensures connected && videos == old(videos)
    {
      if connected {
        return;
      }
      connected := true;
    }

    /** `save_analysis_result`: refuses to run without a handle, otherwise stores the analysis. */
    method SaveAnalysisResult(s3Key: string, chords: ChordResult, rhythm: RhythmResult,
                              performance: Performance, now: Timestamp)
      returns (outcome: WriteOutcome)
      modifies this
      ensures connected == old(connected)
      ensures !connected ==> outcome == Raised(DbNotInitialized) && videos == old(videos)
      ensures connected ==> videos == SaveAnalysis(old(videos), s3Key, Analysis(chords, rhythm, performance), now)
      ensures connected ==> (outcome == Matched <==> FindVideo(old(videos), s3Key) >= 0)
      ensures connected ==> (outcome == Matched || outcome == NoMatch)
    {
      if !connected {
        return Raised(DbNotInitialized);
      }
      var matched := FindVideo(videos, s3Key) >= 0;
      videos := SaveAnalysis(videos, s3Key, Analysis(chords, rhythm, performance), now);
      outcome := if matched then Matched else NoMatch;
    }

    /** `update_video_status`: without a handle the lookup raises, and the error is re-raised. */
    method UpdateVideoStatus(s3Key: string, status: string, now: Timestamp)
      returns (outcome: WriteOutcome)
      modifies this
      ensures connected == old(connected)
      ensures !connected ==> outcome == Raised(DbHandleMissing) && videos == old(videos)
      ensures connected ==> videos == SetStatus(old(videos), s3Key, status, now)
      ensures connected ==> (outcome == Matched <==> FindVideo(old(videos), s3Key) >= 0)
      ensures connected ==> (outcome == Matched || outcome == NoMatch)
    {
      if !connected {
        return Raised(DbHandleMissing);
      }
      var matched := FindVideo(videos, s3Key) >= 0;
      videos := SetStatus(videos, s3Key, status, now);
      outcome := if matched then Matched else NoMatch;
    }
  }

  /** Every record keeps its `s3_key`, so the first match for any key is where it was. */
  predicate SameKeys(a: seq<VideoRecord>, b: seq<VideoRecord>)
  {
    |a| == |b| && forall k :: 0 <= k < |a| ==> a[k].s3Key == b[k].s3Key
  }

  lemma FindVideoBySameKeys(a: seq<VideoRecord>, b: seq<VideoRecord>, s3Key: string)
    requires SameKeys(a, b)
    ensures FindVideo(a, s3Key) == FindVideo(b, s3Key)
  {
    var i, j := FindVideo(a, s3Key), FindVideo(b, s3Key);
    if i >= 0 && j >= 0 {
      assert !(i < j) && !(j < i);
    }
  }

  /**
   * Storing an analysis changes one record at most: the first one with the key, which gets
   * the analysis, status "analyzed" and the analysis time, and keeps its identity, file name,
   * key and timestamps.
   */
  lemma SaveAnalysisChangesOnlyTheMatch(videos: seq<VideoRecord>, s3Key: string, a: Analysis, now: Timestamp)
    ensures SameKeys(SaveAnalysis(videos, s3Key, a, now), videos)
    ensures FindVideo(videos, s3Key) < 0 ==> SaveAnalysis(videos, s3Key, a, now) == videos
    ensures var i := FindVideo(videos, s3Key);
            var r := SaveAnalysis(videos, s3Key, a, now);
            i >= 0 ==> (r[i].analysis == Some(a) && r[i].status == Analyzed && r[i].analyzedAt == Some(now)
                        && r[i].id == videos[i].id && r[i].originalFilename == videos[i].originalFilename
                        && r[i].s3Key == s3Key && r[i].createdAt == videos[i].createdAt
                        && r[i].updatedAt == videos[i].updatedAt)
  {
  }

  /**
   * Setting a status changes one record at most: the first one with the key, which gets the
   * status and a new `updated_at`, and keeps everything else, its analysis included.
   */
  lemma SetStatusChangesOnlyTheMatch(videos: seq<VideoRecord>, s3Key: string, status: string, now: Timestamp)
    ensures SameKeys(SetStatus(videos, s3Key, status, now), videos)
    ensures FindVideo(videos, s3Key) < 0 ==> SetStatus(videos, s3Key, status, now) == videos
    ensures var i := FindVideo(videos, s3Key);
            var r := SetStatus(videos, s3Key, status, now);
            i >= 0 ==> (r[i].status == status && r[i].updatedAt == now
                        && r[i].analysis == videos[i].analysis && r[i].analyzedAt == videos[i].analyzedAt
                        && r[i].id == videos[i].id && r[i].originalFilename == videos[i].originalFilename
                        && r[i].s3Key == s3Key && r[i].createdAt == videos[i].createdAt)
  {
  }

  /** Storing a second analysis replaces the first: the record holds one analysis, the latest. */
  lemma SaveAnalysisOverwrites(videos: seq<VideoRecord>, s3Key: string, a1: Analysis, t1: Timestamp,
                               a2: Analysis, t2: Timestamp)
    ensures SaveAnalysis(SaveAnalysis(videos, s3Key, a1, t1), s3Key, a2, t2) == SaveAnalysis(videos, s3Key, a2, t2)
  {
    var once := SaveAnalysis(videos, s3Key, a1, t1);
    SaveAnalysisChangesOnlyTheMatch(videos, s3Key, a1, t1);
    FindVideoBySameKeys(once, videos, s3Key);
  }

  /** A later status replaces an earlier one. */
  lemma SetStatusOverwrites(videos: seq<VideoRecord>, s3Key: string, s1: string, t1: Timestamp,
                            s2: string, t2: Timestamp)
    ensures SetStatus(SetStatus(videos, s3Key, s1, t1), s3Key, s2, t2) == SetStatus(videos, s3Key, s2, t2)
  {
    var once := SetStatus(videos, s3Key, s1, t1);
    SetStatusChangesOnlyTheMatch(videos, s3Key, s1, t1);
    FindVideoBySameKeys(once, videos, s3Key);
  }
}
