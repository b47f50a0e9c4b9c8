/**
 * The `process_music_video` worker task: connect to the database, download the video, extract
 * its audio, compute the descriptors, detect chords and rhythm from the same descriptors,
 * grade the performance, store the analysis and mark the record "processed". A stage that
 * raises ends the task with its error before anything is written.
 */
module MusicVideoTask {
  import opened Results
  import Descriptors
  import MediaFiles
  import ChordDetection
  import RhythmScoring
  import PerformanceGrading
  import opened VideoStore

  const Completed: string := "completed"

  /** The task's steps, in the order it takes them. */
  datatype Stage = Connect | Download | Extract | Analyze | Chords | Rhythm | Evaluate | Save | StatusUpdate

  const StageOrder: seq<Stage> := [Connect, Download, Extract, Analyze, Chords, Rhythm, Evaluate, Save, StatusUpdate]

  /**
   * Everything the task reaches outside the database: the bucket setting, the scratch
   * directory `mkdtemp` returns, the keys the bucket holds, the local files that exist, the
   * ffmpeg run, the descriptor extraction (which may raise) and the chroma norm.
   */
  datatype Services = Services(
    bucket: Option<string>,
    tempDir: string,
    objects: set<string>,
    files: set<string>,
    ffmpeg: (string, string) -> MediaFiles.FfmpegRun,
    analyze: string -> Result<Descriptors.Features>,
    chromaNorm: seq<real> -> ChordDetection.NonNegReal)

  /** The dictionary the task returns. */
  datatype TaskResult = TaskResult(s3Key: string, status: string)

  /**
   * How a run ends: its result or error, the collection afterwards, and how many stages of
   * `StageOrder` it completed.
   */
  datatype Run = Run(outcome: Result<TaskResult>, videos: seq<VideoRecord>, stagesDone: nat)

  /** The analysis of one descriptor bag: both detectors read it, and the performance evaluation reads both results. */
  function AnalysisOf(f: Descriptors.Features, chromaNorm: seq<real> -> ChordDetection.NonNegReal): Analysis
  {
    var chords := ChordDetection.ChordsFor(f, chromaNorm(f.Chroma()));
    var rhythm := RhythmScoring.DetectRhythm(f);
    Analysis(chords, rhythm, PerformanceGrading.EvaluatePerformance(chords, rhythm))
  }

  /** The path of the audio file the task analyses, when download and extraction succeed. */
  function AudioFileFor(svc: Services, s3Key: string): string
  {
    MediaFiles.AudioPathFor(MediaFiles.LocalPathFor(svc.tempDir, s3Key))
  }

  /** The stages before the first write: the descriptors, or the error and how many stages finished. */
  datatype Prepared = Failed(message: string, stagesDone: nat) | Ready(features: Descriptors.Features)

  /** Download, audio extraction and descriptor computation, in that order, stopping at the first error. */
  function Prepare(svc: Services, s3Key: string): (p: Prepared)
    ensures p.Failed? ==> 1 <= p.stagesDone <= 3
    ensures p.Ready? ==> svc.analyze(AudioFileFor(svc, s3Key)) == Ok(p.features)
  {
    var video := MediaFiles.DownloadVideo(svc.bucket, svc.tempDir, svc.objects, s3Key);
    if video.Err? then Failed(video.message, 1)
    else
      var audio := MediaFiles.ExtractAudio(svc.files + {video.value}, video.value, svc.ffmpeg);
      if audio.Err? then Failed(audio.message, 2)
      else
        var features := svc.analyze(audio.value);
        if features.Err? then Failed(features.message, 3)
        else Ready(features.value)
  }

  /** The two writes of a successful run: store the analysis, then mark the record "processed". */
  function StoreAndMark(videos: seq<VideoRecord>, s3Key: string, a: Analysis,
                        savedAt: Timestamp, updatedAt: Timestamp): seq<VideoRecord>
  {
    SetStatus(SaveAnalysis(videos, s3Key, a, savedAt), s3Key, Processed, updatedAt)
  }

  /** What one run of the task does to the collection `videos`, stage by stage. */
  function ProcessJob(svc: Services, videos: seq<VideoRecord>, s3Key: string,
                      savedAt: Timestamp, updatedAt: Timestamp): Run
  {
    match Prepare(svc, s3Key)
    case Failed(message, n) => Run(Err(message), videos, n)
    case Ready(f) =>
      Run(Ok(TaskResult(s3Key, Completed)),
          StoreAndMark(videos, s3Key, AnalysisOf(f, svc.chromaNorm), savedAt, updatedAt), |StageOrder|)
  }

  /**
   * `process_music_video`. `stagesDone` counts the stages of `StageOrder` that finished; the
   * two timestamps are the instants the two writes read from the clock.
   */
  method ProcessMusicVideo(store: VideoCollection, svc: Services, s3Key: string,
                           savedAt: Timestamp, updatedAt: Timestamp)
    returns (outcome: Result<TaskResult>, stagesDone: nat)
    modifies store
    ensures store.connected
    ensures var run := ProcessJob(svc, old(store.videos), s3Key, savedAt, updatedAt);
            outcome == run.outcome && store.videos == run.videos && stagesDone == run.stagesDone
  {
    store.Connect();
    stagesDone := 1;
    var video := MediaFiles.DownloadVideo(svc.bucket, svc.tempDir, svc.objects, s3Key);
    if video.Err? {
      assert Prepare(svc, s3Key) == Failed(video.message, 1);
      return Err(video.message), stagesDone;
    }
    stagesDone := stagesDone + 1;
    var audio := MediaFiles.ExtractAudio(svc.files + {video.value}, video.value, svc.ffmpeg);
    if audio.Err? {
      assert Prepare(svc, s3Key) == Failed(audio.message, 2);
      return Err(audio.message), stagesDone;
    }
    stagesDone := stagesDone + 1;
    var features := svc.analyze(audio.value);
    if features.Err? {
      assert Prepare(svc, s3Key) == Failed(features.message, 3);
      return Err(features.message), stagesDone;
    }
    stagesDone := stagesDone + 1;
    var f := features.value;
    assert Prepare(svc, s3Key) == Ready(f);
    ghost var before := store.videos;
    var chords := ChordDetection.DetectChords(f, svc.chromaNorm(f.Chroma()));
    stagesDone := stagesDone + 1;
    var rhythm := RhythmScoring.DetectRhythm(f);
    stagesDone := stagesDone + 1;
    var performance := PerformanceGrading.EvaluatePerformance(chords, rhythm);
    stagesDone := stagesDone + 1;
    var saved := store.SaveAnalysisResult(s3Key, chords, rhythm, performance, savedAt);
    stagesDone := stagesDone + 1;
    var updated := store.UpdateVideoStatus(s3Key, Processed, updatedAt);
    stagesDone := stagesDone + 1;
    assert store.videos == StoreAndMark(before, s3Key, AnalysisOf(f, svc.chromaNorm), savedAt, updatedAt);
    return Ok(TaskResult(s3Key, Completed)), stagesDone;
  }

  /**
   * The two writes change the first record with the key and no other: it ends "processed"
   * (the "analyzed" of the first write does not survive), holding the analysis, stamped with
   * both write times, and every record keeps its key.
   */
  lemma StoreAndMarkEffect(videos: seq<VideoRecord>, s3Key: string, a: Analysis,
                           savedAt: Timestamp, updatedAt: Timestamp)
    ensures SameKeys(StoreAndMark(videos, s3Key, a, savedAt, updatedAt), videos)
    ensures var i := FindVideo(videos, s3Key);
            var r := StoreAndMark(videos, s3Key, a, savedAt, updatedAt);
            i >= 0 ==> (r[i].status == Processed && r[i].analysis == Some(a)
                        && r[i].analyzedAt == Some(savedAt) && r[i].updatedAt == updatedAt)
    ensures forall k :: 0 <= k < |videos| && k != FindVideo(videos, s3Key)
                    ==> StoreAndMark(videos, s3Key, a, savedAt, updatedAt)[k] == videos[k]
  {
    var saved := SaveAnalysis(videos, s3Key, a, savedAt);
    SaveAnalysisChangesOnlyTheMatch(videos, s3Key, a, savedAt);
    SetStatusChangesOnlyTheMatch(saved, s3Key, Processed, updatedAt);
    FindVideoBySameKeys(saved, videos, s3Key);
  }

  /**
   * A successful run returns the key with status "completed", and the first record with that
   * key ends "processed", holding the analysis of the descriptors computed from the extracted
   * audio, stamped with both write times; every other record is as it was.
   */
  lemma SuccessfulRunMarksProcessed(svc: Services, videos: seq<VideoRecord>, s3Key: string,
                                    savedAt: Timestamp, updatedAt: Timestamp)
    requires ProcessJob(svc, videos, s3Key, savedAt, updatedAt).outcome.Ok?
    ensures ProcessJob(svc, videos, s3Key, savedAt, updatedAt).outcome.value == TaskResult(s3Key, Completed)
    ensures svc.analyze(AudioFileFor(svc, s3Key)).Ok?
    ensures var run := ProcessJob(svc, videos, s3Key, savedAt, updatedAt);
            var i := FindVideo(videos, s3Key);
            var f := svc.analyze(AudioFileFor(svc, s3Key)).value;
            i >= 0 ==> (run.videos[i].status == Processed
                        && run.videos[i].analysis == Some(AnalysisOf(f, svc.chromaNorm))
                        && run.videos[i].analyzedAt == Some(savedAt) && run.videos[i].updatedAt == updatedAt)
    ensures var run := ProcessJob(svc, videos, s3Key, savedAt, updatedAt);
            SameKeys(run.videos, videos)
            && forall k :: 0 <= k < |videos| && k != FindVideo(videos, s3Key) ==> run.videos[k] == videos[k]
  {
    var f := Prepare(svc, s3Key).features;
    StoreAndMarkEffect(videos, s3Key, AnalysisOf(f, svc.chromaNorm), savedAt, updatedAt);
  }

  /**
   * The analysis a successful run leaves on the record is self-consistent: its grade is the
   * performance evaluation of its own chord and rhythm results, and both of those come from the
   * one descriptor bag computed from the extracted audio.
   */
  lemma StoredGradeMatchesStoredResults(svc: Services, videos: seq<VideoRecord>, s3Key: string,
                                        savedAt: Timestamp, updatedAt: Timestamp)
    requires ProcessJob(svc, videos, s3Key, savedAt, updatedAt).outcome.Ok?
    requires FindVideo(videos, s3Key) >= 0
    ensures svc.analyze(AudioFileFor(svc, s3Key)).Ok?
    ensures var stored := ProcessJob(svc, videos, s3Key, savedAt, updatedAt).videos[FindVideo(videos, s3Key)];
            var f := svc.analyze(AudioFileFor(svc, s3Key)).value;
            && stored.analysis.Some?
            && stored.analysis.value.performanceScore
               == PerformanceGrading.EvaluatePerformance(stored.analysis.value.chords, stored.analysis.value.rhythm)
            && stored.analysis.value.chords == ChordDetection.ChordsFor(f, svc.chromaNorm(f.Chroma()))
            && stored.analysis.value.rhythm == RhythmScoring.DetectRhythm(f)
  {
    SuccessfulRunMarksProcessed(svc, videos, s3Key, savedAt, updatedAt);
  }

  /**
   * A run that fails stops at the download, the extraction or the descriptor stage, after
   * completing exactly the stages before it, and writes nothing.
   */
  lemma FailedRunWritesNothing(svc: Services, videos: seq<VideoRecord>, s3Key: string,
                               savedAt: Timestamp, updatedAt: Timestamp)
    requires ProcessJob(svc, videos, s3Key, savedAt, updatedAt).outcome.Err?
    ensures var run := ProcessJob(svc, videos, s3Key, savedAt, updatedAt);
            run.videos == videos && run.stagesDone < |StageOrder|
            && StageOrder[run.stagesDone] in {Download, Extract, Analyze}
  {
    assert StageOrder[1] == Download && StageOrder[2] == Extract && StageOrder[3] == Analyze;
  }

  /** A run succeeds exactly when it completes every stage. */
  lemma SuccessIffAllStagesComplete(svc: Services, videos: seq<VideoRecord>, s3Key: string,
                                    savedAt: Timestamp, updatedAt: Timestamp)
    ensures var run := ProcessJob(svc, videos, s3Key, savedAt, updatedAt);
            run.outcome.Ok? <==> run.stagesDone == |StageOrder|
  {
  }

  /** When no record has the key, even a successful run leaves the collection as it was. */
  lemma UnknownKeyWritesNothing(svc: Services, videos: seq<VideoRecord>, s3Key: string,
                                savedAt: Timestamp, updatedAt: Timestamp)
    requires FindVideo(videos, s3Key) < 0
    ensures ProcessJob(svc, videos, s3Key, savedAt, updatedAt).videos == videos
  {
    var run := ProcessJob(svc, videos, s3Key, savedAt, updatedAt);
    if run.outcome.Ok? {
      var a := AnalysisOf(svc.analyze(AudioFileFor(svc, s3Key)).value, svc.chromaNorm);
      SaveAnalysisChangesOnlyTheMatch(videos, s3Key, a, savedAt);
      SetStatusChangesOnlyTheMatch(videos, s3Key, Processed, updatedAt);
    }
  }

  /** The analysis, status and time stamps a store-then-mark pair leaves on the matched record. */
  lemma StoreThenMarkOverwrites(videos: seq<VideoRecord>, s3Key: string,
                                a1: Analysis, t1: Timestamp, u1: Timestamp,
                                a2: Analysis, t2: Timestamp, u2: Timestamp)
    ensures var first := SetStatus(SaveAnalysis(videos, s3Key, a1, t1), s3Key, Processed, u1);
            SetStatus(SaveAnalysis(first, s3Key, a2, t2), s3Key, Processed, u2)
            == SetStatus(SaveAnalysis(videos, s3Key, a2, t2), s3Key, Processed, u2)
  {
    var saved1 := SaveAnalysis(videos, s3Key, a1, t1);
    var first := SetStatus(saved1, s3Key, Processed, u1);
    var saved2 := SaveAnalysis(first, s3Key, a2, t2);
    var direct := SaveAnalysis(videos, s3Key, a2, t2);
    SaveAnalysisChangesOnlyTheMatch(videos, s3Key, a1, t1);
    SetStatusChangesOnlyTheMatch(saved1, s3Key, Processed, u1);
    FindVideoBySameKeys(saved1, videos, s3Key);
    FindVideoBySameKeys(first, saved1, s3Key);
    SaveAnalysisChangesOnlyTheMatch(first, s3Key, a2, t2);
    SaveAnalysisChangesOnlyTheMatch(videos, s3Key, a2, t2);
    FindVideoBySameKeys(saved2, first, s3Key);
    FindVideoBySameKeys(direct, videos, s3Key);
    SetStatusChangesOnlyTheMatch(saved2, s3Key, Processed, u2);
    SetStatusChangesOnlyTheMatch(direct, s3Key, Processed, u2);
  }

  /**
   * Running the task again for the same key (a redelivered message, say) leaves the collection
   * exactly as the second run alone would have: one record, the latest analysis, "processed".
   */
  lemma RerunKeepsLatestAnalysis(svc1: Services, svc2: Services, videos: seq<VideoRecord>, s3Key: string,
                                 t1: Timestamp, u1: Timestamp, t2: Timestamp, u2: Timestamp)
    requires ProcessJob(svc1, videos, s3Key, t1, u1).outcome.Ok?
    requires ProcessJob(svc2, videos, s3Key, t2, u2).outcome.Ok?
    ensures var first := ProcessJob(svc1, videos, s3Key, t1, u1).videos;
            ProcessJob(svc2, first, s3Key, t2, u2).videos == ProcessJob(svc2, videos, s3Key, t2, u2).videos
  {
    var first := ProcessJob(svc1, videos, s3Key, t1, u1);
    var second := ProcessJob(svc2, first.videos, s3Key, t2, u2);
    if second.outcome.Ok? {
      var a1 := AnalysisOf(svc1.analyze(AudioFileFor(svc1, s3Key)).value, svc1.chromaNorm);
      var a2 := AnalysisOf(svc2.analyze(AudioFileFor(svc2, s3Key)).value, svc2.chromaNorm);
      StoreThenMarkOverwrites(videos, s3Key, a1, t1, u1, a2, t2, u2);
    }
  }

  /**
   * For a key of the shape the upload endpoint issues, `videos/<id>.mp4`, the audio is read from
   * `<scratch dir>/<id>.wav`.
   */
  lemma UploadKeyAudioPath(svc: Services, id: string)
    requires id != "" && '.' !in id && '/' !in id
    requires svc.tempDir != "" && svc.tempDir[|svc.tempDir| - 1] != '/'
    ensures AudioFileFor(svc, "videos/" + id + ".mp4") == svc.tempDir + "/" + id + ".wav"
  {
    var key := "videos/" + id + ".mp4";
    assert key == "videos/" + (id + ".mp4");
    MediaFiles.BaseNameAfterDirectory("videos/", id + ".mp4");
    assert MediaFiles.LocalPathFor(svc.tempDir, key) == svc.tempDir + "/" + id + "." + "mp4";
    MediaFiles.AudioPathReplacesExtension(svc.tempDir, id, "mp4");
  }
}
