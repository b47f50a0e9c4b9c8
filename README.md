# PickPerfect analysis worker — a Dafny model

This project models the analysis side of the PickPerfect backend. It covers the Celery task
`process_music_video` and the helpers it calls. The task takes the S3 key of an uploaded guitar
video and works through these steps:

- connect the synchronous MongoDB client;
- download the video into a fresh scratch directory;
- extract a mono WAV track with ffmpeg;
- compute a bag of audio descriptors;
- detect the chord being played, by matching templates against the mean chroma vector;
- score the rhythm from tempo, onset rate and RMS-energy steadiness;
- grade the performance;
- store the three results on the video's record and mark that record "processed".

Each file holds one module. The modules follow the source's structure:

| file | module | models |
|---|---|---|
| `results.dfy` | `Results` | `Option` and `Result` (a value or a raised error's message) |
| `py_numeric.dfy` | `PyNumeric` | Python's `round(x, n)` (round half to even), `min` and `max` |
| `descriptors.dfy` | `Descriptors` | the descriptor dictionary; each key may be absent and `features.get` has a default |
| `ranking.dfy` | `Ranking` | `list.sort(key=..., reverse=True)`; the reference stable sort plus the in-place insertion sort on an array proved equal to it |
| `chords.dfy` | `ChordDetection` | `detect_chords`: an imperative method with its nested loop, the function that specifies it, and lemmas about templates, scores and the ranking |
| `rhythm.dfy` | `RhythmScoring` | `detect_rhythm` |
| `performance.dfy` | `PerformanceGrading` | `evaluate_performance` |
| `paths.dfy` | `MediaFiles` | `download_video_from_s3` and `extract_audio_from_video`: their guards and the paths they compute (`os.path.basename`, `join`, `splitext`) |
| `store.dfy` | `VideoStore` | the `videos` collection and the sync client, as a class whose methods `save_analysis_result` and `update_video_status` update it in place |
| `tasks.dfy` | `MusicVideoTask` | `process_music_video`: a method over the store, specified by a function of the old collection |

The model stands in for the outside world as follows:

- **S3, the file system and ffmpeg** are inputs (the `Services` record in `MusicVideoTask`):
  - the bucket setting;
  - the scratch directory that `mkdtemp` returns;
  - the keys the bucket holds;
  - the paths that exist;
  - a function giving the ffmpeg run's exit code, stderr and whether it wrote the output file.
- **The descriptor extractor** is an input function that may raise.
- **`np.linalg.norm`** is a non-negative real supplied with the chroma vector.
- **The clock** is two timestamp parameters, one for each database write.

Python floats are modelled as exact reals. `round` is exact round-half-to-even at the requested
number of decimals.

Four details of the code shape the model of the database writes:

- The stored analysis sets the status to "analyzed". The status update that follows overwrites it
  with "processed".
- `analyzed_at` is a top-level field of the record.
- Storing the analysis does not touch `updated_at`.
- `update_one` changes the first record whose `s3_key` matches. The collection is therefore a
  sequence, and a key may appear on several records.

## Model

| member | source | states |
|---|---|---|
| `PyNumeric.Round` | src/utils/task_helpers.py:234 | `round(x, d)`: the multiple of 10^-d nearest to `x`, with ties going to the even multiple; the three lemmas below and `RoundIdempotent` are its properties |
| `PyNumeric.RoundIsNearest` | src/utils/task_helpers.py:234 | `round(x, d)` is within half a unit of the d-th decimal of `x` |
| `PyNumeric.RoundMonotone` | src/utils/task_helpers.py:275-280 | `round(x, d)` preserves order, so rounding never reverses a comparison of scores |
| `PyNumeric.RoundKeepsGridValue` | src/utils/task_helpers.py:315 | rounding a value that already has at most `d` decimals returns it unchanged |
| `PyNumeric.RoundIdempotent` | src/utils/task_helpers.py:234 | a rounded value has at most `d` decimals, so rounding it again returns it unchanged |
| `Ranking.SortDesc` | src/utils/task_helpers.py:238 | the reference stable sort by non-increasing confidence, built by insertion after ties; it keeps the length, and the `SortDesc*` lemmas below prove it sorted, a permutation and stable |
| `Ranking.SortByConfidence` | src/utils/task_helpers.py:238 | the in-place sort leaves the list equal to the stable descending sort of its old contents |
| `Ranking.InsertNext` | src/utils/task_helpers.py:238 | one insertion step puts the next candidate after every earlier candidate of equal or higher confidence and leaves the unsorted tail alone |
| `Ranking.SortDescPermutes` | src/utils/task_helpers.py:238 | sorting keeps the same candidates with the same multiplicities |
| `Ranking.SortDescIsSorted` | src/utils/task_helpers.py:238 | sorted confidences are non-increasing (`reverse=True`) |
| `Ranking.SortDescIsStable` | src/utils/task_helpers.py:238 | candidates with equal confidence keep their original relative order |
| `Ranking.SortDescFirstIsMaximal` | src/utils/task_helpers.py:238-242 | the first sorted candidate is an input that no input outranks |
| `ChordDetection.Normalize` | src/utils/task_helpers.py:208 | each bin is divided by `norm + 1e-6`: the result has the input's length, and multiplying a bin back by `norm + 1e-6` gives the original bin |
| `ChordDetection.Roll` | src/utils/task_helpers.py:226 | `np.roll(t, shift)`: same length, and element `j` of the input appears at position `(j + shift) mod n` (`RollMoves`) |
| `ChordDetection.RollMoves` | src/utils/task_helpers.py:226 | rolling by `shift` moves element `j` to position `(j + shift) mod n`, for every length and shift |
| `ChordDetection.Dot` | src/utils/task_helpers.py:229 | `np.dot`: the sum of products of corresponding entries; `DotUnit` and `DotAdd` characterise it on 0/1 templates |
| `ChordDetection.ChordsFor` | src/utils/task_helpers.py:199-244 | the value `detect_chords` returns: the error record for a chroma vector of the wrong length, otherwise the head and the first five of the ranked candidates; `DetectChords` is proved equal to it, and `TopChordIsBest` states its properties |
| `ChordDetection.DetectChords` | src/utils/task_helpers.py:199-244 | a chroma vector without exactly 12 bins gives the error record, and only it does; otherwise the result is the top-ranked candidate plus the first five ranked, with the top chord first among them |
| `ChordDetection.TemplateAt` | src/utils/task_helpers.py:215-218 | the major template is 1 at 0, 4 and 7 and the minor template is 1 at 0, 3 and 7; every other entry is 0 |
| `ChordDetection.RolledTemplateAt` | src/utils/task_helpers.py:226 | rolling a template by `root` moves its ones to the root, the third above it and the fifth above it, modulo 12 |
| `ChordDetection.DotUnit` | src/utils/task_helpers.py:229 | a dot product with an indicator vector picks out one bin |
| `ChordDetection.DotAdd` | src/utils/task_helpers.py:229 | the dot product is additive in the template |
| `ChordDetection.ScoreIsTriadSum` | src/utils/task_helpers.py:226-229 | a candidate's raw score is the sum of the normalised bins at its root, third and fifth |
| `ChordDetection.CandidatesEnumeration` | src/utils/task_helpers.py:211-235 | candidate `2r` is "<pitch r> major" and candidate `2r+1` is "<pitch r> minor"; each confidence is its triad sum rounded to 4 decimals |
| `ChordDetection.NormalizedBinBounds` | src/utils/task_helpers.py:208 | a bin between 0 and the norm normalises to a value in [0, 1) |
| `ChordDetection.BinBelowNorm` | src/utils/task_helpers.py:208 | no entry of a vector exceeds its Euclidean norm (`np.linalg.norm`) |
| `ChordDetection.ConfidenceBounds` | src/utils/task_helpers.py:208-234 | when the norm is the chroma vector's Euclidean norm and no bin is negative, every confidence lies in [0, 3] |
| `ChordDetection.TriadChromaNorm` | src/utils/task_helpers.py:208 | the chroma vector with 2, 1 and 2 on C, E and G has Euclidean norm 3 |
| `ChordDetection.CMajorAboveOne` | src/utils/task_helpers.py:223-235 | a C-major triad sum of at least 1.6 gives candidate 0, "C major", a confidence above 1 |
| `ChordDetection.ConfidenceCanExceedOne` | src/utils/task_helpers.py:208-235 | with that vector and its true norm, "C major" has a confidence above 1, so the clamp at lines 308-309 is needed |
| `ChordDetection.RankedIsStableSort` | src/utils/task_helpers.py:238 | the ranking is non-increasing, a permutation of the 24 candidates, and keeps their order among ties |
| `ChordDetection.TopChordIsBest` | src/utils/task_helpers.py:238-244 | the top chord is a candidate that no candidate outranks; the alternatives are the first five ranked candidates and are in non-increasing order |
| `RhythmScoring.EnergyConsistency` | src/utils/task_helpers.py:262-266 | a non-positive mean energy gives 0; with a positive mean and a non-negative spread the result is in [0, 1], is 0 when the spread reaches the mean, and is 1 when there is no spread |
| `RhythmScoring.TempoScore` | src/utils/task_helpers.py:268-272 | 1.0 exactly when the tempo is within 60-180 BPM inclusive, 0.5 exactly otherwise |
| `RhythmScoring.StrumTerm` | src/utils/task_helpers.py:278 | the strum term is at most 1, is non-negative for a non-negative rate, and reaches 1 exactly at 4 strums per second or more |
| `RhythmScoring.ClassifyRhythm` | src/utils/task_helpers.py:282-288 | "steady" iff score >= 0.8, "moderate" iff 0.5 <= score < 0.8, "unstable" iff score < 0.5 |
| `RhythmScoring.DetectRhythm` | src/utils/task_helpers.py:247-297 | the error record "Invalid audio duration" appears exactly when the duration (default 1.0) is <= 0; otherwise the label is the tier of the reported, rounded score |
| `RhythmScoring.WeightedRhythmBounds` | src/utils/task_helpers.py:275-280 | the 0.4/0.3/0.3 weighting of in-range terms lies in [0.15, 1] |
| `RhythmScoring.RhythmScoreBounds` | src/utils/task_helpers.py:256-280 | for a valid duration, a non-negative onset count and a non-negative spread, the rhythm score is in [0.15, 1] |
| `RhythmScoring.MissingDurationIsOneSecond` | src/utils/task_helpers.py:249-260 | a bag without a duration is analysed as one second long, so strums per second is the onset count rounded to two decimals |
| `RhythmScoring.ClassifyRhythmMonotone` | src/utils/task_helpers.py:282-288 | a higher score never gets a lower label |
| `RhythmScoring.ClassifyRhythmBoundaries` | src/utils/task_helpers.py:283-288 | the 0.8 and 0.5 thresholds are inclusive |
| `RhythmScoring.QualityLabelNamesTier` | src/utils/task_helpers.py:283-288 | the stored label is "steady" iff the score is >= 0.8, "moderate" iff it is in [0.5, 0.8), "unstable" iff it is < 0.5 |
| `RhythmScoring.MoreOnsetsNeverLowerScore` | src/utils/task_helpers.py:259-280 | with everything else fixed, more onsets never lower the rhythm score |
| `RhythmScoring.WorkedExample` | src/utils/task_helpers.py:247-297 | 4 s at 120 BPM with 8 onsets and RMS 0.5 ± 0.1 gives 2.0 strums/s, consistency 0.8 and score 0.77, labelled "moderate" |
| `PerformanceGrading.GradeFor` | src/utils/task_helpers.py:317-329 | Excellent iff >= 85, Good iff in [70, 85), Fair iff in [50, 70), Needs Practice iff < 50 |
| `PerformanceGrading.GradeLabelNamesBand` | src/utils/task_helpers.py:317-328 | the stored grade string is "Excellent", "Good", "Fair" or "Needs Practice" exactly on those four bands |
| `PerformanceGrading.Clamp01` | src/utils/task_helpers.py:307-309 | the clamp lies in [0, 1], is the identity on [0, 1], and saturates below 0 and above 1 |
| `PerformanceGrading.EvaluatePerformance` | src/utils/task_helpers.py:300-340 | the grade is the tier of the reported score, the feedback is that grade's sentence, and both details lie in [0, 1] |
| `PerformanceGrading.RoundedUnitBounds` | src/utils/task_helpers.py:336-339 | the rounded details stay in [0, 1] |
| `PerformanceGrading.ScoreIsPercentage` | src/utils/task_helpers.py:307-315 | for any inputs the score is in [0, 100] |
| `PerformanceGrading.EvaluationMonotone` | src/utils/task_helpers.py:307-329 | a higher chord confidence or rhythm score never lowers the score or the grade |
| `PerformanceGrading.ChordErrorMeansNeedsPractice` | src/utils/task_helpers.py:302-329 | when chords failed (no `top_chord`), the score is <= 40 and the grade is always "Needs Practice" |
| `PerformanceGrading.RhythmErrorCapsAtFair` | src/utils/task_helpers.py:305-329 | when rhythm failed (no `rhythm_score`), the score is <= 60 and the grade is at best "Fair" |
| `PerformanceGrading.BothErrorsScoreZero` | src/utils/task_helpers.py:300-340 | two error records give score 0, "Needs Practice" and zero details |
| `PerformanceGrading.ExcellentExample` | src/utils/task_helpers.py:312-320 | confidence 0.9 and rhythm 0.8 give 86.0, "Excellent" |
| `PerformanceGrading.FairExample` | src/utils/task_helpers.py:312-326 | confidence 0.5 and rhythm 0.5 give exactly 50.0, the lowest "Fair" score |
| `MediaFiles.LastIndex` | src/utils/task_helpers.py:51 | the separator search returns -1 or an index holding the character |
| `MediaFiles.LastIndexIsLast` | src/utils/task_helpers.py:51 | no occurrence follows the index found |
| `MediaFiles.BaseName` | src/utils/task_helpers.py:51 | the base name has no '/', is a suffix of the path, and is preceded by '/' when shorter than the path |
| `MediaFiles.Join` | src/utils/task_helpers.py:51 | an absolute second component replaces the first; otherwise the two are concatenated, with a '/' inserted exactly when the first is non-empty and does not already end in '/' |
| `MediaFiles.SplitExt` | src/utils/task_helpers.py:88 | root + extension is the path; the extension is empty or a '.'-led suffix of the final component with no other dot; it is non-empty exactly when the final component has a dot preceded by a non-dot character, and then the split is at the last dot |
| `MediaFiles.DownloadVideo` | src/utils/task_helpers.py:38-59 | the download succeeds iff the bucket is set, the key is non-empty and the object exists; a missing bucket raises "AWS_S3_BUCKET is not set", otherwise an empty key raises "s3_key is missing", otherwise a missing object fails with the not-found error; success gives the key's base name inside the scratch directory |
| `MediaFiles.LocalPathFor` | src/utils/task_helpers.py:50-51 | `os.path.join(tmp_dir, os.path.basename(s3_key))`; `LocalPathKeepsBaseName` states that it keeps the key's file name |
| `MediaFiles.AudioPathFor` | src/utils/task_helpers.py:88-89 | the split root plus ".wav"; `AudioPathReplacesExtension` and `AudioPathIsVideoPathIffWav` state its effect |
| `MediaFiles.ExtractAudio` | src/utils/task_helpers.py:63-125 | succeeds iff the path is non-empty, the video exists, ffmpeg exits 0 and the audio file then exists; success returns the path with its extension replaced by ".wav"; each failure raises its own message, in guard order (missing path, missing file, ffmpeg's stderr, output not found) |
| `MediaFiles.LastIndexOfAppend` | src/utils/task_helpers.py:51 | appending text without the character does not move its last occurrence |
| `MediaFiles.LocalPathKeepsBaseName` | src/utils/task_helpers.py:50-51 | the local copy keeps the object's file name, whatever the scratch directory |
| `MediaFiles.AudioPathReplacesExtension` | src/utils/task_helpers.py:85-89 | `<dir>/<name>.<ext>` becomes `<dir>/<name>.wav` |
| `MediaFiles.AudioPathIsVideoPathIffWav` | src/utils/task_helpers.py:88-89 | the audio path equals the video path exactly when the video already has the extension ".wav" |
| `MediaFiles.DownloadGuardOrder` | src/utils/task_helpers.py:45-48 | a missing bucket setting is reported before a missing key |
| `VideoStore.FindVideo` | src/utils/task_helpers.py:356-357 | the filter `{"s3_key": key}` finds the first record with the key, or none when no record has it |
| `VideoStore.SaveAnalysis` | src/utils/task_helpers.py:346-359 | the store keeps the collection's size and changes no record but the match |
| `VideoStore.SetStatus` | src/utils/task_helpers.py:380-389 | the status update keeps the collection's size and changes no record but the match |
| `VideoStore.VideoCollection.constructor` | src/core/database_sync.py:5-7 | a new client has no database handle |
| `VideoStore.VideoCollection.Connect` | src/core/database_sync.py:9-15 | after `connect` the handle is set, connecting again is a no-op, and the data is untouched |
| `VideoStore.VideoCollection.SaveAnalysisResult` | src/utils/task_helpers.py:342-364 | without a handle it raises "MongoDB (sync) not initialized" and writes nothing; otherwise it stores the analysis on the match and reports matched iff a record has the key |
| `VideoStore.VideoCollection.UpdateVideoStatus` | src/utils/task_helpers.py:366-402 | without a handle the lookup raises and the error propagates; otherwise it sets status and `updated_at` on the match and reports matched iff a record has the key |
| `VideoStore.FindVideoBySameKeys` | src/utils/task_helpers.py:356-357 | collections with the same keys position by position resolve every filter to the same record |
| `VideoStore.SaveAnalysisChangesOnlyTheMatch` | src/utils/task_helpers.py:346-359 | only the first match changes: it gets the analysis, "analyzed" and `analyzed_at`, and keeps its id, file name, key and timestamps; no match changes nothing |
| `VideoStore.SetStatusChangesOnlyTheMatch` | src/utils/task_helpers.py:380-389 | only the first match changes: it gets the status and `updated_at` and keeps its analysis; no match changes nothing |
| `VideoStore.SaveAnalysisOverwrites` | src/utils/task_helpers.py:346-359 | storing twice equals storing the latest analysis once |
| `VideoStore.SetStatusOverwrites` | src/utils/task_helpers.py:380-389 | setting a status twice equals setting the latest once |
| `MusicVideoTask.AnalysisOf` | src/app_celery/tasks.py:34-43 | both detectors read the same descriptor bag, and the performance evaluation reads both of their results |
| `MusicVideoTask.Prepare` | src/app_celery/tasks.py:23-29 | a failure comes from download, extraction or descriptors (1-3 stages done); readiness means the extractor succeeded on the derived audio path |
| `MusicVideoTask.StoreAndMark` | src/app_celery/tasks.py:46-53 | the store of the analysis followed by the status update to "processed"; `StoreAndMarkEffect` states the result |
| `MusicVideoTask.ProcessJob` | src/app_celery/tasks.py:19-56 | the specification of one run: the first failing stage's error with nothing written, or `{s3_key, "completed"}` after both writes; every lemma below is stated about it |
| `MusicVideoTask.ProcessMusicVideo` | src/app_celery/tasks.py:19-56 | the task connects, and its return value, the collection afterwards and the stages completed are those of the stage-by-stage specification of a run |
| `MusicVideoTask.StoreAndMarkEffect` | src/app_celery/tasks.py:46-53 | the two writes leave the first match "processed", holding the analysis and stamped with both times, and no other record changes |
| `MusicVideoTask.SuccessfulRunMarksProcessed` | src/app_celery/tasks.py:19-56 | a successful run returns `{s3_key, "completed"}`, and the matching record holds the analysis of the extracted audio's descriptors, marked "processed" |
| `MusicVideoTask.StoredGradeMatchesStoredResults` | src/app_celery/tasks.py:34-51 | after a successful run the matching record holds an analysis whose performance record is the evaluation of its own chord and rhythm records, and both of those come from the descriptors of the extracted audio |
| `MusicVideoTask.FailedRunWritesNothing` | src/app_celery/tasks.py:22-29 | a failing run stops at download, extraction or analysis and leaves the collection unchanged |
| `MusicVideoTask.SuccessIffAllStagesComplete` | src/app_celery/tasks.py:19-56 | a run succeeds iff it completes all nine stages |
| `MusicVideoTask.UnknownKeyWritesNothing` | src/app_celery/tasks.py:46-53 | with no record for the key, even a successful run changes nothing |
| `MusicVideoTask.StoreThenMarkOverwrites` | src/app_celery/tasks.py:46-53 | a second store-then-mark pair erases every trace of the first |
| `MusicVideoTask.RerunKeepsLatestAnalysis` | src/app_celery/tasks.py:19-56 | a redelivered task that succeeds twice leaves the collection as the second run alone would |
| `MusicVideoTask.UploadKeyAudioPath` | src/app_celery/tasks.py:23-26 | the key `videos/<id>.mp4` is analysed from `<scratch dir>/<id>.wav` |

## Left out

- `analyze_audio_features` (librosa loading, tempo and onset detection, RMS, chroma, the spectral descriptors) is not part of this model. It is an input function that may raise. The descriptor bag keeps only the keys the detectors read.
- `np.linalg.norm` is a non-negative real passed in; the model does not compute a square root. `ChordDetection.IsEuclideanNorm` states the relation (its square is the sum of squares), and `ChordDetection.ConfidenceBounds` takes it as a precondition.
- `ChordDetection.ConfidenceBounds` also requires every chroma bin to be non-negative. librosa's chroma features are non-negative energies, but the extractor is not part of this model, so that is an assumption.
- Floating point: all arithmetic is exact real arithmetic. IEEE rounding of `0.3 * x`, of the division by the norm and of the weighted sums is not modelled. Neither is the binary representation that makes Python's `round` occasionally differ from exact half-even rounding.
- S3, ffmpeg and the file system are inputs. The model does not capture the network, credentials or partial downloads. A failed download raises botocore's `404 HeadObject` message; other botocore errors are not modelled.
- `MediaFiles.ExtractAudio`: ffmpeg's exact command line (codec, 44.1 kHz, mono) is not modelled. Only its exit code, its stderr and whether it wrote the output file matter here.
- The scratch directory and the extracted files are never deleted by the source. The model does not track the files the task creates.
- The module-level check at lines 23-27 of src/utils/task_helpers.py raises at import when a credential is missing. It is not modelled. It means a worker that started has the bucket set, so the bucket guard of `download_video_from_s3` is reachable only if the variable is removed afterwards.
- `mongodb_sync.connect` always succeeds in the model. A connection failure and a failing `update_one` (a network error) are not modelled.
- Logging (including the `logger.info` calls in the task that pass an extra argument without a placeholder) has no effect on results and is left out. So are the `print` calls.
- Timestamps are abstract natural numbers supplied by the caller. `datetime.utcnow()` is not modelled.
- Celery itself is not modelled: retries, acknowledgement, concurrency between workers and at-least-once delivery. `MusicVideoTask.RerunKeepsLatestAnalysis` covers only the sequential redelivery of one task.
- `RhythmScoring.DetectRhythm` takes the onset count as an integer and the other descriptors as reals, which is the type the extractor produces. Other value types that a dictionary could hold are not modelled.
