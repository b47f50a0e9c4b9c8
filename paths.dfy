/**
 * The file-handling stages before analysis: where the downloaded video is stored, where the
 * extracted audio goes, and the checks that make either stage raise. Paths follow POSIX
 * `os.path` rules; the S3 transfer and the ffmpeg process are given as inputs.
 */
module MediaFiles {
  import opened Results

  const BucketNotSet: string := "AWS_S3_BUCKET is not set"
  const KeyMissing: string := "s3_key is missing"
  const VideoPathMissing: string := "Video path is missing"
  const VideoNotFound: string := "Video file does not exist: "
  const FfmpegFailed: string := "FFmpeg failed to extract audio: "
  const AudioNotWritten: string := "Audio extraction failed, output file not found"

  /** The message botocore raises when `download_file` asks for a key the bucket does not hold. */
  const ObjectNotFound: string := "An error occurred (404) when calling the HeadObject operation: Not Found"

  /** Position of the last occurrence of `c` in `s`, or -1 (`str.rfind`). */
  function LastIndex(s: string, c: char): (i: int)
    ensures -1 <= i < |s|
    ensures i >= 0 ==> s[i] == c
  {
    if |s| == 0 then -1
    else if s[|s| - 1] == c then |s| - 1
    else LastIndex(s[..|s| - 1], c)
  }

  /** No occurrence of `c` follows the one `LastIndex` finds. */
  lemma {:induction false} LastIndexIsLast(s: string, c: char)
    ensures forall k :: LastIndex(s, c) < k < |s| ==> s[k] != c
  {
    if |s| > 0 && s[|s| - 1] != c {
      LastIndexIsLast(s[..|s| - 1], c);
    }
  }

  /** `os.path.basename`: everything after the last '/'. */
  function BaseName(p: string): (b: string)
    ensures '/' !in b
    ensures |b| <= |p| && p == p[..|p| - |b|] + b
    ensures |b| < |p| ==> p[|p| - |b| - 1] == '/'
  {
    var i := LastIndex(p, '/');
    AfterLastIndex(p, '/');
    SuffixAfter(p, i);
    p[i + 1..]
  }

  /** `p` is its prefix through index `i` followed by the rest. */
  lemma SuffixAfter(p: string, i: int)
    requires -1 <= i < |p|
    ensures var b := p[i + 1..]; |p| - |b| == i + 1 && p == p[..|p| - |b|] + b
  {
    assert p == p[..i + 1] + p[i + 1..];
  }

  /** The text after the last occurrence of `c` holds no `c`. */
  lemma AfterLastIndex(p: string, c: char)
    ensures var i := LastIndex(p, c); c !in p[i + 1..]
  {
    var i := LastIndex(p, c);
    LastIndexIsLast(p, c);
    var rest := p[i + 1..];
    forall j | 0 <= j < |rest|
      ensures rest[j] != c
    {
      assert rest[j] == p[i + 1 + j];
    }
  }

  /** `os.path.join(a, b)` for two components. */
  function Join(a: string, b: string): (p: string)
    ensures |b| > 0 && b[0] == '/' ==> p == b
    ensures !(|b| > 0 && b[0] == '/') ==> (p == a + b || p == a + "/" + b)
    ensures !(|b| > 0 && b[0] == '/') ==> (p == a + b <==> a == "" || a[|a| - 1] == '/')
  {
    if |b| > 0 && b[0] == '/' then b
    else if a == "" || a[|a| - 1] == '/' then a + b
    else a + "/" + b
  }

  /** Some character of `p[lo..hi]` is not a dot. */
  predicate HasNonDot(p: string, lo: int, hi: int)
    requires 0 <= lo && hi <= |p|
  {
    exists k :: lo <= k < hi && p[k] != '.'
  }

  /**
   * `os.path.splitext`: splits at the last '.' of the final component, unless that component
   * up to the dot is made only of dots (a leading-dot name such as ".bashrc" has no extension).
   */
  function SplitExt(p: string): (parts: (string, string))
    ensures parts.0 + parts.1 == p
    ensures parts.1 == "" || (parts.1[0] == '.' && '/' !in parts.1 && '.' !in parts.1[1..])
    ensures parts.1 != "" <==> exists j, k :: LastIndex(p, '/') < j < k < |p| && p[j] != '.' && p[k] == '.'
    ensures parts.1 != "" ==> |parts.0| == LastIndex(p, '.')
  {
    var sep := LastIndex(p, '/');
    var dot := LastIndex(p, '.');
    LastIndexIsLast(p, '/');
    LastIndexIsLast(p, '.');
    if dot > sep && HasNonDot(p, sep + 1, dot) then
      assert forall k :: 1 <= k < |p| - dot ==> p[dot..][k] == p[dot + k];
      (p[..dot], p[dot..])
    else (p, "")
  }

  /** Where the downloaded object is stored: the key's final component inside the scratch directory. */
  function LocalPathFor(tempDir: string, s3Key: string): string
  {
    Join(tempDir, BaseName(s3Key))
  }

  /** The extracted audio's path: the video path with its extension replaced by ".wav". */
  function AudioPathFor(videoPath: string): string
  {
    SplitExt(videoPath).0 + ".wav"
  }

  /**
   * `download_video_from_s3`. `bucket` is the `AWS_S3_BUCKET` setting, `tempDir` the fresh
   * directory `mkdtemp` creates and `objects` the keys the bucket holds.
   */
  function DownloadVideo(bucket: Option<string>, tempDir: string, objects: set<string>, s3Key: string)
    : (r: Result<string>)
    ensures r.Ok? <==> bucket.Some? && bucket.value != "" && s3Key != "" && s3Key in objects
    ensures (bucket.None? || bucket.value == "") ==> r == Err(BucketNotSet)
    ensures bucket.Some? && bucket.value != "" && s3Key == "" ==> r == Err(KeyMissing)
    ensures bucket.Some? && bucket.value != "" && s3Key != "" && s3Key !in objects ==> r == Err(ObjectNotFound)
    ensures r.Ok? ==> r.value == LocalPathFor(tempDir, s3Key)
  {
    if bucket.None? || bucket.value == "" then Err(BucketNotSet)
    else if s3Key == "" then Err(KeyMissing)
    else if s3Key !in objects then Err(ObjectNotFound)
    else Ok(LocalPathFor(tempDir, s3Key))
  }

  /** What one ffmpeg run reports: its exit status, its standard error, and whether it wrote the output file. */
  datatype FfmpegRun = FfmpegRun(exitCode: int, stderr: string, wroteOutput: bool)

  /**
   * `extract_audio_from_video`. `files` are the paths that exist beforehand and `ffmpeg` the
   * outcome of transcoding one path into another.
   */
  function ExtractAudio(files: set<string>, videoPath: string, ffmpeg: (string, string) -> FfmpegRun)
    : (r: Result<string>)
    ensures videoPath == "" ==> r == Err(VideoPathMissing)
    ensures videoPath != "" && videoPath !in files ==> r == Err(VideoNotFound + videoPath)
    ensures var audio := AudioPathFor(videoPath);
            var run := ffmpeg(videoPath, audio);
            && (r.Ok? <==> videoPath != "" && videoPath in files && run.exitCode == 0
                           && (audio in files || run.wroteOutput))
            && (r.Ok? ==> r.value == audio)
            && (videoPath != "" && videoPath in files && run.exitCode != 0 ==> r == Err(FfmpegFailed + run.stderr))
            && (videoPath != "" && videoPath in files && run.exitCode == 0 && !(audio in files || run.wroteOutput)
                ==> r == Err(AudioNotWritten))
  {
    if videoPath == "" then Err(VideoPathMissing)
    else if videoPath !in files then Err(VideoNotFound + videoPath)
    else
      var audioPath := AudioPathFor(videoPath);
      var run := ffmpeg(videoPath, audioPath);
      if run.exitCode != 0 then Err(FfmpegFailed + run.stderr)
      else if !(audioPath in files || run.wroteOutput) then Err(AudioNotWritten)
      else Ok(audioPath)
  }

  lemma LastIndexOfAppend(s: string, t: string, c: char)
    requires c !in t
    ensures LastIndex(s + t, c) == LastIndex(s, c)
    decreases |t|
  {
    if |t| > 0 {
      assert (s + t)[..|s + t| - 1] == s + t[..|t| - 1];
      LastIndexOfAppend(s, t[..|t| - 1], c);
    } else {
      assert s + t == s;
    }
  }

  /** The local copy keeps the object's file name, whatever the scratch directory is. */
  lemma LocalPathKeepsBaseName(tempDir: string, s3Key: string)
    ensures BaseName(LocalPathFor(tempDir, s3Key)) == BaseName(s3Key)
  {
    var b := BaseName(s3Key);
    assert b == [] || b[0] != '/';
    if tempDir == "" || tempDir[|tempDir| - 1] == '/' {
      assert LocalPathFor(tempDir, s3Key) == tempDir + b;
      BaseNameAfterDirectory(tempDir, b);
    } else {
      assert LocalPathFor(tempDir, s3Key) == (tempDir + "/") + b;
      BaseNameAfterDirectory(tempDir + "/", b);
    }
  }

  /** A name without '/' after a directory prefix ending in '/' is the base name. */
  lemma BaseNameAfterDirectory(prefix: string, name: string)
    requires prefix == "" || prefix[|prefix| - 1] == '/'
    requires '/' !in name
    ensures BaseName(prefix + name) == name
  {
    LastIndexOfAppend(prefix, name, '/');
    if prefix != "" {
      assert LastIndex(prefix, '/') == |prefix| - 1;
    }
    assert (prefix + name)[|prefix|..] == name;
  }

  /**
   * Replacing the extension: a file `<dir>/<name>.<ext>` whose name has no dot becomes
   * `<dir>/<name>.wav`.
   */
  lemma AudioPathReplacesExtension(dir: string, name: string, ext: string)
    requires name != "" && '.' !in name && '/' !in name && '.' !in ext && '/' !in ext
    ensures AudioPathFor(dir + "/" + name + "." + ext) == dir + "/" + name + ".wav"
  {
    var p := dir + "/" + name + "." + ext;
    var dot := |dir| + 1 + |name|;
    LastIndexOfAppend(dir + "/" + name + ".", ext, '.');
    LastIndexOfAppend(dir + "/" + name, "." + ext, '/');
    assert p == (dir + "/" + name) + ("." + ext);
    assert (dir + "/" + name + ".")[dot] == '.';
    assert LastIndex(dir + "/", '/') == |dir|;
    LastIndexOfAppend(dir + "/", name, '/');
    assert p[dot - 1] == name[|name| - 1] && name[|name| - 1] != '.';
    assert p[..dot] == dir + "/" + name;
  }

  /** The audio path differs from the video path exactly when the video is not already a ".wav" file. */
  lemma AudioPathIsVideoPathIffWav(videoPath: string)
    ensures AudioPathFor(videoPath) == videoPath <==> SplitExt(videoPath).1 == ".wav"
  {
    var (root, ext) := SplitExt(videoPath);
    if AudioPathFor(videoPath) == videoPath {
      assert root + ".wav" == root + ext;
      assert ext == (root + ext)[|root|..] == (root + ".wav")[|root|..];
    }
  }

  /** The checks fire in order: a missing bucket setting is reported before a missing key. */
  lemma DownloadGuardOrder(tempDir: string, objects: set<string>)
    ensures DownloadVideo(None, tempDir, objects, "") == Err(BucketNotSet)
    ensures DownloadVideo(Some("b"), tempDir, objects, "") == Err(KeyMissing)
  {
  }
}
