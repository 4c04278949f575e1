/**
 * `_post_process_outputs` and `_optimize_audio_quality`: quality `high`
 * passes the separated files through; any other quality re-encodes each
 * file to a sibling `<stem>_optimized<suffix>` at a rate chosen by quality.
 */
module PostProcessing {
  import opened Results
  import opened Paths

  const High := "high"
  const Medium := "medium"
  const Low := "low"

  /** What loading an audio file reports: its native sample rate, or the cause it raised with. */
  datatype Probe = Readable(sampleRate: nat) | Unreadable(cause: string)

  /** A file `_optimize_audio_quality` wrote, with the sample rate it wrote it at. */
  datatype Artifact = Artifact(path: string, sampleRate: nat)

  /**
   * The rate an optimised copy is written at: 22050 Hz for `medium`,
   * 16000 Hz for `low`, the source's own rate for any other quality. The rate
   * is set whatever the source's rate is, so it can go up.
   */
  function TargetRate(quality: string, sourceRate: nat): nat
  {
    if quality == Medium then 22050 else if quality == Low then 16000 else sourceRate
  }

  /** `parent / (stem + "_optimized" + suffix)` of a path as pathlib prints it. */
  function OptimizedPath(path: string): string
  {
    var name := Name(path);
    Dir(path) + Stem(name) + "_optimized" + Suffix(name)
  }

  /** `_optimize_audio_quality`: load, pick the rate, write the sibling copy. */
  function Optimize(path: string, quality: string, audio: string -> Probe): (r: Result<Artifact, string>)
    ensures r.Ok? <==> audio(path).Readable?
    ensures r.Ok? ==> r.value.path == OptimizedPath(path)
    ensures r.Ok? && quality == Medium ==> r.value.sampleRate == 22050
    ensures r.Ok? && quality == Low ==> r.value.sampleRate == 16000
    ensures r.Ok? && quality !in {Medium, Low} ==> r.value.sampleRate == audio(path).sampleRate
    ensures r.Err? ==> r.error == audio(path).cause
  {
    match audio(path)
    case Readable(rate) => Ok(Artifact(OptimizedPath(path), TargetRate(quality, rate)))
    case Unreadable(cause) => Err(cause)
  }

  /** The path `_post_process_outputs` reports for one separated file. */
  function ProcessedPath(path: string, quality: string): string
  {
    if quality == High then path else OptimizedPath(path)
  }

  /** The paths `_post_process_outputs` reports for a list of separated files. */
  function ProcessedPaths(files: seq<string>, quality: string): (r: seq<string>)
    ensures |r| == |files|
    ensures forall i :: 0 <= i < |files| ==> r[i] == ProcessedPath(files[i], quality)
  {
    if |files| == 0 then []
    else ProcessedPaths(files[..|files| - 1], quality) + [ProcessedPath(files[|files| - 1], quality)]
  }

  /** Whether every file can be loaded for re-encoding. */
  predicate AllReadable(files: seq<string>, audio: string -> Probe)
  {
    forall i :: 0 <= i < |files| ==> audio(files[i]).Readable?
  }

  /** `files[i]` is the first file that cannot be loaded, and it fails with `cause`. */
  predicate FirstUnreadable(files: seq<string>, i: int, audio: string -> Probe, cause: string)
  {
    && 0 <= i < |files|
    && audio(files[i]) == Unreadable(cause)
    && AllReadable(files[..i], audio)
  }

  /**
   * `_post_process_outputs`: the files in order, each mapped by quality; the
   * first file that cannot be loaded aborts the whole list with its cause.
   */
  function PostProcess(files: seq<string>, quality: string, audio: string -> Probe): (r: Result<seq<string>, string>)
    ensures r.Ok? ==> r.value == ProcessedPaths(files, quality)
    ensures r.Ok? <==> quality == High || AllReadable(files, audio)
    ensures r.Err? ==> exists i :: FirstUnreadable(files, i, audio, r.error)
  {
    if |files| == 0 then Ok([])
    else
      var init := files[..|files| - 1];
      var last := files[|files| - 1];
      match PostProcess(init, quality, audio)
      case Err(cause) =>
        PrefixFailure(files, init, audio, cause);
        assert !AllReadable(files, audio) by {
          var i :| FirstUnreadable(files, i, audio, cause);
        }
        Err(cause)
      case Ok(done) =>
        if quality == High then Ok(done + [last])
        else
          match Optimize(last, quality, audio)
          case Err(cause) =>
            assert FirstUnreadable(files, |files| - 1, audio, cause);
            Err(cause)
          case Ok(written) =>
            ExtendReadable(files, audio);
            Ok(done + [written.path])
  }

  lemma PrefixFailure(files: seq<string>, init: seq<string>, audio: string -> Probe, cause: string)
    requires |files| > 0 && init == files[..|files| - 1]
    requires exists i :: FirstUnreadable(init, i, audio, cause)
    ensures exists i :: FirstUnreadable(files, i, audio, cause)
  {
    var i :| FirstUnreadable(init, i, audio, cause);
    assert init[..i] == files[..i];
    assert FirstUnreadable(files, i, audio, cause);
  }

  lemma ExtendReadable(files: seq<string>, audio: string -> Probe)
    requires |files| > 0
    requires AllReadable(files[..|files| - 1], audio)
    requires audio(files[|files| - 1]).Readable?
    ensures AllReadable(files, audio)
  {
    forall i | 0 <= i < |files| ensures audio(files[i]).Readable? {
      if i < |files| - 1 { assert files[i] == files[..|files| - 1][i]; }
    }
  }

  /** Quality `high` hands back the separated list itself, whatever the files hold. */
  lemma HighQualityIsIdentity(files: seq<string>, audio: string -> Probe)
    ensures PostProcess(files, High, audio) == Ok(files)
  {
    var r := PostProcess(files, High, audio);
    assert r.value == ProcessedPaths(files, High);
    assert ProcessedPaths(files, High) == files;
  }

  /** Any other quality maps every file to its `_optimized` sibling, in order, or fails. */
  lemma LowerQualityRenames(files: seq<string>, quality: string, audio: string -> Probe)
    requires quality != High && AllReadable(files, audio)
    ensures PostProcess(files, quality, audio).Ok?
    ensures forall i :: 0 <= i < |files| ==> PostProcess(files, quality, audio).value[i] == OptimizedPath(files[i])
  {
  }

  /**
   * The optimised copy sits in the same directory as its source; its name is
   * the source's stem, then `_optimized`, then the source's suffix, and a
   * source with a suffix keeps it.
   */
  lemma {:induction false} OptimizedPathShape(path: string)
    ensures var n := Name(path);
            && Dir(OptimizedPath(path)) == Dir(path)
            && Name(OptimizedPath(path)) == Stem(n) + "_optimized" + Suffix(n)
    ensures var n := Name(path);
            Suffix(n) != "" ==>
              && Suffix(Name(OptimizedPath(path))) == Suffix(n)
              && Stem(Name(OptimizedPath(path))) == Stem(n) + "_optimized"
  {
    var n := Name(path);
    var newName := Stem(n) + "_optimized" + Suffix(n);
    OptimizedNamePlain(n);
    assert OptimizedPath(path) == Dir(path) + newName;
    DirEndsWithSeparator(path);
    NameAfterDir(Dir(path), newName);
    if Suffix(n) != "" {
      OptimizedNameSuffix(n);
    }
  }

  /** The renamed file's name has no separator and is not `.`. */
  lemma OptimizedNamePlain(n: string)
    requires '/' !in n
    ensures var m := Stem(n) + "_optimized" + Suffix(n);
            '/' !in m && |m| >= 10 && m != "."
  {
    var m := Stem(n) + "_optimized" + Suffix(n);
    StemSuffixSplit(n);
    assert '/' !in Stem(n) + Suffix(n);
    forall j | 0 <= j < |m| ensures m[j] != '/' {
      if j < |Stem(n)| { assert m[j] == (Stem(n) + Suffix(n))[j]; }
      else if j >= |Stem(n)| + 10 { assert m[j] == (Stem(n) + Suffix(n))[j - 10]; }
    }
  }

  /** A name with a suffix keeps it after the rename, with `_optimized` added to its stem. */
  lemma OptimizedNameSuffix(n: string)
    requires Suffix(n) != ""
    ensures var m := Stem(n) + "_optimized" + Suffix(n);
            Suffix(m) == Suffix(n) && Stem(m) == Stem(n) + "_optimized"
  {
    var m := Stem(n) + "_optimized" + Suffix(n);
    StemSuffixSplit(n);
    SuffixOfTail(m, Suffix(n));
    assert m[..|m| - |Suffix(n)|] == Stem(n) + "_optimized";
  }

  /**
   * `medium` and `low` set their rate unconditionally: the copy is written
   * above the source's rate exactly when the source is slower than the target.
   */
  lemma RateRaisedIff(quality: string, sourceRate: nat)
    ensures TargetRate(quality, sourceRate) > sourceRate <==>
              (quality == Medium && sourceRate < 22050) || (quality == Low && sourceRate < 16000)
    ensures TargetRate(quality, sourceRate) < sourceRate <==>
              (quality == Medium && sourceRate > 22050) || (quality == Low && sourceRate > 16000)
  {
  }
}
