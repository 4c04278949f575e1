/**
 * The separation backend of `AudioProcessor`: the Spleeter model table, the
 * command it runs, how its output tree is read back, the shape of the
 * fallback's outputs, and the choice between the two.
 */
module Separation {
  import opened Results
  import opened Paths

  /** The separation types the HTTP layer accepts, with the string each stands for. */
  datatype SeparationType = VocalsAccompaniment | VocalsDrumsBassOther | VocalsDrumsBassPianoOther
  {
    function Value(): string
    {
      match this
      case VocalsAccompaniment => "vocals_accompaniment"
      case VocalsDrumsBassOther => "vocals_drums_bass_other"
      case VocalsDrumsBassPianoOther => "vocals_drums_bass_piano_other"
    }
  }

  const TwoStems := "spleeter:2stems"
  const FourStems := "spleeter:4stems"
  const FiveStems := "spleeter:5stems"

  /** Number of stems a Spleeter model configuration produces. */
  function StemCount(model: string): nat
  {
    if model == FiveStems then 5 else if model == FourStems then 4 else 2
  }

  /** The model configuration Spleeter is asked for; unknown types fall back to 2 stems. */
  function SpleeterModel(separationType: string): (model: string)
    ensures model == FourStems <==> separationType == VocalsDrumsBassOther.Value()
    ensures model == FiveStems <==> separationType == VocalsDrumsBassPianoOther.Value()
    ensures model == TwoStems <==> separationType !in {VocalsDrumsBassOther.Value(), VocalsDrumsBassPianoOther.Value()}
  {
    if separationType == VocalsAccompaniment.Value() then TwoStems
    else if separationType == VocalsDrumsBassOther.Value() then FourStems
    else if separationType == VocalsDrumsBassPianoOther.Value() then FiveStems
    else TwoStems
  }

  /** The arguments after the interpreter path: `-m spleeter separate ...`. */
  function SpleeterCommand(inputPath: string, outputDir: string, model: string): seq<string>
  {
    ["-m", "spleeter", "separate", "--output_path", outputDir, "--params_filename", model, inputPath]
  }

  /** One path below Spleeter's output directory, as a recursive listing reports it. */
  datatype Entry = Entry(path: string, isFile: bool)

  /** What `rglob("*.wav")` followed by `is_file()` keeps. */
  predicate IsWavFile(e: Entry)
  {
    e.isFile && EndsWith(Name(e.path), ".wav")
  }

  /** The paths of the `.wav` files of a listing, in listing order. */
  function WavFiles(entries: seq<Entry>): (r: seq<string>)
    ensures |r| <= |entries|
    ensures forall p :: p in r ==> exists e :: e in entries && IsWavFile(e) && e.path == p
    ensures forall e :: e in entries && IsWavFile(e) ==> e.path in r
  {
    if |entries| == 0 then []
    else
      var rest := WavFiles(entries[..|entries| - 1]);
      var last := entries[|entries| - 1];
      assert entries == entries[..|entries| - 1] + [last];
      if IsWavFile(last) then rest + [last.path] else rest
  }

  /**
   * Filtering a listing piecewise is filtering it whole: the result keeps the
   * listing's order and lists a path once per entry that produced it.
   */
  lemma {:induction false} WavFilesAppend(a: seq<Entry>, b: seq<Entry>)
    ensures WavFiles(a + b) == WavFiles(a) + WavFiles(b)
    decreases |b|
  {
    if |b| == 0 {
      assert a + b == a;
    } else {
      var ab := a + b;
      var b' := b[..|b| - 1];
      assert ab[..|ab| - 1] == a + b';
      assert ab[|ab| - 1] == b[|b| - 1];
      WavFilesAppend(a, b');
    }
  }

  /** A single entry contributes its path exactly when it is a `.wav` file. */
  lemma WavFilesSingle(e: Entry)
    ensures WavFiles([e]) == if IsWavFile(e) then [e.path] else []
  {
    assert [e][..0] == [];
  }

  /**
   * The file names the fallback writes, in the order it returns them: the
   * two stems, or the four time segments `segment_{i + 1}.wav`.
   */
  function BasicNames(separationType: string): seq<string>
  {
    if separationType == VocalsAccompaniment.Value() then ["vocals.wav", "accompaniment.wav"]
    else ["segment_1.wav", "segment_2.wav", "segment_3.wav", "segment_4.wav"]
  }

  /** The files `_basic_audio_separation` writes: each name joined onto the output directory. */
  function BasicOutputs(outputDir: string, separationType: string): (r: seq<string>)
    ensures |r| == |BasicNames(separationType)|
    ensures forall k :: 0 <= k < |r| ==> r[k] == Join(outputDir, BasicNames(separationType)[k])
  {
    var names := BasicNames(separationType);
    seq(|names|, k requires 0 <= k < |names| => Join(outputDir, names[k]))
  }

  /** How the Spleeter subprocess ended. */
  datatype EngineRun =
    /**
     * `tree` is the recursive listing of the directory Spleeter writes its
     * stems to, `<outputDir>/<stem of the input's name>`, or `None` when that
     * directory does not exist.
     */
    | Exited(code: int, tree: Option<seq<Entry>>)
    /**
     * Starting or awaiting the process raised, or, after a nonzero exit,
     * decoding its output for the log raised: either way the handler's
     * single fallback attempt follows.
     */
    | LaunchFailed(cause: string)

  /** Whether one run of the fallback wrote its files or raised. */
  datatype BasicRun = Written | Raised(cause: string)

  /**
   * The external collaborators of a separation: the Spleeter subprocess as a
   * function of its command line, and the first and any second attempt of the
   * in-process fallback.
   */
  datatype Backend = Backend(engine: seq<string> -> EngineRun, basicFirst: BasicRun, basicRetry: BasicRun)

  predicate EngineSucceeded(run: EngineRun)
  {
    run.Exited? && run.code == 0
  }

  /** What the process reports for the command built for this input. */
  function EngineRunFor(inputPath: string, outputDir: string, separationType: string, backend: Backend): EngineRun
  {
    backend.engine(SpleeterCommand(inputPath, outputDir, SpleeterModel(separationType)))
  }

  /** One fallback attempt: its file list, or the cause it raised with. */
  function Fallback(outputDir: string, separationType: string, run: BasicRun): Result<seq<string>, string>
  {
    match run
    case Written => Ok(BasicOutputs(outputDir, separationType))
    case Raised(cause) => Err(cause)
  }

  /** The files a finished Spleeter run left behind; none when its output directory is missing. */
  function FoundFiles(tree: Option<seq<Entry>>): seq<string>
  {
    match tree
    case None => []
    case Some(entries) => WavFiles(entries)
  }

  /**
   * `_separate_audio_spleeter`. A zero exit returns whatever `.wav` files the
   * output tree holds, possibly none. A nonzero exit runs the fallback inside
   * the `try`, so if that raises the handler runs it once more; a launch
   * failure runs it once, from the handler.
   */
  function Separate(inputPath: string, outputDir: string, separationType: string, backend: Backend): (r: Result<seq<string>, string>)
    // a zero exit never falls back, even when it found no files
    ensures var run := EngineRunFor(inputPath, outputDir, separationType, backend);
            EngineSucceeded(run) ==> r == Ok(FoundFiles(run.tree))
    // otherwise the only possible output is the fallback's
    ensures var run := EngineRunFor(inputPath, outputDir, separationType, backend);
            !EngineSucceeded(run) && r.Ok? ==> r.value == BasicOutputs(outputDir, separationType)
    // the fallback gets a second attempt only after a nonzero exit
    ensures var run := EngineRunFor(inputPath, outputDir, separationType, backend);
            !EngineSucceeded(run) ==>
              (r.Ok? <==> backend.basicFirst.Written? || (run.Exited? && backend.basicRetry.Written?))
    // a failure carries the cause of the last fallback attempt
    ensures var run := EngineRunFor(inputPath, outputDir, separationType, backend);
            r.Err? ==> r.error == (if run.Exited? then backend.basicRetry.cause else backend.basicFirst.cause)
  {
    match EngineRunFor(inputPath, outputDir, separationType, backend)
    case LaunchFailed(_) => Fallback(outputDir, separationType, backend.basicFirst)
    case Exited(code, tree) =>
      if code != 0 then
        if backend.basicFirst.Written? then Fallback(outputDir, separationType, backend.basicFirst)
        else Fallback(outputDir, separationType, backend.basicRetry)
      else Ok(FoundFiles(tree))
  }

  /**
   * The fallback writes `vocals.wav` and `accompaniment.wav` for
   * vocals/accompaniment and `segment_1.wav` .. `segment_4.wav` for every
   * other type, the 5-stem one included, each directly inside the output
   * directory and all distinct.
   */
  lemma BasicOutputsShape(outputDir: string, separationType: string)
    ensures var r := BasicOutputs(outputDir, separationType);
            && |r| == |BasicNames(separationType)| == (if separationType == VocalsAccompaniment.Value() then 2 else 4)
            && (forall i :: 0 <= i < |r| ==> Dir(r[i]) == DirPrefix(outputDir) && Name(r[i]) == BasicNames(separationType)[i])
            && (forall i, j :: 0 <= i < j < |r| ==> r[i] != r[j])
  {
    var r := BasicOutputs(outputDir, separationType);
    var names := BasicNames(separationType);
    assert |r| == |names|;
    forall i | 0 <= i < |r| ensures Dir(r[i]) == DirPrefix(outputDir) && Name(r[i]) == names[i] {
      BasicOutputIsJoin(outputDir, separationType, i);
      JoinedName(outputDir, names[i]);
    }
    forall i, j | 0 <= i < j < |r| ensures r[i] != r[j] {
      BasicOutputIsJoin(outputDir, separationType, i);
      BasicOutputIsJoin(outputDir, separationType, j);
      BasicNamesDistinct(separationType, i, j);
      var p := DirPrefix(outputDir);
      assert r[i][|p|..] == names[i] && r[j][|p|..] == names[j];
    }
  }

  lemma BasicNamesDistinct(separationType: string, i: nat, j: nat)
    requires i < j < |BasicNames(separationType)|
    ensures BasicNames(separationType)[i] != BasicNames(separationType)[j]
  {
    var names := BasicNames(separationType);
    if separationType != VocalsAccompaniment.Value() {
      assert names[i][8] != names[j][8];
    }
  }

  lemma BasicOutputIsJoin(outputDir: string, separationType: string, i: nat)
    requires i < |BasicNames(separationType)|
    ensures |BasicOutputs(outputDir, separationType)| == |BasicNames(separationType)|
    ensures BasicOutputs(outputDir, separationType)[i] == DirPrefix(outputDir) + BasicNames(separationType)[i]
    ensures '/' !in BasicNames(separationType)[i] && |BasicNames(separationType)[i]| >= 10
  {
    BasicNamePlain(separationType, i);
  }

  /** Every fallback name is a plain relative name of at least ten characters. */
  lemma BasicNamePlain(separationType: string, i: nat)
    requires i < |BasicNames(separationType)|
    ensures var n := BasicNames(separationType)[i];
            '/' !in n && |n| >= 10 && n[0] != '/'
  {
    var names := BasicNames(separationType);
    if separationType == VocalsAccompaniment.Value() {
      assert names == ["vocals.wav", "accompaniment.wav"];
    } else {
      assert names == ["segment_1.wav", "segment_2.wav", "segment_3.wav", "segment_4.wav"];
    }
  }

  /** A plain name joined to a directory is that path's name, under that directory. */
  lemma JoinedName(dir: string, name: string)
    requires '/' !in name && |name| >= 2
    ensures Dir(DirPrefix(dir) + name) == DirPrefix(dir) && Name(DirPrefix(dir) + name) == name
  {
    NameAfterDir(DirPrefix(dir), name);
  }
}
