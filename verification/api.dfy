/**
 * The request handlers of the FastAPI app: upload validation and task
 * creation, and the not-found / not-ready ladders of the status, download
 * and delete endpoints, each returning a response or an HTTP error.
 */
module Api {
  import opened Results
  import opened Paths
  import opened Separation
  import opened Tasks

  /** The errors the handlers raise, by kind. */
  datatype HttpError =
    | UnsupportedFileType
    | FileTooLarge
    | UploadFailed(cause: string)
    | TaskNotFound
    | TaskNotCompleted
    | FileNotFound
  {
    function Code(): nat
    {
      match this
      case UnsupportedFileType => 400
      case FileTooLarge => 400
      case UploadFailed(_) => 500
      case TaskNotFound => 404
      case TaskNotCompleted => 400
      case FileNotFound => 404
    }
  }

  /** A handler's response together with the state it leaves behind. */
  datatype Reply<T> = Reply(response: Result<T, HttpError>, store: Store)

  const AllowedExtensions: set<string> := {".mp3", ".wav", ".m4a", ".flac", ".ogg"}
  const MaxUploadSize: nat := 50 * 1024 * 1024
  const DefaultFilename := "uploaded_file"
  const UploadDir := "uploads"

  /** The upload's filename; a missing or empty one becomes `uploaded_file`. */
  function UploadName(filename: Option<string>): string
  {
    if filename.None? || filename.value == "" then DefaultFilename else filename.value
  }

  /** `Path(filename).suffix.lower()`. */
  function Extension(filename: string): string
  {
    Lower(Suffix(Name(filename)))
  }

  /**
   * The two upload checks, in order: the extension must be allowed, then a
   * known size must not exceed 50 MiB. An unknown or zero size passes.
   */
  function ValidateUpload(filename: Option<string>, size: Option<nat>): (r: Option<HttpError>)
    ensures r.None? <==>
              Extension(UploadName(filename)) in AllowedExtensions && (size.None? || size.value <= MaxUploadSize)
    ensures r == Some(UnsupportedFileType) <==> Extension(UploadName(filename)) !in AllowedExtensions
    ensures r == Some(FileTooLarge) <==>
              Extension(UploadName(filename)) in AllowedExtensions && size.Some? && size.value > MaxUploadSize
    ensures r.Some? ==> r.value.Code() == 400
  {
    if Extension(UploadName(filename)) !in AllowedExtensions then Some(UnsupportedFileType)
    else if size.Some? && size.value > 0 && size.value > MaxUploadSize then Some(FileTooLarge)
    else None
  }

  /** Lower-casing maps a character to `.` only if it is `.`. */
  lemma LowerDot(c: char)
    ensures LowerChar(c) == '.' <==> c == '.'
  {
  }

  lemma LowerSlice(s: string, i: nat)
    requires i <= |s|
    ensures Lower(s)[i..] == Lower(s[i..])
  {
  }

  /** Each allowed extension is a dot followed by at least one dot-free character. */
  lemma AllowedExtensionShape(e: string)
    requires e in AllowedExtensions
    ensures |e| >= 2 && e[0] == '.' && '.' !in e[1..]
  {
  }

  /** A lower-cased name ending in an allowed extension, with something before it, has that suffix. */
  lemma SuffixFromLoweredTail(n: string, e: string)
    requires e in AllowedExtensions && EndsWith(Lower(n), e) && |n| > |e|
    ensures Lower(Suffix(n)) == e
  {
    AllowedExtensionShape(e);
    var k := |n| - |e|;
    var tail := n[k..];
    LowerSlice(n, k);
    assert Lower(tail) == e;
    LowerDot(tail[0]);
    assert '.' !in tail[1..] by {
      forall j | 0 <= j < |tail[1..]| ensures tail[1..][j] != '.' {
        assert Lower(tail)[j + 1] == e[1..][j];
        LowerDot(tail[j + 1]);
      }
    }
    SuffixOfTail(n, tail);
  }

  /** An allowed extension means the lower-cased name ends with it and has something before it. */
  lemma LoweredTailFromSuffix(n: string)
    requires Lower(Suffix(n)) in AllowedExtensions
    ensures EndsWith(Lower(n), Lower(Suffix(n))) && |n| > |Lower(Suffix(n))|
  {
    assert Suffix(n) != "";
    var i := SuffixDot(n);
    LowerSlice(n, i);
  }

  /**
   * An upload's extension is allowed exactly when its file name, lower-cased,
   * ends with one of the allowed extensions and has something before it.
   */
  lemma ExtensionAllowedIff(filename: string)
    ensures Extension(filename) in AllowedExtensions <==>
              exists e :: e in AllowedExtensions && EndsWith(Lower(Name(filename)), e) && |Name(filename)| > |e|
  {
    var n := Name(filename);
    if Extension(filename) in AllowedExtensions {
      LoweredTailFromSuffix(n);
    }
    if exists e :: e in AllowedExtensions && EndsWith(Lower(n), e) && |n| > |e| {
      var e :| e in AllowedExtensions && EndsWith(Lower(n), e) && |n| > |e|;
      SuffixFromLoweredTail(n, e);
    }
  }

  /** A missing filename defaults to `uploaded_file`, which has no suffix and is always refused. */
  lemma MissingFilenameRejected(size: Option<nat>)
    ensures ValidateUpload(None, size) == Some(UnsupportedFileType)
  {
    DefaultFilenameHasNoSuffix();
    assert UploadName(None) == DefaultFilename;
    assert Extension(DefaultFilename) == "";
  }

  /** `uploaded_file` is its own name and has no dot, so no suffix. */
  lemma DefaultFilenameHasNoSuffix()
    ensures Suffix(Name(DefaultFilename)) == ""
  {
    var n := DefaultFilename;
    assert '/' !in n && '.' !in n;
    assert n[0..] == n;
    assert RFind(n, '/') == -1;
    assert Name(n) == n;
    assert RFind(n, '.') == -1;
  }

  /**
   * How saving the upload went. `fileOpened` says whether the file had already
   * been opened for writing (created or truncated) when reading the upload
   * or writing it raised; the empty or partial file then stays on disk.
   */
  datatype SaveOutcome = Saved | SaveFailed(cause: string, fileOpened: bool)

  /** What a successful `POST /extract-audio` returns. */
  datatype Accepted = Accepted(taskId: TaskId, status: string, message: string)

  /** Where the upload is written. */
  function UploadPath(filename: Option<string>): string
  {
    Join(UploadDir, UploadName(filename))
  }

  /**
   * `extract_audio`: validate, save the upload, create the task. The reply
   * says "processing" although the record it stores is still pending.
   */
  function ExtractAudio(store: Store, filename: Option<string>, size: Option<nat>, separationType: SeparationType,
                        quality: string, newId: TaskId, save: SaveOutcome): (r: Reply<Accepted>)
    requires newId !in store.tasks  // a fresh UUID
    ensures r.response.Ok? <==> ValidateUpload(filename, size).None? && save.Saved?
    ensures r.response.Err? ==>
              r.store == if ValidateUpload(filename, size).None? && save.SaveFailed? && save.fileOpened
                         then Store(store.tasks, store.files + {UploadPath(filename)}) else store
    ensures ValidateUpload(filename, size).Some? ==> r.response == Err(ValidateUpload(filename, size).value)
    ensures r.response.Err? && ValidateUpload(filename, size).None? ==> r.response.error == UploadFailed(save.cause)
    ensures r.response.Ok? ==> r.response.value.taskId == newId && r.response.value.status == "processing"
    ensures r.response.Ok? ==> r.store.tasks.Keys == store.tasks.Keys + {newId}
    ensures r.response.Ok? ==> r.store.tasks[newId] == NewTask(UploadPath(filename), separationType.Value(), quality)
    ensures r.response.Ok? ==> forall k :: k in store.tasks ==> r.store.tasks[k] == store.tasks[k]
    ensures r.response.Ok? ==> r.store.files == store.files + {UploadPath(filename)}
  {
    match ValidateUpload(filename, size)
    case Some(err) => Reply(Err(err), store)
    case None =>
      match save
      case SaveFailed(cause, fileOpened) =>
        Reply(Err(UploadFailed(cause)), if fileOpened then Store(store.tasks, store.files + {UploadPath(filename)}) else store)
      case Saved =>
        var path := UploadPath(filename);
        var tasks := CreateTask(store.tasks, newId, path, separationType.Value(), quality);
        Reply(Ok(Accepted(newId, "processing", "Audio extraction started successfully")), Store(tasks, store.files + {path}))
  }

  /**
   * Polling an accepted task before its execution unit writes the first
   * checkpoint shows it pending at progress 0 with "Task created", although
   * the reply to the upload said "processing".
   */
  lemma StatusAfterExtract(store: Store, filename: Option<string>, size: Option<nat>, separationType: SeparationType,
                           quality: string, newId: TaskId, save: SaveOutcome)
    requires newId !in store.tasks
    ensures var reply := ExtractAudio(store, filename, size, separationType, quality, newId, save);
            var view := GetProcessingStatus(reply.store.tasks, newId);
            reply.response.Ok? ==>
            && view.Ok?
            && view.value.status == "pending" != reply.response.value.status
            && view.value.progress == 0
            && view.value.message == CreatedMessage
            && view.value.downloadUrls == None
  {
  }

  /** What `GET /status/{task_id}` returns. */
  datatype StatusView = StatusView(taskId: TaskId, status: string, progress: nat, message: string, downloadUrls: Option<seq<string>>)

  /** `get_processing_status`: 404 for an unknown id, else the stored record's fields. */
  function GetProcessingStatus(tasks: Registry, id: TaskId): (r: Result<StatusView, HttpError>)
    ensures r.Err? <==> id !in tasks
    ensures r.Err? ==> r.error == TaskNotFound
    ensures r.Ok? ==>
              && r.value.taskId == id
              && r.value.status == tasks[id].status.Text()
              && r.value.progress == tasks[id].progress
              && r.value.message == tasks[id].message
              && r.value.downloadUrls == tasks[id].downloadUrls
  {
    match GetTaskStatus(tasks, id)
    case None => Err(TaskNotFound)
    case Some(t) => Ok(StatusView(id, t.status.Text(), t.progress, t.message, t.downloadUrls))
  }

  /** What `GET /download/{task_id}/{filename}` serves. */
  datatype FileDownload = FileDownload(path: string, filename: string, mediaType: string)

  /** The file a download request names. */
  function DownloadPath(id: TaskId, filename: string): string
  {
    Join(TaskDir(id), filename)
  }

  /**
   * `download_file`: unknown task, then unfinished task, then missing file;
   * otherwise the file under the task's directory.
   */
  function DownloadFile(store: Store, id: TaskId, filename: string): (r: Result<FileDownload, HttpError>)
    ensures r == Err(TaskNotFound) <==> id !in store.tasks
    ensures r == Err(TaskNotCompleted) <==> id in store.tasks && store.tasks[id].status != Completed
    ensures r == Err(FileNotFound) <==>
              id in store.tasks && store.tasks[id].status == Completed && DownloadPath(id, filename) !in store.files
    ensures r.Ok? <==>
              id in store.tasks && store.tasks[id].status == Completed && DownloadPath(id, filename) in store.files
    ensures r.Ok? ==> r.value == FileDownload(DownloadPath(id, filename), filename, "audio/wav")
  {
    match GetTaskStatus(store.tasks, id)
    case None => Err(TaskNotFound)
    case Some(t) =>
      if t.status != Completed then Err(TaskNotCompleted)
      else
        var path := DownloadPath(id, filename);
        if path !in store.files then Err(FileNotFound)
        else Ok(FileDownload(path, filename, "audio/wav"))
  }

  /** `delete_task`: 404 without cleanup for an unknown id, else cleanup. */
  function DeleteTask(store: Store, id: TaskId): (r: Reply<string>)
    ensures id !in store.tasks ==> r == Reply(Err(TaskNotFound), store)
    ensures id in store.tasks ==> r.response == Ok("Task deleted successfully")
    ensures id !in r.store.tasks
    ensures id in store.tasks ==> r.store.tasks.Keys == store.tasks.Keys - {id}
    ensures forall k :: k in r.store.tasks ==> r.store.tasks[k] == store.tasks[k]
    ensures id in store.tasks ==>
              forall p :: p in r.store.files <==> p in store.files && !Within(p, TaskDir(id))
  {
    if GetTaskStatus(store.tasks, id).None? then Reply(Err(TaskNotFound), store)
    else Reply(Ok("Task deleted successfully"), CleanupTask(store, id))
  }

  /**
   * After a delete the id is gone: status and download say 404, a second
   * delete says 404 and changes nothing, and no file of the task remains.
   */
  lemma DeleteIsFinal(store: Store, id: TaskId, filename: string)
    requires id in store.tasks
    ensures var s := DeleteTask(store, id).store;
            && GetProcessingStatus(s.tasks, id) == Err(TaskNotFound)
            && DownloadFile(s, id, filename) == Err(TaskNotFound)
            && DeleteTask(s, id) == Reply(Err(TaskNotFound), s)
            && (forall p :: p in s.files ==> !Within(p, TaskDir(id)))
  {
  }

  /** One entry of the separation types `get_supported_formats` declares. */
  datatype SeparationInfo = SeparationInfo(name: string, outputFiles: nat)

  /** The body of `GET /supported-formats`, without the descriptions. */
  datatype Formats = Formats(supportedFormats: seq<string>, separationTypes: seq<SeparationInfo>, qualityOptions: seq<string>)

  /**
   * `get_supported_formats`. The formats it lists are the upload check's
   * extensions without their dot, and each declared output count is the
   * stem count of the Spleeter model the type selects.
   */
  function SupportedFormats(): (r: Formats)
    ensures forall f :: f in r.supportedFormats ==> "." + f in AllowedExtensions
    ensures forall e :: e in AllowedExtensions ==> e[1..] in r.supportedFormats
    ensures |r.separationTypes| == 3
    ensures forall i :: 0 <= i < |r.separationTypes| ==>
              r.separationTypes[i].outputFiles == StemCount(SpleeterModel(r.separationTypes[i].name))
  {
    var r := Formats(
      ["mp3", "wav", "m4a", "flac", "ogg"],
      [ SeparationInfo("vocals_accompaniment", 2),
        SeparationInfo("vocals_drums_bass_other", 4),
        SeparationInfo("vocals_drums_bass_piano_other", 5) ],
      ["high", "medium", "low"]);
    assert "." + "mp3" == ".mp3" && "." + "wav" == ".wav" && "." + "m4a" == ".m4a";
    assert "." + "flac" == ".flac" && "." + "ogg" == ".ogg";
    assert ".mp3"[1..] == "mp3" && ".wav"[1..] == "wav" && ".m4a"[1..] == "m4a";
    assert ".flac"[1..] == "flac" && ".ogg"[1..] == "ogg";
    r
  }

  /** Every separation type is declared, with the stem count of the model it selects. */
  lemma DeclaredCountsMatchModels(t: SeparationType)
    ensures SeparationInfo(t.Value(), StemCount(SpleeterModel(t.Value()))) in SupportedFormats().separationTypes
  {
    var declared := SupportedFormats().separationTypes;
    match t
    case VocalsAccompaniment => assert declared[0] == SeparationInfo(t.Value(), 2);
    case VocalsDrumsBassOther => assert declared[1] == SeparationInfo(t.Value(), 4);
    case VocalsDrumsBassPianoOther => assert declared[2] == SeparationInfo(t.Value(), 5);
  }

  /**
   * The fallback does not honour the declared counts beyond two stems: for
   * the 5-stem type it writes 4 files where 5 are declared.
   */
  lemma FallbackCountDiffersForFiveStems(outputDir: string)
    ensures |BasicOutputs(outputDir, VocalsDrumsBassPianoOther.Value())| == 4
    ensures SupportedFormats().separationTypes[2] == SeparationInfo(VocalsDrumsBassPianoOther.Value(), 5)
  {
  }
}
