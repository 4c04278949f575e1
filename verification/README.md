# Sound-Extractor task orchestration, modelled in Dafny

This project models the core of the Sound-Extractor audio service: the
per-task bookkeeping of `AudioProcessor` and the request guards of the
FastAPI handlers. An upload becomes a task record in an in-memory registry.
A background run then walks the record through fixed checkpoints: load the
input, run the Spleeter separation (or its in-process fallback), post-process
the results by quality, and finish as `completed` or `failed`. Clients poll
the record, download finished files, and delete the task.

Everything is pure. The registry is a `map<TaskId, Task>`, and progress counts
tenths (0..10 for 0.0..1.0). The background coroutine is a step function over
an execution state `Exec(stage, task)`. `stage` records which checkpoint the
coroutine writes next. The outside world is a value `Env`:
- the set of existing paths;
- the Spleeter subprocess, as a function from its command line to an exit
  code and output listing, or a launch failure;
- the outcome of each fallback attempt;
- what loading each produced file reports.

Modules, one per component:
- `Results`: `Option` and `Result`.
- `Paths`: the parts of `pathlib` and `str` the code relies on. These are
  `name`, `suffix`, `stem`, `/`, `rfind` and ASCII `lower`.
- `Separation`: the model table, the Spleeter command, the `.wav` filter,
  the fallback's outputs, and the choice between primary and fallback.
- `PostProcessing`: the target rate, the `_optimized` path and
  `_post_process_outputs`.
- `Tasks`: the record, the registry, `get_task_status` and `cleanup_task`.
- `Orchestrator`: `_process_audio_async` as `Step`/`Run`/`Trace`, with
  lemmas over the trace.
- `Api`: `extract_audio`, `get_processing_status`, `download_file`,
  `delete_task` and `get_supported_formats`.

## Model

| member | source | states |
|---|---|---|
| Tasks.CreateTask | app/audio_processor.py:57-72 | A fresh id is added with status pending, progress 0, message "Task created", the given input, separation type and quality, and no download urls. Every other record is unchanged. |
| Tasks.GetTaskStatus | app/audio_processor.py:252-254 | Returns the stored record exactly when the id is present, and none otherwise. |
| Tasks.CleanupTask | app/audio_processor.py:256-266 | For a known id, removes only that record and every path in `outputs/<id>`. An unknown id changes nothing. Other records are untouched. |
| Tasks.CleanupUndoesCreate | app/audio_processor.py:256-266 | Cleaning up a task that was just created, before it wrote any file, gives back the original store. |
| Orchestrator.Step | app/audio_processor.py:74-121 | Each checkpoint write moves the execution strictly closer to its end, and a finished execution stays finished. The input, separation type and quality are never changed. What each checkpoint writes is stated by the trace lemmas below. |
| Orchestrator.StepForward | app/audio_processor.py:76-121 | From a record consistent with its stage, one step keeps it consistent. Progress and status never go back, and status changes only pending→processing→completed/failed. |
| Orchestrator.RunForward | app/audio_processor.py:76-121 | Over all records written from a consistent state: progress and status never go back, and each status change is allowed. Only the last record can hold download urls, and it is terminal. |
| Orchestrator.TraceForward | app/audio_processor.py:76-121 | For any outcome of the outside world, the task's progress never decreases. Status only moves forward. Download urls appear only in the final record. The final record is completed or failed, has progress 1.0 iff completed, and holds urls iff completed. |
| Orchestrator.SuccessTrace | app/audio_processor.py:78-113 | On success the progress values are 0, 0.1, 0.2, 0.3, 0.8, 1.0. Statuses are pending, four times processing, then completed. The final record holds the post-processed list. |
| Orchestrator.MissingInputTrace | app/audio_processor.py:78-121 | A missing input fails with progress left at 0.1. The message is "Processing failed: Input file not found: <path>", and there are no download urls. |
| Orchestrator.SeparationFailureTrace | app/audio_processor.py:94-121 | When the backend fails, the task fails at progress 0.3. Its message is "Processing failed: " plus the fallback's cause. |
| Orchestrator.PostProcessingFailureTrace | app/audio_processor.py:104-121 | When post-processing fails, the task fails at progress 0.8 even though separation succeeded, and there are no download urls. |
| Orchestrator.Advance | app/audio_processor.py:77-121 | A checkpoint write changes only its own task's record. It never adds a key, so a record removed by cleanup is never brought back. |
| Separation.SpleeterModel | app/audio_processor.py:127-133 | `vocals_drums_bass_other` maps to 4stems and `vocals_drums_bass_piano_other` to 5stems. Every other string, `vocals_accompaniment` included, maps to 2stems. |
| Separation.WavFiles | app/audio_processor.py:168-171 | The result contains exactly the paths of the listing's entries that are files named `*.wav`, and is no longer than the listing. |
| Separation.WavFilesAppend | app/audio_processor.py:168-171 | Filtering a concatenated listing is concatenating the filtered parts, so the result keeps the listing's order. |
| Separation.WavFilesSingle | app/audio_processor.py:169-171 | One entry contributes its path once if it is a file named `*.wav`, and nothing otherwise. Together with the previous row, this pins the result down entry by entry. |
| Separation.Separate | app/audio_processor.py:123-179 | A zero exit returns the `.wav` files found, possibly none, and never falls back. Otherwise the only possible output is the fallback's. After a nonzero exit a raising fallback is run a second time. A failure carries the last attempt's cause. |
| Separation.BasicOutputsShape | app/audio_processor.py:181-213 | The fallback writes `vocals.wav` and `accompaniment.wav` for vocals_accompaniment. For every other type it writes `segment_1.wav`..`segment_4.wav` in order. All are distinct and lie directly in the output directory. |
| PostProcessing.Optimize | app/audio_processor.py:230-250 | Fails exactly when the file cannot be loaded, with that cause. Otherwise it writes `OptimizedPath(path)`: at 22050 Hz for medium, at 16000 Hz for low, and at the source's own rate for any other quality. |
| PostProcessing.PostProcess | app/audio_processor.py:215-228 | Succeeds iff the quality is high or every file loads. On success the list has the same length and order, each entry is the file or its optimised path. A failure names the first unloadable file's cause. |
| PostProcessing.HighQualityIsIdentity | app/audio_processor.py:219-222 | Quality `high` returns the input list unchanged, whatever the files contain. |
| PostProcessing.LowerQualityRenames | app/audio_processor.py:223-226 | For any other quality with loadable files, every entry becomes its `_optimized` sibling, in order. |
| PostProcessing.OptimizedPathShape | app/audio_processor.py:246-247 | The copy is in the source's directory and named stem + "_optimized" + suffix. A source with a suffix keeps that suffix. |
| PostProcessing.RateRaisedIff | app/audio_processor.py:236-243 | The written rate is above the source's exactly when medium meets a source under 22050 Hz or low meets one under 16000 Hz. It is below exactly in the mirrored cases. |
| Api.ValidateUpload | app/main.py:85-102 | Accepts iff the lower-cased suffix is one of .mp3/.wav/.m4a/.flac/.ogg and the size is unknown or at most 50 MiB. The extension check comes first: an unsupported type is `UnsupportedFileType`, and an allowed one with a known size over 50 MiB is `FileTooLarge`, each iff. Every rejection is a 400. |
| Api.ExtensionAllowedIff | app/main.py:86-90 | The extension is allowed iff the lower-cased file name ends with an allowed extension and has at least one character before it. |
| Api.MissingFilenameRejected | app/main.py:87-94 | A missing filename becomes `uploaded_file`, which has no suffix, so the upload is always rejected as unsupported. |
| Api.ExtractAudio | app/main.py:104-128 | Succeeds iff validation passes and the upload is saved. It then adds exactly the new pending record for the saved path and the saved file, leaves every other record as it was, and replies "processing" with the new id. A rejected upload answers with the validator's own 400 error and changes nothing. A save failure answers with a 500 carrying its cause and adds no record. The upload path is left in the file set exactly when the file had already been opened for writing before the read or write raised. |
| Api.StatusAfterExtract | app/main.py:114-146 | Polling an accepted task before its first checkpoint finds it, pending at progress 0 with "Task created" and no urls. The upload's reply said "processing", so the two disagree. |
| Api.GetProcessingStatus | app/main.py:131-146 | 404 iff the id is unknown. Otherwise it echoes the record's status text, progress, message and download urls. |
| Api.DownloadFile | app/main.py:149-171 | An unknown id gives 404, then an unfinished task gives 400, then a missing `outputs/<id>/<filename>` gives 404. Each holds in both directions. A completed task whose file exists is always served, as that path with type audio/wav. |
| Api.DeleteTask | app/main.py:174-186 | An unknown id gives 404 and changes nothing. A known id is cleaned up and is then absent. Other records are unchanged, and exactly the files under `outputs/<id>` are removed. |
| Api.DeleteIsFinal | app/main.py:178-186 | After a delete, status and download give 404, and a second delete gives 404 and changes nothing. No file of the task remains. |
| Api.SupportedFormats | app/main.py:189-225 | The listed formats are exactly the upload check's extensions without the dot. Each declared output count is the stem count of the model its type selects. |
| Api.DeclaredCountsMatchModels | app/main.py:194-209 | Every separation type is declared with 2, 4 or 5 outputs, matching the Spleeter model table. |
| Api.FallbackCountDiffersForFiveStems | app/main.py:205-209 | The 5-stem type is declared with 5 outputs, but the fallback writes 4 files for it. |

Behaviour of the code worth knowing:

- `cleanup_task` on an unknown id does nothing. The 404 for an unknown id
  comes from the delete handler, which does not call cleanup then.
- `medium` and `low` set the rate to 22050 or 16000 Hz whatever the source's
  rate, so a slower source is upsampled (`RateRaisedIff`). This is despite
  the comment "Reduce quality for smaller file size"
  (app/audio_processor.py:224) and the advertised "Reduced quality (22050 Hz,
  smaller files)" (app/main.py:218-222).
- A Spleeter run that exits 0 without an output directory yields an empty
  list with no fallback. The task then completes with an empty download
  list.
- After a nonzero Spleeter exit, a fallback that raises is run a second time
  by the exception handler. A launch failure gives it only one attempt. So
  does a nonzero exit whose output fails to decode for the log
  (app/audio_processor.py:155-156). `Backend` reports that case as
  `LaunchFailed`.
- The extract endpoint replies with status "processing" while the stored
  record is still `pending`.
- Each checkpoint's two to four field writes contain no `await`, and every
  handler runs on the same event loop. So a poller never sees a mix of two
  checkpoints, and `Step` writing a checkpoint at once is exact. The
  coroutine suspends only while the Spleeter subprocess starts and runs
  (app/audio_processor.py:146-152). No `await` before it, in the fallback
  or in post-processing suspends. So a poller can see at most the pending
  record, the 0.3 "Separating audio tracks..." record and the final record,
  and never 0.1, 0.2 or 0.8. Even 0.3 is not always visible: when starting
  the subprocess fails, the error is raised before its first `await`, and
  the coroutine runs on to the failed record without suspending.
- The 5-stem type gets 4 time segments from the fallback and 5 stems from
  Spleeter.

## Left out

- The Spleeter subprocess, `initialize_models` and `asyncio` scheduling. The
  subprocess is a function of its arguments in `Backend`, without the
  interpreter path that precedes `-m spleeter`. `Trace` lists every record
  the coroutine writes. Which of them a poller can observe is described in
  prose above, not proved.
- TraceForward: holds, like `RunForward` and the trace lemmas, for runs whose
  external calls return. The source sets no timeout, so a subprocess or file
  load that never returns leaves the task at its last checkpoint forever;
  such a run is not modelled.
- Signal processing: `librosa.load`, harmonic separation, `np.array_split`,
  resampling and `sf.write`. Only file lists, file names and sample rates are
  modelled. A failed `sf.write` or a failed `mkdir` of the task directory
  (line 89) is not a modelled failure.
- File-system effects of the background run. `Store.files` is an abstract
  set of existing paths that the handlers read and cleanup removes from.
  The files the run writes are not added to it.
- Orchestrator.Step: its own contract states only termination and the
  fields it keeps. The values each checkpoint writes are stated over whole
  executions by `StepForward`, `TraceForward` and the four trace lemmas.
- Tasks.CreateTask: requires the new id to be absent, standing for the
  uniqueness of `uuid4`.
- Path normalisation. Paths are used as given: `Path(...)` collapsing
  repeated or trailing separators and `.` segments is modelled only in
  `Name`. `Dir`, `Join` and the messages use the raw strings, and `Join`
  treats a leading `//` like `/`.
- Paths.Suffix: uses the rule of CPython up to 3.13, where a name ending in
  a dot has no suffix.
- Paths.Lower: changes only ASCII letters. No other character lower-cases
  into an allowed extension, so the upload check is unaffected.
- Separation.WavFiles: its own contract fixes only which paths occur.
  Order and multiplicity are stated by `WavFilesAppend` and
  `WavFilesSingle`. The `rglob` order is the listing order the
  environment supplies. Spleeter's output directory contents are part of
  that environment.
- The 400 detail for an unsupported type joins a Python set, whose order is
  not fixed, so error detail texts are not modelled. Errors are kinds with
  their status codes.
- Api.SupportedFormats: the description strings are left out.
- FastAPI wiring, CORS, the exception handlers, the root and health
  endpoints, and logging.
- `app/models.py` is not part of this model. Its `SeparationType` enum is
  re-declared as `Separation.SeparationType`, and the pydantic response
  shapes as `Accepted` and `StatusView`.
