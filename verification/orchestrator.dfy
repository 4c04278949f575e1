/**
 * `_process_audio_async` as a pure state machine. The execution unit holds a
 * stage (where it is in the coroutine) and the task record; each `Step`
 * performs the work up to the next checkpoint write. The outcomes of the
 * file check, the separation backend and post-processing come from `Env`.
 */
module Orchestrator {
  import opened Results
  import opened Separation
  import opened PostProcessing
  import opened Tasks

  /** What the world answers while a task runs. */
  datatype Env = Env(
    files: set<string>,           // paths that exist
    backend: Backend,             // the Spleeter process and the fallback
    audio: string -> Probe)       // what loading each produced file reports

  /** Where the execution unit is: the next checkpoint it will write. */
  datatype Stage =
    | Created                            // scheduled, nothing written yet
    | Loading                            // wrote 0.1, about to check the input
    | Initializing                       // wrote 0.2
    | Separating                         // wrote 0.3, about to run the backend
    | PostProcessingStep(separated: seq<string>)  // wrote 0.8 with the backend's files
    | Done                               // wrote completed or failed

  datatype Exec = Exec(stage: Stage, task: Task)

  const LoadingMessage := "Loading audio file..."
  const InitializingMessage := "Initializing separation model..."
  const SeparatingMessage := "Separating audio tracks..."
  const PostProcessingMessage := "Post-processing audio files..."
  const CompletedMessage := "Processing completed successfully"
  const FailurePrefix := "Processing failed: "

  /** Steps left before the execution unit is done. */
  function Remaining(s: Stage): nat
  {
    match s
    case Created => 5
    case Loading => 4
    case Initializing => 3
    case Separating => 2
    case PostProcessingStep(_) => 1
    case Done => 0
  }

  /** The exception handler: mark failed with the cause, leave progress where it was. */
  function Fail(t: Task, cause: string): Task
  {
    t.(status := Failed, message := FailurePrefix + cause)
  }

  /** The 0.1 checkpoint write: processing starts with loading. */
  function LoadingWrite(t: Task): Task
  {
    t.(status := Processing, progress := 1, message := LoadingMessage)
  }

  /** The 0.2 checkpoint write. */
  function InitializingWrite(t: Task): Task
  {
    t.(progress := 2, message := InitializingMessage)
  }

  /** The 0.3 checkpoint write, just before the backend runs. */
  function SeparatingWrite(t: Task): Task
  {
    t.(progress := 3, message := SeparatingMessage)
  }

  /** The 0.8 checkpoint write, once the backend returned its files. */
  function PostProcessingWrite(t: Task): Task
  {
    t.(progress := 8, message := PostProcessingMessage)
  }

  /** The final write of a successful run: completed at 1.0 with the processed list. */
  function CompletedWrite(t: Task, processed: seq<string>): Task
  {
    t.(progress := 10, status := Completed, message := CompletedMessage, downloadUrls := Some(processed))
  }

  /** The work from one checkpoint write to the next. */
  function Step(id: TaskId, e: Exec, env: Env): (n: Exec)
    ensures e.stage != Done ==> Remaining(n.stage) < Remaining(e.stage)
    ensures e.stage == Done ==> n == e
    ensures n.task.inputFile == e.task.inputFile
    ensures n.task.separationType == e.task.separationType
    ensures n.task.quality == e.task.quality
  {
    var t := e.task;
    match e.stage
    case Created =>
      Exec(Loading, LoadingWrite(t))
    case Loading =>
      if t.inputFile !in env.files then Exec(Done, Fail(t, "Input file not found: " + t.inputFile))
      else Exec(Initializing, InitializingWrite(t))
    case Initializing =>
      Exec(Separating, SeparatingWrite(t))
    case Separating =>
      (match Separate(t.inputFile, TaskDir(id), t.separationType, env.backend)
       case Err(cause) => Exec(Done, Fail(t, cause))
       case Ok(files) => Exec(PostProcessingStep(files), PostProcessingWrite(t)))
    case PostProcessingStep(files) =>
      (match PostProcess(files, t.quality, env.audio)
       case Err(cause) => Exec(Done, Fail(t, cause))
       case Ok(processed) =>
         Exec(Done, CompletedWrite(t, processed)))
    case Done => e
  }

  /** The records written from `e` onwards, one per checkpoint. */
  function Run(id: TaskId, e: Exec, env: Env): seq<Task>
    decreases Remaining(e.stage)
  {
    if e.stage == Done then []
    else
      var n := Step(id, e, env);
      [n.task] + Run(id, n, env)
  }

  /** Every value a task's record takes, from the stored pending record to its final one. */
  function Trace(id: TaskId, t: Task, env: Env): (r: seq<Task>)
    ensures |r| >= 1 && r[0] == t
  {
    [t] + Run(id, Exec(Created, t), env)
  }

  function Last(s: seq<Task>): Task
    requires |s| > 0
  {
    s[|s| - 1]
  }

  /** The record as `process_audio` stores it, before the execution unit starts. */
  predicate IsNew(t: Task)
  {
    t.status == Pending && t.progress == 0 && t.downloadUrls == None
  }

  /** How far along a status is: pending, then processing, then a terminal status. */
  function StatusRank(s: Status): nat
  {
    match s
    case Pending => 0
    case Processing => 1
    case Completed => 2
    case Failed => 2
  }

  /** The status changes one checkpoint write may make. */
  predicate Transition(a: Status, b: Status)
  {
    a == b || (a == Pending && b == Processing) || (a == Processing && (b == Completed || b == Failed))
  }

  /** The record each stage has just written. */
  predicate Consistent(e: Exec)
  {
    var t := e.task;
    match e.stage
    case Created => IsNew(t)
    case Loading => t.status == Processing && t.progress == 1 && t.downloadUrls == None
    case Initializing => t.status == Processing && t.progress == 2 && t.downloadUrls == None
    case Separating => t.status == Processing && t.progress == 3 && t.downloadUrls == None
    case PostProcessingStep(_) => t.status == Processing && t.progress == 8 && t.downloadUrls == None
    case Done =>
      || (t.status == Completed && t.progress == 10 && t.downloadUrls.Some?)
      || (t.status == Failed && t.progress in {1, 3, 8} && t.downloadUrls == None)
  }

  /** `b` is at least as far along as `a`, in progress and in status. */
  predicate NoBackward(a: Task, b: Task)
  {
    a.progress <= b.progress && StatusRank(a.status) <= StatusRank(b.status)
  }

  /** A step keeps the stage and record consistent and moves only forward. */
  lemma StepForward(id: TaskId, e: Exec, env: Env)
    requires Consistent(e)
    ensures Consistent(Step(id, e, env))
    ensures NoBackward(e.task, Step(id, e, env).task)
    ensures Transition(e.task.status, Step(id, e, env).task.status)
  {
  }

  /**
   * A sequence of records that never moves backward, changes status only by
   * allowed transitions, and holds download urls at most in its last record.
   */
  predicate Forward(r: seq<Task>)
  {
    && (forall i, j :: 0 <= i <= j < |r| ==> NoBackward(r[i], r[j]))
    && (forall i :: 0 <= i < |r| - 1 ==> Transition(r[i].status, r[i + 1].status))
    && (forall i :: 0 <= i < |r| - 1 ==> r[i].downloadUrls == None)
  }

  /** A record that leads into a forward sequence without going back extends it. */
  lemma PrependForward(a: Task, rest: seq<Task>)
    requires |rest| > 0 && Forward(rest)
    requires NoBackward(a, rest[0]) && Transition(a.status, rest[0].status) && a.downloadUrls == None
    ensures Forward([a] + rest)
    ensures Last([a] + rest) == Last(rest)
  {
    var r := [a] + rest;
    forall i, j | 0 <= i <= j < |r| ensures NoBackward(r[i], r[j]) {
      if i > 0 {
        assert r[i] == rest[i - 1] && r[j] == rest[j - 1];
      } else if j > 0 {
        assert r[j] == rest[j - 1];
        assert NoBackward(rest[0], rest[j - 1]);
      }
    }
    forall i | 0 <= i < |r| - 1 ensures Transition(r[i].status, r[i + 1].status) {
      if i > 0 { assert r[i] == rest[i - 1] && r[i + 1] == rest[i]; }
    }
    forall i | 0 <= i < |r| - 1 ensures r[i].downloadUrls == None {
      if i > 0 { assert r[i] == rest[i - 1]; }
    }
  }

  /**
   * From a consistent state, the records written never move backward, each
   * status change is an allowed transition, and only the last one can hold
   * download urls.
   */
  lemma {:induction false} RunForward(id: TaskId, e: Exec, env: Env)
    requires Consistent(e)
    ensures Forward([e.task] + Run(id, e, env))
    ensures Consistent(Exec(Done, Last([e.task] + Run(id, e, env))))
    decreases Remaining(e.stage)
  {
    if e.stage == Done {
      assert [e.task] + Run(id, e, env) == [e.task];
    } else {
      var n := Step(id, e, env);
      StepForward(id, e, env);
      RunForward(id, n, env);
      var rest := [n.task] + Run(id, n, env);
      PrependForward(e.task, rest);
      assert [e.task] + Run(id, e, env) == [e.task] + rest;
    }
  }

  /**
   * Over a task's whole life the progress never decreases, the status only
   * moves pending -> processing -> completed/failed, download urls appear
   * only in the final record, and the final record is terminal: completed at
   * progress 1.0 with urls, or failed with progress left at 0.1, 0.3 or 0.8.
   */
  lemma TraceForward(id: TaskId, t: Task, env: Env)
    requires IsNew(t)
    ensures var r := Trace(id, t, env);
            && (forall i, j :: 0 <= i <= j < |r| ==> r[i].progress <= r[j].progress)
            && (forall i, j :: 0 <= i <= j < |r| ==> StatusRank(r[i].status) <= StatusRank(r[j].status))
            && (forall i :: 0 <= i < |r| - 1 ==> Transition(r[i].status, r[i + 1].status))
            && (forall i :: 0 <= i < |r| - 1 ==> r[i].downloadUrls == None)
            && (Last(r).status == Completed || Last(r).status == Failed)
            && (Last(r).progress == 10 <==> Last(r).status == Completed)
            && (Last(r).downloadUrls.Some? <==> Last(r).status == Completed)
  {
    RunForward(id, Exec(Created, t), env);
    var r := Trace(id, t, env);
    assert Forward(r);
    forall i, j | 0 <= i <= j < |r| ensures r[i].progress <= r[j].progress && StatusRank(r[i].status) <= StatusRank(r[j].status) {
      assert NoBackward(r[i], r[j]);
    }
  }

  /** The progress values of a sequence of records. */
  function Progresses(r: seq<Task>): (p: seq<nat>)
    ensures |p| == |r|
  {
    seq(|r|, i requires 0 <= i < |r| => r[i].progress)
  }

  /** The statuses of a sequence of records. */
  function Statuses(r: seq<Task>): (s: seq<Status>)
    ensures |s| == |r|
  {
    seq(|r|, i requires 0 <= i < |r| => r[i].status)
  }

  /** The backend's answer for this task, as the `Separating` step asks for it. */
  function Separated(id: TaskId, t: Task, env: Env): Result<seq<string>, string>
  {
    Separate(t.inputFile, TaskDir(id), t.separationType, env.backend)
  }

  /** The record of a task that started as `t`, after the 0.1 checkpoint. */
  function LoadingRecord(t: Task): Task
  {
    LoadingWrite(t)
  }

  /** The record of a task that started as `t`, after the 0.2 checkpoint. */
  function InitializingRecord(t: Task): Task
  {
    InitializingWrite(LoadingRecord(t))
  }

  /** The record of a task that started as `t`, as the `Separating` stage finds it. */
  function SeparatingRecord(t: Task): Task
  {
    SeparatingWrite(InitializingRecord(t))
  }

  lemma {:induction false} RunFromCreated(id: TaskId, t: Task, env: Env)
    ensures Run(id, Exec(Created, t), env) == [LoadingRecord(t)] + Run(id, Exec(Loading, LoadingRecord(t)), env)
  {
    assert Step(id, Exec(Created, t), env) == Exec(Loading, LoadingRecord(t));
  }

  lemma {:induction false} RunFromLoading(id: TaskId, t: Task, env: Env)
    requires t.inputFile in env.files
    ensures Run(id, Exec(Loading, LoadingRecord(t)), env) ==
              [InitializingRecord(t)] + Run(id, Exec(Initializing, InitializingRecord(t)), env)
  {
    assert Step(id, Exec(Loading, LoadingRecord(t)), env) == Exec(Initializing, InitializingRecord(t));
  }

  lemma {:induction false} RunFromInitializing(id: TaskId, t: Task, env: Env)
    ensures Run(id, Exec(Initializing, InitializingRecord(t)), env) ==
              [SeparatingRecord(t)] + Run(id, Exec(Separating, SeparatingRecord(t)), env)
  {
    assert Step(id, Exec(Initializing, InitializingRecord(t)), env) == Exec(Separating, SeparatingRecord(t));
  }

  /** With the input present, the first three checkpoints are always written. */
  lemma {:induction false} UpToSeparation(id: TaskId, t: Task, env: Env)
    requires t.inputFile in env.files
    ensures Trace(id, t, env) ==
              [t, LoadingRecord(t), InitializingRecord(t), SeparatingRecord(t)]
              + Run(id, Exec(Separating, SeparatingRecord(t)), env)
  {
    RunFromCreated(id, t, env);
    RunFromLoading(id, t, env);
    RunFromInitializing(id, t, env);
    PrependFour(t, LoadingRecord(t), InitializingRecord(t), SeparatingRecord(t),
                Run(id, Exec(Separating, SeparatingRecord(t)), env));
  }

  // Only regroups a concatenation; kept apart so that the solver does this
  // step without the execution model in scope.
  lemma PrependFour(a: Task, b: Task, c: Task, d: Task, rest: seq<Task>)
    ensures [a] + ([b] + ([c] + ([d] + rest))) == [a, b, c, d] + rest
  {
  }

  /** The record of a task that started as `t`, after the 0.8 checkpoint. */
  function PostProcessingRecord(t: Task): Task
  {
    PostProcessingWrite(SeparatingRecord(t))
  }

  /** From `Separating`, a backend failure fails the task at once. */
  lemma {:induction false} SeparationFailureRun(id: TaskId, t: Task, env: Env, cause: string)
    requires Separated(id, t, env) == Err(cause)
    ensures Run(id, Exec(Separating, SeparatingRecord(t)), env) == [Fail(SeparatingRecord(t), cause)]
  {
  }

  lemma {:induction false} RunFromSeparating(id: TaskId, t: Task, env: Env, files: seq<string>)
    requires Separated(id, t, env) == Ok(files)
    ensures Run(id, Exec(Separating, SeparatingRecord(t)), env) ==
              [PostProcessingRecord(t)] + Run(id, Exec(PostProcessingStep(files), PostProcessingRecord(t)), env)
  {
    assert Step(id, Exec(Separating, SeparatingRecord(t)), env) == Exec(PostProcessingStep(files), PostProcessingRecord(t));
  }

  lemma {:induction false} RunFromPostProcessingOk(id: TaskId, u: Task, env: Env, files: seq<string>, processed: seq<string>)
    requires PostProcess(files, u.quality, env.audio) == Ok(processed)
    ensures Run(id, Exec(PostProcessingStep(files), u), env) == [CompletedWrite(u, processed)]
  {
    var n := Exec(Done, CompletedWrite(u, processed));
    assert Step(id, Exec(PostProcessingStep(files), u), env) == n;
    assert Run(id, n, env) == [];
  }

  lemma {:induction false} RunFromPostProcessingErr(id: TaskId, u: Task, env: Env, files: seq<string>, cause: string)
    requires PostProcess(files, u.quality, env.audio) == Err(cause)
    ensures Run(id, Exec(PostProcessingStep(files), u), env) == [Fail(u, cause)]
  {
    var n := Exec(Done, Fail(u, cause));
    assert Step(id, Exec(PostProcessingStep(files), u), env) == n;
    assert Run(id, n, env) == [];
  }

  /** From `Separating`, success writes 0.8 and then completes with the processed list. */
  lemma {:induction false} CompletedRun(id: TaskId, t: Task, env: Env, files: seq<string>, processed: seq<string>)
    requires Separated(id, t, env) == Ok(files)
    requires PostProcess(files, t.quality, env.audio) == Ok(processed)
    ensures Run(id, Exec(Separating, SeparatingRecord(t)), env) ==
              [PostProcessingRecord(t), CompletedWrite(PostProcessingRecord(t), processed)]
  {
    RunFromSeparating(id, t, env, files);
    RunFromPostProcessingOk(id, PostProcessingRecord(t), env, files, processed);
  }

  /** From `Separating`, a post-processing failure writes 0.8 and then fails. */
  lemma {:induction false} PostProcessingFailureRun(id: TaskId, t: Task, env: Env, files: seq<string>, cause: string)
    requires Separated(id, t, env) == Ok(files)
    requires PostProcess(files, t.quality, env.audio) == Err(cause)
    ensures Run(id, Exec(Separating, SeparatingRecord(t)), env) ==
              [PostProcessingRecord(t), Fail(PostProcessingRecord(t), cause)]
  {
    RunFromSeparating(id, t, env, files);
    RunFromPostProcessingErr(id, PostProcessingRecord(t), env, files, cause);
  }

  /** The six records a successful execution writes, ending with `processed`. */
  function SuccessRecords(t: Task, processed: seq<string>): seq<Task>
  {
    [ t,
      LoadingRecord(t),
      InitializingRecord(t),
      SeparatingRecord(t),
      PostProcessingRecord(t),
      CompletedWrite(PostProcessingRecord(t), processed) ]
  }

  /** The progress, status and final fields of those six records. */
  lemma SuccessShape(t: Task, processed: seq<string>)
    requires IsNew(t)
    ensures var r := SuccessRecords(t, processed);
            && Progresses(r) == [0, 1, 2, 3, 8, 10]
            && Statuses(r) == [Pending, Processing, Processing, Processing, Processing, Completed]
            && Last(r).message == CompletedMessage
            && Last(r).downloadUrls == Some(processed)
  {
    var r := SuccessRecords(t, processed);
    assert Progresses(r) == [r[0].progress, r[1].progress, r[2].progress, r[3].progress, r[4].progress, r[5].progress];
    assert Statuses(r) == [r[0].status, r[1].status, r[2].status, r[3].status, r[4].status, r[5].status];
  }

  /** With the input present and both stages succeeding, the execution writes exactly those records. */
  lemma {:induction false} SuccessIsTrace(id: TaskId, t: Task, env: Env, files: seq<string>, processed: seq<string>)
    requires t.inputFile in env.files
    requires Separated(id, t, env) == Ok(files)
    requires PostProcess(files, t.quality, env.audio) == Ok(processed)
    ensures Trace(id, t, env) == SuccessRecords(t, processed)
  {
    UpToSeparation(id, t, env);
    CompletedRun(id, t, env, files, processed);
  }

  /**
   * The success path: the record goes through progress 0, 0.1, 0.2, 0.3, 0.8
   * and 1.0, is pending, then processing, then completed, and ends holding the
   * post-processed list.
   */
  lemma SuccessTrace(id: TaskId, t: Task, env: Env)
    requires IsNew(t) && t.inputFile in env.files
    requires Separated(id, t, env).Ok?
    requires PostProcess(Separated(id, t, env).value, t.quality, env.audio).Ok?
    ensures var r := Trace(id, t, env);
            && Progresses(r) == [0, 1, 2, 3, 8, 10]
            && Statuses(r) == [Pending, Processing, Processing, Processing, Processing, Completed]
            && Last(r).message == CompletedMessage
            && Last(r).downloadUrls == Some(PostProcess(Separated(id, t, env).value, t.quality, env.audio).value)
  {
    var files := Separated(id, t, env).value;
    var processed := PostProcess(files, t.quality, env.audio).value;
    SuccessIsTrace(id, t, env, files, processed);
    SuccessShape(t, processed);
  }

  /**
   * A missing input fails right after the first checkpoint: progress stays at
   * 0.1, the message names the missing file, and there are no download urls.
   */
  lemma MissingInputTrace(id: TaskId, t: Task, env: Env)
    requires IsNew(t) && t.inputFile !in env.files
    ensures var r := Trace(id, t, env);
            && Progresses(r) == [0, 1, 1]
            && Statuses(r) == [Pending, Processing, Failed]
            && Last(r).message == FailurePrefix + "Input file not found: " + t.inputFile
            && Last(r).downloadUrls == None
  {
    var e1 := Step(id, Exec(Created, t), env);
    var e2 := Step(id, e1, env);
    assert Run(id, e1, env) == [e2.task];
    assert Trace(id, t, env) == [t, e1.task, e2.task];
  }

  /** The five records a backend failure with cause `cause` writes. */
  function SeparationFailureRecords(t: Task, cause: string): seq<Task>
  {
    [ t,
      LoadingRecord(t),
      InitializingRecord(t),
      SeparatingRecord(t),
      Fail(SeparatingRecord(t), cause) ]
  }

  /** The progress, status and final fields of those five records. */
  lemma SeparationFailureShape(t: Task, cause: string)
    requires IsNew(t)
    ensures var r := SeparationFailureRecords(t, cause);
            && Progresses(r) == [0, 1, 2, 3, 3]
            && Statuses(r) == [Pending, Processing, Processing, Processing, Failed]
            && Last(r).message == FailurePrefix + cause
            && Last(r).downloadUrls == None
  {
    var r := SeparationFailureRecords(t, cause);
    assert Progresses(r) == [r[0].progress, r[1].progress, r[2].progress, r[3].progress, r[4].progress];
    assert Statuses(r) == [r[0].status, r[1].status, r[2].status, r[3].status, r[4].status];
  }

  /**
   * A backend failure (the fallback raised) fails the task at progress 0.3
   * with the fallback's cause.
   */
  lemma SeparationFailureTrace(id: TaskId, t: Task, env: Env)
    requires IsNew(t) && t.inputFile in env.files
    requires Separated(id, t, env).Err?
    ensures var r := Trace(id, t, env);
            && Progresses(r) == [0, 1, 2, 3, 3]
            && Statuses(r) == [Pending, Processing, Processing, Processing, Failed]
            && Last(r).message == FailurePrefix + Separated(id, t, env).error
            && Last(r).downloadUrls == None
  {
    var cause := Separated(id, t, env).error;
    UpToSeparation(id, t, env);
    SeparationFailureRun(id, t, env, cause);
    assert Trace(id, t, env) == SeparationFailureRecords(t, cause);
    SeparationFailureShape(t, cause);
  }

  /** The six records a post-processing failure with cause `cause` writes. */
  function PostProcessingFailureRecords(t: Task, cause: string): seq<Task>
  {
    [ t,
      LoadingRecord(t),
      InitializingRecord(t),
      SeparatingRecord(t),
      PostProcessingRecord(t),
      Fail(PostProcessingRecord(t), cause) ]
  }

  /** The progress, status and final fields of those six records. */
  lemma PostProcessingFailureShape(t: Task, cause: string)
    requires IsNew(t)
    ensures var r := PostProcessingFailureRecords(t, cause);
            && Progresses(r) == [0, 1, 2, 3, 8, 8]
            && Statuses(r) == [Pending, Processing, Processing, Processing, Processing, Failed]
            && Last(r).message == FailurePrefix + cause
            && Last(r).downloadUrls == None
  {
    var r := PostProcessingFailureRecords(t, cause);
    assert Progresses(r) == [r[0].progress, r[1].progress, r[2].progress, r[3].progress, r[4].progress, r[5].progress];
    assert Statuses(r) == [r[0].status, r[1].status, r[2].status, r[3].status, r[4].status, r[5].status];
  }

  /** With the input present, a post-processing failure writes exactly those six records. */
  lemma {:induction false} PostProcessingFailureIsTrace(id: TaskId, t: Task, env: Env, files: seq<string>, cause: string)
    requires t.inputFile in env.files
    requires Separated(id, t, env) == Ok(files)
    requires PostProcess(files, t.quality, env.audio) == Err(cause)
    ensures Trace(id, t, env) == PostProcessingFailureRecords(t, cause)
  {
    UpToSeparation(id, t, env);
    PostProcessingFailureRun(id, t, env, files, cause);
  }

  /**
   * A post-processing failure fails the task at progress 0.8, even though
   * separation succeeded, and leaves no download urls.
   */
  lemma PostProcessingFailureTrace(id: TaskId, t: Task, env: Env)
    requires IsNew(t) && t.inputFile in env.files
    requires Separated(id, t, env).Ok?
    requires PostProcess(Separated(id, t, env).value, t.quality, env.audio).Err?
    ensures var p := PostProcess(Separated(id, t, env).value, t.quality, env.audio);
            var r := Trace(id, t, env);
            && Progresses(r) == [0, 1, 2, 3, 8, 8]
            && Statuses(r) == [Pending, Processing, Processing, Processing, Processing, Failed]
            && Last(r).message == FailurePrefix + p.error
            && Last(r).downloadUrls == None
  {
    var files := Separated(id, t, env).value;
    var cause := PostProcess(files, t.quality, env.audio).error;
    PostProcessingFailureIsTrace(id, t, env, files, cause);
    PostProcessingFailureShape(t, cause);
  }

  /**
   * One checkpoint write into the registry. The execution unit writes into
   * the record it looked up when it started; once cleanup has removed that
   * record the writes no longer reach the registry.
   */
  function Advance(tasks: Registry, id: TaskId, e: Exec, env: Env): (r: Registry)
    ensures r.Keys == tasks.Keys
    ensures forall k :: k in tasks && k != id ==> r[k] == tasks[k]
    ensures id in tasks ==> r[id] == Step(id, e, env).task
  {
    if id in tasks then tasks[id := Step(id, e, env).task] else tasks
  }
}
