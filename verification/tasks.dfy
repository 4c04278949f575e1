/**
 * The task registry of `AudioProcessor`: one record per task id, created
 * pending, read by the status handlers and removed, with the task's output
 * directory, on cleanup.
 */
module Tasks {
  import opened Results
  import opened Paths

  datatype Status = Pending | Processing | Completed | Failed
  {
    /** The string the record stores. */
    function Text(): string
    {
      match this
      case Pending => "pending"
      case Processing => "processing"
      case Completed => "completed"
      case Failed => "failed"
    }
  }

  /**
   * One task record. `progress` counts tenths, so the source's 0.0 .. 1.0 is
   * 0 .. 10. `downloadUrls` is `None` while the record has no such key.
   */
  datatype Task = Task(
    status: Status,
    progress: nat,
    message: string,
    inputFile: string,
    separationType: string,
    quality: string,
    downloadUrls: Option<seq<string>>)

  type TaskId = string

  type Registry = map<TaskId, Task>

  const OutputRoot := "outputs"
  const CreatedMessage := "Task created"

  /** The directory holding a task's artifacts. */
  function TaskDir(id: TaskId): string
  {
    Join(OutputRoot, id)
  }

  /** The record `process_audio` stores for a new task. */
  function NewTask(inputFile: string, separationType: string, quality: string): Task
  {
    Task(Pending, 0, CreatedMessage, inputFile, separationType, quality, None)
  }

  /**
   * `process_audio`'s bookkeeping: a fresh id maps to a pending record with
   * the request's parameters; every other record stays as it was.
   */
  function CreateTask(tasks: Registry, id: TaskId, inputFile: string, separationType: string, quality: string): (r: Registry)
    requires id !in tasks  // a fresh UUID
    ensures r.Keys == tasks.Keys + {id}
    ensures r[id].status == Pending && r[id].progress == 0 && r[id].message == CreatedMessage
    ensures r[id].inputFile == inputFile && r[id].separationType == separationType && r[id].quality == quality
    ensures r[id].downloadUrls == None
    ensures forall k :: k in tasks ==> r[k] == tasks[k]
  {
    tasks[id := NewTask(inputFile, separationType, quality)]
  }

  /** `get_task_status`: the stored record, or none. */
  function GetTaskStatus(tasks: Registry, id: TaskId): (r: Option<Task>)
    ensures r.Some? <==> id in tasks
    ensures r.Some? ==> r.value == tasks[id]
  {
    if id in tasks then Some(tasks[id]) else None
  }

  /** The registry together with the paths that exist on disk. */
  datatype Store = Store(tasks: Registry, files: set<string>)

  /** `path` is `dir` or lies below it. */
  predicate Within(path: string, dir: string)
  {
    path == dir || StartsWith(path, dir + "/")
  }

  /**
   * `cleanup_task`: for a known id, drop its record and everything within
   * its output directory; an unknown id changes nothing.
   */
  function CleanupTask(store: Store, id: TaskId): (r: Store)
    ensures id !in r.tasks
    ensures id in store.tasks ==> r.tasks.Keys == store.tasks.Keys - {id}
    ensures id !in store.tasks ==> r == store
    ensures forall k :: k in r.tasks ==> k in store.tasks && r.tasks[k] == store.tasks[k]
    ensures id in store.tasks ==>
              forall p :: p in r.files <==> p in store.files && !Within(p, TaskDir(id))
  {
    if id in store.tasks then
      Store(store.tasks - {id}, set p | p in store.files && !Within(p, TaskDir(id)))
    else store
  }

  /** Cleaning up a task just created, before it wrote anything, restores the store. */
  lemma CleanupUndoesCreate(store: Store, id: TaskId, inputFile: string, separationType: string, quality: string)
    requires id !in store.tasks
    requires forall p :: p in store.files ==> !Within(p, TaskDir(id))
    ensures CleanupTask(Store(CreateTask(store.tasks, id, inputFile, separationType, quality), store.files), id) == store
  {
    var created := Store(CreateTask(store.tasks, id, inputFile, separationType, quality), store.files);
    var r := CleanupTask(created, id);
    assert r.tasks == store.tasks;
    assert r.files == store.files;
  }
}
