// The task records inside a job (jobTask in prunner.go) and the lookup by name.
module Jobs {
  import opened Basics
  import opened Definitions

  datatype TaskStatus = Waiting | Running | Skipped | Done | Error | Canceled

  datatype JobTask = JobTask(
    name: string,
    def: TaskDef,
    status: TaskStatus,
    start: Option<int>,
    end: Option<int>,
    skipped: bool,
    exitCode: int,
    errored: bool,
    error: Option<string>,
    canceled: bool)

  function NewTask(name: string, def: TaskDef): JobTask {
    JobTask(name, def, Waiting, None, None, false, 0, false, None, false)
  }
}
