/** Validation of bound-task descriptors, as the supervisor's unit tests
    require it: each descriptor must carry a numeric `preferredWorkerId` no
    larger than the worker count, a `workerFunction`, and a non-empty
    `startEventId`; otherwise set-up fails with an error naming the field.
    Fields are checked in that order; the first descriptor that fails decides
    the error. */
module BoundTaskConfig {
  import opened Results
  import opened JsValues
  import BoundTasks

  datatype TaskConfig = TaskConfig(
    preferredWorkerId: JsValue,
    workerFunction: JsValue,
    startEventId: JsValue)

  /** A configuration error; `field` is the name of the offending field. */
  datatype ConfigError = ConfigError(field: string)

  predicate PreferredWorkerIdOk(v: JsValue, numWorkers: int)
  {
    TypeOf(v) == "number" && v.n <= numWorkers
  }

  predicate WorkerFunctionOk(v: JsValue)
  {
    TypeOf(v) == "function"
  }

  predicate StartEventIdOk(v: JsValue)
  {
    TypeOf(v) == "string" && v.s != ""
  }

  /** `field` names a field of `cfg` that fails its check. */
  predicate FieldInvalid(cfg: TaskConfig, field: string, numWorkers: int)
  {
    || (field == "preferredWorkerId" && !PreferredWorkerIdOk(cfg.preferredWorkerId, numWorkers))
    || (field == "workerFunction" && !WorkerFunctionOk(cfg.workerFunction))
    || (field == "startEventId" && !StartEventIdOk(cfg.startEventId))
  }

  /** A descriptor is accepted iff all three fields pass; an accepted one
      becomes an unassigned bound task, a rejected one names a failing field. */
  function ValidateTask(cfg: TaskConfig, numWorkers: int): (r: Result<BoundTasks.Task, ConfigError>)
    ensures r.Ok? <==> PreferredWorkerIdOk(cfg.preferredWorkerId, numWorkers)
                            && WorkerFunctionOk(cfg.workerFunction)
                            && StartEventIdOk(cfg.startEventId)
    ensures r.Ok? ==> r.value == BoundTasks.Task(cfg.preferredWorkerId.n, cfg.startEventId.s, None)
    ensures r.Err? ==> FieldInvalid(cfg, r.error.field, numWorkers)
    ensures !PreferredWorkerIdOk(cfg.preferredWorkerId, numWorkers) ==>
      r == Err(ConfigError("preferredWorkerId"))
  {
    if !PreferredWorkerIdOk(cfg.preferredWorkerId, numWorkers) then
      Err(ConfigError("preferredWorkerId"))
    else if !WorkerFunctionOk(cfg.workerFunction) then
      Err(ConfigError("workerFunction"))
    else if !StartEventIdOk(cfg.startEventId) then
      Err(ConfigError("startEventId"))
    else
      Ok(BoundTasks.Task(cfg.preferredWorkerId.n, cfg.startEventId.s, None))
  }

  /** All descriptors validated in order: every task on success, otherwise the
      error of some descriptor that fails, every earlier one having passed. */
  function ValidateTasks(cfgs: seq<TaskConfig>, numWorkers: int): (r: Result<seq<BoundTasks.Task>, ConfigError>)
    ensures r.Ok? <==> forall i :: 0 <= i < |cfgs| ==> ValidateTask(cfgs[i], numWorkers).Ok?
    ensures r.Ok? ==>
      && |r.value| == |cfgs|
      && forall i :: 0 <= i < |cfgs| ==> ValidateTask(cfgs[i], numWorkers) == Ok(r.value[i])
    ensures r.Err? ==>
      exists i :: && 0 <= i < |cfgs|
                  && ValidateTask(cfgs[i], numWorkers) == Err(r.error)
                  && forall j :: 0 <= j < i ==> ValidateTask(cfgs[j], numWorkers).Ok?
    decreases |cfgs|
  {
    if cfgs == [] then Ok([])
    else
      var t :- ValidateTask(cfgs[0], numWorkers);
      var rest :- ValidateTasks(cfgs[1..], numWorkers);
      Ok([t] + rest)
  }

  /** Every task that validation lets through prefers a worker no larger than
      the worker count, has a start event id, and starts unassigned. */
  lemma ValidatedTasksAreWellFormed(cfgs: seq<TaskConfig>, numWorkers: int)
    requires ValidateTasks(cfgs, numWorkers).Ok?
    ensures forall t :: t in ValidateTasks(cfgs, numWorkers).value ==>
      t.preferredWorkerId <= numWorkers && t.startEventId != "" && t.worker.None?
  {
  }

  /** The five rejected descriptors of the unit tests, with two workers. */
  lemma RejectedDescriptors()
    ensures ValidateTasks([TaskConfig(Undefined, Func(map[]), Str("someeventid"))], 2)
            == Err(ConfigError("preferredWorkerId"))
    ensures ValidateTasks([TaskConfig(Str("1"), Func(map[]), Str("someeventid"))], 2)
            == Err(ConfigError("preferredWorkerId"))
    ensures ValidateTasks([TaskConfig(Num(3), Func(map[]), Str("someeventid"))], 2)
            == Err(ConfigError("preferredWorkerId"))
    ensures ValidateTasks([TaskConfig(Num(1), Undefined, Str("someeventid"))], 2)
            == Err(ConfigError("workerFunction"))
    ensures ValidateTasks([TaskConfig(Num(1), Func(map[]), Str(""))], 2)
            == Err(ConfigError("startEventId"))
  {
  }
}
