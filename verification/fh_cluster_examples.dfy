/** The start-up scenarios of the supervisor's unit tests, for any CPU count. */
module FhClusterExamples {
  import opened JsValues
  import opened FhCluster
  import ExitBackoff

  /** As master with one worker: one fork, the worker body is never run,
      and an `exit` handler is registered. */
  lemma MasterWithOneWorker(cpuCount: nat)
    ensures Launch(true, Num(1), Undefined, cpuCount).effects == [Fork]
    ensures "exit" in Launch(true, Num(1), Undefined, cpuCount).handlers
  {
  }

  /** As a worker: the worker body runs once and nothing is forked. */
  lemma WorkerRunsBody(cpuCount: nat)
    ensures Launch(false, Num(1), Undefined, cpuCount).effects == [CallWorkerFunc]
  {
  }

  /** A function whose own `next` and `reset` are functions is a usable
      strategy and is kept; a function without them is replaced by the default. */
  lemma FunctionStrategyIsKept(next: JsValue, reset: JsValue, cpuCount: nat)
    requires next.Func? && reset.Func?
    ensures var f := Func(map["next" := next, "reset" := reset]);
      Launch(true, Undefined, f, cpuCount).strategy == Supplied(f)
    ensures Launch(true, Undefined, Func(map[]), cpuCount).strategy == DefaultStrategy
  {
  }

  /** Two workers requested: two forks. */
  lemma TwoWorkers(cpuCount: nat)
    ensures Launch(true, Num(2), Undefined, cpuCount).effects == [Fork, Fork]
  {
  }

  /** A missing count, the string "eleventy" and -4 all fork once per CPU. */
  lemma InvalidCountsForkPerCpu(cpuCount: nat)
    ensures multiset(Launch(true, Undefined, Undefined, cpuCount).effects)[Fork] == cpuCount
    ensures multiset(Launch(true, Str("eleventy"), Undefined, cpuCount).effects)[Fork] == cpuCount
    ensures multiset(Launch(true, Num(-4), Undefined, cpuCount).effects)[Fork] == cpuCount
  {
  }

  /** One exit followed by its retry timer: `next()` once, one fork. */
  lemma OneExitOneFork()
    ensures var s := ExitBackoff.Run(ExitBackoff.Initial(),
                                     [ExitBackoff.WorkerExit, ExitBackoff.RetryTimerFired]);
      s.Some? && s.value.nextCalls == 1 && s.value.forks == 1 && s.value.pendingRetries == 0
  {
  }
}
