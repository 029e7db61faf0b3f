/** The entry point of the supervisor: resolving the worker count and the
    backoff strategy from optional arguments, and `start`, which forks the pool
    in the master process or runs the worker body in a worker process.
    The CPU count and the process role are parameters; the effects on the
    `cluster` module are returned as an ordered log. */
module FhCluster {
  import opened Results
  import opened JsValues
  import ExitBackoff

  /** lodash `_.find`: the first element satisfying `p`, or `None`
      (JavaScript's `undefined`) when no element does. */
  function FindFirst<T>(xs: seq<T>, p: T -> bool): (r: Option<T>)
    ensures r.None? <==> forall i :: 0 <= i < |xs| ==> !p(xs[i])
    ensures r.Some? ==> exists i :: 0 <= i < |xs| && xs[i] == r.value && p(xs[i])
                                    && forall j :: 0 <= j < i ==> !p(xs[j])
    decreases |xs|
  {
    if xs == [] then None
    else if p(xs[0]) then Some(xs[0])
    else FindFirst(xs[1..], p)
  }

  /** A worker-count argument is usable iff it is a positive number:
      missing values, strings, zero and negatives are all rejected. */
  function IsValidNumWorkers(v: JsValue): (valid: bool)
    ensures valid <==> v.Num? && v.n > 0
  {
    Truthy(v) && TypeOf(v) == "number" && v.n > 0
  }

  /** The effective worker count: the first valid of the optional argument
      and the CPU count, or `None` when neither is valid (no CPUs reported). */
  function ResolveNumWorkers(optional: JsValue, cpuCount: nat): (r: Option<int>)
    ensures IsValidNumWorkers(optional) ==> r == Some(optional.n)
    ensures !IsValidNumWorkers(optional) && cpuCount > 0 ==> r == Some(cpuCount)
    ensures !IsValidNumWorkers(optional) && cpuCount == 0 ==> r == None
    ensures r.Some? ==> r.value > 0
  {
    var candidates := [optional, Num(cpuCount)];
    assert candidates[1] == Num(cpuCount);
    match FindFirst(candidates, IsValidNumWorkers)
    case Some(v) => Some(v.n)
    case None => None
  }

  /** A backoff strategy is either the caller's object or the default
      exponential strategy of the `backoff` library. */
  datatype BackoffStrategy =
    | Supplied(obj: JsValue)
    | Exponential(initialDelay: nat, maxDelay: nat)

  /** The default strategy: initial delay 500 ms, maximum delay 5000 ms. */
  const DefaultStrategy: BackoffStrategy := Exponential(500, 5000)

  /** A strategy is usable iff it is present (an object or a function) and
      its properties `next` and `reset` (own or inherited) are functions. The library's exponential
      strategy, whose two methods are inherited, is taken to qualify under the
      same reading of `_.functions`. */
  function IsValidBackoffStrategy(s: BackoffStrategy): (valid: bool)
    ensures s.Supplied? ==>
      (valid <==> (s.obj.Obj? || s.obj.Func?) && "next" in s.obj.props && s.obj.props["next"].Func?
                             && "reset" in s.obj.props && s.obj.props["reset"].Func?)
    ensures s.Exponential? ==> valid
  {
    match s
    case Supplied(v) => Truthy(v) && "next" in Functions(v) && "reset" in Functions(v)
    case Exponential(_, _) => true
  }

  /** The strategy in use: the caller's object when it is valid, otherwise
      the default exponential strategy. */
  function ResolveBackoffStrategy(optional: JsValue): (s: BackoffStrategy)
    ensures IsValidBackoffStrategy(Supplied(optional)) ==> s == Supplied(optional)
    ensures !IsValidBackoffStrategy(Supplied(optional)) ==> s == Exponential(500, 5000)
    ensures IsValidBackoffStrategy(s)
  {
    FindFirst([Supplied(optional), DefaultStrategy], IsValidBackoffStrategy).ValueOr(DefaultStrategy)
  }

  /** A call the supervisor makes on the `cluster` module or the worker body. */
  datatype Effect = Fork | CallWorkerFunc

  /** lodash `_.times` on the resolved count: `undefined`, zero and negative
      counts run nothing. */
  function TimesCount(numWorkers: Option<int>): nat
  {
    match numWorkers
    case Some(n) => if n > 0 then n else 0
    case None => 0
  }

  function Repeat(e: Effect, n: nat): (es: seq<Effect>)
    ensures |es| == n && forall i :: 0 <= i < n ==> es[i] == e
    ensures multiset(es)[e] == n
  {
    if n == 0 then [] else Repeat(e, n - 1) + [e]
  }

  /** `start`: the master forks once per worker and never runs the worker
      body; a worker runs the body once (with `cluster.worker`) and forks
      nothing. */
  function Start(isMaster: bool, numWorkers: Option<int>): (effects: seq<Effect>)
    ensures isMaster ==> |effects| == TimesCount(numWorkers)
                         && multiset(effects)[Fork] == TimesCount(numWorkers)
    ensures !isMaster ==> effects == [CallWorkerFunc]
    ensures multiset(effects)[CallWorkerFunc] == (if isMaster then 0 else 1)
  {
    if isMaster then Repeat(Fork, TimesCount(numWorkers)) else [CallWorkerFunc]
  }

  /** What one call of the exported function leaves behind. */
  datatype Setup = Setup(
    strategy: BackoffStrategy,
    numWorkers: Option<int>,
    handlers: seq<string>,
    effects: seq<Effect>,
    supervisor: ExitBackoff.State)

  /** The exported `fhCluster(workerFunc, optionalNumWorkers, optionalBackoffStrategy)`:
      resolve both options, arm the first reset interval, register the
      `listening` and `exit` handlers (in either role), then `start`. */
  function Launch(isMaster: bool, optionalNumWorkers: JsValue,
                     optionalBackoffStrategy: JsValue, cpuCount: nat): (r: Setup)
    ensures IsValidBackoffStrategy(r.strategy)
    ensures IsValidBackoffStrategy(Supplied(optionalBackoffStrategy)) ==>
      r.strategy == Supplied(optionalBackoffStrategy)
    ensures !IsValidBackoffStrategy(Supplied(optionalBackoffStrategy)) ==> r.strategy == DefaultStrategy
    ensures IsValidNumWorkers(optionalNumWorkers) ==> r.numWorkers == Some(optionalNumWorkers.n)
    ensures !IsValidNumWorkers(optionalNumWorkers) && cpuCount > 0 ==> r.numWorkers == Some(cpuCount)
    ensures !IsValidNumWorkers(optionalNumWorkers) && cpuCount == 0 ==> r.numWorkers == None
    ensures "exit" in r.handlers && "listening" in r.handlers
    ensures isMaster && IsValidNumWorkers(optionalNumWorkers) ==>
      |r.effects| == optionalNumWorkers.n && multiset(r.effects)[Fork] == optionalNumWorkers.n
    ensures isMaster && !IsValidNumWorkers(optionalNumWorkers) ==>
      |r.effects| == cpuCount && multiset(r.effects)[Fork] == cpuCount
    ensures !isMaster ==> r.effects == [CallWorkerFunc]
    ensures ExitBackoff.OneLiveInterval(r.supervisor.timers)
    ensures r.supervisor.forks == 0 && r.supervisor.pendingRetries == 0
  {
    var strategy := ResolveBackoffStrategy(optionalBackoffStrategy);
    var numWorkers := ResolveNumWorkers(optionalNumWorkers, cpuCount);
    var effects := Start(isMaster, numWorkers);
    Setup(strategy, numWorkers, ["listening", "exit"], effects, ExitBackoff.Initial())
  }
}
