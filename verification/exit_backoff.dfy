/** The exit handler of the supervisor (`setupOnExitBackOff`) and the hourly
    backoff reset interval (`resetBackoffResetInterval`), with the timers made
    explicit as events. A worker exit asks the shared strategy for its next
    delay and schedules one retry timer; when a retry timer fires, one worker
    is forked and the reset interval is re-armed; when a live reset interval
    fires, the strategy is reset. Delay values are not modelled, only how often
    the strategy and `cluster.fork` are called. */
module ExitBackoff {
  import opened Results

  /** The reset intervals: the handles still live, the handle the supervisor
      holds (and clears on the next re-arm), and the next fresh handle. */
  datatype Timers = Timers(live: set<nat>, held: nat, nextId: nat)

  /** Counters of the calls the exit handler makes, plus the retry timers that
      are scheduled but have not fired yet. */
  datatype State = State(
    nextCalls: nat,
    resets: nat,
    pendingRetries: nat,
    forks: nat,
    timers: Timers)

  datatype Event =
    | WorkerExit
    | RetryTimerFired
    | ResetIntervalFired(interval: nat)

  /** Exactly one reset interval is live, and it is the one the supervisor holds. */
  predicate OneLiveInterval(t: Timers)
  {
    t.live == {t.held} && t.held < t.nextId
  }

  /** The state right after set-up: the first reset interval (handle 0) is armed. */
  function Initial(): (s: State)
    ensures OneLiveInterval(s.timers)
    ensures s.forks == 0 && s.nextCalls == 0 && s.pendingRetries == 0
  {
    State(0, 0, 0, 0, Timers({0}, 0, 1))
  }

  /** Re-arming as written: the handle passed in is always the one created at
      set-up, so only that interval is ever cleared, and the fresh handle that
      `setInterval` returns is dropped. */
  function RearmAsWritten(t: Timers): (t': Timers)
    requires t.held < t.nextId
    ensures t'.held == t.held && t'.nextId == t.nextId + 1
    ensures t.held !in t'.live && t.nextId in t'.live
    ensures t.live - {t.held} <= t'.live <= (t.live - {t.held}) + {t.nextId}
  {
    Timers((t.live - {t.held}) + {t.nextId}, t.held, t.nextId + 1)
  }

  /** Re-arming as written `k` times: the held handle never changes, so every
      interval armed by one of those retries is still live afterwards. */
  function RearmAsWrittenN(t: Timers, k: nat): (t': Timers)
    requires t.held < t.nextId
    ensures t'.held == t.held && t'.nextId == t.nextId + k
    ensures forall i :: t.nextId <= i < t'.nextId ==> i in t'.live
  {
    if k == 0 then t else RearmAsWritten(RearmAsWrittenN(t, k - 1))
  }

  /** Re-arming as intended: clear the interval currently held and hold the
      fresh one, so a single quiet-period timer is pending at any time. */
  function Rearm(t: Timers): (t': Timers)
    requires OneLiveInterval(t)
    ensures OneLiveInterval(t')
    ensures t'.held !in t.live
  {
    Timers((t.live - {t.held}) + {t.nextId}, t.nextId, t.nextId + 1)
  }

  /** Re-arming as written leaves one more reset interval live after every
      retry but the first: after two retries two intervals call `reset()`. */
  lemma AsWrittenTwoRetriesLeaveTwoIntervals()
    ensures var t := RearmAsWritten(RearmAsWritten(Initial().timers));
      t.live == {1, 2} && |t.live| == 2
  {
  }

  /** With the intended re-arm, any number of retries leaves exactly one
      reset interval live, and it is the most recently armed one. */
  function RearmN(t: Timers, k: nat): (t': Timers)
    requires OneLiveInterval(t)
    ensures OneLiveInterval(t') && |t'.live| == 1
    ensures t'.nextId == t.nextId + k
    ensures k > 0 ==> t'.held == t.nextId + k - 1
  {
    if k == 0 then t else Rearm(RearmN(t, k - 1))
  }

  /** One event. `None` for a timer that does not exist: a retry firing with
      none scheduled, or a reset interval that is not live. */
  function Step(s: State, e: Event): (r: Option<State>)
    requires OneLiveInterval(s.timers)
    ensures r.Some? ==> OneLiveInterval(r.value.timers)
    ensures r.None? <==> (e.RetryTimerFired? && s.pendingRetries == 0)
                         || (e.ResetIntervalFired? && e.interval !in s.timers.live)
  {
    match e
    case WorkerExit =>
      Some(s.(nextCalls := s.nextCalls + 1, pendingRetries := s.pendingRetries + 1))
    case RetryTimerFired =>
      if s.pendingRetries == 0 then None
      else Some(s.(pendingRetries := s.pendingRetries - 1, forks := s.forks + 1,
                   timers := Rearm(s.timers)))
    case ResetIntervalFired(id) =>
      if id in s.timers.live then Some(s.(resets := s.resets + 1)) else None
  }

  /** A run of events, left to right; `None` once an event names a missing timer. */
  function Run(s: State, trace: seq<Event>): (r: Option<State>)
    requires OneLiveInterval(s.timers)
    ensures r.Some? ==> OneLiveInterval(r.value.timers)
    decreases |trace|
  {
    if trace == [] then Some(s)
    else match Step(s, trace[0])
      case None => None
      case Some(s1) => Run(s1, trace[1..])
  }

  /** Every exit calls `next()` once and schedules one retry; every retry that
      fires forks once; every live reset interval that fires resets once. */
  lemma {:induction false} RunAccounting(s: State, trace: seq<Event>)
    requires OneLiveInterval(s.timers)
    requires Run(s, trace).Some?
    ensures var s' := Run(s, trace).value;
      && s'.nextCalls == s.nextCalls + multiset(trace)[WorkerExit]
      && s'.forks == s.forks + multiset(trace)[RetryTimerFired]
      && s'.pendingRetries + multiset(trace)[RetryTimerFired]
         == s.pendingRetries + multiset(trace)[WorkerExit]
      && s'.resets == s.resets + |trace| - multiset(trace)[WorkerExit]
                      - multiset(trace)[RetryTimerFired]
    decreases |trace|
  {
    if trace != [] {
      assert trace == [trace[0]] + trace[1..];
      var s1 := Step(s, trace[0]).value;
      RunAccounting(s1, trace[1..]);
    }
  }

  /** Once every retry scheduled by the trace has fired, the trace forked
      exactly once per exit, and called `next()` exactly once per exit. */
  lemma OneForkPerExit(s: State, trace: seq<Event>)
    requires OneLiveInterval(s.timers)
    requires Run(s, trace).Some?
    requires Run(s, trace).value.pendingRetries == s.pendingRetries
    ensures Run(s, trace).value.forks - s.forks == multiset(trace)[WorkerExit]
    ensures Run(s, trace).value.nextCalls - s.nextCalls == multiset(trace)[WorkerExit]
  {
    RunAccounting(s, trace);
  }
}
