/** Bound-task reconciliation (`setUpBoundTasks`). A bound task prefers one
    worker id and is started by a message carrying its start event id. One
    pass walks the tasks in list order against a snapshot of the workers'
    states: a task whose assigned worker is still listening is left alone;
    any other task is bound to its preferred worker if that one is listening,
    else to some other listening worker, with exactly one message sent; when
    no worker is listening the task, and its stale worker, are kept.
    Which non-preferred listening worker is chosen is left open. */
module BoundTasks {
  import opened Results

  type WorkerId = int

  datatype WorkerState = Starting | Listening | Disconnected | Dead

  /** The cluster as the pass sees it: its `workers` table may be absent. */
  datatype Cluster = Cluster(workers: Option<map<WorkerId, WorkerState>>)

  datatype Task = Task(preferredWorkerId: WorkerId, startEventId: string,
                       worker: Option<WorkerId>)

  /** One call of a worker's `send`, whose message carries the start event id. */
  datatype Send = Send(to: WorkerId, startEventId: string)

  /** The ids of the workers that are listening in this snapshot. */
  function ListeningIds(c: Cluster): set<WorkerId>
  {
    match c.workers
    case None => {}
    case Some(ws) => set id | id in ws && ws[id] == Listening
  }

  /** Some worker of the snapshot is listening. */
  predicate AnyListening(c: Cluster)
  {
    c.workers.Some? && exists id :: id in c.workers.value && c.workers.value[id] == Listening
  }

  /** The task's assigned worker is still listening, so it must not be re-sent. */
  predicate IsLive(c: Cluster, t: Task)
  {
    t.worker.Some? && t.worker.value in ListeningIds(c)
  }

  /** The pass (re)binds this task: it is not live and some worker listens. */
  predicate Rebinds(c: Cluster, t: Task)
  {
    !IsLive(c, t) && AnyListening(c)
  }

  /** The rule for one task: `t'` is what the pass leaves in its place. */
  ghost predicate TaskOk(c: Cluster, t: Task, t': Task)
  {
    if !Rebinds(c, t) then t' == t
    else
      && t'.preferredWorkerId == t.preferredWorkerId
      && t'.startEventId == t.startEventId
      && t'.worker.Some?
      && t'.worker.value in ListeningIds(c)
      && (t.preferredWorkerId in ListeningIds(c) ==> t'.worker.value == t.preferredWorkerId)
  }

  /** The message for one task: to its new worker when the pass rebinds it,
      none otherwise. */
  function MessageFor(c: Cluster, t: Task, t': Task): seq<Send>
  {
    if Rebinds(c, t) then [Send(t'.worker.ValueOr(0), t.startEventId)] else []
  }

  /** The sends of a pass, in task order. */
  function SendLog(c: Cluster, ts: seq<Task>, ts': seq<Task>): seq<Send>
    requires |ts'| == |ts|
    decreases |ts|
  {
    if ts == [] then []
    else
      var n := |ts| - 1;
      SendLog(c, ts[..n], ts'[..n]) + MessageFor(c, ts[n], ts'[n])
  }

  /** `ts'` and `log` are a possible outcome of one pass over `ts`. */
  ghost predicate PassOk(c: Cluster, ts: seq<Task>, ts': seq<Task>, log: seq<Send>)
  {
    && |ts'| == |ts|
    && (forall i :: 0 <= i < |ts| ==> TaskOk(c, ts[i], ts'[i]))
    && log == SendLog(c, ts, ts')
  }

  /** The number of tasks a pass rebinds. */
  function RebindCount(c: Cluster, ts: seq<Task>): nat
    decreases |ts|
  {
    if ts == [] then 0
    else RebindCount(c, ts[..|ts| - 1]) + (if Rebinds(c, ts[|ts| - 1]) then 1 else 0)
  }

  /** One reconciliation pass. A task that needs a worker goes to its
      preferred worker when that one listens, otherwise to any listening
      worker. */
  method SetUpBoundTasks(ts: seq<Task>, c: Cluster) returns (ts': seq<Task>, log: seq<Send>)
    ensures PassOk(c, ts, ts', log)
    ensures |log| == RebindCount(c, ts)
    ensures forall k :: 0 <= k < |log| ==> log[k].to in ListeningIds(c)
  {
    var live := ListeningIds(c);
    ts' := [];
    log := [];
    for i := 0 to |ts|
      invariant |ts'| == i
      invariant forall j :: 0 <= j < i ==> TaskOk(c, ts[j], ts'[j])
      invariant log == SendLog(c, ts[..i], ts')
      invariant |log| == RebindCount(c, ts[..i])
      invariant forall k :: 0 <= k < |log| ==> log[k].to in live
    {
      var t := ts[i];
      var t' := t;
      if Rebinds(c, t) {
        var w: WorkerId;
        if t.preferredWorkerId in live {
          w := t.preferredWorkerId;
        } else {
          var id :| id in c.workers.value && c.workers.value[id] == Listening;
          w := id;
        }
        t' := t.(worker := Some(w));
        log := log + [Send(w, t.startEventId)];
      }
      assert ts[..i + 1][..i] == ts[..i];
      assert (ts' + [t'])[..i] == ts';
      ts' := ts' + [t'];
    }
    assert ts[..|ts|] == ts;
  }

  /** Every send goes to a listening worker: a worker that is dead, starting,
      disconnected or absent receives nothing. */
  lemma {:induction false} SendsGoToListening(c: Cluster, ts: seq<Task>, ts': seq<Task>, log: seq<Send>)
    requires PassOk(c, ts, ts', log)
    ensures forall k :: 0 <= k < |log| ==> log[k].to in ListeningIds(c)
    decreases |ts|
  {
    if ts != [] {
      var n := |ts| - 1;
      assert forall i :: 0 <= i < n ==> ts[..n][i] == ts[i] && ts'[..n][i] == ts'[i];
      SendsGoToListening(c, ts[..n], ts'[..n], SendLog(c, ts[..n], ts'[..n]));
    }
  }

  /** A pass sends exactly one message per task it rebinds, and none for the
      others. */
  lemma {:induction false} OneSendPerRebind(c: Cluster, ts: seq<Task>, ts': seq<Task>)
    requires |ts'| == |ts|
    ensures |SendLog(c, ts, ts')| == RebindCount(c, ts)
    decreases |ts|
  {
    if ts != [] {
      OneSendPerRebind(c, ts[..|ts| - 1], ts'[..|ts| - 1]);
    }
  }

  /** The task behind a message: rebound by the pass, carrying the
      message's start event id, and now bound to the message's worker. */
  ghost predicate SentFor(c: Cluster, ts: seq<Task>, ts': seq<Task>, m: Send, i: int)
  {
    && 0 <= i < |ts| && i < |ts'|
    && Rebinds(c, ts[i])
    && m.startEventId == ts[i].startEventId
    && ts'[i].worker == Some(m.to)
  }

  /** Each message belongs to a task the pass rebinds: it carries that task's
      start event id and goes to the worker the task is now bound to. */
  lemma {:induction false} SendOrigin(c: Cluster, ts: seq<Task>, ts': seq<Task>, log: seq<Send>, k: int)
    returns (i: int)
    requires PassOk(c, ts, ts', log)
    requires 0 <= k < |log|
    ensures SentFor(c, ts, ts', log[k], i)
    decreases |ts|
  {
    var n := |ts| - 1;
    var pre, pre' := ts[..n], ts'[..n];
    assert forall j :: 0 <= j < n ==> pre[j] == ts[j] && pre'[j] == ts'[j];
    var prefix := SendLog(c, pre, pre');
    if k < |prefix| {
      i := SendOrigin(c, pre, pre', prefix, k);
      assert log[k] == prefix[k];
    } else {
      i := n;
    }
  }

  /** A pass in which no task is rebound sends nothing. */
  lemma {:induction false} NoRebindNoSend(c: Cluster, ts: seq<Task>, ts': seq<Task>)
    requires |ts'| == |ts|
    requires forall i :: 0 <= i < |ts| ==> !Rebinds(c, ts[i])
    ensures SendLog(c, ts, ts') == []
    decreases |ts|
  {
    if ts != [] {
      var n := |ts| - 1;
      assert forall i :: 0 <= i < n ==> ts[..n][i] == ts[i];
      NoRebindNoSend(c, ts[..n], ts'[..n]);
    }
  }

  /** With no worker listening (or no `workers` table at all), a pass sends
      nothing and keeps every task, stale assignments included. */
  lemma NoListenerChangesNothing(c: Cluster, ts: seq<Task>, ts': seq<Task>, log: seq<Send>)
    requires !AnyListening(c)
    requires PassOk(c, ts, ts', log)
    ensures ts' == ts && log == []
  {
    NoRebindNoSend(c, ts, ts');
  }

  /** After a pass that found a listening worker, every task is bound to a
      listening worker, its preferred one whenever that one listens and the
      task was not live before. */
  lemma AllBoundAfterPass(c: Cluster, ts: seq<Task>, ts': seq<Task>, log: seq<Send>)
    requires AnyListening(c)
    requires PassOk(c, ts, ts', log)
    ensures forall i :: 0 <= i < |ts'| ==> IsLive(c, ts'[i])
    ensures forall i :: (0 <= i < |ts| && !IsLive(c, ts[i]) && ts[i].preferredWorkerId in ListeningIds(c))
                        ==> ts'[i].worker == Some(ts[i].preferredWorkerId)
  {
  }

  /** Nothing but the assignment of a rebound task changes: preferred worker
      ids and start event ids are kept, and live tasks are untouched. */
  lemma OnlyOrphansMove(c: Cluster, ts: seq<Task>, ts': seq<Task>, log: seq<Send>)
    requires PassOk(c, ts, ts', log)
    ensures forall i :: 0 <= i < |ts| ==>
      ts'[i].preferredWorkerId == ts[i].preferredWorkerId && ts'[i].startEventId == ts[i].startEventId
    ensures forall i :: 0 <= i < |ts| && IsLive(c, ts[i]) ==> ts'[i] == ts[i]
  {
  }

  /** Reconciliation is idempotent: a second pass over the same snapshot
      changes nothing and sends nothing. */
  lemma Idempotent(c: Cluster, ts: seq<Task>, ts1: seq<Task>, log1: seq<Send>,
                   ts2: seq<Task>, log2: seq<Send>)
    requires PassOk(c, ts, ts1, log1)
    requires PassOk(c, ts1, ts2, log2)
    ensures ts2 == ts1 && log2 == []
  {
    assert forall i :: 0 <= i < |ts1| ==> !Rebinds(c, ts1[i]);
    NoRebindNoSend(c, ts1, ts2);
  }

  /** Conversely, every task the pass rebinds gets its message, addressed to
      the worker it is now bound to. */
  lemma {:induction false} RebindIsSent(c: Cluster, ts: seq<Task>, ts': seq<Task>, log: seq<Send>, i: int)
    requires PassOk(c, ts, ts', log)
    requires 0 <= i < |ts| && Rebinds(c, ts[i])
    ensures ts'[i].worker.Some? && Send(ts'[i].worker.value, ts[i].startEventId) in log
    decreases |ts|
  {
    var n := |ts| - 1;
    if i < n {
      var pre, pre' := ts[..n], ts'[..n];
      assert forall j :: 0 <= j < n ==> pre[j] == ts[j] && pre'[j] == ts'[j];
      RebindIsSent(c, pre, pre', SendLog(c, pre, pre'), i);
    }
  }
}
