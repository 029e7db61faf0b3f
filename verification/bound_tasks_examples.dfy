/** The reconciliation scenarios of the bound-task unit tests, stated for
    every outcome a pass may have. Worker ids and start event ids are the
    tests' own. */
module BoundTasksExamples {
  import opened Results
  import opened BoundTasks

  const Event1: string := "somestartevent1"
  const Event2: string := "somestartevent2"

  lemma SendLogOfOne(c: Cluster, t: Task, t': Task)
    ensures SendLog(c, [t], [t']) == MessageFor(c, t, t')
  {
  }

  lemma SendLogOfTwo(c: Cluster, t0: Task, t1: Task, u0: Task, u1: Task)
    ensures SendLog(c, [t0, t1], [u0, u1]) == MessageFor(c, t0, u0) + MessageFor(c, t1, u1)
  {
    assert [t0, t1][..1] == [t0] && [u0, u1][..1] == [u0];
    SendLogOfOne(c, t0, u0);
  }

  /** No `workers` table: nothing is sent and the task is unchanged. */
  lemma NoWorkers(ts': seq<Task>, log: seq<Send>)
    requires PassOk(Cluster(None), [Task(1, Event1, None)], ts', log)
    ensures log == [] && ts' == [Task(1, Event1, None)]
  {
    NoListenerChangesNothing(Cluster(None), [Task(1, Event1, None)], ts', log);
  }

  /** An unassigned task whose preferred worker listens: one message with its
      start event id, and the task is bound to that worker. */
  lemma UnassignedTaskIsSent(ts': seq<Task>, log: seq<Send>)
    requires PassOk(Cluster(Some(map[1 := Listening])), [Task(1, Event1, None)], ts', log)
    ensures log == [Send(1, Event1)] && ts' == [Task(1, Event1, Some(1))]
  {
    var c := Cluster(Some(map[1 := Listening]));
    assert c.workers.value[1] == Listening;
    assert Rebinds(c, Task(1, Event1, None));
    assert ts' == [ts'[0]];
    SendLogOfOne(c, Task(1, Event1, None), ts'[0]);
  }

  /** A task already bound to a listening worker is not re-sent. */
  lemma AssignedAndAliveIsLeftAlone(ts': seq<Task>, log: seq<Send>)
    requires PassOk(Cluster(Some(map[1 := Listening])), [Task(1, Event1, Some(1))], ts', log)
    ensures log == [] && ts' == [Task(1, Event1, Some(1))]
  {
    var c := Cluster(Some(map[1 := Listening]));
    assert IsLive(c, Task(1, Event1, Some(1)));
    assert ts' == [ts'[0]];
    SendLogOfOne(c, Task(1, Event1, Some(1)), ts'[0]);
  }

  /** A task bound to a dead worker moves to the other, listening worker with
      one message; the dead worker receives nothing. */
  lemma DeadWorkerTaskMoves(ts': seq<Task>, log: seq<Send>)
    requires PassOk(Cluster(Some(map[1 := Dead, 2 := Listening])), [Task(1, Event1, Some(1))], ts', log)
    ensures log == [Send(2, Event1)] && ts' == [Task(1, Event1, Some(2))]
  {
    var c := Cluster(Some(map[1 := Dead, 2 := Listening]));
    assert c.workers.value[2] == Listening;
    assert ListeningIds(c) == {2};
    assert Rebinds(c, Task(1, Event1, Some(1)));
    assert ts' == [ts'[0]];
    SendLogOfOne(c, Task(1, Event1, Some(1)), ts'[0]);
  }

  /** All workers dead: the first pass keeps the stale assignment and sends
      nothing; once worker 2 listens, the next pass sends once and rebinds. */
  lemma AllDeadThenOneListens(ts1: seq<Task>, log1: seq<Send>, ts2: seq<Task>, log2: seq<Send>)
    requires PassOk(Cluster(Some(map[1 := Dead, 2 := Dead])), [Task(1, Event1, Some(1))], ts1, log1)
    requires PassOk(Cluster(Some(map[1 := Dead, 2 := Listening])), ts1, ts2, log2)
    ensures log1 == [] && ts1 == [Task(1, Event1, Some(1))]
    ensures log2 == [Send(2, Event1)] && ts2 == [Task(1, Event1, Some(2))]
  {
    var dead := Cluster(Some(map[1 := Dead, 2 := Dead]));
    NoListenerChangesNothing(dead, [Task(1, Event1, Some(1))], ts1, log1);
    DeadWorkerTaskMoves(ts2, log2);
  }

  /** Two tasks preferring the same listening worker: two messages, in task
      order, and both bound to it. */
  lemma SameWorkerGetsBoth(ts': seq<Task>, log: seq<Send>)
    requires PassOk(Cluster(Some(map[1 := Listening])),
                    [Task(1, Event1, None), Task(1, Event2, None)], ts', log)
    ensures log == [Send(1, Event1), Send(1, Event2)]
    ensures ts' == [Task(1, Event1, Some(1)), Task(1, Event2, Some(1))]
  {
    var c := Cluster(Some(map[1 := Listening]));
    var ts := [Task(1, Event1, None), Task(1, Event2, None)];
    assert c.workers.value[1] == Listening;
    assert Rebinds(c, ts[0]) && Rebinds(c, ts[1]);
    assert ts' == [ts'[0], ts'[1]];
    SendLogOfTwo(c, ts[0], ts[1], ts'[0], ts'[1]);
  }

  /** Tasks whose preferred workers all listen each go to their own worker. */
  lemma EachToItsPreferredWorker(ts': seq<Task>, log: seq<Send>)
    requires PassOk(Cluster(Some(map[1 := Listening, 2 := Listening])),
                    [Task(1, Event1, None), Task(2, Event2, None)], ts', log)
    ensures log == [Send(1, Event1), Send(2, Event2)]
    ensures ts' == [Task(1, Event1, Some(1)), Task(2, Event2, Some(2))]
  {
    var c := Cluster(Some(map[1 := Listening, 2 := Listening]));
    var ts := [Task(1, Event1, None), Task(2, Event2, None)];
    assert c.workers.value[1] == Listening;
    assert Rebinds(c, ts[0]) && Rebinds(c, ts[1]);
    assert ts' == [ts'[0], ts'[1]];
    SendLogOfTwo(c, ts[0], ts[1], ts'[0], ts'[1]);
  }

  /** Only the orphaned task moves: the task on live worker 1 is not re-sent,
      and the orphan of dead worker 2 moves to worker 1, which receives exactly
      one message. */
  lemma OnlyOrphanMoves(ts': seq<Task>, log: seq<Send>)
    requires PassOk(Cluster(Some(map[1 := Listening, 2 := Dead])),
                    [Task(1, Event1, Some(1)), Task(2, Event2, Some(2))], ts', log)
    ensures log == [Send(1, Event2)]
    ensures ts' == [Task(1, Event1, Some(1)), Task(2, Event2, Some(1))]
  {
    var c := Cluster(Some(map[1 := Listening, 2 := Dead]));
    var ts := [Task(1, Event1, Some(1)), Task(2, Event2, Some(2))];
    assert c.workers.value[1] == Listening;
    assert ListeningIds(c) == {1};
    assert !Rebinds(c, ts[0]) && Rebinds(c, ts[1]);
    assert ts' == [ts'[0], ts'[1]];
    SendLogOfTwo(c, ts[0], ts[1], ts'[0], ts'[1]);
  }
}
