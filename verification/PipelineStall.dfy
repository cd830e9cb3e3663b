/** Exactly when the pipeline is stuck, and a run that gets there: the condition under
    which PipelineResults.NeverStuck holds cannot be dropped. */
module PipelineStall {
  import opened IndexQueues
  import opened QueueProtocol
  import opened IndexPipelines
  import opened PipelineResults

  /** No store task connected, every parse task is asleep or done, and the main thread
      waits for one that is asleep or for statements nobody will take. */
  ghost predicate Stalled(s: Pipeline) {
    (forall t :: t in s.store ==> s.store[t].Aborted?) &&
    (forall t :: t in s.parse ==> ParseSettled(s.parse[t])) &&
    s.system.queue.producers.woken == {} &&
    ((s.main == JoinParse && exists t :: t in s.parse && s.parse[t].InAdd?) ||
     (s.main == Draining && s.system.queue.numStmts >= DRAINED_THRESHOLD))
  }

  lemma StalledIsStuck(s: Pipeline)
    requires PipelineInv(s) && Stalled(s)
    ensures Stuck(s)
  {
    forall t
      ensures t !in Waiting(s.system.queue.consumers)
    {
    }
    assert s.system.queue.consumers.woken <= Waiting(s.system.queue.consumers);
    forall s', m | StepOf(s, s', m)
      ensures m.SpuriousFetch? || m.SpuriousSend?
    {
    }
  }

  lemma StuckIffStalled(s: Pipeline)
    requires Reachable(s)
    ensures Stuck(s) <==> Stalled(s)
  {
    ReachableInv(s);
    if Stalled(s) {
      StalledIsStuck(s);
    }
    if Stuck(s) {
      StuckMeansAborted(s);
      if (exists t :: t in s.parse && !ParseSettled(s.parse[t])) || s.system.queue.producers.woken != {} {
        ActiveTaskMoves(s);
      } else if MainReady(s) {
        MainMoves(s);
      }
    }
  }

  // ----- a run into the stall -----

  lemma ReachableStep(s: Pipeline, s': Pipeline, m: Move)
    requires Reachable(s) && StepOf(s, s', m)
    ensures Reachable(s')
  {
    var run :| IsPipelineRun(run) && run[|run| - 1] == s;
    var longer := run + [s'];
    assert PipelineNext(s, s');
    forall i | 0 <= i < |longer| - 1
      ensures PipelineNext(longer[i], longer[i + 1])
    {
      if i < |run| - 1 {
        assert PipelineNext(run[i], run[i + 1]);
      }
    }
    assert IsPipelineRun(longer);
  }

  lemma Take(s: Pipeline, next: Pipeline, m: Move) returns (s': Pipeline)
    requires Reachable(s) && StepOf(s, next, m)
    ensures Reachable(next) && s' == next
  {
    ReachableStep(s, next, m);
    s' := next;
  }

  /** The one store task has failed to connect, and the one unit is being indexed. */
  lemma StallBegins(t: Tid, u: Tid, empty: Queue) returns (s: Pipeline)
    requires empty == Queue([], 0, false, 0, Waiters({}, {}), Waiters({}, {}))
    ensures s == Pipeline(1, {u}, System(empty, [], [], false), JoinParse, 1, [t],
                          map[t := Indexing(0)], map[u := StoreState.Aborted])
    ensures Reachable(s)
  {
    s := Pipeline(1, {u}, System(empty, [], [], false), JoinParse, 0, [],
                  map[t := ParseState.Connecting], map[u := StoreState.Connecting]);
    assert IsPipelineRun([s]);
    assert Reachable(s) by {
      assert [s][|[s]| - 1] == s;
    }
    s := Take(s, s.(store := s.store[u := StoreState.Aborted]), ConnectStore(u, false));
    assert s.store == map[u := StoreState.Aborted];
    s := ConnectAndClaim(s, t);
  }

  lemma ConnectAndClaim(s: Pipeline, t: Tid) returns (s': Pipeline)
    requires Reachable(s) && s.units == 1 && s.counter == 0 && s.claims == []
    requires s.parse == map[t := ParseState.Connecting]
    ensures s' == s.(counter := 1, claims := [t], parse := map[t := Indexing(0)]) && Reachable(s')
  {
    s' := Take(s, s.(parse := s.parse[t := ParseState.Idle]), ConnectParse(t, true));
    s' := ClaimFirst(s', t);
    assert s'.parse == map[t := Indexing(0)];
  }

  lemma ClaimFirst(s: Pipeline, t: Tid) returns (s': Pipeline)
    requires Reachable(s) && s.units == 1 && s.counter == 0 && s.claims == []
    requires t in s.parse && s.parse[t] == ParseState.Idle
    ensures s' == s.(counter := 1, claims := [t], parse := s.parse[t := Indexing(0)]) && Reachable(s')
  {
    s' := Take(s, s.(counter := 1, claims := [t], parse := s.parse[t := Indexing(0)]), Claim(t));
  }

  /** The main thread passes both halves of set_stop and starts no extra task. */
  lemma StallStops(s: Pipeline) returns (s': Pipeline)
    requires Reachable(s) && s.main == JoinParse && ParseJoined(s) && s.system.queue.numStmts < EXTRA_STORE_THRESHOLD
    requires s.system.queue.consumers == s.system.queue.producers == Waiters({}, {})
    ensures Reachable(s')
    ensures s' == s.(system := s.system.(queue := s.system.queue.(stop := true), stopNotified := true),
                     main := Draining)
  {
    s' := Take(s, s.(system := s.system.(queue := s.system.queue.(stop := true)), main := StopStored), Move.StopStore);
    var system' := s'.system.(stopNotified := true);
    assert NotifyStopStep(s'.system, system');
    s' := Take(s', s'.(system := system', main := StopNotified), Move.StopNotify);
    s' := StartNoExtra(s');
  }

  lemma StartNoExtra(s: Pipeline) returns (s': Pipeline)
    requires Reachable(s) && s.main == StopNotified && s.system.queue.numStmts < EXTRA_STORE_THRESHOLD
    ensures Reachable(s') && s' == s.(main := Draining)
  {
    assert Started(s.store, {}) == s.store;
    s' := Take(s, s.(main := Draining), StartExtra({}));
  }

  lemma FindNothingLeft(s: Pipeline, t: Tid) returns (s': Pipeline)
    requires Reachable(s) && s.counter >= s.units && t in s.parse && s.parse[t] == ParseState.Idle
    ensures s' == s.(counter := s.counter + 1, parse := s.parse[t := ParseState.Finished]) && Reachable(s')
  {
    s' := Take(s, s.(counter := s.counter + 1, parse := s.parse[t := ParseState.Finished]), Claim(t));
  }

  lemma PushIsStep(t: Tid, empty: Queue, full: Queue, b: Batch)
    requires empty == Queue([], 0, false, 0, Waiters({}, {}), Waiters({}, {}))
    requires full == empty.(stmts := [b], numStmts := |b.stmts|)
    ensures AddStep(System(empty, [], [], false), System(full, [b], [], false), t, b, false)
  {
    assert AddSection(empty, full, t, b, false);
  }

  lemma SendBatch(s: Pipeline, t: Tid, empty: Queue, full: Queue, b: Batch) returns (s': Pipeline)
    requires empty == Queue([], 0, false, 0, Waiters({}, {}), Waiters({}, {}))
    requires full == empty.(stmts := [b], numStmts := |b.stmts|) && b.stmts != []
    requires Reachable(s) && s.system == System(empty, [], [], false)
    requires t in s.parse && s.parse[t] == Indexing(b.unit)
    ensures s' == s.(system := System(full, [b], [], false), parse := s.parse[t := ParseState.Idle]) && Reachable(s')
  {
    var system' := System(full, [b], [], false);
    PushIsStep(t, empty, full, b);
    s' := Take(s, s.(system := system', parse := s.parse[t := ParseState.Idle]), Send(t, b, false));
  }

  /** The batch of that unit is pushed, and the only parse task finishes. */
  lemma StallSends(s: Pipeline, t: Tid, u: Tid, empty: Queue, full: Queue, b: Batch) returns (s': Pipeline)
    requires empty == Queue([], 0, false, 0, Waiters({}, {}), Waiters({}, {}))
    requires b.unit == 0 && |b.stmts| == 1024 && full == empty.(stmts := [b], numStmts := 1024)
    requires Reachable(s)
    requires s == Pipeline(1, {u}, System(empty, [], [], false), JoinParse, 1, [t],
                           map[t := Indexing(0)], map[u := StoreState.Aborted])
    ensures s' == s.(system := System(full, [b], [], false), counter := 2, parse := map[t := ParseState.Finished])
    ensures Reachable(s')
  {
    s' := SendBatch(s, t, empty, full, b);
    s' := FindNothingLeft(s', t);
    assert s'.parse == map[t := ParseState.Finished];
  }

  /** With one unit whose batch has 1024 statements, and a store task that fails to
      connect, the main thread ends up polling num_stmts_ forever. */
  lemma StallIsReachable(t: Tid, u: Tid) returns (s: Pipeline)
    ensures Reachable(s) && s.initialStore == {u} && Stuck(s) && s.main == Draining
  {
    var b := Batch(0, seq(1024, i => "stmt"));
    var empty := Queue([], 0, false, 0, Waiters({}, {}), Waiters({}, {}));
    var full := empty.(stmts := [b], numStmts := 1024);
    s := StallBegins(t, u, empty);
    s := StallSends(s, t, u, empty, full, b);
    s := StallStops(s);
    StuckIffStalled(s);
  }
}
