/** How many store tasks there are over a run: the first ones, and extra ones if too much is
    left to store when the parse tasks are done; and when the main thread and the parse
    tasks go on. */
module PipelineTasks {
  import opened IndexQueues
  import opened IndexPipelines
  import opened PipelineResults

  /** What of a state the number of tasks depends on. */
  datatype Tasks = Tasks(main: Phase, parse: set<Tid>, store: set<Tid>, initial: set<Tid>, left: int)

  function TasksOf(s: Pipeline): Tasks {
    Tasks(s.main, s.parse.Keys, s.store.Keys, s.initialStore, s.system.queue.numStmts)
  }

  /** No task is started but when the main thread goes on from the stop. */
  ghost predicate TasksNext(a: Tasks, b: Tasks) {
    b.parse == a.parse && b.initial == a.initial &&
    match a.main
    case JoinParse => b.store == a.store && b.main in {JoinParse, StopStored}
    case StopStored => b.store == a.store && b.main in {StopStored, StopNotified}
    case StopNotified =>
      if b.main == Draining then |b.store| == |a.store| + if a.left >= 102400 then |a.parse| / 2 else 0
      else b.store == a.store && b.main == StopNotified
    case Draining => b.store == a.store && (b.main == Draining || (b.main == JoinStore && a.left < 1024))
    case JoinStore => b.store == a.store && b.main in {JoinStore, Returned}
    case Returned => b.store == a.store && b.main == Returned
  }

  lemma StartedSize(store: map<Tid, StoreState>, extra: set<Tid>)
    requires extra !! store.Keys
    ensures |Started(store, extra).Keys| == |store.Keys| + |extra|
  {
    assert Started(store, extra).Keys == store.Keys + extra;
  }

  lemma MapSize<K, V>(m: map<K, V>)
    ensures |m| == |m.Keys|
  {
  }

  lemma ExtraNext(s: Pipeline, s': Pipeline, extra: set<Tid>)
    requires StepOf(s, s', StartExtra(extra))
    ensures TasksNext(TasksOf(s), TasksOf(s'))
  {
    StartedSize(s.store, extra);
    MapSize(s.parse);
  }

  lemma MoveTasks(s: Pipeline, s': Pipeline, m: Move)
    requires StepOf(s, s', m)
    ensures TasksNext(TasksOf(s), TasksOf(s'))
  {
    match m
    case StartExtra(extra) => ExtraNext(s, s', extra);
    case _ =>
      assert s'.parse.Keys == s.parse.Keys && s'.store.Keys == s.store.Keys && s'.initialStore == s.initialStore;
  }

  /** Extra tasks begin by connecting, and the others go on as they were. */
  lemma ExtraTasksConnect(s: Pipeline, s': Pipeline, extra: set<Tid>)
    requires StepOf(s, s', StartExtra(extra))
    ensures forall t :: t in s'.store.Keys <==> t in s.store.Keys || t in extra
    ensures forall t :: t in s.store ==> s'.store[t] == s.store[t]
    ensures forall t :: t in extra ==> t !in s.store && s'.store[t] == StoreState.Connecting
  {
  }

  ghost predicate Extended(a: Tasks, b: Tasks) {
    a.main == StopNotified && b.main == Draining
  }

  /** How many store tasks there are at point `k` of a run: until the main thread goes on
      from the stop only the initial ones; from then on, if 102400 statements or more were
      left at that point, which is point `i`, also half as many as there are parse tasks. */
  ghost predicate StoreTasksAt(run: seq<Tasks>, k: nat, i: nat) {
    k < |run| &&
    if run[k].main in {JoinParse, StopStored, StopNotified} then run[k].store == run[k].initial
    else i < k && Extended(run[i], run[i + 1]) &&
         |run[k].store| == |run[k].initial| + if run[i].left >= 102400 then |run[k].parse| / 2 else 0
  }

  lemma {:induction false} TasksOverRuns(run: seq<Tasks>, k: nat) returns (i: nat)
    requires k < |run| && run[0].main == JoinParse && run[0].store == run[0].initial
    requires forall j :: 0 <= j < |run| - 1 ==> TasksNext(run[j], run[j + 1])
    ensures StoreTasksAt(run, k, i)
  {
    i := 0;
    if k > 0 {
      i := TasksOverRuns(run, k - 1);
      assert TasksNext(run[k - 1], run[k - 1 + 1]);
      if run[k - 1].main in {JoinParse, StopStored, StopNotified} {
        i := k - 1;
      }
    }
  }

  function AllTasks(run: seq<Pipeline>): seq<Tasks> {
    seq(|run|, i requires 0 <= i < |run| => TasksOf(run[i]))
  }

  /** Main result, over every run of the pipeline. */
  lemma StoreTasksOverRuns(run: seq<Pipeline>, k: nat) returns (i: nat)
    requires IsPipelineRun(run) && k < |run|
    ensures StoreTasksAt(AllTasks(run), k, i)
  {
    forall j | 0 <= j < |run| - 1
      ensures TasksNext(AllTasks(run)[j], AllTasks(run)[j + 1])
    {
      assert PipelineNext(run[j], run[j + 1]);
      var m :| StepOf(run[j], run[j + 1], m);
      MoveTasks(run[j], run[j + 1], m);
    }
    i := TasksOverRuns(AllTasks(run), k);
  }

  // ----- what the main thread and the tasks wait for -----

  /** The main thread may go on to join the store tasks iff fewer than 1024 statements are
      left, and start extra ones iff it is at that point and takes as many as it should. */
  lemma MainGoesOnIff(s: Pipeline, extra: set<Tid>)
    ensures StepOf(s, s.(main := JoinStore), Drained) <==> s.main == Draining && s.system.queue.numStmts < 1024
    ensures StepOf(s, s.(main := Draining, store := Started(s.store, extra)), StartExtra(extra)) <==>
              s.main == StopNotified && extra !! s.store.Keys &&
              |extra| == if s.system.queue.numStmts >= 102400 then |s.parse| / 2 else 0
  {
  }

  /** A task that has claimed a unit has connected, and goes on: it ends only when it finds
      no unit left. */
  ghost predicate ClaimersGoOn(s: Pipeline) {
    forall t :: t in s.claims ==>
      t in s.parse && !s.parse[t].Connecting? && !s.parse[t].Aborted? &&
      (s.parse[t].Finished? ==> s.counter >= s.units)
  }

  lemma MoveKeepsClaimers(s: Pipeline, s': Pipeline, m: Move)
    requires ClaimersGoOn(s) && Places(s) && StepOf(s, s', m)
    ensures ClaimersGoOn(s')
  {
    forall t | t in s'.claims
      ensures t in s'.parse && !s'.parse[t].Connecting? && !s'.parse[t].Aborted?
      ensures s'.parse[t].Finished? ==> s'.counter >= s'.units
    {
      assert t in s.claims || (m.Claim? && t == m.t);
    }
  }

  lemma {:induction false} ClaimersGoOnOverRuns(run: seq<Pipeline>, k: nat)
    requires IsPipelineRun(run) && k < |run|
    ensures ClaimersGoOn(run[k])
  {
    if k > 0 {
      ClaimersGoOnOverRuns(run, k - 1);
      RunKeepsPipelineInv(run, k - 1);
      assert PipelineNext(run[k - 1], run[k - 1 + 1]);
      var m :| StepOf(run[k - 1], run[k], m);
      MoveKeepsClaimers(run[k - 1], run[k], m);
    }
  }
}
