/** What holds of whole runs of the pipeline: exactly-once delivery, bounded memory,
    and no state in which everybody waits, unless no store task could connect. */
module PipelineResults {
  import opened IndexQueues
  import opened QueueProtocol
  import opened IndexPipelines

  ghost predicate IsPipelineRun(run: seq<Pipeline>) {
    |run| > 0 && PipelineInit(run[0]) &&
    forall i :: 0 <= i < |run| - 1 ==> PipelineNext(run[i], run[i + 1])
  }

  ghost predicate Reachable(s: Pipeline) {
    exists run :: IsPipelineRun(run) && run[|run| - 1] == s
  }

  lemma {:induction false} RunKeepsPipelineInv(run: seq<Pipeline>, k: nat)
    requires IsPipelineRun(run) && k < |run|
    ensures PipelineInv(run[k])
  {
    if k == 0 {
      PipelineInitInv(run[0]);
    } else {
      RunKeepsPipelineInv(run, k - 1);
      assert PipelineNext(run[k - 1], run[k - 1 + 1]);
      var m :| StepOf(run[k - 1], run[k], m);
      MoveKeepsInv(run[k - 1], run[k], m);
    }
  }

  lemma ReachableInv(s: Pipeline)
    requires Reachable(s)
    ensures PipelineInv(s)
  {
    var run :| IsPipelineRun(run) && run[|run| - 1] == s;
    RunKeepsPipelineInv(run, |run| - 1);
  }

  // ----- delivery -----

  /** When do_indexing returns, either everything pushed was taken, in push order, by
      tasks that connected, or nothing was taken at all. It is the former iff some
      store task connected or nothing was pushed. */
  lemma ExactlyOnceDelivery(s: Pipeline)
    requires Reachable(s) && s.main == Returned
    ensures DistinctUnits(s.system.pushed)
    ensures forall d :: d in s.system.taken ==> d.taker in s.store && s.store[d.taker].Finished?
    ensures s.system.queue.stmts == [] && Batches(s.system.taken) == s.system.pushed <==>
            (exists t :: t in s.store && s.store[t].Finished?) || s.system.pushed == []
    ensures (forall t :: t in s.store ==> s.store[t].Aborted?) ==> s.system.taken == []
  {
    ReachableInv(s);
    if s.system.taken != [] {
      assert s.system.taken[0] in s.system.taken;
    }
    if s.system.queue.stmts == [] {
      assert s.system.pushed == Batches(s.system.taken);
    }
  }

  /** If a parse task connected, every unit was claimed by exactly one of them: the
      claim of a unit is its place in one sequence as long as the list of units. */
  lemma EveryUnitIsClaimed(s: Pipeline)
    requires Reachable(s) && s.main != JoinParse
    requires exists t :: t in s.parse && s.parse[t].Finished?
    ensures |s.claims| == s.units
    ensures forall b :: b in s.system.pushed ==> b.unit < s.units
  {
    ReachableInv(s);
  }

  // ----- memory -----

  lemma SubsetSize(a: set<Tid>, b: set<Tid>)
    requires a <= b
    ensures |a| <= |b|
  {
    assert b == a + (b - a);
  }

  /** The queue never holds more than the threshold less one, plus one batch for each
      parse task; and num_stmts_ is the number of queued statements. */
  lemma QueueIsBounded(s: Pipeline)
    requires Reachable(s)
    ensures |s.system.queue.stmts| <= 20479 + |s.parse|
    ensures s.system.queue.numStmts == Total(s.system.queue.stmts)
  {
    ReachableInv(s);
    assert forall t :: t in Waiting(s.system.queue.producers) ==> t in s.parse.Keys;
    SubsetSize(Waiting(s.system.queue.producers), s.parse.Keys);
  }

  // ----- progress -----

  /** Some task or the main thread can move, other than by a spurious wakeup. */
  ghost predicate CanMove(s: Pipeline) {
    exists s', m :: StepOf(s, s', m) && !m.SpuriousFetch? && !m.SpuriousSend?
  }

  ghost predicate Stuck(s: Pipeline) {
    s.main != Returned && !CanMove(s)
  }

  /** A thread that is not asleep can always run its next critical section of
      get_stmts. */
  lemma GetIsEnabled(q: Queue, c: Tid) returns (q': Queue, r: GetResult)
    ensures GetSection(q, q', c, r)
  {
    if q.stmts == [] {
      q' := q.(consumers := if q.stop then Leave(q.consumers, c) else Sleep(q.consumers, c));
      r := if q.stop then Stopped else Blocked;
    } else {
      var rest := q.stmts[1..];
      r := Took(q.stmts[0]);
      q' := q.(stmts := rest, numStmts := q.numStmts - |q.stmts[0].stmts|, consumers := Leave(q.consumers, c));
      if |rest| < PRODUCER_WAIT_EXIT {
        q' := q'.(producers := NotifyAll(q.producers));
      } else if |rest| < TOO_MANY_INFO_WAIT {
        q' := q'.(lowerTimes := (q.lowerTimes + 1) % TWO_TO_64);
        if q.lowerTimes % 1024 == 0 && q.producers.asleep != {} {
          var t :| t in q.producers.asleep;
          q' := q'.(producers := Waiters(q.producers.asleep - {t}, q.producers.woken + {t}));
        }
      }
    }
  }

  lemma FetchIsEnabled(s: Pipeline, t: Tid)
    requires PipelineInv(s) && t in s.store && (s.store[t].Idle? || t in s.system.queue.consumers.woken)
    ensures CanMove(s)
  {
    assert t !in s.system.queue.consumers.asleep by {
      if s.store[t].Idle? {
        assert t !in Waiting(s.system.queue.consumers);
      }
    }
    var q', r := GetIsEnabled(s.system.queue, t);
    var taken' := if r.Took? then s.system.taken + [Delivery(t, r.batch)] else s.system.taken;
    var system' := s.system.(queue := q', taken := taken');
    assert GetStep(s.system, system', t, r);
    var to := match r
      case Blocked => InGet
      case Stopped => StoreState.Finished
      case Took(b) => if b.stmts == [] then StoreState.Finished else StoreState.Idle;
    assert StepOf(s, s.(system := system', store := s.store[t := to]), Fetch(t, r));
  }

  lemma RecheckIsEnabled(s: Pipeline, t: Tid)
    requires PipelineInv(s) && t in s.system.queue.producers.woken
    ensures CanMove(s)
  {
    assert t in Waiting(s.system.queue.producers);
    var q := s.system.queue;
    var blocked := |q.stmts| >= TOO_MANY_INFO_WAIT && !q.stop;
    var producers' := if blocked then Sleep(q.producers, t) else Leave(q.producers, t);
    var system' := s.system.(queue := q.(producers := producers'));
    assert RecheckStep(s.system, system', t, blocked);
    assert StepOf(s, s.(system := system', parse := s.parse[t := if blocked then InAdd else ParseState.Idle]),
                  RecheckSend(t, blocked));
  }

  predicate ParseSettled(p: ParseState) {
    p.InAdd? || p.Finished? || p.Aborted?
  }

  predicate StoreSettled(p: StoreState) {
    p.InGet? || p.Finished? || p.Aborted?
  }

  /** A task that is connecting, between two calls, or indexing can move. */
  lemma ParseTaskMoves(s: Pipeline, t: Tid)
    requires t in s.parse && !ParseSettled(s.parse[t])
    ensures CanMove(s)
  {
    match s.parse[t]
    case Connecting => assert StepOf(s, s.(parse := s.parse[t := ParseState.Idle]), ConnectParse(t, true));
    case Idle =>
      var s' := if s.counter >= s.units then s.(counter := s.counter + 1, parse := s.parse[t := ParseState.Finished])
                else s.(counter := s.counter + 1, claims := s.claims + [t], parse := s.parse[t := Indexing(s.counter)]);
      assert StepOf(s, s', Claim(t));
    case Indexing(_) => assert StepOf(s, s.(parse := s.parse[t := ParseState.Idle]), Skip(t));
  }

  lemma StoreTaskMoves(s: Pipeline, t: Tid)
    requires PipelineInv(s) && t in s.store && !StoreSettled(s.store[t])
    ensures CanMove(s)
  {
    match s.store[t]
    case Connecting => assert StepOf(s, s.(store := s.store[t := StoreState.Idle]), ConnectStore(t, true));
    case Idle => FetchIsEnabled(s, t);
  }

  lemma ActiveTaskMoves(s: Pipeline)
    requires PipelineInv(s)
    requires (exists t :: t in s.parse && !ParseSettled(s.parse[t])) ||
             (exists t :: t in s.store && !StoreSettled(s.store[t])) ||
             s.system.queue.producers.woken != {} || s.system.queue.consumers.woken != {}
    ensures CanMove(s)
  {
    if t :| t in s.parse && !ParseSettled(s.parse[t]) {
      ParseTaskMoves(s, t);
    } else if t :| t in s.store && !StoreSettled(s.store[t]) {
      StoreTaskMoves(s, t);
    } else if t :| t in s.system.queue.producers.woken {
      RecheckIsEnabled(s, t);
    } else {
      var t :| t in s.system.queue.consumers.woken;
      assert t in Waiting(s.system.queue.consumers);
      FetchIsEnabled(s, t);
    }
  }

  lemma NewTasks(present: set<Tid>, n: nat) returns (extra: set<Tid>)
    ensures extra !! present && |extra| == n
  {
    extra := {};
    var next := Above(present);
    while |extra| < n
      decreases n - |extra|
      invariant |extra| <= n && extra !! present
      invariant forall t :: t in present + extra ==> t < next
    {
      assert next !in present + extra;
      extra, next := extra + {next}, next + 1;
    }
  }

  lemma {:induction false} Above(ts: set<Tid>) returns (bound: nat)
    ensures forall t :: t in ts ==> t < bound
    decreases ts
  {
    if ts == {} {
      bound := 0;
    } else {
      var t :| t in ts;
      bound := Above(ts - {t});
      bound := if bound <= t then t + 1 else bound;
      assert forall u :: u in ts ==> u in ts - {t} || u == t;
    }
  }

  /** What the main thread waits for has happened. */
  ghost predicate MainReady(s: Pipeline) {
    match s.main
    case JoinParse => ParseJoined(s)
    case Draining => s.system.queue.numStmts < DRAINED_THRESHOLD
    case JoinStore => StoreJoined(s)
    case Returned => false
    case _ => true
  }

  lemma MainMoves(s: Pipeline)
    requires PipelineInv(s) && MainReady(s)
    ensures CanMove(s)
  {
    var q := s.system.queue;
    match s.main
    case JoinParse =>
      assert StepOf(s, s.(system := s.system.(queue := q.(stop := true)), main := StopStored), StopStore);
    case StopStored =>
      var system' := s.system.(queue := q.(consumers := NotifyAll(q.consumers), producers := NotifyAll(q.producers)),
                               stopNotified := true);
      assert StepOf(s, s.(system := system', main := StopNotified), StopNotify);
    case StopNotified =>
      var extra := NewTasks(s.store.Keys, if q.numStmts >= EXTRA_STORE_THRESHOLD then |s.parse| / 2 else 0);
      assert StepOf(s, s.(main := Draining, store := Started(s.store, extra)), StartExtra(extra));
    case Draining => assert StepOf(s, s.(main := JoinStore), Drained);
    case JoinStore => assert StepOf(s, s.(main := Returned), JoinAll);
  }

  /** Nobody but spurious wakeups moves only if no store task connected at all. */
  lemma StuckMeansAborted(s: Pipeline)
    requires Reachable(s) && Stuck(s)
    ensures forall t :: t in s.store ==> s.store[t].Aborted?
  {
    ReachableInv(s);
    var q := s.system.queue;
    if (exists t :: t in s.parse && !ParseSettled(s.parse[t])) ||
       (exists t :: t in s.store && !StoreSettled(s.store[t])) || q.producers.woken != {} || q.consumers.woken != {} {
      ActiveTaskMoves(s);
    } else if MainReady(s) {
      MainMoves(s);
    } else {
      NobodyMoves(s);
    }
  }

  /** All tasks asleep or done, and the main thread waiting. */
  lemma NobodyMoves(s: Pipeline)
    requires PipelineInv(s) && s.main != Returned && !MainReady(s)
    requires forall t :: t in s.parse ==> ParseSettled(s.parse[t])
    requires forall t :: t in s.store ==> StoreSettled(s.store[t])
    requires s.system.queue.producers.woken == {} && s.system.queue.consumers.woken == {}
    ensures forall t :: t in s.store ==> s.store[t].Aborted?
  {
  }

  /** Main result: if one of the initial store tasks connects, some task or the main
      thread can move without waiting for a spurious wakeup, until do_indexing
      returns. */
  lemma NeverStuck(s: Pipeline)
    requires Reachable(s)
    requires exists t :: t in s.initialStore && t in s.store && !s.store[t].Aborted?
    ensures !Stuck(s)
  {
    if Stuck(s) {
      StuckMeansAborted(s);
    }
  }
}
