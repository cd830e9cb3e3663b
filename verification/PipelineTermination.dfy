/** Every run of the pipeline ends, but for spurious wakeups that never cease: with
    PipelineResults.NeverStuck, do_indexing returns with everything stored. */
module PipelineTermination {
  import opened IndexQueues
  import opened QueueProtocol
  import opened IndexPipelines
  import opened PipelineResults

  // ----- what shrinks -----

  function PhasesLeft(p: Phase): nat {
    match p
    case JoinParse => 5
    case StopStored => 4
    case StopNotified => 3
    case Draining => 2
    case JoinStore => 1
    case Returned => 0
  }

  function Unclaimed(s: Pipeline): nat {
    if s.counter < s.units then s.units - s.counter else 0
  }

  function ConnectingParse(s: Pipeline): set<Tid> {
    set t | t in s.parse && s.parse[t].Connecting?
  }

  function IndexingParse(s: Pipeline): set<Tid> {
    set t | t in s.parse && s.parse[t].Indexing?
  }

  function ActiveParse(s: Pipeline): set<Tid> {
    set t | t in s.parse && !s.parse[t].Finished? && !s.parse[t].Aborted?
  }

  function ConnectingStore(s: Pipeline): set<Tid> {
    set t | t in s.store && s.store[t].Connecting?
  }

  function ActiveStore(s: Pipeline): set<Tid> {
    set t | t in s.store && !s.store[t].Finished? && !s.store[t].Aborted?
  }

  /** Store tasks that are about to look at the queue. */
  function AwakeStore(s: Pipeline): set<Tid> {
    set t | t in s.store && (s.store[t].Idle? || t in s.system.queue.consumers.woken)
  }

  /** The parse tasks have made progress, in the order of what weighs most. */
  ghost predicate ParseProgress(s: Pipeline, s': Pipeline) {
    ConnectingParse(s') < ConnectingParse(s) ||
    (ConnectingParse(s') == ConnectingParse(s) && (Unclaimed(s') < Unclaimed(s) ||
    (Unclaimed(s') == Unclaimed(s) && (IndexingParse(s') < IndexingParse(s) ||
    (IndexingParse(s') == IndexingParse(s) && ActiveParse(s') < ActiveParse(s))))))
  }

  ghost predicate ParseUnchanged(s: Pipeline, s': Pipeline) {
    ConnectingParse(s') == ConnectingParse(s) && Unclaimed(s') == Unclaimed(s) &&
    IndexingParse(s') == IndexingParse(s) && ActiveParse(s') == ActiveParse(s)
  }

  ghost predicate StoreProgress(s: Pipeline, s': Pipeline) {
    var n, n' := |s.system.queue.stmts|, |s'.system.queue.stmts|;
    n' < n ||
    (n' == n && (ConnectingStore(s') < ConnectingStore(s) ||
    (ConnectingStore(s') == ConnectingStore(s) && ActiveStore(s') < ActiveStore(s))))
  }

  ghost predicate StoreUnchanged(s: Pipeline, s': Pipeline) {
    |s'.system.queue.stmts| == |s.system.queue.stmts| &&
    ConnectingStore(s') == ConnectingStore(s) && ActiveStore(s') == ActiveStore(s)
  }

  /** Fewer tasks are awake in the waits. */
  ghost predicate Settling(s: Pipeline, s': Pipeline) {
    var w, w' := s.system.queue.producers.woken, s'.system.queue.producers.woken;
    w' < w || (w' == w && AwakeStore(s') < AwakeStore(s))
  }

  ghost predicate Progress(s: Pipeline, s': Pipeline) {
    PhasesLeft(s'.main) < PhasesLeft(s.main) ||
    (s'.main == s.main && (ParseProgress(s, s') ||
    (ParseUnchanged(s, s') && (StoreProgress(s, s') ||
    (StoreUnchanged(s, s') && Settling(s, s'))))))
  }

  // ----- every move is progress -----

  predicate Spurious(m: Move) {
    m.SpuriousFetch? || m.SpuriousSend?
  }

  lemma ParseMoveProgress(s: Pipeline, s': Pipeline, m: Move)
    requires StepOf(s, s', m) && (m.ConnectParse? || m.Claim? || m.Skip? || m.Send?)
    ensures s'.main == s.main && ParseProgress(s, s')
  {
    assert forall t :: t in s.parse && t != m.t ==> s'.parse[t] == s.parse[t];
    if m.ConnectParse? {
      assert m.t in ConnectingParse(s) && m.t !in ConnectingParse(s');
    } else if m.Skip? || m.Send? {
      assert m.t in IndexingParse(s) && m.t !in IndexingParse(s');
      assert ConnectingParse(s') == ConnectingParse(s);
    } else {
      assert ConnectingParse(s') == ConnectingParse(s);
      if s.counter >= s.units {
        assert IndexingParse(s') == IndexingParse(s);
        assert m.t in ActiveParse(s) && m.t !in ActiveParse(s');
      }
    }
  }

  lemma RecheckProgress(s: Pipeline, s': Pipeline, m: Move)
    requires Places(s) && Disjoint(s.system.queue.producers) && StepOf(s, s', m) && m.RecheckSend?
    ensures Progress(s, s')
  {
    assert m.t in Waiting(s.system.queue.producers) && s.parse[m.t].InAdd?;
    assert ParseUnchanged(s, s');
    assert StoreUnchanged(s, s');
    assert m.t in s.system.queue.producers.woken && m.t !in s'.system.queue.producers.woken;
  }

  lemma ConnectStoreProgress(s: Pipeline, s': Pipeline, m: Move)
    requires StepOf(s, s', m) && m.ConnectStore?
    ensures Progress(s, s')
  {
    assert ParseUnchanged(s, s');
    assert m.t in ConnectingStore(s) && m.t !in ConnectingStore(s');
  }

  lemma FetchProgress(s: Pipeline, s': Pipeline, m: Move)
    requires Places(s) && StepOf(s, s', m) && m.Fetch?
    ensures Progress(s, s')
  {
    assert s.store[m.t].Idle? || s.store[m.t].InGet? by {
      if !s.store[m.t].Idle? {
        assert m.t in Waiting(s.system.queue.consumers);
      }
    }
    assert ParseUnchanged(s, s');
    if m.r.Stopped? {
      assert ConnectingStore(s') == ConnectingStore(s);
      assert m.t in ActiveStore(s) && m.t !in ActiveStore(s');
    } else if m.r.Blocked? {
      assert StoreUnchanged(s, s');
      assert m.t in AwakeStore(s) && m.t !in AwakeStore(s');
    }
  }

  lemma MoveIsProgress(s: Pipeline, s': Pipeline, m: Move)
    requires PipelineInv(s) && StepOf(s, s', m) && !Spurious(m)
    ensures Progress(s, s')
  {
    match m
    case ConnectParse(_, _) => ParseMoveProgress(s, s', m);
    case Claim(_) => ParseMoveProgress(s, s', m);
    case Skip(_) => ParseMoveProgress(s, s', m);
    case Send(_, _, _) => ParseMoveProgress(s, s', m);
    case RecheckSend(_, _) => RecheckProgress(s, s', m);
    case ConnectStore(_, _) => ConnectStoreProgress(s, s', m);
    case Fetch(_, _) => FetchProgress(s, s', m);
    case _ =>
  }

  // ----- main results -----

  ghost predicate IsInfiniteRun(run: nat -> Pipeline, moves: nat -> Move) {
    PipelineInit(run(0)) && forall i: nat :: StepOf(run(i), run(i + 1), moves(i))
  }

  lemma {:induction false} InfiniteRunKeepsInv(run: nat -> Pipeline, moves: nat -> Move, i: nat)
    requires IsInfiniteRun(run, moves)
    ensures PipelineInv(run(i))
  {
    if i == 0 {
      PipelineInitInv(run(0));
    } else {
      InfiniteRunKeepsInv(run, moves, i - 1);
      assert StepOf(run(i - 1), run(i - 1 + 1), moves(i - 1));
      MoveKeepsInv(run(i - 1), run(i), moves(i - 1));
    }
  }

  lemma {:induction false} NextSpuriousWakeup(run: nat -> Pipeline, moves: nat -> Move, i: nat) returns (k: nat)
    requires IsInfiniteRun(run, moves)
    ensures i <= k && Spurious(moves(k))
    decreases PhasesLeft(run(i).main),
              ConnectingParse(run(i)), Unclaimed(run(i)), IndexingParse(run(i)), ActiveParse(run(i)),
              |run(i).system.queue.stmts|, ConnectingStore(run(i)), ActiveStore(run(i)),
              run(i).system.queue.producers.woken, AwakeStore(run(i))
  {
    if Spurious(moves(i)) {
      return i;
    }
    InfiniteRunKeepsInv(run, moves, i);
    assert StepOf(run(i), run(i + 1), moves(i));
    MoveIsProgress(run(i), run(i + 1), moves(i));
    k := NextSpuriousWakeup(run, moves, i + 1);
  }

  /** A run that never ends has spurious wakeups without end. */
  lemma RunsEnd(run: nat -> Pipeline, moves: nat -> Move, i: nat)
    requires IsInfiniteRun(run, moves)
    ensures exists k: nat :: i <= k && Spurious(moves(k))
  {
    var k := NextSpuriousWakeup(run, moves, i);
  }

  /** And a run that has ended, with an initial store task connected, has returned from
      do_indexing with everything pushed taken exactly once and in order. */
  lemma EndedRunsHaveDelivered(s: Pipeline)
    requires Reachable(s) && !CanMove(s)
    requires exists t :: t in s.initialStore && t in s.store && !s.store[t].Aborted?
    ensures s.main == Returned
    ensures s.system.queue.stmts == [] && Batches(s.system.taken) == s.system.pushed
    ensures (exists t :: t in s.parse && s.parse[t].Finished?) ==> |s.claims| == s.units
  {
    NeverStuck(s);
    ReachableInv(s);
    ExactlyOnceDelivery(s);
  }
}
