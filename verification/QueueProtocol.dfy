/** Every interleaving of threads on one index queue, and what holds in all of them:
    no lost wakeup, no lost or repeated batch, bounded length. */
module QueueProtocol {
  import opened IndexQueues

  datatype Delivery = Delivery(taker: Tid, batch: Batch)

  /** The queue, what was ever pushed and popped, and whether the second half of
      set_stop has run. */
  datatype System = System(
    queue: Queue,
    pushed: seq<Batch>,
    taken: seq<Delivery>,
    stopNotified: bool)

  function Batches(taken: seq<Delivery>): seq<Batch> {
    seq(|taken|, i requires 0 <= i < |taken| => taken[i].batch)
  }

  ghost predicate Init(s: System) {
    s == System(Queue([], 0, false, 0, Waiters({}, {}), Waiters({}, {})), [], [], false)
  }

  ghost predicate GetStep(s: System, s': System, c: Tid, r: GetResult) {
    c !in s.queue.consumers.asleep && GetSection(s.queue, s'.queue, c, r) &&
    s'.pushed == s.pushed && s'.stopNotified == s.stopNotified &&
    s'.taken == if r.Took? then s.taken + [Delivery(c, r.batch)] else s.taken
  }

  ghost predicate AddStep(s: System, s': System, p: Tid, b: Batch, blocked: bool) {
    p !in Waiting(s.queue.producers) && AddSection(s.queue, s'.queue, p, b, blocked) &&
    s'.pushed == s.pushed + [b] && s'.taken == s.taken && s'.stopNotified == s.stopNotified
  }

  ghost predicate RecheckStep(s: System, s': System, p: Tid, blocked: bool) {
    p in s.queue.producers.woken && RecheckSection(s.queue, s'.queue, p, blocked) && s' == s.(queue := s'.queue)
  }

  ghost predicate SpuriousConsumerStep(s: System, s': System, c: Tid) {
    var w := s.queue.consumers;
    c in w.asleep && s' == s.(queue := s.queue.(consumers := Waiters(w.asleep - {c}, w.woken + {c})))
  }

  ghost predicate SpuriousProducerStep(s: System, s': System, p: Tid) {
    var w := s.queue.producers;
    p in w.asleep && s' == s.(queue := s.queue.(producers := Waiters(w.asleep - {p}, w.woken + {p})))
  }

  ghost predicate StoreStopStep(s: System, s': System) {
    s' == s.(queue := s.queue.(stop := true))
  }

  ghost predicate NotifyStopStep(s: System, s': System) {
    s.queue.stop &&
    s' == s.(queue := s.queue.(consumers := NotifyAll(s.queue.consumers), producers := NotifyAll(s.queue.producers)),
             stopNotified := true)
  }

  datatype Event =
    | Get(c: Tid, r: GetResult)
    | Add(p: Tid, b: Batch, blocked: bool)
    | Recheck(p: Tid, blocked: bool)
    | SpuriousConsumer(c: Tid)
    | SpuriousProducer(p: Tid)
    | StoreStop
    | NotifyStop

  ghost predicate Step(s: System, s': System, e: Event) {
    match e
    case Get(c, r) => GetStep(s, s', c, r)
    case Add(p, b, blocked) => AddStep(s, s', p, b, blocked)
    case Recheck(p, blocked) => RecheckStep(s, s', p, blocked)
    case SpuriousConsumer(c) => SpuriousConsumerStep(s, s', c)
    case SpuriousProducer(p) => SpuriousProducerStep(s, s', p)
    case StoreStop => StoreStopStep(s, s')
    case NotifyStop => NotifyStopStep(s, s')
  }

  ghost predicate Next(s: System, s': System) {
    exists e :: Step(s, s', e)
  }

  // ----- the invariant -----

  ghost predicate Disjoint(w: Waiters) {
    w.asleep !! w.woken
  }

  /** An un-notified producer sleeps only while the queue is long; un-notified consumers
      sleep only while those already woken can take everything; and once set_stop has
      notified, nobody sleeps. */
  ghost predicate NoLostWakeup(s: System) {
    var q := s.queue;
    (q.producers.asleep != {} ==> |q.stmts| >= PRODUCER_WAIT_EXIT) &&
    (q.consumers.asleep != {} ==> |q.stmts| <= |q.consumers.woken|) &&
    (s.stopNotified ==> q.stop && q.producers.asleep == {} && q.consumers.asleep == {})
  }

  /** First in, first out: what was taken, then what is queued, is what was pushed. */
  ghost predicate Fifo(s: System) {
    s.pushed == Batches(s.taken) + s.queue.stmts
  }

  /** While not stopped, each blocked producer accounts for one batch too many. */
  ghost predicate Backpressure(s: System) {
    var q := s.queue;
    !q.stop ==> |q.stmts| <= TOO_MANY_INFO_WAIT - 1 + |q.producers.asleep| + |q.producers.woken|
  }

  ghost predicate Inv(s: System) {
    Disjoint(s.queue.consumers) && Disjoint(s.queue.producers) &&
    s.queue.numStmts == Total(s.queue.stmts) &&
    NoLostWakeup(s) && Fifo(s) && Backpressure(s)
  }

  lemma InitInv(s: System)
    requires Init(s)
    ensures Inv(s)
  {
  }

  lemma GetKeepsInv(s: System, s': System, c: Tid, r: GetResult)
    requires Inv(s) && GetStep(s, s', c, r)
    ensures Inv(s')
  {
  }

  lemma NotifyOneMoves(w: Waiters, w': Waiters)
    requires Disjoint(w) && NotifyOne(w, w') && w.asleep != {}
    ensures Disjoint(w') && w'.asleep < w.asleep
    ensures |w'.asleep| == |w.asleep| - 1 && |w'.woken| == |w.woken| + 1
  {
  }

  lemma AddKeepsInv(s: System, s': System, p: Tid, b: Batch, blocked: bool)
    requires Inv(s) && AddStep(s, s', p, b, blocked)
    ensures Inv(s')
  {
    TotalOfPush(s.queue.stmts, b);
    if s.queue.consumers.asleep != {} {
      NotifyOneMoves(s.queue.consumers, s'.queue.consumers);
    }
  }

  lemma RecheckKeepsInv(s: System, s': System, p: Tid, blocked: bool)
    requires Inv(s) && RecheckStep(s, s', p, blocked)
    ensures Inv(s')
  {
  }

  lemma SpuriousKeepsInv(s: System, s': System, t: Tid)
    requires Inv(s) && (SpuriousConsumerStep(s, s', t) || SpuriousProducerStep(s, s', t))
    ensures Inv(s')
  {
  }

  lemma StepKeepsInv(s: System, s': System, e: Event)
    requires Inv(s) && Step(s, s', e)
    ensures Inv(s')
  {
    match e
    case Get(c, r) => GetKeepsInv(s, s', c, r);
    case Add(p, b, blocked) => AddKeepsInv(s, s', p, b, blocked);
    case Recheck(p, blocked) => RecheckKeepsInv(s, s', p, blocked);
    case SpuriousConsumer(c) => SpuriousKeepsInv(s, s', c);
    case SpuriousProducer(p) => SpuriousKeepsInv(s, s', p);
    case StoreStop =>
    case NotifyStop =>
  }

  /** Who enters and who leaves the two waits. */
  lemma StepMovesWaiters(s: System, s': System, e: Event)
    requires Disjoint(s.queue.consumers) && Disjoint(s.queue.producers) && Step(s, s', e)
    ensures Waiting(s'.queue.consumers) ==
            if e.Get? then
              if e.r.Blocked? then Waiting(s.queue.consumers) + {e.c} else Waiting(s.queue.consumers) - {e.c}
            else Waiting(s.queue.consumers)
    ensures Waiting(s'.queue.producers) ==
            if e.Add? && e.blocked then Waiting(s.queue.producers) + {e.p}
            else if e.Recheck? && !e.blocked then Waiting(s.queue.producers) - {e.p}
            else Waiting(s.queue.producers)
  {
  }

  /** Producers and consumers are never all asleep un-notified: if a producer and a
      consumer both sleep, some consumer has been woken. */
  lemma NeverAllAsleep(s: System)
    requires Inv(s) && s.queue.producers.asleep != {} && s.queue.consumers.asleep != {}
    ensures s.queue.consumers.woken != {}
  {
  }

  // ----- runs -----

  ghost predicate IsRun(run: seq<System>) {
    |run| > 0 && Init(run[0]) &&
    forall i :: 0 <= i < |run| - 1 ==> Next(run[i], run[i + 1])
  }

  lemma {:induction false} RunKeepsInv(run: seq<System>, k: nat)
    requires IsRun(run) && k < |run|
    ensures Inv(run[k])
  {
    if k == 0 {
      InitInv(run[0]);
    } else {
      RunKeepsInv(run, k - 1);
      assert Next(run[k - 1], run[k - 1 + 1]);
      var e :| Step(run[k - 1], run[k], e);
      StepKeepsInv(run[k - 1], run[k], e);
    }
  }
}
