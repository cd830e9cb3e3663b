/** The bounded queue between parse tasks and store tasks: its critical sections as
    relations between states, and as a class whose methods are those sections.

    One lock guards everything but the store of `stop`, so a critical section, up to
    the point where it returns or goes to sleep, is one atomic step. Each condition
    variable has a set of threads asleep on it and a set of threads that were woken,
    by a notification or spuriously, and have yet to look at the queue again. */
module IndexQueues {

  type Tid = nat

  /** What one translation unit sends: the statements of unit number `unit`. */
  datatype Batch = Batch(unit: nat, stmts: seq<string>)

  datatype Waiters = Waiters(asleep: set<Tid>, woken: set<Tid>)

  datatype Queue = Queue(
    stmts: seq<Batch>,
    numStmts: int,
    stop: bool,
    lowerTimes: nat,
    consumers: Waiters,
    producers: Waiters)

  const TOO_MANY_INFO_WAIT: nat := 2048 * 10
  const PRODUCER_WAIT_EXIT: nat := 2048 * 6
  const TWO_TO_64: nat := 0x1_0000_0000_0000_0000

  function Total(stmts: seq<Batch>): nat {
    if stmts == [] then 0 else |stmts[0].stmts| + Total(stmts[1..])
  }

  lemma {:induction false} TotalOfPush(stmts: seq<Batch>, b: Batch)
    ensures Total(stmts + [b]) == Total(stmts) + |b.stmts|
  {
    if stmts == [] {
      assert stmts + [b] == [b];
    } else {
      TotalOfPush(stmts[1..], b);
      assert (stmts + [b])[1..] == stmts[1..] + [b];
    }
  }

  // ----- condition variables -----

  function NotifyAll(w: Waiters): Waiters {
    Waiters({}, w.woken + w.asleep)
  }

  /** One sleeping thread is woken, whichever it is, if there is one. */
  ghost predicate NotifyOne(w: Waiters, w': Waiters) {
    if w.asleep == {} then w' == w
    else exists t :: t in w.asleep && w' == Waiters(w.asleep - {t}, w.woken + {t})
  }

  /** The threads in the wait, asleep or not. */
  function Waiting(w: Waiters): set<Tid> {
    w.asleep + w.woken
  }

  function Sleep(w: Waiters, t: Tid): Waiters {
    Waiters(w.asleep + {t}, w.woken - {t})
  }

  function Leave(w: Waiters, t: Tid): Waiters {
    w.(woken := w.woken - {t})
  }

  // ----- critical sections -----

  datatype GetResult = Blocked | Stopped | Took(batch: Batch)

  /** `get_stmts`, entered by a thread that just called it or was woken in it. */
  ghost predicate GetSection(q: Queue, q': Queue, c: Tid, r: GetResult) {
    if q.stmts == [] then
      if q.stop then r == Stopped && q' == q.(consumers := Leave(q.consumers, c))
      else r == Blocked && q' == q.(consumers := Sleep(q.consumers, c))
    else
      r == Took(q.stmts[0]) &&
      var rest := q.stmts[1..];
      q'.stmts == rest && q'.numStmts == q.numStmts - |q.stmts[0].stmts| && q'.stop == q.stop &&
      q'.consumers == Leave(q.consumers, c) &&
      if |rest| < PRODUCER_WAIT_EXIT then
        q'.producers == NotifyAll(q.producers) && q'.lowerTimes == q.lowerTimes
      else if |rest| < TOO_MANY_INFO_WAIT then
        q'.lowerTimes == (q.lowerTimes + 1) % TWO_TO_64 &&
        if q.lowerTimes % 1024 == 0 then NotifyOne(q.producers, q'.producers) else q'.producers == q.producers
      else
        q'.producers == q.producers && q'.lowerTimes == q.lowerTimes
  }

  /** `add_stmts` up to its return, or until the producer goes to sleep. */
  ghost predicate AddSection(q: Queue, q': Queue, p: Tid, b: Batch, blocked: bool) {
    q'.stmts == q.stmts + [b] && q'.numStmts == q.numStmts + |b.stmts| &&
    q'.stop == q.stop && q'.lowerTimes == q.lowerTimes &&
    NotifyOne(q.consumers, q'.consumers) &&
    blocked == (|q.stmts| + 1 >= TOO_MANY_INFO_WAIT && !q.stop) &&
    q'.producers == if blocked then Sleep(q.producers, p) else q.producers
  }

  /** A woken producer looks again: it returns, or goes back to sleep. */
  ghost predicate RecheckSection(q: Queue, q': Queue, p: Tid, blocked: bool) {
    blocked == (|q.stmts| >= TOO_MANY_INFO_WAIT && !q.stop) &&
    q' == q.(producers := if blocked then Sleep(q.producers, p) else Leave(q.producers, p))
  }

  // ----- the class -----

  class IndexQueue {
    var stmts: seq<Batch>
    var numStmts: int
    var stop: bool
    var lowerTimes: nat
    // The wait sets of stmt_consumer_cv_ and stmt_producer_cv_.
    var consumersAsleep: set<Tid>
    var consumersWoken: set<Tid>
    var producersAsleep: set<Tid>
    var producersWoken: set<Tid>

    function View(): Queue
      reads this
    {
      Queue(stmts, numStmts, stop, lowerTimes,
            Waiters(consumersAsleep, consumersWoken), Waiters(producersAsleep, producersWoken))
    }

    constructor ()
      ensures View() == Queue([], 0, false, 0, Waiters({}, {}), Waiters({}, {}))
    {
      stmts, numStmts, stop, lowerTimes := [], 0, false, 0;
      consumersAsleep, consumersWoken, producersAsleep, producersWoken := {}, {}, {}, {};
    }

    method NotifyOneConsumer()
      modifies this`consumersAsleep, this`consumersWoken
      ensures NotifyOne(old(View()).consumers, View().consumers)
    {
      if consumersAsleep != {} {
        var t :| t in consumersAsleep;
        consumersAsleep, consumersWoken := consumersAsleep - {t}, consumersWoken + {t};
      }
    }

    method NotifyOneProducer()
      modifies this`producersAsleep, this`producersWoken
      ensures NotifyOne(old(View()).producers, View().producers)
    {
      if producersAsleep != {} {
        var t :| t in producersAsleep;
        producersAsleep, producersWoken := producersAsleep - {t}, producersWoken + {t};
      }
    }

    method NotifyAllProducers()
      modifies this`producersAsleep, this`producersWoken
      ensures View().producers == NotifyAll(old(View()).producers)
    {
      producersAsleep, producersWoken := {}, producersWoken + producersAsleep;
    }

    method GetStmts(c: Tid) returns (r: GetResult)
      requires c !in consumersAsleep
      modifies this
      ensures GetSection(old(View()), View(), c, r)
    {
      consumersWoken := consumersWoken - {c};
      var haveInfo := |stmts| != 0;
      if !(haveInfo || stop) {
        consumersAsleep := consumersAsleep + {c};
        return Blocked;
      }
      if |stmts| == 0 {
        return Stopped;
      }
      r := Took(stmts[0]);
      var numSql := |stmts[0].stmts|;
      stmts := stmts[1..];
      numStmts := numStmts - numSql;
      if |stmts| < PRODUCER_WAIT_EXIT {
        NotifyAllProducers();
      } else if |stmts| < TOO_MANY_INFO_WAIT {
        var times := lowerTimes;
        lowerTimes := (lowerTimes + 1) % TWO_TO_64;
        if times % 1024 == 0 {
          NotifyOneProducer();
        }
      }
    }

    method AddStmts(p: Tid, input: Batch) returns (blocked: bool)
      requires p !in producersAsleep && p !in producersWoken
      modifies this
      ensures AddSection(old(View()), View(), p, input, blocked)
    {
      stmts := stmts + [input];
      numStmts := numStmts + |input.stmts|;
      NotifyOneConsumer();
      blocked := false;
      if |stmts| >= TOO_MANY_INFO_WAIT {
        blocked := WaitBelowThreshold(p);
      }
    }

    /** One evaluation of the producer's wait condition, on entering the wait or after
        waking up in it. */
    method WaitBelowThreshold(p: Tid) returns (blocked: bool)
      modifies this`producersAsleep, this`producersWoken
      ensures blocked == (|stmts| >= TOO_MANY_INFO_WAIT && !stop)
      ensures View().producers == if blocked then Sleep(old(View()).producers, p) else Leave(old(View()).producers, p)
    {
      var stmtLess := |stmts| < TOO_MANY_INFO_WAIT;
      blocked := !(stmtLess || stop);
      producersWoken := producersWoken - {p};
      if blocked {
        producersAsleep := producersAsleep + {p};
      }
    }

    /** First half of set_stop: a store outside the lock. */
    method StoreStop()
      modifies this`stop
      ensures View() == old(View()).(stop := true)
    {
      stop := true;
    }

    /** Second half of set_stop, under the lock. */
    method NotifyStop()
      modifies this`consumersAsleep, this`consumersWoken, this`producersAsleep, this`producersWoken
      ensures View() == old(View()).(consumers := NotifyAll(old(View()).consumers),
                                     producers := NotifyAll(old(View()).producers))
    {
      consumersAsleep, consumersWoken := {}, consumersWoken + consumersAsleep;
      NotifyAllProducers();
    }
  }
}
