/** Who is put to sleep and who is woken at which length of the queue, in numbers of
    batches: 20480 are too many, and with less than 12288 left every producer goes on.
    In between a producer is woken now and then. */
module QueueWakeups {
  import opened IndexQueues
  import opened QueueProtocol

  /** `t` is the one who was asleep and is now woken. */
  ghost predicate Wakes(w: Waiters, w': Waiters, t: Tid) {
    t in w.asleep && w'.asleep == w.asleep - {t} && w'.woken == w.woken + {t}
  }

  // ----- one step -----

  /** A push sends its producer to sleep iff it leaves 20480 batches or more and nobody has
      stopped the queue; and it wakes one of the sleeping consumers. */
  lemma PushBlocksIff(s: System, s': System, p: Tid, b: Batch, blocked: bool)
    requires AddStep(s, s', p, b, blocked)
    ensures |s'.queue.stmts| == |s.queue.stmts| + 1 && s'.queue.stmts[|s.queue.stmts|] == b
    ensures blocked <==> |s'.queue.stmts| >= 20480 && !s.queue.stop
    ensures s'.queue.producers.asleep == if blocked then s.queue.producers.asleep + {p} else s.queue.producers.asleep
    ensures if s.queue.consumers.asleep == {} then s'.queue.consumers == s.queue.consumers
            else exists t :: Wakes(s.queue.consumers, s'.queue.consumers, t)
  {
    if s.queue.consumers.asleep != {} {
      var t :| t in s.queue.consumers.asleep &&
               s'.queue.consumers == Waiters(s.queue.consumers.asleep - {t}, s.queue.consumers.woken + {t});
      assert Wakes(s.queue.consumers, s'.queue.consumers, t);
    }
  }

  /** A woken producer goes on iff fewer than 20480 batches are left or somebody has stopped
      the queue. */
  lemma RecheckGoesOnIff(s: System, s': System, p: Tid, blocked: bool)
    requires RecheckStep(s, s', p, blocked)
    ensures !blocked <==> |s.queue.stmts| < 20480 || s.queue.stop
    ensures p !in s'.queue.producers.woken
    ensures p in s'.queue.producers.asleep <==> blocked || p in s.queue.producers.asleep
  {
  }

  /** A consumer takes the first batch if there is one, and otherwise sleeps unless somebody
      has stopped the queue. */
  lemma PopTakesIff(s: System, s': System, c: Tid, r: GetResult)
    requires GetStep(s, s', c, r)
    ensures r.Took? <==> s.queue.stmts != []
    ensures r.Took? ==> s.queue.stmts == [r.batch] + s'.queue.stmts
    ensures r.Blocked? <==> s.queue.stmts == [] && !s.queue.stop
    ensures s'.queue.consumers.asleep == if r.Blocked? then s.queue.consumers.asleep + {c} else s.queue.consumers.asleep
  {
  }

  /** A pop that leaves fewer than 12288 batches wakes every producer. */
  lemma ShortQueueWakesAll(s: System, s': System, c: Tid, r: GetResult)
    requires GetStep(s, s', c, r) && r.Took? && |s'.queue.stmts| < 12288
    ensures s'.queue.producers.asleep == {} && s'.queue.lowerTimes == s.queue.lowerTimes
    ensures s'.queue.producers.woken == s.queue.producers.woken + s.queue.producers.asleep
  {
  }

  /** One that leaves 20480 or more wakes none. */
  lemma LongQueueWakesNone(s: System, s': System, c: Tid, r: GetResult)
    requires GetStep(s, s', c, r) && (r.Took? ==> |s'.queue.stmts| >= 20480)
    ensures s'.queue.producers == s.queue.producers && s'.queue.lowerTimes == s.queue.lowerTimes
  {
  }

  /** In between, one producer is woken if the count of such pops is a multiple of 1024, and
      none otherwise. */
  lemma PopBetweenWakesIff(s: System, s': System, c: Tid, r: GetResult)
    requires GetStep(s, s', c, r) && r.Took? && 12288 <= |s'.queue.stmts| < 20480
    requires s.queue.producers.asleep != {}
    ensures |s'.queue.producers.asleep| == |s.queue.producers.asleep| - 1 <==> s.queue.lowerTimes % 1024 == 0
    ensures if s.queue.lowerTimes % 1024 == 0 then
              exists t :: Wakes(s.queue.producers, s'.queue.producers, t)
            else s'.queue.producers == s.queue.producers
    ensures s'.queue.lowerTimes == (s.queue.lowerTimes + 1) % 0x1_0000_0000_0000_0000
  {
    if s.queue.lowerTimes % 1024 == 0 {
      var w, w' := s.queue.producers, s'.queue.producers;
      var t :| t in w.asleep && w' == Waiters(w.asleep - {t}, w.woken + {t});
      assert Wakes(w, w', t);
    }
  }

  // ----- many steps -----

  /** States and the steps between them, of any threads in any order. */
  ghost predicate IsTrace(states: seq<System>, events: seq<Event>) {
    |states| == |events| + 1 && forall i :: 0 <= i < |events| ==> Step(states[i], states[i + 1], events[i])
  }

  /** Step `i` is a pop that leaves between 12288 and 20479 batches. */
  ghost predicate PopsBetween(states: seq<System>, events: seq<Event>, i: nat) {
    i < |events| && i + 1 < |states| &&
    events[i].Get? && events[i].r.Took? && 12288 <= |states[i + 1].queue.stmts| < 20480
  }

  /** For each step whether it is such a pop. */
  ghost function Pops(states: seq<System>, events: seq<Event>): seq<bool> {
    seq(|events|, i requires 0 <= i < |events| => PopsBetween(states, events, i))
  }

  function Times(states: seq<System>): seq<nat> {
    seq(|states|, i requires 0 <= i < |states| => states[i].queue.lowerTimes)
  }

  /** How many of the first `n` are true. */
  function Count(pops: seq<bool>, n: nat): nat
    requires n <= |pops|
  {
    if n == 0 then 0 else Count(pops, n - 1) + if pops[n - 1] then 1 else 0
  }

  /** A counter of 64 bits that goes up by one where `pops` is true. */
  ghost predicate Counter(pops: seq<bool>, times: seq<nat>) {
    |times| == |pops| + 1 &&
    forall i :: 0 <= i < |pops| ==>
      times[i + 1] == if pops[i] then (times[i] + 1) % 0x1_0000_0000_0000_0000 else times[i]
  }

  lemma PlusMultiple(r: nat, m: nat)
    ensures (r + 1024 * m) % 1024 == r % 1024
  {
  }

  /** Wrapping around at 2^64 keeps the remainder. */
  lemma WrapKeepsModulo(a: nat)
    ensures (a % 0x1_0000_0000_0000_0000) % 1024 == a % 1024
  {
    PlusMultiple(a % 0x1_0000_0000_0000_0000, 0x40_0000_0000_0000 * (a / 0x1_0000_0000_0000_0000));
  }

  lemma NextModulo(a: nat, b: nat)
    requires a % 1024 == b % 1024
    ensures (a + 1) % 1024 == (b + 1) % 1024
  {
    PlusMultiple(a % 1024 + 1, a / 1024);
    PlusMultiple(b % 1024 + 1, b / 1024);
  }

  lemma NextMultiple(a: nat) returns (k: nat)
    ensures k < 1024 && (a + k) % 1024 == 0
  {
    k := if a % 1024 == 0 then 0 else 1024 - a % 1024;
    PlusMultiple(a % 1024 + k, a / 1024);
  }

  lemma {:induction false} CountedModulo(pops: seq<bool>, times: seq<nat>, n: nat)
    requires Counter(pops, times) && n <= |pops|
    ensures times[n] % 1024 == (times[0] + Count(pops, n)) % 1024
  {
    if n > 0 {
      CountedModulo(pops, times, n - 1);
      NextModulo(times[n - 1], times[0] + Count(pops, n - 1));
      WrapKeepsModulo(times[n - 1] + 1);
      assert times[n - 1 + 1] == if pops[n - 1] then (times[n - 1] + 1) % 0x1_0000_0000_0000_0000 else times[n - 1];
    }
  }

  lemma {:induction false} NthPop(pops: seq<bool>, n: nat, k: nat) returns (i: nat)
    requires n <= |pops| && k < Count(pops, n)
    ensures i < n && pops[i] && Count(pops, i) == k
  {
    if k < Count(pops, n - 1) {
      i := NthPop(pops, n - 1, k);
    } else {
      i := n - 1;
    }
  }

  /** Of 1024 pops one comes when the counter is a multiple of 1024, also where it wraps
      around. */
  lemma MultipleComes(pops: seq<bool>, times: seq<nat>) returns (i: nat)
    requires Counter(pops, times) && Count(pops, |pops|) >= 1024
    ensures i < |pops| && pops[i] && times[i] % 1024 == 0
  {
    var k := NextMultiple(times[0]);
    i := NthPop(pops, |pops|, k);
    CountedModulo(pops, times, i);
  }

  lemma StepCounts(s: System, s': System, e: Event)
    requires Step(s, s', e)
    ensures s'.queue.lowerTimes ==
            if e.Get? && e.r.Took? && 12288 <= |s'.queue.stmts| < 20480 then
              (s.queue.lowerTimes + 1) % 0x1_0000_0000_0000_0000
            else s.queue.lowerTimes
  {
  }

  lemma TraceCounts(states: seq<System>, events: seq<Event>)
    requires IsTrace(states, events)
    ensures Counter(Pops(states, events), Times(states))
  {
    forall i | 0 <= i < |events|
      ensures states[i + 1].queue.lowerTimes ==
              if PopsBetween(states, events, i) then (states[i].queue.lowerTimes + 1) % 0x1_0000_0000_0000_0000
              else states[i].queue.lowerTimes
    {
      StepCounts(states[i], states[i + 1], events[i]);
    }
  }

  lemma TracePopWakes(states: seq<System>, events: seq<Event>, i: nat) returns (t: Tid)
    requires IsTrace(states, events) && PopsBetween(states, events, i)
    requires states[i].queue.producers.asleep != {} && states[i].queue.lowerTimes % 1024 == 0
    ensures Wakes(states[i].queue.producers, states[i + 1].queue.producers, t)
  {
    assert Step(states[i], states[i + 1], events[i]);
    PopBetweenWakesIff(states[i], states[i + 1], events[i].c, events[i].r);
    t :| Wakes(states[i].queue.producers, states[i + 1].queue.producers, t);
  }

  /** Among any 1024 pops between the thresholds, whatever else happens in the meantime, one
      wakes a producer, if one is asleep at each of them. */
  lemma SleepersAreWoken(states: seq<System>, events: seq<Event>) returns (i: nat, t: Tid)
    requires IsTrace(states, events) && Count(Pops(states, events), |events|) >= 1024
    requires forall j :: 0 <= j < |events| && PopsBetween(states, events, j) ==>
               states[j].queue.producers.asleep != {}
    ensures i < |events| && PopsBetween(states, events, i)
    ensures Wakes(states[i].queue.producers, states[i + 1].queue.producers, t)
  {
    TraceCounts(states, events);
    i := MultipleComes(Pops(states, events), Times(states));
    assert Pops(states, events)[i] == PopsBetween(states, events, i);
    t := TracePopWakes(states, events, i);
  }

  // ----- over whole runs -----

  /** Whatever the threads do: a producer sleeps only while 12288 batches or more are
      queued, and before the stop there are never more than 20479 and one for each producer
      in the wait. */
  lemma LengthsOverRuns(run: seq<System>, k: nat)
    requires IsRun(run) && k < |run|
    ensures run[k].queue.producers.asleep != {} ==> |run[k].queue.stmts| >= 12288
    ensures !run[k].queue.stop ==>
              |run[k].queue.stmts| <=
              20479 + |run[k].queue.producers.asleep| + |run[k].queue.producers.woken|
  {
    RunKeepsInv(run, k);
  }
}
