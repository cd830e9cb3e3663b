/** What holds of file ids over whole runs, and what does not. */
module FileIdResults {
  import opened Basics
  import opened FileIds

  ghost predicate Feasible(s: State, events: seq<Event>)
    decreases events
  {
    events == [] || (Enabled(s, events[0]) && Feasible(Apply(s, events[0]), events[1..]))
  }

  ghost function Run(s: State, events: seq<Event>): State
    requires Feasible(s, events)
    decreases events
  {
    if events == [] then s else Run(Apply(s, events[0]), events[1..])
  }

  lemma {:induction false} RunExtends(s: State, events: seq<Event>, e: Event)
    requires Feasible(s, events) && Enabled(Run(s, events), e)
    ensures Feasible(s, events + [e]) && Run(s, events + [e]) == Apply(Run(s, events), e)
    decreases events
  {
    if events == [] {
      assert [e][1..] == [] && Feasible(Apply(s, e), []);
    } else {
      RunExtends(Apply(s, events[0]), events[1..], e);
      assert (events + [e])[1..] == events[1..] + [e];
    }
  }

  // ----- an id never changes its path -----

  lemma {:induction false} RunKeepsBound(s: State, events: seq<Event>)
    requires BoundInv(s) && Feasible(s, events)
    ensures BoundInv(Run(s, events)) && Extends(s.bound, Run(s, events).bound)
    decreases events
  {
    if events != [] {
      StepKeepsBound(s, events[0]);
      BoundGrows(s, events[0]);
      RunKeepsBound(Apply(s, events[0]), events[1..]);
    }
  }

  /** If an id stands for a path anywhere at some point of a run, it stands for that path
      everywhere from then on: in the table, in every cache, for every unit, in every row
      and in every statement on its way. */
  lemma IdsNeverChangeMeaning(s: State, events: seq<Event>, more: seq<Event>, b: Binding, c: Binding)
    requires Init(s) && Feasible(s, events) && Feasible(Run(s, events), more)
    requires Uses(Run(s, events), b) && Uses(Run(Run(s, events), more), c) && b.id == c.id
    ensures b.path == c.path
  {
    InitBound(s);
    RunKeepsBound(s, events);
    RunKeepsBound(Run(s, events), more);
  }

  // ----- truthful reports -----

  /** A lock that a task was reported to have taken, to ask for `path`, it has taken. */
  predicate TruthfulLock(e: Event, path: Path) {
    e.Lock? && e.path == path ==> e.effect
  }

  /** A new id for `path` that was reported inserted is in the table. */
  predicate TruthfulInsertion(e: Event, path: Path) {
    e.ReplaceRow? && e.path == path && e.report ==> e.effect
  }

  ghost predicate TruthfulLocks(events: seq<Event>, path: Path) {
    forall e :: e in events ==> TruthfulLock(e, path)
  }

  ghost predicate TruthfulInsertions(events: seq<Event>, path: Path) {
    forall e :: e in events ==> TruthfulInsertion(e, path)
  }

  // ----- the table lock -----

  predicate Holds(pc: Pc, path: Path) {
    (pc.Querying? || pc.Assigning? || pc.Replacing? || pc.Unlocking?) && pc.path == path
  }

  /** A task that asks for `path`, between the lock and its release, has the lock, and if it
      found the path missing, it is still missing. */
  ghost predicate LockInv(s: State, path: Path) {
    forall w :: w in s.workers && Holds(s.workers[w].pc, path) ==>
      s.lock == Some(w) &&
      (s.workers[w].pc.Assigning? || s.workers[w].pc.Replacing? ==> path !in s.table.Values)
  }

  lemma StoreKeepsLock(s: State, m: Msg, effect: bool, path: Path)
    requires LockInv(s, path) && m in s.inFlight && (m.Replace? ==> s.lock == None)
    ensures LockInv(Stored(s, m, effect), path)
  {
  }

  /** The step of another task. */
  lemma OthersKeepLock(s: State, e: Event, w: Tid, path: Path)
    requires LockInv(s, path) && Enabled(s, e) && !e.Store? && TruthfulLock(e, path)
    requires w in s.workers && w != e.w && Holds(s.workers[w].pc, path)
    ensures var s' := Apply(s, e);
            s'.lock == Some(w) &&
            (s.workers[w].pc.Assigning? || s.workers[w].pc.Replacing? ==> path !in s'.table.Values)
  {
    var s' := Apply(s, e);
    assert s'.table != s.table ==> s.workers[e.w].pc.path != path;
  }

  lemma StepKeepsLock(s: State, e: Event, path: Path)
    requires LockInv(s, path) && Enabled(s, e) && TruthfulLock(e, path)
    ensures LockInv(Apply(s, e), path)
  {
    if e.Store? {
      StoreKeepsLock(s, e.m, e.effect, path);
    } else {
      var me, s' := s.workers[e.w], Apply(s, e);
      forall w | w in s'.workers && Holds(s'.workers[w].pc, path)
        ensures s'.lock == Some(w)
        ensures s'.workers[w].pc.Assigning? || s'.workers[w].pc.Replacing? ==> path !in s'.table.Values
      {
        if w != e.w {
          OthersKeepLock(s, e, w, path);
        } else {
          assert WorkerAfter(s, me, e).pc == s'.workers[w].pc;
        }
      }
    }
  }

  // ----- one id for each path -----

  ghost predicate OneId(table: map<int, Path>, path: Path, except: set<int>) {
    forall i, j :: i in table && j in table && table[i] == path == table[j] && i !in except && j !in except ==> i == j
  }

  /** Ids that translation units took are the only ones that go through the queue. */
  ghost predicate UnitsStarted(s: State) {
    && (forall w :: w in s.workers && s.workers[w].unit.Some? ==> s.workers[w].unit.value.id in s.started)
    && (forall b :: Replace(b) in s.inFlight ==> b.id in s.started)
  }

  ghost predicate TableInv(s: State, path: Path) {
    BoundInv(s) && LockInv(s, path) && UnitsStarted(s) && OneId(s.table, path, s.started)
  }

  lemma StepKeepsUnitsStarted(s: State, e: Event)
    requires UnitsStarted(s) && Enabled(s, e)
    ensures UnitsStarted(Apply(s, e))
  {
    if !e.Store? {
      var me, s' := s.workers[e.w], Apply(s, e);
      assert s.started <= s'.started;
      forall b | Replace(b) in s'.inFlight
        ensures b.id in s'.started
      {
        assert Replace(b) in s.inFlight || (e.Send? && b == me.unit.value);
      }
    }
  }

  lemma StepKeepsOneId(s: State, e: Event, path: Path)
    requires TableInv(s, path) && Enabled(s, e)
    ensures OneId(Apply(s, e).table, path, Apply(s, e).started)
  {
    var s' := Apply(s, e);
    if e.ReplaceRow? && e.effect {
      var pc := s.workers[e.w].pc;
      assert s'.table == s.table[pc.id := pc.path] && s'.started == s.started;
      assert forall i :: i in s.table ==> s.table[i] in s.table.Values;
    } else if e.Store? && e.m.Replace? && e.effect {
      assert e.m.file.id in s.started;
    } else {
      assert s'.table == s.table && s.started <= s'.started;
    }
  }

  lemma {:induction false} RunKeepsTable(s: State, events: seq<Event>, path: Path)
    requires TableInv(s, path) && Feasible(s, events) && TruthfulLocks(events, path)
    ensures TableInv(Run(s, events), path)
    decreases events
  {
    if events != [] {
      assert events[0] in events;
      StepKeepsBound(s, events[0]);
      StepKeepsLock(s, events[0], path);
      StepKeepsUnitsStarted(s, events[0]);
      StepKeepsOneId(s, events[0], path);
      RunKeepsTable(Apply(s, events[0]), events[1..], path);
    }
  }

  /** Where every lock reported to be taken for a path is, and the path had one id: if it
      comes to have two, one of them was taken for a translation unit. */
  lemma SecondIdIsOfAUnit(s: State, events: seq<Event>, path: Path, i: int, j: int)
    requires Init(s) && OneId(s.table, path, {}) && Feasible(s, events) && TruthfulLocks(events, path)
    requires var t := Run(s, events).table; i in t && j in t && t[i] == t[j] == path && i != j
    ensures i in Run(s, events).started || j in Run(s, events).started
  {
    InitBound(s);
    RunKeepsTable(s, events, path);
  }

  // ----- one new id for each path -----

  /** New ids for the path that were reported are in the table, and there is only one. */
  ghost predicate HandedOutInv(s: State, path: Path) {
    && (forall b :: b in s.handedOut && b.path == path ==> Binds(s.table, b))
    && (forall b, c :: b in s.handedOut && c in s.handedOut && b.path == path == c.path ==> b == c)
  }

  lemma TableGrows(s: State, e: Event)
    requires BoundInv(s) && Enabled(s, e)
    ensures Extends(s.table, Apply(s, e).table)
  {
    if e.Store? && e.m.Replace? {
      assert Uses(s, e.m.file);
      assert e.m.file.id in s.table ==> Uses(s, Binding(e.m.file.id, s.table[e.m.file.id]));
    } else if e.ReplaceRow? {
      var me := s.workers[e.w];
      assert WorkerUses(me, Binding(me.pc.id, me.pc.path));
      assert Uses(s, Binding(me.pc.id, me.pc.path));
      assert me.pc.id in s.table ==> Uses(s, Binding(me.pc.id, s.table[me.pc.id]));
    }
  }

  lemma StepKeepsHandedOut(s: State, e: Event, path: Path)
    requires BoundInv(s) && LockInv(s, path) && HandedOutInv(s, path) && Enabled(s, e) && TruthfulInsertion(e, path)
    ensures HandedOutInv(Apply(s, e), path)
  {
    TableGrows(s, e);
    var s' := Apply(s, e);
    if e.ReplaceRow? && e.report {
      if e.path == path {
        forall b | b in s.handedOut
          ensures b.path != path
        {
          if Binds(s.table, b) {
            assert s.table[b.id] in s.table.Values;
          }
        }
      }
      assert s'.handedOut == s.handedOut + {Binding(s.workers[e.w].pc.id, e.path)};
    } else {
      assert s'.handedOut == s.handedOut;
    }
  }

  lemma {:induction false} RunKeepsHandedOut(s: State, events: seq<Event>, path: Path)
    requires BoundInv(s) && LockInv(s, path) && HandedOutInv(s, path) && Feasible(s, events)
    requires TruthfulLocks(events, path) && TruthfulInsertions(events, path)
    ensures HandedOutInv(Run(s, events), path)
    decreases events
  {
    if events != [] {
      assert events[0] in events;
      StepKeepsBound(s, events[0]);
      StepKeepsLock(s, events[0], path);
      StepKeepsHandedOut(s, events[0], path);
      RunKeepsHandedOut(Apply(s, events[0]), events[1..], path);
    }
  }

  /** Over a run in which the reports about a path are true, all tasks together get at most
      one new id for it from `query_or_assign_file_id`, and the table has it. What is
      reported about other paths does not matter. */
  lemma NewIdsAreHandedOutOnce(s: State, events: seq<Event>, b: Binding, c: Binding)
    requires Init(s) && Feasible(s, events)
    requires TruthfulLocks(events, b.path) && TruthfulInsertions(events, b.path)
    requires b in Run(s, events).handedOut
    ensures Binds(Run(s, events).table, b)
    ensures c in Run(s, events).handedOut && b.path == c.path ==> b == c
  {
    InitBound(s);
    RunKeepsHandedOut(s, events, b.path);
  }

  // ----- what does not hold -----

  /** The path is no key of the table: whenever a file is indexed as a translation unit, it
      gets an id of its own, besides all that it had. */
  lemma IndexingAgainAddsAnId(s: State, w: Tid, path: Path)
    requires BoundInv(s) && w in s.workers && s.workers[w].pc == Idle && s.workers[w].rows == {} && s.lock == None
    ensures var events := [StartUnit(w, path), Send(w), Store(Replace(Binding(s.next, path)), true)];
            Feasible(s, events) && Run(s, events).table == s.table[s.next := path] && s.next !in s.table
  {
    var b := Binding(s.next, path);
    var s1 := Apply(s, StartUnit(w, path));
    assert s1.workers[w].unit == Some(b) && s1.workers[w].rows == {} && s1.lock == None && s1.table == s.table;
    var s2 := Apply(s1, Send(w));
    assert Replace(b) in s2.inFlight && s2.lock == None && s2.table == s.table;
    var s3 := Apply(s2, Store(Replace(b), true));
    var last, rest := [Store(Replace(b), true)], [Send(w), Store(Replace(b), true)];
    assert last[1..] == [] && Feasible(s3, []) && Feasible(s2, last) && Run(s2, last) == s3;
    assert rest[1..] == last && Feasible(s1, rest) && Run(s1, rest) == s3;
    assert [StartUnit(w, path), Send(w), Store(Replace(b), true)][1..] == rest;
    forall i | i in s.table
      ensures i < s.next
    {
      assert Uses(s, Binding(i, s.table[i]));
    }
  }
}
