/** What becomes of the locations that tasks use in rows: every one is sent with its unit
    and stored with its statement, and nothing else is. */
module FileIdRows {
  import opened Basics
  import opened FileIds
  import opened FileIdResults

  /** In this step a task uses the location `b` in a row: in the file of its unit, in a file
      whose id it has cached, or in one whose id it was just given. */
  ghost predicate Locates(s: State, e: Event, b: Binding) {
    match e
    case LocateCurrent(w) => w in s.workers && s.workers[w].unit == Some(b)
    case LocateCached(w, path) =>
      w in s.workers && path == b.path && path in s.workers[w].cache && s.workers[w].cache[path] == b.id
    case Unlock(w, _) => w in s.workers && s.workers[w].pc == Unlocking(b.path, Some(b.id))
    case _ => false
  }

  /** The rows of task `w` are sent or given up. */
  predicate Clears(e: Event, w: Tid) {
    e == Send(w) || e == Abandon(w) || e == Exit(w)
  }

  lemma LocationIsRecorded(s: State, e: Event, b: Binding)
    requires Enabled(s, e) && Locates(s, e, b)
    ensures b in Apply(s, e).workers[e.w].rows
  {
  }

  lemma RowIsKept(s: State, e: Event, w: Tid, b: Binding)
    requires Enabled(s, e) && !Clears(e, w) && w in s.workers && b in s.workers[w].rows
    ensures w in Apply(s, e).workers && b in Apply(s, e).workers[w].rows
  {
  }

  /** A unit is sent with a statement for each location and one for its file. */
  lemma SendCarriesRows(s: State, w: Tid, b: Binding)
    requires Enabled(s, Send(w)) && b in s.workers[w].rows
    ensures Row(b) in Apply(s, Send(w)).inFlight && Replace(s.workers[w].unit.value) in Apply(s, Send(w)).inFlight
    ensures Apply(s, Send(w)).workers[w].rows == {}
  {
  }

  /** A unit that is given up leaves nothing behind. */
  lemma GivenUpRowsAreGone(s: State, e: Event)
    requires Enabled(s, e) && (e.Abandon? || e.Exit?)
    ensures Apply(s, e).workers[e.w].rows == {}
    ensures Apply(s, e).inFlight == s.inFlight && Apply(s, e).located == s.located && Apply(s, e).table == s.table
  {
  }

  /** The lock is given up where unlocking succeeds and where a task ends, and nobody else's. */
  lemma LockIsGivenUp(s: State, w: Tid)
    ensures Enabled(s, Unlock(w, true)) ==>
              Apply(s, Unlock(w, true)).lock == if s.lock == Some(w) then None else s.lock
    ensures Enabled(s, Exit(w)) ==> Apply(s, Exit(w)).lock == if s.lock == Some(w) then None else s.lock
  {
  }

  lemma StatementIsKept(s: State, e: Event, m: Msg)
    requires Enabled(s, e) && m in s.inFlight && (e.Store? ==> e.m != m)
    ensures m in Apply(s, e).inFlight
  {
  }

  lemma StatementIsStored(s: State, m: Msg)
    requires Enabled(s, Store(m, true))
    ensures m !in Apply(s, Store(m, true)).inFlight
    ensures m.Row? ==> m.at in Apply(s, Store(m, true)).located
    ensures m.Replace? ==> Binds(Apply(s, Store(m, true)).table, m.file)
  {
  }

  lemma LocatedIsKept(s: State, e: Event, b: Binding)
    requires Enabled(s, e) && b in s.located
    ensures b in Apply(s, e).located
  {
  }

  lemma {:induction false} RowIsKeptOverRun(s: State, events: seq<Event>, w: Tid, b: Binding)
    requires Feasible(s, events) && (forall e :: e in events ==> !Clears(e, w))
    requires w in s.workers && b in s.workers[w].rows
    ensures w in Run(s, events).workers && b in Run(s, events).workers[w].rows
    decreases events
  {
    if events != [] {
      assert events[0] in events;
      RowIsKept(s, events[0], w, b);
      RowIsKeptOverRun(Apply(s, events[0]), events[1..], w, b);
    }
  }

  lemma {:induction false} LocatedIsKeptOverRun(s: State, events: seq<Event>, b: Binding)
    requires Feasible(s, events) && b in s.located
    ensures b in Run(s, events).located
    decreases events
  {
    if events != [] {
      LocatedIsKept(s, events[0], b);
      LocatedIsKeptOverRun(Apply(s, events[0]), events[1..], b);
    }
  }

  lemma {:induction false} StatementIsStoredOverRun(s: State, events: seq<Event>, b: Binding)
    requires Feasible(s, events) && Row(b) in s.inFlight
    requires Store(Row(b), true) in events && Store(Row(b), false) !in events
    ensures b in Run(s, events).located
    decreases events
  {
    var e, rest := events[0], events[1..];
    assert e in events && events == [e] + rest;
    if e == Store(Row(b), true) {
      StatementIsStored(s, Row(b));
      LocatedIsKeptOverRun(Apply(s, e), rest, b);
    } else {
      StatementIsKept(s, e, Row(b));
      StatementIsStoredOverRun(Apply(s, e), rest, b);
    }
  }

  /** Main result: a task uses a location, does not give its unit up, and sends it; if the
      statement for the location is stored and not failed, the location is in the tables,
      whatever the other tasks do in the meantime. */
  lemma UsedLocationIsStored(s: State, e: Event, during: seq<Event>, after: seq<Event>, w: Tid, b: Binding)
    requires Enabled(s, e) && Locates(s, e, b) && e.w == w
    requires Feasible(Apply(s, e), during) && forall d :: d in during ==> !Clears(d, w)
    requires Enabled(Run(Apply(s, e), during), Send(w))
    requires Feasible(Apply(Run(Apply(s, e), during), Send(w)), after)
    requires Store(Row(b), true) in after && Store(Row(b), false) !in after
    ensures b in Run(Apply(Run(Apply(s, e), during), Send(w)), after).located
  {
    LocationIsRecorded(s, e, b);
    RowIsKeptOverRun(Apply(s, e), during, w, b);
    var t := Run(Apply(s, e), during);
    SendCarriesRows(t, w, b);
    StatementIsStoredOverRun(Apply(t, Send(w)), after, b);
  }

  // ----- and nothing else -----

  /** The location is in a row of a task, on its way, or stored. */
  ghost predicate Recorded(s: State, b: Binding) {
    (exists w :: w in s.workers && b in s.workers[w].rows) || Row(b) in s.inFlight || b in s.located
  }

  /** Some step of the run uses the location. */
  ghost predicate UsedIn(s: State, events: seq<Event>, b: Binding)
    requires Feasible(s, events)
    decreases events
  {
    events != [] && (Locates(s, events[0], b) || UsedIn(Apply(s, events[0]), events[1..], b))
  }

  lemma StepRecords(s: State, e: Event, b: Binding)
    requires Enabled(s, e) && Recorded(Apply(s, e), b) && !Recorded(s, b)
    ensures Locates(s, e, b)
  {
    var s' := Apply(s, e);
    if w :| w in s'.workers && b in s'.workers[w].rows {
      assert w in s.workers && b !in s.workers[w].rows;
    }
  }

  lemma {:induction false} RecordedWasUsed(s: State, events: seq<Event>, b: Binding)
    requires Feasible(s, events) && Recorded(Run(s, events), b)
    ensures Recorded(s, b) || UsedIn(s, events, b)
    decreases events
  {
    if events != [] {
      RecordedWasUsed(Apply(s, events[0]), events[1..], b);
      if Recorded(Apply(s, events[0]), b) && !Recorded(s, b) {
        StepRecords(s, events[0], b);
      }
    }
  }

  /** From the start: every location in the tables was used by some task. */
  lemma StoredLocationWasUsed(s: State, events: seq<Event>, b: Binding)
    requires Init(s) && Feasible(s, events) && b in Run(s, events).located
    ensures UsedIn(s, events, b)
  {
    RecordedWasUsed(s, events, b);
  }
}
