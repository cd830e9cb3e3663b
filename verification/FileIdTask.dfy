/** `query_or_assign_file_id` as one call without interference, and the same call as steps
    of the protocol. */
module FileIdTasks {
  import opened Basics
  import opened FileIds
  import opened FileIdResults

  /** What all tasks share: the counter and the filepaths table. */
  class Shared {
    var next: int
    var table: map<int, Path>

    constructor (maxId: int, table: map<int, Path>)
      ensures next == maxId + 1 && this.table == table
    {
      next, this.table := maxId + 1, table;
    }

    method GetNextFilepathId() returns (id: int)
      modifies this`next
      ensures id == old(next) && next == old(next) + 1
    {
      id := next;
      next := next + 1;
    }
  }

  /** What the database answers in the course of a call: whether locking is reported to have
      failed, and if not, whether it was done; the same of the insertion. */
  datatype Answers = Answers(lockFails: bool, locked: bool, effect: bool, report: bool)

  class FileIdTask {
    const shared: Shared
    var localFilepathCache: map<Path, int>

    constructor (shared: Shared)
      ensures this.shared == shared && localFilepathCache == map[]
    {
      this.shared, localFilepathCache := shared, map[];
    }

    /** The answer and everything the call changes are those of a run of the protocol in
        which only this task moves. */
    method QueryOrAssignFileId(path: Path, db: Answers, ghost s: State, ghost w: Tid)
      returns (id: int, ghost events: seq<Event>)
      requires Ready(s, w, path) && OwnPart(s, w, this)
      modifies this`localFilepathCache, shared`next, shared`table
      ensures Feasible(s, events) && OnlyMoves(w, events) && OwnPart(Run(s, events), w, this)
      ensures if path in old(localFilepathCache) then id == old(localFilepathCache[path])
              else if db.lockFails then id == -1
              else if path in old(shared.table).Values then Binds(old(shared.table), Binding(id, path))
              else id == (if db.report then old(shared.next) else -1)
      ensures if id < 0 then Run(s, events).workers[w] == s.workers[w]
              else Binding(id, path) in Run(s, events).workers[w].rows &&
                   Run(s, events).workers[w].cache == s.workers[w].cache[path := id]
    {
      if path in localFilepathCache {
        id := localFilepathCache[path];
        events := [LocateCached(w, path)];
        OneStep(s, events[0]);
        return;
      }
      id, events := ReadModifyUpdate(path, db, s, w);
      if id >= 0 {
        localFilepathCache := localFilepathCache[path := id];
      }
    }

    /** The part under the table lock, which may not have been taken though it was reported. */
    method ReadModifyUpdate(path: Path, db: Answers, ghost s: State, ghost w: Tid)
      returns (id: int, ghost events: seq<Event>)
      requires Ready(s, w, path) && OwnPart(s, w, this) && path !in localFilepathCache
      modifies shared`next, shared`table
      ensures Feasible(s, events) && OnlyMoves(w, events)
      ensures shared.next == Run(s, events).next && shared.table == Run(s, events).table
      ensures if db.lockFails then id == -1 && Run(s, events) == s
              else if path in s.table.Values then
                Binds(s.table, Binding(id, path)) && Run(s, events) == After(s, w, path, Some(id))
              else
                id == (if db.report then s.next else -1) &&
                Run(s, events) == After(WithNewId(s, path, db.effect, db.report), w, path, NewId(s, db))
    {
      if db.lockFails {
        id, events := -1, [Miss(w, path), LockFails(w)];
        NoLock(s, w, path);
      } else if known :| known in shared.table && shared.table[known] == path {
        id := known;
        events := FoundSteps(w, path, db.locked, id);
        FileIsFound(s, w, path, db.locked, id);
        StepsAreOwn(w, path, db, id);
      } else {
        MissingValue(shared.table, path);
        id := shared.GetNextFilepathId();
        events := NewSteps(w, path, db);
        FileIsNew(s, w, path, db);
        StepsAreOwn(w, path, db, id);
        if db.effect {
          shared.table := shared.table[id := path];
        }
        if !db.report {
          id := -1;
        }
      }
    }
  }

  ghost predicate OnlyMoves(w: Tid, events: seq<Event>) {
    forall e :: e in events ==> !e.Store? && e.w == w
  }

  lemma ValueHasKey<K, V>(table: map<K, V>, v: V) returns (k: K)
    requires v in table.Values
    ensures k in table && table[k] == v
  {
    k :| k in table && table[k] == v;
  }

  lemma MissingValue(table: map<int, Path>, path: Path)
    requires forall i :: i in table ==> table[i] != path
    ensures path !in table.Values
  {
    if path in table.Values {
      var i := ValueHasKey(table, path);
    }
  }

  /** The task is about to look the path up, and nobody has the table. */
  predicate Ready(s: State, w: Tid, path: Path) {
    && w in s.workers && s.workers[w].pc == Idle && OtherFile(s.workers[w], path) && s.lock == None
    && 0 <= s.next && (forall i :: i in s.table ==> 0 <= i)
    && (forall p :: p in s.workers[w].cache ==> 0 <= s.workers[w].cache[p])
  }

  ghost predicate OwnPart(s: State, w: Tid, me: FileIdTask)
    reads me, me.shared
  {
    w in s.workers && s.workers[w].cache == me.localFilepathCache &&
    s.next == me.shared.next && s.table == me.shared.table
  }

  function AskSteps(w: Tid, path: Path, locked: bool): seq<Event> {
    [Miss(w, path), Lock(w, path, locked)]
  }

  function FoundSteps(w: Tid, path: Path, locked: bool, id: int): seq<Event> {
    AskSteps(w, path, locked) + [Found(w, id)] + [Unlock(w, true)]
  }

  /** The steps up to the point where the id is taken. */
  function TakeSteps(w: Tid, path: Path, locked: bool): seq<Event> {
    AskSteps(w, path, locked) + [NotFound(w)] + [TakeId(w)]
  }

  function NewSteps(w: Tid, path: Path, db: Answers): seq<Event> {
    TakeSteps(w, path, db.locked) + [ReplaceRow(w, path, db.effect, db.report)] + [Unlock(w, true)]
  }

  lemma StepsAreOwn(w: Tid, path: Path, db: Answers, id: int)
    ensures OnlyMoves(w, FoundSteps(w, path, db.locked, id)) && OnlyMoves(w, NewSteps(w, path, db))
  {
  }

  lemma OneStep(s: State, e: Event)
    requires Enabled(s, e)
    ensures Feasible(s, [e]) && Run(s, [e]) == Apply(s, e)
  {
  }

  /** The state in which the task has moved, with the lock if it was taken. */
  function At(s: State, w: Tid, locked: bool, pc: Pc): State
    requires w in s.workers
  {
    s.(lock := if locked then Some(w) else None, workers := s.workers[w := s.workers[w].(pc := pc)])
  }

  /** One more step of a run. */
  lemma NextStep(s: State, events: seq<Event>, e: Event, longer: seq<Event>, t: State)
    requires Feasible(s, events) && Enabled(Run(s, events), e)
    requires longer == events + [e] && t == Apply(Run(s, events), e)
    ensures Feasible(s, longer) && Run(s, longer) == t
  {
    RunExtends(s, events, e);
  }

  lemma MissStep(s: State, w: Tid, path: Path)
    requires Ready(s, w, path) && path !in s.workers[w].cache
    ensures Feasible(s, [Miss(w, path)])
    ensures Run(s, [Miss(w, path)]) == At(s, w, false, Locking(path))
  {
  }

  lemma LockStep(s: State, w: Tid, path: Path, locked: bool)
    requires w in s.workers && s.lock == None
    ensures var t := At(s, w, false, Locking(path));
            && Enabled(t, Lock(w, path, locked)) && Apply(t, Lock(w, path, locked)) == At(s, w, locked, Querying(path))
            && Enabled(t, LockFails(w)) && Apply(t, LockFails(w)) == At(s, w, false, Idle)
  {
  }

  lemma FoundStep(s: State, w: Tid, path: Path, locked: bool, id: int)
    requires w in s.workers && id in s.table && s.table[id] == path
    ensures Enabled(At(s, w, locked, Querying(path)), Found(w, id))
    ensures Apply(At(s, w, locked, Querying(path)), Found(w, id)) == At(s, w, locked, Unlocking(path, Some(id)))
  {
  }

  lemma NotFoundStep(s: State, w: Tid, path: Path, locked: bool)
    requires w in s.workers && path !in s.table.Values
    ensures Enabled(At(s, w, locked, Querying(path)), NotFound(w))
    ensures Apply(At(s, w, locked, Querying(path)), NotFound(w)) == At(s, w, locked, Assigning(path))
  {
  }

  lemma TakeIdStep(s: State, w: Tid, path: Path, locked: bool)
    requires w in s.workers
    ensures Enabled(At(s, w, locked, Assigning(path)), TakeId(w))
    ensures Apply(At(s, w, locked, Assigning(path)), TakeId(w)) ==
            At(WithNewId(s, path, false, false), w, locked, Replacing(path, s.next))
  {
  }

  lemma ReplaceRowStep(s: State, w: Tid, path: Path, db: Answers)
    requires w in s.workers
    ensures var t := At(WithNewId(s, path, false, false), w, db.locked, Replacing(path, s.next));
            var e := ReplaceRow(w, path, db.effect, db.report);
            Enabled(t, e) &&
            Apply(t, e) == At(WithNewId(s, path, db.effect, db.report), w, db.locked, Unlocking(path, NewId(s, db)))
  {
  }

  lemma UnlockStep(s: State, w: Tid, path: Path, locked: bool, result: Option<int>)
    requires w in s.workers && s.workers[w].pc == Idle
    ensures Enabled(At(s, w, locked, Unlocking(path, result)), Unlock(w, true))
    ensures Apply(At(s, w, locked, Unlocking(path, result)), Unlock(w, true)) == After(s, w, path, result)
  {
  }

  /** The state after a call that got this answer. */
  function After(s: State, w: Tid, path: Path, result: Option<int>): State
    requires w in s.workers
  {
    s.(lock := None, workers := s.workers[w := Answered(s.workers[w], path, result)])
  }

  lemma MissAndLock(s: State, w: Tid, path: Path, locked: bool)
    requires Ready(s, w, path) && path !in s.workers[w].cache
    ensures Feasible(s, AskSteps(w, path, locked))
    ensures Run(s, AskSteps(w, path, locked)) == At(s, w, locked, Querying(path))
  {
    MissStep(s, w, path);
    LockStep(s, w, path, locked);
    var lock := Lock(w, path, locked);
    NextStep(s, [Miss(w, path)], lock, AskSteps(w, path, locked), At(s, w, locked, Querying(path)));
  }

  lemma NoLock(s: State, w: Tid, path: Path)
    requires Ready(s, w, path) && path !in s.workers[w].cache
    ensures Feasible(s, [Miss(w, path), LockFails(w)])
    ensures Run(s, [Miss(w, path), LockFails(w)]) == s
  {
    MissStep(s, w, path);
    LockStep(s, w, path, false);
    assert s.workers == s.workers[w := s.workers[w].(pc := Idle)];
    NextStep(s, [Miss(w, path)], LockFails(w), [Miss(w, path), LockFails(w)], s);
  }

  lemma FileIsFound(s: State, w: Tid, path: Path, locked: bool, id: int)
    requires Ready(s, w, path) && path !in s.workers[w].cache && id in s.table && s.table[id] == path
    ensures Feasible(s, FoundSteps(w, path, locked, id))
    ensures Run(s, FoundSteps(w, path, locked, id)) == After(s, w, path, Some(id))
  {
    MissAndLock(s, w, path, locked);
    FoundStep(s, w, path, locked, id);
    var two := AskSteps(w, path, locked);
    var three := two + [Found(w, id)];
    NextStep(s, two, Found(w, id), three, At(s, w, locked, Unlocking(path, Some(id))));
    UnlockStep(s, w, path, locked, Some(id));
    NextStep(s, three, Unlock(w, true), FoundSteps(w, path, locked, id), After(s, w, path, Some(id)));
  }

  /** The rest of the state after an id was taken for a new file. */
  function WithNewId(s: State, path: Path, effect: bool, report: bool): State {
    s.(next := s.next + 1,
       bound := s.bound[s.next := path],
       table := if effect then s.table[s.next := path] else s.table,
       handedOut := if report then s.handedOut + {Binding(s.next, path)} else s.handedOut)
  }

  function NewId(s: State, db: Answers): Option<int> {
    if db.report then Some(s.next) else None
  }

  lemma IdIsTaken(s: State, w: Tid, path: Path, locked: bool)
    requires Ready(s, w, path) && path !in s.workers[w].cache && path !in s.table.Values
    ensures Feasible(s, TakeSteps(w, path, locked))
    ensures Run(s, TakeSteps(w, path, locked)) ==
            At(WithNewId(s, path, false, false), w, locked, Replacing(path, s.next))
  {
    MissAndLock(s, w, path, locked);
    NotFoundStep(s, w, path, locked);
    var two := AskSteps(w, path, locked);
    var three := two + [NotFound(w)];
    NextStep(s, two, NotFound(w), three, At(s, w, locked, Assigning(path)));
    TakeIdStep(s, w, path, locked);
    NextStep(s, three, TakeId(w), TakeSteps(w, path, locked),
             At(WithNewId(s, path, false, false), w, locked, Replacing(path, s.next)));
  }

  lemma FileIsNew(s: State, w: Tid, path: Path, db: Answers)
    requires Ready(s, w, path) && path !in s.workers[w].cache && path !in s.table.Values
    ensures Feasible(s, NewSteps(w, path, db))
    ensures Run(s, NewSteps(w, path, db)) == After(WithNewId(s, path, db.effect, db.report), w, path, NewId(s, db))
  {
    IdIsTaken(s, w, path, db.locked);
    ReplaceRowStep(s, w, path, db);
    var e := ReplaceRow(w, path, db.effect, db.report);
    var five := TakeSteps(w, path, db.locked) + [e];
    var t := WithNewId(s, path, db.effect, db.report);
    NextStep(s, TakeSteps(w, path, db.locked), e, five, At(t, w, db.locked, Unlocking(path, NewId(s, db))));
    UnlockStep(t, w, path, db.locked, NewId(s, db));
    NextStep(s, five, Unlock(w, true), NewSteps(w, path, db), After(t, w, path, NewId(s, db)));
  }

  // ----- what false reports do -----

  lemma OtherStillReady(s: State, v: Tid, w: Tid, path: Path, db: Answers)
    requires Ready(s, v, path) && Ready(s, w, path) && v != w && !db.effect && db.report
    ensures var t := After(WithNewId(s, path, db.effect, db.report), v, path, NewId(s, db));
            && Ready(t, w, path) && t.workers[w] == s.workers[w] && t.table == s.table
            && t.next == s.next + 1 && Binding(s.next, path) in t.handedOut
  {
  }

  /** Where a success is reported of an insertion that took no effect, two tasks can be
      handed two new ids for one path, though both had the lock. */
  lemma FalseReportHandsOutTwice(s: State, v: Tid, w: Tid, path: Path) returns (t: State, u: State)
    requires Ready(s, v, path) && Ready(s, w, path) && v != w && path !in s.table.Values
    requires path !in s.workers[v].cache && path !in s.workers[w].cache
    ensures var db := Answers(false, true, false, true);
            && Feasible(s, NewSteps(v, path, db)) && t == Run(s, NewSteps(v, path, db))
            && Feasible(t, NewSteps(w, path, db)) && u == Run(t, NewSteps(w, path, db))
    ensures Binding(s.next, path) in u.handedOut && Binding(s.next + 1, path) in u.handedOut
  {
    var db := Answers(false, true, false, true);
    FileIsNew(s, v, path, db);
    OtherStillReady(s, v, w, path, db);
    t := After(WithNewId(s, path, false, true), v, path, NewId(s, db));
    FileIsNew(t, w, path, db);
    u := After(WithNewId(t, path, false, true), w, path, NewId(t, db));
  }

  lemma FirstStillInserts(s: State, v: Tid, w: Tid, path: Path)
    requires v in s.workers && w in s.workers && v != w && s.lock == None
    ensures var db := Answers(false, true, true, true);
            var t := At(WithNewId(s, path, false, false), v, false, Replacing(path, s.next));
            var u := After(WithNewId(t, path, true, true), w, path, NewId(t, db));
            var last := Apply(u, ReplaceRow(v, path, true, true));
            && Enabled(u, ReplaceRow(v, path, true, true))
            && last.table == s.table[s.next + 1 := path][s.next := path] && last.started == s.started
            && {Binding(s.next, path), Binding(s.next + 1, path)} <= last.handedOut
  {
  }

  /** Where a lock is reported that was not taken, two tasks can insert two ids for one
      path, though every insertion is done as reported and no unit took either id: `v`
      asks without the lock and takes an id, `w` runs its whole call, and `v` goes on. */
  lemma FalseLockInsertsTwice(s: State, v: Tid, w: Tid, path: Path) returns (t: State, u: State)
    requires Ready(s, v, path) && Ready(s, w, path) && v != w && path !in s.table.Values
    requires path !in s.workers[v].cache && path !in s.workers[w].cache
    ensures var db := Answers(false, true, true, true);
            && Feasible(s, TakeSteps(v, path, false)) && t == Run(s, TakeSteps(v, path, false))
            && Feasible(t, NewSteps(w, path, db)) && u == Run(t, NewSteps(w, path, db))
            && Enabled(u, ReplaceRow(v, path, true, true))
    ensures var last := Apply(u, ReplaceRow(v, path, true, true));
            && last.table == s.table[s.next + 1 := path][s.next := path] && last.started == s.started
            && {Binding(s.next, path), Binding(s.next + 1, path)} <= last.handedOut
  {
    var db := Answers(false, true, true, true);
    IdIsTaken(s, v, path, false);
    t := At(WithNewId(s, path, false, false), v, false, Replacing(path, s.next));
    FileIsNew(t, w, path, db);
    u := After(WithNewId(t, path, true, true), w, path, NewId(t, db));
    FirstStillInserts(s, v, w, path);
  }
}
