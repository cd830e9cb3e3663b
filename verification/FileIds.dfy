/** The file ids of parse tasks: one atomic counter, the filepaths table with its lock,
    a cache in each task, and the statements on their way to the store tasks. Every
    access to something shared is a step of its own, and steps interleave freely. */
module FileIds {
  import opened Basics

  type Tid = nat
  type Path = nat

  datatype Binding = Binding(id: int, path: Path)

  /** Where a task is in `query_or_assign_file_id`. */
  datatype Pc =
    | Idle
    | Locking(path: Path)
    | Querying(path: Path)
    | Assigning(path: Path)
    | Replacing(path: Path, id: int)
    | Unlocking(path: Path, result: Option<int>)

  /** A parse task; `unit` is the current translation unit, `rows` are the locations it
      has used in rows. */
  datatype Worker = Worker(cache: map<Path, int>, unit: Option<Binding>, rows: set<Binding>, pc: Pc)

  /** A statement on its way to a store task. */
  datatype Msg = Row(at: Binding) | Replace(file: Binding)

  /** The last three fields are history: the path each id was first taken for, the ids
      that `query_or_assign_file_id` reported for new files, and the ids that were taken
      for translation units. */
  datatype State = State(
    next: int,
    table: map<int, Path>,
    lock: Option<Tid>,
    workers: map<Tid, Worker>,
    inFlight: set<Msg>,
    located: set<Binding>,
    bound: map<int, Path>,
    handedOut: set<Binding>,
    started: set<int>)

  /** Locking and inserting are reported a success (`LockFails`, and `report`, are for a
      failure), but a report is no proof of an effect: the connector reports a success when
      its retries are used up. */
  datatype Event =
    | StartUnit(w: Tid, path: Path)
    | LocateCurrent(w: Tid)
    | LocateCached(w: Tid, path: Path)
    | Miss(w: Tid, path: Path)
    | LockFails(w: Tid)
    | Lock(w: Tid, path: Path, effect: bool)
    | Found(w: Tid, id: int)
    | NotFound(w: Tid)
    | TakeId(w: Tid)
    | ReplaceRow(w: Tid, path: Path, effect: bool, report: bool)
    | Unlock(w: Tid, ok: bool)
    | Abandon(w: Tid)
    | Send(w: Tid)
    | Store(m: Msg, effect: bool)
    | Exit(w: Tid)

  const NEW_WORKER: Worker := Worker(map[], None, {}, Idle)

  predicate Init(s: State) {
    && (forall i :: i in s.table ==> 0 <= i < s.next)
    && 1 <= s.next
    && s.lock == None && s.inFlight == {} && s.located == {}
    && (forall w :: w in s.workers ==> s.workers[w] == NEW_WORKER)
    && s.bound == s.table && s.handedOut == {} && s.started == {}
  }

  /** What the code needs for the step to be the next one. The index queue puts its
      statements in some order; here they may be stored in any. */
  predicate Enabled(s: State, e: Event) {
    match e
    case Store(m, _) => m in s.inFlight && (m.Replace? ==> s.lock == None)
    case _ => e.w in s.workers && WorkerEnabled(s, s.workers[e.w], e)
  }

  predicate OtherFile(me: Worker, path: Path) {
    me.unit.Some? && path != me.unit.value.path
  }

  /** No other connection has the table locked. */
  predicate MayTouch(s: State, w: Tid) {
    s.lock == None || s.lock == Some(w)
  }

  predicate WorkerEnabled(s: State, me: Worker, e: Event)
    requires !e.Store?
  {
    match e
    case StartUnit(_, _) => me.pc == Idle && me.rows == {}
    case LocateCurrent(_) => me.pc == Idle && me.unit.Some?
    case LocateCached(_, path) => me.pc == Idle && OtherFile(me, path) && path in me.cache
    case Miss(_, path) => me.pc == Idle && OtherFile(me, path) && path !in me.cache
    case LockFails(_) => me.pc.Locking?
    case Lock(w, path, effect) => me.pc == Locking(path) && (effect ==> MayTouch(s, w))
    case Found(w, id) => me.pc.Querying? && MayTouch(s, w) && id in s.table && s.table[id] == me.pc.path
    case NotFound(w) => me.pc.Querying? && MayTouch(s, w) && me.pc.path !in s.table.Values
    case TakeId(_) => me.pc.Assigning?
    case ReplaceRow(w, path, effect, _) => me.pc.Replacing? && me.pc.path == path && (effect ==> MayTouch(s, w))
    case Unlock(_, _) => me.pc.Unlocking?
    case Abandon(_) => true
    case Send(_) => me.pc == Idle && me.unit.Some?
    case Exit(_) => me.pc == Idle
  }

  function Released(lock: Option<Tid>, w: Tid): Option<Tid> {
    if lock == Some(w) then None else lock
  }

  /** The path's id goes into the cache and into a row. */
  function Answered(me: Worker, path: Path, result: Option<int>): Worker {
    match result
    case None => me.(pc := Idle)
    case Some(id) => me.(pc := Idle, cache := me.cache[path := id], rows := me.rows + {Binding(id, path)})
  }

  function Messages(rows: set<Binding>, unit: Binding): set<Msg> {
    (set b | b in rows :: Row(b)) + {Replace(unit)}
  }

  /** The task after one of its steps. */
  function WorkerAfter(s: State, me: Worker, e: Event): Worker
    requires !e.Store? && WorkerEnabled(s, me, e)
  {
    match e
    case StartUnit(_, path) => me.(unit := Some(Binding(s.next, path)))
    case LocateCurrent(_) => me.(rows := me.rows + {me.unit.value})
    case LocateCached(_, path) => me.(rows := me.rows + {Binding(me.cache[path], path)})
    case Miss(_, path) => me.(pc := Locking(path))
    case LockFails(_) => me.(pc := Idle)
    case Lock(_, path, _) => me.(pc := Querying(path))
    case Found(_, id) => me.(pc := Unlocking(me.pc.path, Some(id)))
    case NotFound(_) => me.(pc := Assigning(me.pc.path))
    case TakeId(_) => me.(pc := Replacing(me.pc.path, s.next))
    case ReplaceRow(_, _, _, report) => me.(pc := Unlocking(me.pc.path, if report then Some(me.pc.id) else None))
    case Unlock(_, _) => Answered(me, me.pc.path, me.pc.result)
    case Abandon(_) => me.(pc := Idle, rows := {})
    case Send(_) => me.(rows := {})
    case Exit(_) => NEW_WORKER
  }

  /** What a task's step does to the rest of the state. */
  function SharedAfter(s: State, me: Worker, e: Event): State
    requires !e.Store? && WorkerEnabled(s, me, e)
  {
    match e
    case StartUnit(_, path) =>
      s.(next := s.next + 1, bound := s.bound[s.next := path], started := s.started + {s.next})
    case Lock(w, _, effect) => if effect then s.(lock := Some(w)) else s
    case TakeId(_) => s.(next := s.next + 1, bound := s.bound[s.next := me.pc.path])
    case ReplaceRow(_, _, effect, report) =>
      s.(table := if effect then s.table[me.pc.id := me.pc.path] else s.table,
         handedOut := if report then s.handedOut + {Binding(me.pc.id, me.pc.path)} else s.handedOut)
    case Unlock(w, ok) => if ok then s.(lock := Released(s.lock, w)) else s
    case Send(_) => s.(inFlight := s.inFlight + Messages(me.rows, me.unit.value))
    case Exit(w) => s.(lock := Released(s.lock, w))
    case _ => s
  }

  /** A store task's statement; one that fails leaves no trace. */
  function Stored(s: State, m: Msg, effect: bool): State {
    var t := s.(inFlight := s.inFlight - {m});
    if !effect then t
    else match m
      case Row(b) => t.(located := s.located + {b})
      case Replace(b) => t.(table := s.table[b.id := b.path])
  }

  function Apply(s: State, e: Event): State
    requires Enabled(s, e)
  {
    match e
    case Store(m, effect) => Stored(s, m, effect)
    case _ =>
      var me := s.workers[e.w];
      SharedAfter(s, me, e).(workers := s.workers[e.w := WorkerAfter(s, me, e)])
  }

  // ----- ids keep their path -----

  predicate Binds(bound: map<int, Path>, b: Binding) {
    b.id in bound && bound[b.id] == b.path
  }

  /** The ids a task knows: in its cache, for its unit, in its rows, and in its hands. */
  ghost predicate WorkerUses(me: Worker, b: Binding) {
    || (b.path in me.cache && me.cache[b.path] == b.id)
    || me.unit == Some(b)
    || b in me.rows
    || me.pc == Replacing(b.path, b.id)
    || me.pc == Unlocking(b.path, Some(b.id))
  }

  /** Somewhere an id stands for a path. */
  ghost predicate Uses(s: State, b: Binding) {
    || Binds(s.table, b)
    || (exists w :: w in s.workers && WorkerUses(s.workers[w], b))
    || Row(b) in s.inFlight
    || Replace(b) in s.inFlight
    || b in s.located
  }

  ghost predicate BoundInv(s: State) {
    && (forall i :: i in s.bound ==> 0 <= i < s.next)
    && (forall b :: Uses(s, b) ==> Binds(s.bound, b))
    && 0 <= s.next
  }

  ghost predicate Extends(bound: map<int, Path>, more: map<int, Path>) {
    forall i :: i in bound ==> i in more && more[i] == bound[i]
  }

  lemma InitBound(s: State)
    requires Init(s)
    ensures BoundInv(s)
  {
  }

  lemma BoundGrows(s: State, e: Event)
    requires BoundInv(s) && Enabled(s, e)
    ensures Extends(s.bound, Apply(s, e).bound)
  {
  }

  lemma WorkerUsesKept(s: State, me: Worker, e: Event, b: Binding)
    requires BoundInv(s) && !e.Store? && WorkerEnabled(s, me, e)
    requires forall c :: WorkerUses(me, c) ==> Binds(s.bound, c)
    requires WorkerUses(WorkerAfter(s, me, e), b)
    ensures Binds(SharedAfter(s, me, e).bound, b)
  {
    if e.Found? && b == Binding(e.id, me.pc.path) {
      assert Uses(s, b);
    } else if e.Unlock? && me.pc.result == Some(b.id) && b.path == me.pc.path {
      assert WorkerUses(me, b);
    } else if e.LocateCached? && b == Binding(me.cache[e.path], e.path) {
      assert WorkerUses(me, b);
    } else if e.ReplaceRow? && b == Binding(me.pc.id, me.pc.path) {
      assert WorkerUses(me, b);
    } else if WorkerUses(me, b) {
    }
  }

  /** The parts of the state that are in use outside the tasks. */
  ghost predicate SharedUses(s: State, b: Binding) {
    Binds(s.table, b) || Row(b) in s.inFlight || Replace(b) in s.inFlight || b in s.located
  }

  lemma SharedUsesKept(s: State, me: Worker, e: Event, b: Binding)
    requires BoundInv(s) && !e.Store? && WorkerEnabled(s, me, e)
    requires forall c :: WorkerUses(me, c) ==> Binds(s.bound, c)
    requires SharedUses(SharedAfter(s, me, e), b)
    ensures Binds(SharedAfter(s, me, e).bound, b)
  {
    if SharedUses(s, b) {
      assert Uses(s, b);
    } else {
      assert WorkerUses(me, b);
    }
  }

  lemma StoredKeepsBound(s: State, m: Msg, effect: bool)
    requires BoundInv(s) && m in s.inFlight
    ensures BoundInv(Stored(s, m, effect))
  {
  }

  lemma StepKeepsBound(s: State, e: Event)
    requires BoundInv(s) && Enabled(s, e)
    ensures BoundInv(Apply(s, e))
  {
    if e.Store? {
      StoredKeepsBound(s, e.m, e.effect);
    } else {
      var me, s' := s.workers[e.w], Apply(s, e);
      forall b | WorkerUses(me, b)
        ensures Binds(s.bound, b)
      {
        assert Uses(s, b);
      }
      forall b | Uses(s', b)
        ensures Binds(s'.bound, b)
      {
        BoundGrows(s, e);
        if SharedUses(s', b) {
          SharedUsesKept(s, me, e, b);
        } else if WorkerUses(s'.workers[e.w], b) {
          WorkerUsesKept(s, me, e, b);
        } else {
          assert Uses(s, b);
        }
      }
    }
  }
}
