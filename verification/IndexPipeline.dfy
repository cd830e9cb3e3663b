/** The whole of `do_indexing`: parse tasks that claim translation units and push
    batches, store tasks that pop them, and the main thread that starts, joins and
    stops them, under every interleaving. Each task has a worker of its own. */
module IndexPipelines {
  import opened IndexQueues
  import opened QueueProtocol

  /** Where the main thread is. */
  datatype Phase =
    | JoinParse        // waiting for the parse tasks
    | StopStored       // between the two halves of set_stop
    | StopNotified     // about to decide on extra store tasks
    | Draining         // polling num_stmts_
    | JoinStore        // waiting for the store tasks
    | Returned

  datatype ParseState =
    | Connecting
    | Idle
    | Indexing(unit: nat)
    | InAdd            // in the wait of add_stmts
    | Finished         // found no unit left
    | Aborted          // failed to connect

  datatype StoreState =
    | Connecting
    | Idle
    | InGet            // in the wait of get_stmts
    | Finished
    | Aborted

  const EXTRA_STORE_THRESHOLD: int := 100 * 1024
  const DRAINED_THRESHOLD: int := 1024

  datatype Pipeline = Pipeline(
    units: nat,                       // number of translation units
    initialStore: set<Tid>,           // the store tasks started first
    system: System,
    main: Phase,
    counter: nat,                     // the shared atomic counter over units
    claims: seq<Tid>,                 // which task claimed unit 0, 1, ...
    parse: map<Tid, ParseState>,
    store: map<Tid, StoreState>)

  ghost predicate PipelineInit(s: Pipeline) {
    Init(s.system) && s.main == JoinParse && s.counter == 0 && s.claims == [] &&
    (forall t :: t in s.parse ==> s.parse[t] == ParseState.Connecting) &&
    (forall t :: t in s.store ==> s.store[t] == StoreState.Connecting) &&
    s.initialStore == s.store.Keys
  }

  // ----- moves -----

  datatype Move =
    | ConnectParse(t: Tid, ok: bool)
    | Claim(t: Tid)
    | Skip(t: Tid)                                   // up to date, or failed to index
    | Send(t: Tid, b: Batch, blocked: bool)
    | RecheckSend(t: Tid, blocked: bool)
    | ConnectStore(t: Tid, ok: bool)
    | Fetch(t: Tid, r: GetResult)
    | SpuriousFetch(t: Tid)
    | SpuriousSend(t: Tid)
    | StopStore
    | StopNotify
    | StartExtra(extra: set<Tid>)
    | Drained
    | JoinAll

  ghost predicate ParseMove(s: Pipeline, s': Pipeline, t: Tid, to: ParseState) {
    s' == s.(system := s'.system, counter := s'.counter, claims := s'.claims, parse := s.parse[t := to])
  }

  ghost predicate StoreMove(s: Pipeline, s': Pipeline, t: Tid, to: StoreState) {
    s' == s.(system := s'.system, store := s.store[t := to])
  }

  /** One round of the loop over translation units: claim the next one, or finish. */
  ghost predicate ClaimMove(s: Pipeline, s': Pipeline, t: Tid) {
    t in s.parse && s.parse[t] == ParseState.Idle &&
    s'.system == s.system && s'.counter == s.counter + 1 &&
    if s.counter >= s.units then
      s'.claims == s.claims && ParseMove(s, s', t, ParseState.Finished)
    else
      s'.claims == s.claims + [t] && ParseMove(s, s', t, Indexing(s.counter))
  }

  /** send_indexed_result: the batch of a unit ends with the filepath statement, so it
      is never empty. */
  ghost predicate SendMove(s: Pipeline, s': Pipeline, t: Tid, b: Batch, blocked: bool) {
    t in s.parse && s.parse[t] == Indexing(b.unit) && b.stmts != [] &&
    AddStep(s.system, s'.system, t, b, blocked) &&
    s'.counter == s.counter && s'.claims == s.claims &&
    ParseMove(s, s', t, if blocked then InAdd else ParseState.Idle)
  }

  ghost predicate RecheckMove(s: Pipeline, s': Pipeline, t: Tid, blocked: bool) {
    t in s.parse && RecheckStep(s.system, s'.system, t, blocked) &&
    s'.counter == s.counter && s'.claims == s.claims &&
    ParseMove(s, s', t, if blocked then InAdd else ParseState.Idle)
  }

  /** One round of do_store: an empty batch would end the task like the end of the
      queue does. */
  ghost predicate FetchMove(s: Pipeline, s': Pipeline, t: Tid, r: GetResult) {
    t in s.store && (s.store[t] == StoreState.Idle || t in s.system.queue.consumers.woken) &&
    GetStep(s.system, s'.system, t, r) &&
    StoreMove(s, s', t,
              match r
              case Blocked => InGet
              case Stopped => StoreState.Finished
              case Took(b) => if b.stmts == [] then StoreState.Finished else StoreState.Idle)
  }

  ghost predicate ParseJoined(s: Pipeline) {
    forall t :: t in s.parse ==> s.parse[t].Finished? || s.parse[t].Aborted?
  }

  ghost predicate StoreJoined(s: Pipeline) {
    forall t :: t in s.store ==> s.store[t].Finished? || s.store[t].Aborted?
  }

  function Started(store: map<Tid, StoreState>, extra: set<Tid>): map<Tid, StoreState> {
    map t | t in store.Keys + extra :: if t in store then store[t] else StoreState.Connecting
  }

  ghost predicate StepOf(s: Pipeline, s': Pipeline, m: Move) {
    match m
    case ConnectParse(t, ok) =>
      t in s.parse && s.parse[t].Connecting? &&
      s' == s.(parse := s.parse[t := if ok then ParseState.Idle else ParseState.Aborted])
    case Claim(t) => ClaimMove(s, s', t)
    case Skip(t) =>
      t in s.parse && s.parse[t].Indexing? && s' == s.(parse := s.parse[t := ParseState.Idle])
    case Send(t, b, blocked) => SendMove(s, s', t, b, blocked)
    case RecheckSend(t, blocked) => RecheckMove(s, s', t, blocked)
    case ConnectStore(t, ok) =>
      t in s.store && s.store[t].Connecting? &&
      s' == s.(store := s.store[t := if ok then StoreState.Idle else StoreState.Aborted])
    case Fetch(t, r) => FetchMove(s, s', t, r)
    case SpuriousFetch(t) => SpuriousConsumerStep(s.system, s'.system, t) && s' == s.(system := s'.system)
    case SpuriousSend(t) => SpuriousProducerStep(s.system, s'.system, t) && s' == s.(system := s'.system)
    case StopStore =>
      s.main == JoinParse && ParseJoined(s) &&
      StoreStopStep(s.system, s'.system) && s' == s.(system := s'.system, main := StopStored)
    case StopNotify =>
      s.main == StopStored &&
      NotifyStopStep(s.system, s'.system) && s' == s.(system := s'.system, main := StopNotified)
    case StartExtra(extra) =>
      s.main == StopNotified && extra !! s.store.Keys &&
      |extra| == (if s.system.queue.numStmts >= EXTRA_STORE_THRESHOLD then |s.parse| / 2 else 0) &&
      s' == s.(main := Draining, store := Started(s.store, extra))
    case Drained =>
      s.main == Draining && s.system.queue.numStmts < DRAINED_THRESHOLD && s' == s.(main := JoinStore)
    case JoinAll =>
      s.main == JoinStore && StoreJoined(s) && s' == s.(main := Returned)
  }

  ghost predicate PipelineNext(s: Pipeline, s': Pipeline) {
    exists m :: StepOf(s, s', m)
  }

  // ----- invariant -----

  /** The wait sets are the tasks in the waits. */
  ghost predicate Places(s: Pipeline) {
    var q := s.system.queue;
    (forall t :: t in Waiting(q.producers) <==> t in s.parse && s.parse[t].InAdd?) &&
    (forall t :: t in Waiting(q.consumers) <==> t in s.store && s.store[t].InGet?) &&
    s.initialStore <= s.store.Keys
  }

  /** Stopping begins only after every parse task is finished. */
  ghost predicate PhaseOrder(s: Pipeline) {
    (s.main == JoinParse <==> !s.system.queue.stop) &&
    (s.main != JoinParse ==> ParseJoined(s)) &&
    (s.system.stopNotified <==> s.main != JoinParse && s.main != StopStored) &&
    (s.main == Returned ==> StoreJoined(s))
  }

  /** Every batch carries statements, so a store task finishes only on stop and empty. */
  ghost predicate Stores(s: Pipeline) {
    (forall i :: 0 <= i < |s.system.queue.stmts| ==> s.system.queue.stmts[i].stmts != []) &&
    (forall t :: t in s.store && s.store[t].Finished? ==> s.system.queue.stop && s.system.queue.stmts == [])
  }

  ghost predicate DistinctUnits(batches: seq<Batch>) {
    forall i, j :: 0 <= i < j < |batches| ==> batches[i].unit != batches[j].unit
  }

  /** Units are claimed in order, once each. */
  ghost predicate Claims(s: Pipeline) {
    |s.claims| == (if s.counter < s.units then s.counter else s.units) &&
    (forall t :: t in s.parse && s.parse[t].Finished? ==> s.counter >= s.units) &&
    (forall t :: t in s.parse && s.parse[t].Indexing? ==>
       s.parse[t].unit < |s.claims| && s.claims[s.parse[t].unit] == t)
  }

  /** A unit is sent at most once, and not while it is still being indexed. */
  ghost predicate Sends(s: Pipeline) {
    DistinctUnits(s.system.pushed) &&
    (forall b :: b in s.system.pushed ==> b.unit < |s.claims|) &&
    (forall t, b :: t in s.parse && s.parse[t].Indexing? && b in s.system.pushed ==> b.unit != s.parse[t].unit)
  }

  /** Batches are taken by store tasks that connected. */
  ghost predicate Takers(s: Pipeline) {
    forall d :: d in s.system.taken ==>
      d.taker in s.store && !s.store[d.taker].Connecting? && !s.store[d.taker].Aborted?
  }

  /** Each parse task in the wait accounts for one batch too many, before and after the
      stop. */
  ghost predicate Bounded(s: Pipeline) {
    |s.system.queue.stmts| <= TOO_MANY_INFO_WAIT - 1 + |Waiting(s.system.queue.producers)|
  }

  ghost predicate PipelineInv(s: Pipeline) {
    Inv(s.system) && Places(s) && PhaseOrder(s) && Stores(s) && Claims(s) && Sends(s) && Takers(s) && Bounded(s)
  }

  lemma PipelineInitInv(s: Pipeline)
    requires PipelineInit(s)
    ensures PipelineInv(s)
  {
    InitInv(s.system);
  }

  // ----- every move keeps the invariant -----

  /** The step a move makes on the queue, if any. */
  function EventOf(m: Move): (e: Event)
    requires OnQueue(m)
  {
    match m
    case Send(t, b, blocked) => Add(t, b, blocked)
    case RecheckSend(t, blocked) => Recheck(t, blocked)
    case Fetch(t, r) => Get(t, r)
    case SpuriousFetch(t) => SpuriousConsumer(t)
    case SpuriousSend(t) => SpuriousProducer(t)
    case StopStore => Event.StoreStop
    case StopNotify => Event.NotifyStop
  }

  predicate OnQueue(m: Move) {
    m.Send? || m.RecheckSend? || m.Fetch? || m.SpuriousFetch? || m.SpuriousSend? || m.StopStore? || m.StopNotify?
  }

  lemma MoveIsStep(s: Pipeline, s': Pipeline, m: Move)
    requires StepOf(s, s', m)
    ensures if OnQueue(m) then Step(s.system, s'.system, EventOf(m)) else s'.system == s.system
  {
  }

  lemma PlacesKept(s: Pipeline, s': Pipeline, m: Move)
    requires Places(s) && Disjoint(s.system.queue.consumers) && Disjoint(s.system.queue.producers)
    requires StepOf(s, s', m)
    ensures Places(s')
  {
    MoveIsStep(s, s', m);
    if OnQueue(m) {
      StepMovesWaiters(s.system, s'.system, EventOf(m));
    } else {
      assert s'.system == s.system;
    }
  }

  /** A parse task that can still move keeps the main thread from stopping. */
  lemma StoppedMeansJoined(s: Pipeline, s': Pipeline, m: Move)
    requires PhaseOrder(s) && Places(s) && StepOf(s, s', m)
    requires m.ConnectParse? || m.Claim? || m.Skip? || m.Send? || m.RecheckSend?
    ensures s.main == JoinParse
  {
  }

  lemma PhaseOrderKept(s: Pipeline, s': Pipeline, m: Move)
    requires PhaseOrder(s) && Places(s) && StepOf(s, s', m)
    ensures PhaseOrder(s')
  {
    if m.ConnectParse? || m.Claim? || m.Skip? || m.Send? || m.RecheckSend? {
      StoppedMeansJoined(s, s', m);
    }
    if m.ConnectStore? || m.Fetch? {
      assert s.main != Returned by {
        if m.Fetch? && s.store[m.t] != StoreState.Idle {
          assert m.t in Waiting(s.system.queue.consumers);
        }
      }
    }
  }

  lemma StoresKept(s: Pipeline, s': Pipeline, m: Move)
    requires Stores(s) && PhaseOrder(s) && Places(s) && StepOf(s, s', m)
    ensures Stores(s')
  {
    match m
    case Send(t, b, blocked) => StoppedMeansJoined(s, s', m);
    case Fetch(t, r) =>
    case _ =>
  }

  lemma ClaimsKept(s: Pipeline, s': Pipeline, m: Move)
    requires Claims(s) && StepOf(s, s', m)
    ensures Claims(s')
  {
  }

  lemma PushKeepsSends(s: Pipeline, s': Pipeline, t: Tid, b: Batch, blocked: bool)
    requires Sends(s) && Claims(s) && SendMove(s, s', t, b, blocked)
    ensures Sends(s')
  {
    assert forall c :: c in s'.system.pushed <==> c in s.system.pushed || c == b;
    assert forall u :: u in s'.parse && s'.parse[u].Indexing? ==> u in s.parse && s'.parse[u] == s.parse[u] && u != t;
  }

  lemma SendsKept(s: Pipeline, s': Pipeline, m: Move)
    requires Sends(s) && Claims(s) && StepOf(s, s', m)
    ensures Sends(s')
  {
    match m
    case Send(t, b, blocked) => PushKeepsSends(s, s', t, b, blocked);
    case _ => assert s'.system.pushed == s.system.pushed;
  }

  lemma TakersKept(s: Pipeline, s': Pipeline, m: Move)
    requires Takers(s) && Places(s) && StepOf(s, s', m)
    ensures Takers(s')
  {
    if m.Fetch? {
      assert m.t in s.store && (s.store[m.t].Idle? || s.store[m.t].InGet?) by {
        if s.store[m.t] != StoreState.Idle {
          assert m.t in Waiting(s.system.queue.consumers);
        }
      }
      assert forall d :: d in s'.system.taken ==> d in s.system.taken || d.taker == m.t;
    }
  }

  lemma BoundedKept(s: Pipeline, s': Pipeline, m: Move)
    requires Bounded(s) && Inv(s.system) && Inv(s'.system) && PhaseOrder(s) && Places(s) && StepOf(s, s', m)
    ensures Bounded(s')
  {
    var w := s'.system.queue.producers;
    assert |Waiting(w)| == |w.asleep| + |w.woken|;
    if s.main != JoinParse && OnQueue(m) {
      MoveIsStep(s, s', m);
      StepMovesWaiters(s.system, s'.system, EventOf(m));
      if m.Send? || m.RecheckSend? {
        StoppedMeansJoined(s, s', m);
      }
    } else if m.StopStore? {
      assert s'.system.queue.stmts == s.system.queue.stmts;
    }
  }

  lemma MoveKeepsInv(s: Pipeline, s': Pipeline, m: Move)
    requires PipelineInv(s) && StepOf(s, s', m)
    ensures PipelineInv(s')
  {
    MoveIsStep(s, s', m);
    if OnQueue(m) {
      StepKeepsInv(s.system, s'.system, EventOf(m));
    }
    PlacesKept(s, s', m);
    PhaseOrderKept(s, s', m);
    StoresKept(s, s', m);
    ClaimsKept(s, s', m);
    SendsKept(s, s', m);
    TakersKept(s, s', m);
    BoundedKept(s, s', m);
  }
}
