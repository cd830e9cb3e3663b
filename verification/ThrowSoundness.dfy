/** Nothing a tame and guarded program raises is missing from the analyzer's result, once
    the trace level does not bind. */
module ThrowSoundness {
  import opened Basics
  import opened Ast
  import opened Graphs
  import opened CallGraph
  import opened ThrowAnalysis
  import opened HandlerDispatch
  import opened RaiseSemantics
  import opened GuardedPrograms
  import opened ThrowReports

  // Foreign exceptions are followed as well as known ones, as far as they come from
  // functions without a body and no catch(...) rethrows them (`all` is false).

  /** `cur` is accounted for by the types a bare `throw;` stands for. */
  ghost predicate Covers(all: bool, may: bool, caught: set<TypeId>, cur: Option<Exc>) {
    may && cur.Some? ==> if cur.value.Known? then cur.value.ty in caught else all
  }

  /** Function `q` on the call stack, from which a call at depth `m` raises the exception
      that was looked for: the walk was cut there. */
  datatype Cut = Cut(q: FuncId, m: nat)

  ghost predicate IsCut(p: Program, from: Origin, stack: set<FuncId>, f: FuncId, n: nat, x: Exc, cut: Cut) {
    cut.q in stack && cut.m < n && Reaches(CallEdge(p), f, cut.q) && FuncRaises(p, from, cut.m, cut.q, None, x)
  }

  /** Nothing called from `s` leads back to a function on the stack. */
  ghost predicate Sealed(p: Program, s: Stmt, stack: set<FuncId>) {
    forall g, q :: CallsTo(s, g) && q in stack ==> !Reaches(CallEdge(p), g, q)
  }

  /** Everything on the call stack leads to `f`, the function being walked. */
  ghost predicate Walking(p: Program, stack: set<FuncId>, f: FuncId) {
    f in stack && forall q :: q in stack ==> Reaches(CallEdge(p), q, f)
  }

  /** `s` belongs to `f`. */
  ghost predicate Within(p: Program, f: FuncId, s: Stmt) {
    (forall g :: CallsTo(s, g) ==> Calls(p, f, g)) && Guarded(p, s, f)
  }

  ghost predicate Sound(p: Program, all: bool, from: Origin, x: Exc) {
    TameProgram(p, true) && TameProgram(p, all) && GuardedProgram(p) &&
    (x.Foreign? ==> !from.Unvisited? && !all)
  }

  lemma TryParts(p: Program, f: FuncId, stack: set<FuncId>, body: Stmt, handlers: seq<Handler>)
    requires Within(p, f, Try(body, handlers))
    ensures Within(p, f, body) && forall i :: 0 <= i < |handlers| ==> Within(p, f, handlers[i].block)
    ensures Sealed(p, Try(body, handlers), stack) ==>
              Sealed(p, body, stack) && forall i :: 0 <= i < |handlers| ==> Sealed(p, handlers[i].block, stack)
  {
  }

  lemma ChildParts(p: Program, f: FuncId, stack: set<FuncId>, children: seq<Stmt>, i: nat)
    requires Within(p, f, Other(children)) && i < |children|
    ensures Within(p, f, children[i])
    ensures Sealed(p, Other(children), stack) ==> Sealed(p, children[i], stack)
  {
  }

  /** What a statement raises is reported at some depth (by monotonicity then at any
      larger one), or the walk was cut at a function that raises it at a smaller depth
      of calls. Nothing is cut in a sealed statement. */
  lemma {:induction false} StmtSound(p: Program, all: bool, f: FuncId, stack: set<FuncId>,
                                     caught: set<TypeId>, may: bool, sealed: bool,
                                     from: Origin, n: nat, s: Stmt, cur: Option<Exc>, x: Exc)
    returns (depth: nat, cut: Option<Cut>)
    requires Sound(p, all, from, x) && Tame(p, all, s, may) && Walking(p, stack, f) && Within(p, f, s)
    requires sealed ==> Sealed(p, s, stack)
    requires Covers(all, may, caught, cur) && Raises(p, from, n, s, cur, x)
    ensures cut.None? ==> Reported(ThrowsStmt(p, depth, stack, caught, s), x)
    ensures cut.Some? ==> !sealed && IsCut(p, from, stack, f, n, x, cut.value)
    decreases n, 0, s, 3
  {
    cut := None;
    match s {
      case Throw(_) => depth := 1;
      case Rethrow => depth := 1;
      case Try(body, handlers) =>
        depth, cut := TrySound(p, all, f, stack, caught, may, sealed, from, n, body, handlers, cur, x);
        depth := depth + 1;
      case Call(callee) =>
        depth, cut := CalleeSound(p, all, f, stack, sealed, from, n - 1, callee.value, cur, x);
        depth := depth + 1;
      case Construct(ctor) =>
        depth, cut := CalleeSound(p, all, f, stack, sealed, from, n - 1, ctor, cur, x);
        depth := depth + 1;
      case DefaultInit(expr) =>
        depth, cut := StmtSound(p, all, f, stack, caught, may, sealed, from, n, expr, cur, x);
        depth := depth + 1;
      case Other(children) =>
        depth, cut := OtherSound(p, all, f, stack, caught, may, sealed, from, n, children, cur, x);
        depth := depth + 1;
    }
  }

  lemma {:induction false} OtherSound(p: Program, all: bool, f: FuncId, stack: set<FuncId>,
                                      caught: set<TypeId>, may: bool, sealed: bool,
                                      from: Origin, n: nat, children: seq<Stmt>, cur: Option<Exc>, x: Exc)
    returns (depth: nat, cut: Option<Cut>)
    requires Sound(p, all, from, x) && Tame(p, all, Other(children), may)
    requires Walking(p, stack, f) && Within(p, f, Other(children))
    requires sealed ==> Sealed(p, Other(children), stack)
    requires Covers(all, may, caught, cur) && Raises(p, from, n, Other(children), cur, x)
    ensures cut.None? ==> Reported(ThrowsStmt(p, depth + 1, stack, caught, Other(children)), x)
    ensures cut.Some? ==> !sealed && IsCut(p, from, stack, f, n, x, cut.value)
    decreases n, 0, Other(children), 2
  {
    var i :| 0 <= i < |children| && Raises(p, from, n, children[i], cur, x);
    ChildParts(p, f, stack, children, i);
    depth, cut := StmtSound(p, all, f, stack, caught, may, sealed, from, n, children[i], cur, x);
    ChildrenReport(p, depth, stack, caught, children, x);
  }

  /** A try block that does not lead back to its function is sealed, since everything on the
      stack leads to that function. */
  lemma LeavingIsSealed(p: Program, stack: set<FuncId>, f: FuncId, body: Stmt)
    requires Walking(p, stack, f) && Leaves(p, body, f)
    ensures Sealed(p, body, stack)
  {
    forall g, q | CallsTo(body, g) && q in stack
      ensures !Reaches(CallEdge(p), g, q)
    {
      if Reaches(CallEdge(p), g, q) {
        ReachesThrough(CallEdge(p), g, q, f);
      }
    }
  }

  lemma {:induction false} TrySound(p: Program, all: bool, f: FuncId, stack: set<FuncId>,
                                    caught: set<TypeId>, may: bool, sealed: bool,
                                    from: Origin, n: nat, body: Stmt, handlers: seq<Handler>, cur: Option<Exc>, x: Exc)
    returns (depth: nat, cut: Option<Cut>)
    requires Sound(p, all, from, x) && Tame(p, all, Try(body, handlers), may)
    requires Walking(p, stack, f) && Within(p, f, Try(body, handlers))
    requires sealed ==> Sealed(p, Try(body, handlers), stack)
    requires Covers(all, may, caught, cur) && Raises(p, from, n, Try(body, handlers), cur, x)
    ensures cut.None? ==> Reported(ThrowsStmt(p, depth + 1, stack, caught, Try(body, handlers)), x)
    ensures cut.Some? ==> !sealed && IsCut(p, from, stack, f, n, x, cut.value)
    decreases n, 0, Try(body, handlers), 2
  {
    TryParts(p, f, stack, body, handlers);
    var bodySealed := sealed || Leaves(p, body, f);
    if Leaves(p, body, f) {
      LeavingIsSealed(p, stack, f, body);
    }
    var handled, i, y := WhichHandler(p, from, n, body, handlers, cur, x);
    if !handled {
      depth, cut := StmtSound(p, all, f, stack, caught, may, bodySealed, from, n, body, cur, x);
      TryReports(p, depth, stack, caught, body, handlers, x);
    } else {
      depth, cut := HandledSound(p, all, f, stack, caught, may, sealed, bodySealed, from, n,
                                 body, handlers, cur, i, y, x);
    }
  }

  lemma {:induction false} HandledSound(p: Program, all: bool, f: FuncId, stack: set<FuncId>, caught: set<TypeId>,
                                        may: bool, sealed: bool, bodySealed: bool, from: Origin, n: nat,
                                        body: Stmt, handlers: seq<Handler>, cur: Option<Exc>, i: nat, y: Exc, x: Exc)
    returns (depth: nat, cut: Option<Cut>)
    requires Sound(p, all, from, x) && Walking(p, stack, f) && Covers(all, may, caught, cur) && CatchAllLast(handlers)
    requires Tame(p, all, body, may) && Within(p, f, body) && TakenBy(p, handlers, i, y)
    requires Tame(p, all, handlers[i].block, MayRethrow(p, all, handlers[i])) && Within(p, f, handlers[i].block)
    requires (bodySealed ==> Sealed(p, body, stack)) && (sealed ==> bodySealed && Sealed(p, handlers[i].block, stack))
    requires bodySealed || Bland(p, handlers)
    requires Raises(p, from, n, body, cur, y) && Raises(p, from, n, handlers[i].block, Some(y), x)
    ensures cut.None? ==> Reported(ThrowsStmt(p, depth + 1, stack, caught, Try(body, handlers)), x)
    ensures cut.Some? ==> !sealed && IsCut(p, from, stack, f, n, x, cut.value)
    decreases n, 0, Try(body, handlers), 1
  {
    depth, cut := 0, None;
    if y.Known? {
      depth, cut := StmtSound(p, all, f, stack, caught, may, bodySealed, from, n, body, cur, y);
    }
    if cut.None? {
      depth, cut := BlockSound(p, all, f, stack, caught, sealed, from, n, body, handlers, i, y, depth, x);
    } else {
      depth, cut := BlandSound(p, all, f, stack, caught, sealed, from, n, body, handlers, i, y, cut.value, x);
    }
  }

  /** The block of the handler that takes `y`, which is foreign or reported at depth `inner`. */
  lemma {:induction false} BlockSound(p: Program, all: bool, f: FuncId, stack: set<FuncId>, caught: set<TypeId>,
                                      sealed: bool, from: Origin, n: nat, body: Stmt, handlers: seq<Handler>,
                                      i: nat, y: Exc, inner: nat, x: Exc)
    returns (depth: nat, cut: Option<Cut>)
    requires Sound(p, all, from, x) && Walking(p, stack, f) && TakenBy(p, handlers, i, y)
    requires Tame(p, all, handlers[i].block, MayRethrow(p, all, handlers[i])) && Within(p, f, handlers[i].block)
    requires sealed ==> Sealed(p, handlers[i].block, stack)
    requires y.Known? ==> Reported(ThrowsStmt(p, inner, stack, caught, body), y)
    requires Raises(p, from, n, handlers[i].block, Some(y), x)
    ensures cut.None? ==> Reported(ThrowsStmt(p, depth + 1, stack, caught, Try(body, handlers)), x)
    ensures cut.Some? ==> !sealed && IsCut(p, from, stack, f, n, x, cut.value)
    decreases n, 0, Try(body, handlers), 0
  {
    var h := handlers[i];
    var types := if y.Foreign? then {} else if h.CatchAll? then {y.ty} else {h.ty};
    depth, cut := StmtSound(p, all, f, stack, types, MayRethrow(p, all, h), sealed, from, n, h.block, Some(y), x);
    if cut.None? {
      depth := HandlerReported(p, stack, caught, body, handlers, i, y, inner, types, depth, x);
    }
  }

  /** The handler takes `y`, but the walk of the try block was cut before it saw `y`. */
  lemma {:induction false} BlandSound(p: Program, all: bool, f: FuncId, stack: set<FuncId>, caught: set<TypeId>,
                                      sealed: bool, from: Origin, n: nat, body: Stmt, handlers: seq<Handler>,
                                      i: nat, y: Exc, ycut: Cut, x: Exc)
    returns (depth: nat, cut: Option<Cut>)
    requires Sound(p, all, from, x) && Walking(p, stack, f) && TakenBy(p, handlers, i, y) && CatchAllLast(handlers)
    requires Tame(p, all, handlers[i].block, MayRethrow(p, all, handlers[i])) && Within(p, f, handlers[i].block)
    requires Bland(p, handlers) && !sealed && IsCut(p, from, stack, f, n, y, ycut)
    requires Raises(p, from, n, handlers[i].block, Some(y), x)
    ensures cut.None? ==> Reported(ThrowsStmt(p, depth + 1, stack, caught, Try(body, handlers)), x)
    ensures cut.Some? ==> !sealed && IsCut(p, from, stack, f, n, x, cut.value)
    decreases n, 0, Try(body, handlers), 0
  {
    depth, cut := 0, Some(ycut);
    if handlers[i].Catch? {
      RethrownIsHandled(p, from, n, handlers[i].block, Some(y), x);
    } else {
      RethrownOrOwn(p, from, n, handlers[i].block, y, x);
      if x != y {
        depth, cut := StmtSound(p, all, f, stack, {}, all, sealed, from, n, handlers[i].block, None, x);
        if cut.None? {
          depth := HandlerReported(p, stack, caught, body, handlers, i, Foreign, 0, {}, depth, x);
        }
      }
    }
  }

  /** The block of the handler that takes `y` is analysed, and with `y` among the
      types it may rethrow. */
  lemma HandlerReported(p: Program, stack: set<FuncId>, caught: set<TypeId>, body: Stmt, handlers: seq<Handler>,
                        i: int, y: Exc, inner: nat, types: set<TypeId>, outer: nat, x: Exc)
    returns (depth: nat)
    requires TakenBy(p, handlers, i, y)
    requires y.Known? ==> Reported(ThrowsStmt(p, inner, stack, caught, body), y)
    requires types == if y.Foreign? then {} else if handlers[i].CatchAll? then {y.ty} else {handlers[i].ty}
    requires Reported(ThrowsStmt(p, outer, stack, types, handlers[i].block), x)
    ensures Reported(ThrowsStmt(p, depth + 1, stack, caught, Try(body, handlers)), x)
  {
    depth := if inner < outer then outer else inner;
    if y.Known? {
      ReportsMore(p, inner, depth, stack, caught, caught, body, y);
    }
    var u := ThrowsStmt(p, depth, stack, caught, body).thrown;
    ReportsMore(p, outer, depth, stack, types, RethrowTypes(p, handlers, i, u), handlers[i].block, x);
    assert Reported(BlockInfo(p, depth, stack, handlers, i, u), x);
    TryReports(p, depth, stack, caught, body, handlers, x);
  }

  /** A call: cut if the callee is on the stack, walked otherwise. */
  lemma {:induction false} CalleeSound(p: Program, all: bool, f: FuncId, stack: set<FuncId>, sealed: bool,
                                       from: Origin, n: nat, g: FuncId, cur: Option<Exc>, x: Exc)
    returns (depth: nat, cut: Option<Cut>)
    requires Sound(p, all, from, x) && Calls(p, f, g) && Walking(p, stack, f)
    requires sealed ==> forall q :: q in stack ==> !Reaches(CallEdge(p), g, q)
    requires FuncRaises(p, from, n, g, cur, x)
    ensures cut.None? ==> Reported(ThrowsFunc(p, depth, stack, g), x)
    ensures cut.Some? ==> !sealed && IsCut(p, from, stack, f, n + 1, x, cut.value)
    decreases n, 2
  {
    ReachesSelf(CallEdge(p), g);
    assert CallEdge(p)(f, g);
    if g in stack {
      FuncHandledIsIrrelevant(p, from, n, g, cur, None, x);
      StepReaches(CallEdge(p), f, g, g);
      depth, cut := 0, Some(Cut(g, n));
    } else {
      forall q | q in stack
        ensures Reaches(CallEdge(p), q, g)
      {
        ReachesStep(CallEdge(p), q, f, g);
      }
      depth, cut := FuncSound(p, all, stack, from, n, g, cur, x);
      if cut.Some? {
        StepReaches(CallEdge(p), f, g, cut.value.q);
      }
    }
  }

  lemma RaisingPart(p: Program, from: Origin, n: nat, g: FuncId, cur: Option<Exc>, x: Exc) returns (s: Stmt)
    requires p.HasBody(g) && FuncRaises(p, from, n, g, cur, x)
    ensures PartOf(p, g, s) && Raises(p, from, n, s, cur, x)
  {
    var fn := p.Func(g);
    s := fn.body.value;
    if !Raises(p, from, n, s, cur, x) {
      var i :| 0 <= i < |fn.inits| && Raises(p, from, n, fn.inits[i], cur, x);
      s := fn.inits[i];
    }
  }

  lemma PartIsWithin(p: Program, stack: set<FuncId>, g: FuncId, s: Stmt)
    requires GuardedProgram(p) && PartOf(p, g, s)
    requires forall q :: q in stack ==> Reaches(CallEdge(p), q, g)
    ensures Walking(p, stack + {g}, g) && Within(p, g, s)
  {
    ReachesSelf(CallEdge(p), g);
  }

  /** A function not on the stack. If the walk of its body was cut at the function itself,
      the exception is raised at a smaller depth of calls, and looked for again from there. */
  lemma {:induction false} FuncSound(p: Program, all: bool, stack: set<FuncId>, from: Origin, n: nat, g: FuncId,
                                     cur: Option<Exc>, x: Exc)
    returns (depth: nat, cut: Option<Cut>)
    requires Sound(p, all, from, x)
    requires g !in stack && forall q :: q in stack ==> Reaches(CallEdge(p), q, g)
    requires FuncRaises(p, from, n, g, cur, x)
    ensures cut.None? ==> Reported(ThrowsFunc(p, depth, stack, g), x)
    ensures cut.Some? ==> IsCut(p, from, stack, g, n, x, cut.value)
    decreases n, 1
  {
    if !p.HasBody(g) {
      ExternalReports(p, 0, stack, g, x);
      return 1, None;
    }
    var s := RaisingPart(p, from, n, g, cur, x);
    PartIsTame(p, all, g, s);
    PartIsWithin(p, stack, g, s);
    depth, cut := StmtSound(p, all, g, stack + {g}, {}, false, false, from, n, s, cur, x);
    if cut.None? {
      FuncReports(p, depth, stack, g, x);
      depth := depth + 1;
    } else if cut.value.q == g {
      depth, cut := FuncSound(p, all, stack, from, cut.value.m, g, None, x);
    }
  }
}
