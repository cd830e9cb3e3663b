/** Programs in which the cut at recursive calls loses nothing: where a call in a try block
    leads back to the function that contains it, the handlers raise nothing that depends
    on what the call was seen to raise. */
module GuardedPrograms {
  import opened Basics
  import opened Ast
  import opened Graphs
  import opened CallGraph
  import opened RaiseSemantics

  /** No call in `s` leads back to `f`. */
  ghost predicate Leaves(p: Program, s: Stmt, f: FuncId) {
    forall g :: CallsTo(s, g) ==> !Reaches(CallEdge(p), g, f)
  }

  /** `s` raises nothing but what it rethrows. */
  ghost predicate OnlyRethrows(s: Stmt) {
    match s
    case Null => true
    case Rethrow => true
    case Try(body, handlers) =>
      OnlyRethrows(body) && forall i :: 0 <= i < |handlers| ==> OnlyRethrows(handlers[i].block)
    case DefaultInit(expr) => OnlyRethrows(expr)
    case Other(children) => forall i :: 0 <= i < |children| ==> OnlyRethrows(children[i])
    case _ => false
  }

  /** What `s` rethrows is not caught in `s`. */
  ghost predicate LetsRethrown(p: Program, s: Stmt) {
    match s
    case Try(_, _) => Tame(p, true, s, false)
    case DefaultInit(expr) => LetsRethrown(p, expr)
    case Other(children) => forall i :: 0 <= i < |children| ==> LetsRethrown(p, children[i])
    case _ => true
  }

  /** Typed handlers raise nothing of their own, and catch(...) lets through what it
      rethrows. */
  ghost predicate Bland(p: Program, handlers: seq<Handler>) {
    forall i :: 0 <= i < |handlers| ==>
      if handlers[i].Catch? then OnlyRethrows(handlers[i].block) else LetsRethrown(p, handlers[i].block)
  }

  ghost predicate Guarded(p: Program, s: Stmt, f: FuncId) {
    match s
    case Try(body, handlers) =>
      (Leaves(p, body, f) || Bland(p, handlers)) &&
      Guarded(p, body, f) && forall i :: 0 <= i < |handlers| ==> Guarded(p, handlers[i].block, f)
    case DefaultInit(expr) => Guarded(p, expr, f)
    case Other(children) => forall i :: 0 <= i < |children| ==> Guarded(p, children[i], f)
    case _ => true
  }

  ghost predicate GuardedProgram(p: Program) {
    forall f, s :: f in p.functions && PartOf(p, f, s) ==> Guarded(p, s, f)
  }

  // ----- what the guard allows -----

  lemma {:induction false} GuardedIfLeaves(p: Program, s: Stmt, f: FuncId)
    requires Leaves(p, s, f)
    ensures Guarded(p, s, f)
  {
    match s
    case Try(body, handlers) =>
      GuardedIfLeaves(p, body, f);
      forall i | 0 <= i < |handlers|
        ensures Guarded(p, handlers[i].block, f)
      {
        GuardedIfLeaves(p, handlers[i].block, f);
      }
    case DefaultInit(expr) => GuardedIfLeaves(p, expr, f);
    case Other(children) =>
      forall i | 0 <= i < |children|
        ensures Guarded(p, children[i], f)
      {
        GuardedIfLeaves(p, children[i], f);
      }
    case _ =>
  }

  /** Programs without call cycles are guarded. */
  lemma AcyclicIsGuarded(p: Program)
    requires Acyclic(p)
    ensures GuardedProgram(p)
  {
    forall f, s | f in p.functions && PartOf(p, f, s)
      ensures Guarded(p, s, f)
    {
      forall g | CallsTo(s, g)
        ensures !Reaches(CallEdge(p), g, f)
      {
        assert Calls(p, f, g);
      }
      GuardedIfLeaves(p, s, f);
    }
  }

  ghost predicate HandlerFree(s: Stmt) {
    match s
    case Try(_, _) => false
    case DefaultInit(expr) => HandlerFree(expr)
    case Other(children) => forall i :: 0 <= i < |children| ==> HandlerFree(children[i])
    case _ => true
  }

  ghost predicate HandlerFreeProgram(p: Program) {
    forall f, s :: f in p.functions && PartOf(p, f, s) ==> HandlerFree(s)
  }

  /** Programs without try blocks are guarded, whatever their call cycles. */
  lemma HandlerFreeIsGuarded(p: Program)
    requires HandlerFreeProgram(p)
    ensures GuardedProgram(p)
  {
    forall f, s | f in p.functions && PartOf(p, f, s)
      ensures Guarded(p, s, f)
    {
      HandlerFreeStmtIsGuarded(p, s, f);
    }
  }

  lemma {:induction false} HandlerFreeStmtIsGuarded(p: Program, s: Stmt, f: FuncId)
    requires HandlerFree(s)
    ensures Guarded(p, s, f)
  {
    match s
    case DefaultInit(expr) => HandlerFreeStmtIsGuarded(p, expr, f);
    case Other(children) =>
      forall i | 0 <= i < |children|
        ensures Guarded(p, children[i], f)
      {
        HandlerFreeStmtIsGuarded(p, children[i], f);
      }
    case _ =>
  }

  // ----- what bland handlers raise -----

  lemma {:induction false} RethrownIsHandled(p: Program, from: Origin, n: nat, s: Stmt, cur: Option<Exc>, x: Exc)
    requires OnlyRethrows(s) && Raises(p, from, n, s, cur, x)
    ensures cur == Some(x)
    decreases s
  {
    match s
    case Rethrow =>
    case Try(body, handlers) =>
      var handled, i, y := WhichHandler(p, from, n, body, handlers, cur, x);
      RethrownIsHandled(p, from, n, body, cur, if handled then y else x);
      if handled {
        RethrownIsHandled(p, from, n, handlers[i].block, Some(y), x);
      }
    case DefaultInit(expr) => RethrownIsHandled(p, from, n, expr, cur, x);
    case Other(children) =>
      var i :| 0 <= i < |children| && Raises(p, from, n, children[i], cur, x);
      RethrownIsHandled(p, from, n, children[i], cur, x);
  }

  /** What is raised is the handled exception, or does not depend on it. */
  lemma {:induction false} RethrownOrOwn(p: Program, from: Origin, n: nat, s: Stmt, y: Exc, x: Exc)
    requires TameProgram(p, true) && LetsRethrown(p, s) && Raises(p, from, n, s, Some(y), x)
    ensures x == y || Raises(p, from, n, s, None, x)
    decreases s
  {
    match s
    case Throw(_) =>
    case Rethrow =>
    case Try(_, _) => HandledIsIrrelevant(p, from, n, s, Some(y), None, x);
    case Call(callee) =>
      if !RaisesUnvisited(from, x) {
        FuncHandledIsIrrelevant(p, from, n - 1, callee.value, Some(y), None, x);
      }
    case Construct(ctor) =>
      if !RaisesUnvisited(from, x) {
        FuncHandledIsIrrelevant(p, from, n - 1, ctor, Some(y), None, x);
      }
    case DefaultInit(expr) => RethrownOrOwn(p, from, n, expr, y, x);
    case Other(children) =>
      var i :| 0 <= i < |children| && Raises(p, from, n, children[i], Some(y), x);
      RethrownOrOwn(p, from, n, children[i], y, x);
  }
}
