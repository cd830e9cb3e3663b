/** When the block of a catch(...) can run. The analyzer always looks into it; that is
    right iff the try block may raise something that reaches it. */
module LiveHandlers {
  import opened Basics
  import opened Ast
  import opened CallGraph
  import opened ThrowAnalysis
  import opened HandlerDispatch
  import opened RaiseSemantics
  import opened ThrowReports

  /** `y`, raised by the try block while `home` is handled, reaches handler `i`. */
  ghost predicate ReachedBy(p: Program, from: Origin, home: Option<Exc>, body: Stmt, handlers: seq<Handler>,
                            i: nat, y: Exc)
  {
    TakenBy(p, handlers, i, y) && exists n: nat :: Raises(p, from, n, body, home, y)
  }

  /** A catch(...) in `s` is reached by some exception, and with that one handled, or the
      one of its type in a typed handler that may rethrow, the same holds within handlers.
      `home` is the exception handled outside. */
  ghost predicate Live(p: Program, from: Origin, home: Option<Exc>, s: Stmt)
    decreases s
  {
    match s
    case Try(body, handlers) =>
      Live(p, from, home, body) &&
      forall i :: 0 <= i < |handlers| ==>
        if handlers[i].Catch? then Live(p, from, TypedHome(p, handlers[i].ty), handlers[i].block)
        else exists y :: ReachedBy(p, from, home, body, handlers, i, y) && Live(p, from, Some(y), handlers[i].block)
    case DefaultInit(expr) => Live(p, from, home, expr)
    case Other(children) => forall i :: 0 <= i < |children| ==> Live(p, from, home, children[i])
    case _ => true
  }

  ghost function TypedHome(p: Program, ty: TypeId): Option<Exc> {
    if Final(p, ty) then Some(Known(ty)) else None
  }

  ghost predicate LiveProgram(p: Program, from: Origin) {
    forall f, s :: f in p.functions && PartOf(p, f, s) ==> Live(p, from, None, s)
  }

  // ----- no catch(...) -----

  ghost predicate CatchAllFree(s: Stmt) {
    match s
    case Try(body, handlers) =>
      CatchAllFree(body) && forall i :: 0 <= i < |handlers| ==> handlers[i].Catch? && CatchAllFree(handlers[i].block)
    case DefaultInit(expr) => CatchAllFree(expr)
    case Other(children) => forall i :: 0 <= i < |children| ==> CatchAllFree(children[i])
    case _ => true
  }

  ghost predicate CatchAllFreeProgram(p: Program) {
    forall f, s :: f in p.functions && PartOf(p, f, s) ==> CatchAllFree(s)
  }

  lemma {:induction false} CatchAllFreeStmtIsLive(p: Program, from: Origin, home: Option<Exc>, s: Stmt)
    requires CatchAllFree(s)
    ensures Live(p, from, home, s)
    decreases s
  {
    match s
    case Try(body, handlers) =>
      CatchAllFreeStmtIsLive(p, from, home, body);
      forall i | 0 <= i < |handlers|
        ensures Live(p, from, TypedHome(p, handlers[i].ty), handlers[i].block)
      {
        CatchAllFreeStmtIsLive(p, from, TypedHome(p, handlers[i].ty), handlers[i].block);
      }
    case DefaultInit(expr) => CatchAllFreeStmtIsLive(p, from, home, expr);
    case Other(children) =>
      forall i | 0 <= i < |children|
        ensures Live(p, from, home, children[i])
      {
        CatchAllFreeStmtIsLive(p, from, home, children[i]);
      }
    case _ =>
  }

  /** Wherever foreign exceptions come from, or if there are none. */
  lemma CatchAllFreeIsLive(p: Program, from: Origin)
    requires CatchAllFreeProgram(p)
    ensures LiveProgram(p, from)
  {
    forall f, s | f in p.functions && PartOf(p, f, s)
      ensures Live(p, from, None, s)
    {
      CatchAllFreeStmtIsLive(p, from, None, s);
    }
  }

  // ----- a check on the syntax -----

  /** `y` gets out of `s`: something in `s`, or a function it calls, at most `n` calls deep,
      raises it, and each handler that takes it rethrows it. `home` is the exception handled
      outside. A walk over the syntax tells. */
  ghost predicate GetsOut(p: Program, from: Origin, n: nat, s: Stmt, home: Option<Exc>, y: Exc)
    decreases n, s
  {
    match s
    case Null => false
    case Throw(t) => y == Known(t) || RaisesUnvisited(from, y)
    case Rethrow => home == Some(y)
    case Try(body, handlers) =>
      GetsOut(p, from, n, body, home, y) &&
      forall i :: 0 <= i < |handlers| && TakenBy(p, handlers, i, y) ==>
        GetsOut(p, from, n, handlers[i].block, Some(y), y)
    case Call(callee) =>
      RaisesUnvisited(from, y) || (callee.Some? && n > 0 && GetsOutOfFunc(p, from, n - 1, callee.value, home, y))
    case Construct(ctor) => RaisesUnvisited(from, y) || (n > 0 && GetsOutOfFunc(p, from, n - 1, ctor, home, y))
    case DefaultInit(expr) => GetsOut(p, from, n, expr, home, y)
    case Other(children) => exists i :: 0 <= i < |children| && GetsOut(p, from, n, children[i], home, y)
  }

  ghost predicate GetsOutOfFunc(p: Program, from: Origin, n: nat, f: FuncId, home: Option<Exc>, y: Exc)
    decreases n
  {
    var fn := p.Func(f);
    if fn.body.Some? then
      GetsOut(p, from, n, fn.body.value, home, y) ||
      exists i :: 0 <= i < |fn.inits| && GetsOut(p, from, n, fn.inits[i], home, y)
    else
      if y.Known? then y.ty in fn.spec else !from.Nowhere?
  }

  /** For every catch(...) there is something that gets out of its try block and that no
      handler before it takes. */
  ghost predicate Awake(p: Program, from: Origin, n: nat, home: Option<Exc>, s: Stmt)
    decreases s
  {
    match s
    case Try(body, handlers) =>
      Awake(p, from, n, home, body) &&
      forall i :: 0 <= i < |handlers| ==>
        if handlers[i].Catch? then Awake(p, from, n, TypedHome(p, handlers[i].ty), handlers[i].block)
        else exists y :: TakenBy(p, handlers, i, y) && GetsOut(p, from, n, body, home, y) &&
                         Awake(p, from, n, Some(y), handlers[i].block)
    case DefaultInit(expr) => Awake(p, from, n, home, expr)
    case Other(children) => forall i :: 0 <= i < |children| ==> Awake(p, from, n, home, children[i])
    case _ => true
  }

  ghost predicate AwakeProgram(p: Program, from: Origin, n: nat) {
    forall f, s :: f in p.functions && PartOf(p, f, s) ==> Awake(p, from, n, None, s)
  }

  lemma FirstTaker(p: Program, handlers: seq<Handler>, y: Exc) returns (i: nat)
    ensures TakenBy(p, handlers, i, y) || (i == |handlers| && Uncaught(p, handlers, y))
  {
    i := 0;
    while i < |handlers| && !Takes(p, handlers[i], y)
      invariant i <= |handlers| && forall j :: 0 <= j < i ==> !Takes(p, handlers[j], y)
    {
      i := i + 1;
    }
  }

  lemma {:induction false} GetsOutIsRaised(p: Program, from: Origin, n: nat, s: Stmt, home: Option<Exc>, y: Exc)
    requires GetsOut(p, from, n, s, home, y)
    ensures Raises(p, from, n, s, home, y)
    decreases n, s
  {
    match s
    case Try(body, handlers) =>
      GetsOutIsRaised(p, from, n, body, home, y);
      var i := FirstTaker(p, handlers, y);
      if i < |handlers| {
        GetsOutIsRaised(p, from, n, handlers[i].block, Some(y), y);
      }
    case Call(callee) =>
      if !RaisesUnvisited(from, y) {
        FuncGetsOutIsRaised(p, from, n - 1, callee.value, home, y);
      }
    case Construct(ctor) =>
      if !RaisesUnvisited(from, y) {
        FuncGetsOutIsRaised(p, from, n - 1, ctor, home, y);
      }
    case DefaultInit(expr) => GetsOutIsRaised(p, from, n, expr, home, y);
    case Other(children) =>
      var i :| 0 <= i < |children| && GetsOut(p, from, n, children[i], home, y);
      GetsOutIsRaised(p, from, n, children[i], home, y);
    case _ =>
  }

  lemma {:induction false} FuncGetsOutIsRaised(p: Program, from: Origin, n: nat, f: FuncId, home: Option<Exc>, y: Exc)
    requires GetsOutOfFunc(p, from, n, f, home, y)
    ensures FuncRaises(p, from, n, f, home, y)
    decreases n
  {
    var fn := p.Func(f);
    if fn.body.Some? {
      if GetsOut(p, from, n, fn.body.value, home, y) {
        GetsOutIsRaised(p, from, n, fn.body.value, home, y);
      } else {
        var i :| 0 <= i < |fn.inits| && GetsOut(p, from, n, fn.inits[i], home, y);
        GetsOutIsRaised(p, from, n, fn.inits[i], home, y);
      }
    }
  }

  lemma {:induction false} AwakeStmtIsLive(p: Program, from: Origin, n: nat, home: Option<Exc>, s: Stmt)
    requires Awake(p, from, n, home, s)
    ensures Live(p, from, home, s)
    decreases s
  {
    match s
    case Try(body, handlers) =>
      AwakeStmtIsLive(p, from, n, home, body);
      forall i | 0 <= i < |handlers|
        ensures if handlers[i].Catch? then Live(p, from, TypedHome(p, handlers[i].ty), handlers[i].block)
                else exists y :: ReachedBy(p, from, home, body, handlers, i, y) &&
                                 Live(p, from, Some(y), handlers[i].block)
      {
        match handlers[i]
        case Catch(ty, block) => AwakeStmtIsLive(p, from, n, TypedHome(p, ty), block);
        case CatchAll(block) =>
          var y :| TakenBy(p, handlers, i, y) && GetsOut(p, from, n, body, home, y) &&
                   Awake(p, from, n, Some(y), block);
          GetsOutIsRaised(p, from, n, body, home, y);
          AwakeStmtIsLive(p, from, n, Some(y), block);
          assert ReachedBy(p, from, home, body, handlers, i, y);
      }
    case DefaultInit(expr) => AwakeStmtIsLive(p, from, n, home, expr);
    case Other(children) =>
      forall i | 0 <= i < |children|
        ensures Live(p, from, home, children[i])
      {
        AwakeStmtIsLive(p, from, n, home, children[i]);
      }
    case _ =>
  }

  /** Wherever foreign exceptions come from: a throw in the try block will do, or, unless
      they come from nowhere, a call of a function without a body. */
  lemma AwakeIsLive(p: Program, from: Origin, n: nat)
    requires AwakeProgram(p, from, n)
    ensures LiveProgram(p, from)
  {
    forall f, s | f in p.functions && PartOf(p, f, s)
      ensures Live(p, from, None, s)
    {
      AwakeStmtIsLive(p, from, n, None, s);
    }
  }

  // ----- the condition is sharp -----

  /** What the block of a catch(...) throws is always reported; it may be raised iff the
      try block may raise something. */
  lemma CatchAllIsExactIff(p: Program, from: Origin, depth: nat, stack: set<FuncId>, body: Stmt, t: TypeId)
    requires depth > 1
    ensures var s := Try(body, [CatchAll(Throw(t))]);
            t in ThrowsStmt(p, depth, stack, {}, s).thrown &&
            (StmtMayRaise(p, from, s, Known(t)) <==> exists x :: StmtMayRaise(p, from, body, x))
  {
    var handlers := [CatchAll(Throw(t))];
    var s := Try(body, handlers);
    var u := ThrowsStmt(p, depth - 1, stack, {}, body).thrown;
    TryReports(p, depth - 1, stack, {}, body, handlers, Known(t));
    assert Analysed(p, handlers, 0, u) && Reported(BlockInfo(p, depth - 1, stack, handlers, 0, u), Known(t));
    if n: nat :| Raises(p, from, n, s, None, Known(t)) {
      var handled, i, y := WhichHandler(p, from, n, body, handlers, None, Known(t));
      assert StmtMayRaise(p, from, body, y);
    }
    if x :| StmtMayRaise(p, from, body, x) {
      var n: nat :| Raises(p, from, n, body, None, x);
      assert TakenBy(p, handlers, 0, x) && Raises(p, from, n, handlers[0].block, Some(x), Known(t));
      assert Raises(p, from, n, s, None, Known(t));
    }
  }

  /** Each catch(...) of `s` that has typed handlers before it lets foreign exceptions
      through. */
  ghost predicate Loud(p: Program, s: Stmt) {
    match s
    case Try(body, handlers) =>
      Loud(p, body) &&
      forall i :: 0 <= i < |handlers| && handlers[i].CatchAll? ==>
        Loud(p, handlers[i].block) &&
        (i > 0 ==> GetsOut(p, Unvisited, 0, handlers[i].block, Some(Foreign), Foreign))
    case DefaultInit(expr) => Loud(p, expr)
    case Other(children) => forall i :: 0 <= i < |children| ==> Loud(p, children[i])
    case _ => true
  }

  /** Whatever is raised, a foreign exception gets out too. */
  lemma {:induction false} ForeignGetsOutToo(p: Program, n: nat, s: Stmt, cur: Option<Exc>, home: Option<Exc>, x: Exc)
    requires Loud(p, s) && Raises(p, Unvisited, n, s, cur, x) && (cur.Some? ==> home == Some(Foreign))
    ensures GetsOut(p, Unvisited, 0, s, home, Foreign)
    decreases s
  {
    match s
    case Try(body, handlers) =>
      var handled, i, y := WhichHandler(p, Unvisited, n, body, handlers, cur, x);
      ForeignGetsOutToo(p, n, body, cur, home, if handled then y else x);
      if |handlers| > 0 && handlers[0].CatchAll? {
        assert Takes(p, handlers[0], if handled then y else x) && i == 0;
        ForeignGetsOutToo(p, n, handlers[0].block, Some(y), Some(Foreign), x);
      }
    case DefaultInit(expr) => ForeignGetsOutToo(p, n, expr, cur, home, x);
    case Other(children) =>
      var i :| 0 <= i < |children| && Raises(p, Unvisited, n, children[i], cur, x);
      ForeignGetsOutToo(p, n, children[i], cur, home, x);
    case _ =>
  }

  /** And where operands and arguments may raise, the syntax of a try block alone tells
      whether it may raise something. */
  lemma GetsOutIff(p: Program, s: Stmt)
    requires Loud(p, s)
    ensures GetsOut(p, Unvisited, 0, s, None, Foreign) <==> exists x :: StmtMayRaise(p, Unvisited, s, x)
  {
    if GetsOut(p, Unvisited, 0, s, None, Foreign) {
      GetsOutIsRaised(p, Unvisited, 0, s, None, Foreign);
      assert StmtMayRaise(p, Unvisited, s, Foreign);
    }
    if x :| StmtMayRaise(p, Unvisited, s, x) {
      var n: nat :| Raises(p, Unvisited, n, s, None, x);
      ForeignGetsOutToo(p, n, s, None, None, x);
    }
  }
}
