/** Where the analyzer and the semantics part on account of the cut at recursive calls, and
    of handlers that nothing reaches: why the exactness results ask for guarded and for
    live programs. */
module AnalyzerLimits {
  import opened Basics
  import opened Ast
  import opened Graphs
  import opened CallGraph
  import opened ThrowAnalysis
  import opened ThrowLevels
  import opened HandlerDispatch
  import opened RaiseSemantics
  import opened GuardedPrograms
  import opened LiveHandlers
  import opened ThrowReports
  import opened CallCycles

  // ----- recursion through a try block -----

  /** void f() { try { f(); } catch (C) { block }  rest } */
  function Retrying(f: FuncId, c: TypeId, block: Stmt, rest: Stmt, derives: set<(TypeId, TypeId)>): Program {
    Program(map[f := Function(Some(Other([Try(Call(Some(f)), [Catch(c, block)]), rest])), [], [])], derives, map[])
  }

  /** No handlers, calls and rethrow. */
  ghost predicate Plain(s: Stmt) {
    match s
    case Null => true
    case Throw(_) => true
    case DefaultInit(expr) => Plain(expr)
    case Other(children) => forall i :: 0 <= i < |children| ==> Plain(children[i])
    case _ => false
  }

  lemma {:induction false} PlainRaises(p: Program, n: nat, s: Stmt, cur: Option<Exc>, x: Exc)
    requires Plain(s)
    ensures Raises(p, Nowhere, n, s, cur, x) <==> ThrowsItself(s, x)
  {
    match s
    case DefaultInit(expr) => PlainRaises(p, n, expr, cur, x);
    case Other(children) =>
      forall i | 0 <= i < |children|
        ensures Raises(p, Nowhere, n, children[i], cur, x) <==> ThrowsItself(children[i], x)
      {
        PlainRaises(p, n, children[i], cur, x);
      }
    case _ =>
  }

  lemma {:induction false} PlainParts(p: Program, s: Stmt, g: FuncId)
    requires Plain(s)
    ensures Tame(p, true, s, false) && HandlerFree(s) && !CallsTo(s, g)
  {
    match s
    case DefaultInit(expr) => PlainParts(p, expr, g);
    case Other(children) =>
      forall i | 0 <= i < |children|
        ensures Tame(p, true, children[i], false) && HandlerFree(children[i]) && !CallsTo(children[i], g)
      {
        PlainParts(p, children[i], g);
      }
    case _ =>
  }

  // What is reported: the inner call is cut off with an empty result, so the handler is
  // never analysed.

  lemma RetryingTry(p: Program, f: FuncId, depth: nat, stack: set<FuncId>, s: Stmt, c: TypeId, block: Stmt, t: TypeId)
    requires f in stack && s == Try(Call(Some(f)), [Catch(c, block)])
    ensures !Reported(ThrowsStmt(p, depth, stack, {}, s), Known(t))
  {
    if depth > 0 {
      assert ThrowsStmt(p, depth - 1, stack, {}, s.body).thrown == {};
      TryReports(p, depth - 1, stack, {}, s.body, s.handlers, Known(t));
    }
  }

  /** A walk of `f` sees of `rest` what a walk of `rest` alone sees. */
  lemma RetryingReport(f: FuncId, c: TypeId, block: Stmt, rest: Stmt, derives: set<(TypeId, TypeId)>,
                       depth: nat, t: TypeId)
    ensures var p := Retrying(f, c, block, rest, derives);
            t in ThrowsFunc(p, depth + 2, {}, f).thrown <==> Reported(ThrowsStmt(p, depth, {f}, {}, rest), Known(t))
  {
    var p := Retrying(f, c, block, rest, derives);
    var s := p.Func(f).body.value;
    assert {} + {f} == {f};
    assert ThrowsFunc(p, depth + 2, {}, f) == ThrowsStmt(p, depth + 1, {f}, {}, s);
    RetryingTry(p, f, depth, {f}, s.children[0], c, block, t);
    ChildrenReport(p, depth, {f}, {}, s.children, Known(t));
    assert s.children[1] == rest;
  }

  lemma NothingElseReported(f: FuncId, c: TypeId, block: Stmt, rest: Stmt, derives: set<(TypeId, TypeId)>,
                            depth: nat, t: TypeId)
    requires Plain(rest) && t in ThrowsFunc(Retrying(f, c, block, rest, derives), depth, {}, f).thrown
    ensures ThrowsItself(rest, Known(t))
  {
    var p := Retrying(f, c, block, rest, derives);
    FuncMonotone(p, 0, 0, depth, depth + 2, {}, {}, f);
    RetryingReport(f, c, block, rest, derives, depth, t);
    PlainParts(p, rest, f);
    var g, _ := StmtSource(p, depth, {f}, rest, Known(t));
    PlainParts(p, rest, g);
  }

  lemma RestIsReported(f: FuncId, c: TypeId, block: Stmt, rest: Stmt, derives: set<(TypeId, TypeId)>,
                       k: nat, h: nat, max: int, t: TypeId)
    requires Plain(rest) && ThrowsItself(rest, Known(t))
    requires EnoughLevels(Retrying(f, c, block, rest, derives), f, k, h, max)
    ensures t in ThrowsFunc(Retrying(f, c, block, rest, derives), LevelsLeft(max, 0), {}, f).thrown
  {
    var p := Retrying(f, c, block, rest, derives);
    PlainParts(p, rest, f);
    var depth := OwnThrowReported(p, {f}, rest, Known(t));
    RetryingReport(f, c, block, rest, derives, depth, t);
    var top := if depth + 2 < max then max else depth + 2;
    RaisingTheLevelOnlyAdds(p, depth + 2, top, {}, {}, f);
    LevelStabilises(p, k, h, max, top, f);
  }

  // What is raised: what `rest` throws, and what the block throws if the handler takes some
  // of that.

  ghost predicate Takeable(p: Program, c: TypeId, rest: Stmt) {
    exists a :: ThrowsItself(rest, Known(a)) && p.Catches(c, a)
  }

  ghost predicate RetryingRaises(p: Program, c: TypeId, block: Stmt, rest: Stmt, x: Exc) {
    ThrowsItself(rest, x) || (Takeable(p, c, rest) && ThrowsItself(block, x))
  }

  lemma {:induction false} NothingElseRaised(f: FuncId, c: TypeId, block: Stmt, rest: Stmt,
                                             derives: set<(TypeId, TypeId)>, n: nat, cur: Option<Exc>, x: Exc)
    requires Plain(block) && Plain(rest)
    requires FuncRaises(Retrying(f, c, block, rest, derives), Nowhere, n, f, cur, x)
    ensures RetryingRaises(Retrying(f, c, block, rest, derives), c, block, rest, x)
    decreases n
  {
    var p := Retrying(f, c, block, rest, derives);
    var s := p.Func(f).body.value;
    var i :| 0 <= i < 2 && Raises(p, Nowhere, n, s.children[i], cur, x);
    if i == 0 {
      var handled, j, y := WhichHandler(p, Nowhere, n, Call(Some(f)), [Catch(c, block)], cur, x);
      NothingElseRaised(f, c, block, rest, derives, n - 1, cur, if handled then y else x);
      if handled {
        PlainRaises(p, n, block, Some(y), x);
      }
    } else {
      PlainRaises(p, n, rest, cur, x);
    }
  }

  lemma RestIsRaised(f: FuncId, c: TypeId, block: Stmt, rest: Stmt, derives: set<(TypeId, TypeId)>, n: nat, x: Exc)
    requires Plain(rest) && ThrowsItself(rest, x)
    ensures FuncRaises(Retrying(f, c, block, rest, derives), Nowhere, n, f, None, x)
  {
    var p := Retrying(f, c, block, rest, derives);
    var s := p.Func(f).body.value;
    PlainRaises(p, n, rest, None, x);
    assert Raises(p, Nowhere, n, s.children[1], None, x) && Raises(p, Nowhere, n, s, None, x);
  }

  lemma BlockIsRaised(f: FuncId, c: TypeId, block: Stmt, rest: Stmt, derives: set<(TypeId, TypeId)>, a: TypeId, x: Exc)
    requires Plain(block) && Plain(rest) && ThrowsItself(rest, Known(a)) && ThrowsItself(block, x)
    requires Retrying(f, c, block, rest, derives).Catches(c, a)
    ensures FuncRaises(Retrying(f, c, block, rest, derives), Nowhere, 1, f, None, x)
  {
    var p := Retrying(f, c, block, rest, derives);
    var s := p.Func(f).body.value;
    var tried := s.children[0];
    RestIsRaised(f, c, block, rest, derives, 0, Known(a));
    assert Raises(p, Nowhere, 1, tried.body, None, Known(a));
    PlainRaises(p, 1, block, Some(Known(a)), x);
    assert TakenBy(p, tried.handlers, 0, Known(a)) && Raises(p, Nowhere, 1, tried.handlers[0].block, Some(Known(a)), x);
    assert Raises(p, Nowhere, 1, tried, None, x) && Raises(p, Nowhere, 1, s, None, x);
  }

  // What the guard says of such programs.

  lemma {:induction false} OnlyRethrowsThrowsNothing(s: Stmt, x: Exc)
    requires OnlyRethrows(s)
    ensures !ThrowsItself(s, x)
  {
    match s
    case DefaultInit(expr) => OnlyRethrowsThrowsNothing(expr, x);
    case Other(children) =>
      forall i | 0 <= i < |children|
        ensures !ThrowsItself(children[i], x)
      {
        OnlyRethrowsThrowsNothing(children[i], x);
      }
    case _ =>
  }

  /** They are tame, and not guarded if the block throws anything. */
  lemma RetryingIsTame(f: FuncId, c: TypeId, block: Stmt, rest: Stmt, derives: set<(TypeId, TypeId)>, b: TypeId)
    requires Plain(block) && Plain(rest) && ThrowsItself(block, Known(b))
    ensures var p := Retrying(f, c, block, rest, derives); TameProgram(p, true) && !GuardedProgram(p)
  {
    var p := Retrying(f, c, block, rest, derives);
    var s := p.Func(f).body.value;
    var tried := s.children[0];
    PlainParts(p, block, f);
    PlainParts(p, rest, f);
    forall may
      ensures Tame(p, true, block, may)
    {
      TameInAll(p, true, block, false, may);
    }
    assert Tame(p, true, tried.body, false) && Tame(p, true, tried, false) && Tame(p, true, s.children[1], false);
    ReachesSelf(CallEdge(p), f);
    assert CallsTo(tried.body, f) && !Leaves(p, tried.body, f);
    if OnlyRethrows(block) {
      OnlyRethrowsThrowsNothing(block, Known(b));
    }
    assert tried.handlers[0].Catch? && !Bland(p, tried.handlers);
    assert !Guarded(p, tried, f) && !Guarded(p, s, f) && PartOf(p, f, s);
  }

  /** At every level such a program misses each type that the block throws and `rest` does
      not, if the handler takes some type that `rest` throws. */
  lemma CycleThroughHandlerIsMissed(f: FuncId, c: TypeId, block: Stmt, rest: Stmt, derives: set<(TypeId, TypeId)>,
                                    depth: nat, b: TypeId)
    requires Plain(block) && Plain(rest) && ThrowsItself(block, Known(b)) && !ThrowsItself(rest, Known(b))
    requires Takeable(Retrying(f, c, block, rest, derives), c, rest)
    ensures var p := Retrying(f, c, block, rest, derives);
            b !in ThrowsFunc(p, depth, {}, f).thrown && MayRaise(p, Nowhere, f, Known(b)) &&
            TameProgram(p, true) && !GuardedProgram(p)
  {
    var p := Retrying(f, c, block, rest, derives);
    RetryingIsTame(f, c, block, rest, derives, b);
    var a :| ThrowsItself(rest, Known(a)) && p.Catches(c, a);
    BlockIsRaised(f, c, block, rest, derives, a, Known(b));
    if b in ThrowsFunc(p, depth, {}, f).thrown {
      NothingElseReported(f, c, block, rest, derives, depth, b);
    }
  }

  /** And that is all: with enough levels, recursion through a try block is reported exactly
      iff the handler takes nothing that `rest` throws, or its block throws nothing that
      `rest` does not. So an unguarded program may well be exact: if `rest` throws nothing,
      it is, whatever the handler does. */
  lemma RecursionIsExactIff(f: FuncId, c: TypeId, block: Stmt, rest: Stmt, derives: set<(TypeId, TypeId)>,
                            k: nat, h: nat, max: int)
    requires Plain(block) && Plain(rest) && EnoughLevels(Retrying(f, c, block, rest, derives), f, k, h, max)
    ensures var p := Retrying(f, c, block, rest, derives);
            var report := ThrowsFunc(p, LevelsLeft(max, 0), {}, f).thrown;
            (forall t :: t in report <==> MayRaise(p, Nowhere, f, Known(t))) <==>
            (Takeable(p, c, rest) ==> forall t :: ThrowsItself(block, Known(t)) ==> ThrowsItself(rest, Known(t)))
  {
    var p := Retrying(f, c, block, rest, derives);
    forall t
      ensures t in ThrowsFunc(p, LevelsLeft(max, 0), {}, f).thrown <==> ThrowsItself(rest, Known(t))
    {
      if t in ThrowsFunc(p, LevelsLeft(max, 0), {}, f).thrown {
        NothingElseReported(f, c, block, rest, derives, LevelsLeft(max, 0), t);
      }
      if ThrowsItself(rest, Known(t)) {
        RestIsReported(f, c, block, rest, derives, k, h, max, t);
      }
    }
    forall t
      ensures MayRaise(p, Nowhere, f, Known(t)) <==> RetryingRaises(p, c, block, rest, Known(t))
    {
      RetryingMayRaise(f, c, block, rest, derives, Known(t));
    }
  }

  lemma RetryingMayRaise(f: FuncId, c: TypeId, block: Stmt, rest: Stmt, derives: set<(TypeId, TypeId)>, x: Exc)
    requires Plain(block) && Plain(rest)
    ensures var p := Retrying(f, c, block, rest, derives);
            MayRaise(p, Nowhere, f, x) <==> RetryingRaises(p, c, block, rest, x)
  {
    var p := Retrying(f, c, block, rest, derives);
    if n: nat :| FuncRaises(p, Nowhere, n, f, None, x) {
      NothingElseRaised(f, c, block, rest, derives, n, None, x);
    }
    if ThrowsItself(rest, x) {
      RestIsRaised(f, c, block, rest, derives, 0, x);
    } else if RetryingRaises(p, c, block, rest, x) {
      var a :| ThrowsItself(rest, Known(a)) && p.Catches(c, a);
      BlockIsRaised(f, c, block, rest, derives, a, x);
    }
  }

  // ----- a catch(...) that nothing reaches -----

  /** A handler before the `k`th one runs and raises `x`. */
  ghost predicate EarlierRaises(p: Program, from: Origin, body: Stmt, handlers: seq<Handler>, k: nat, x: Exc) {
    exists n: nat, j, y :: 0 <= j < k && TakenBy(p, handlers, j, y) && Raises(p, from, n, body, None, y) &&
                           Raises(p, from, n, handlers[j].block, Some(y), x)
  }

  lemma {:induction false} ItselfIsRaised(p: Program, from: Origin, n: nat, s: Stmt, cur: Option<Exc>, x: Exc)
    requires ThrowsItself(s, x)
    ensures Raises(p, from, n, s, cur, x)
  {
    match s
    case Throw(_) =>
    case DefaultInit(expr) => ItselfIsRaised(p, from, n, expr, cur, x);
    case Other(children) =>
      var i :| 0 <= i < |children| && ThrowsItself(children[i], x);
      ItselfIsRaised(p, from, n, children[i], cur, x);
  }

  lemma CatchAllBlockIsReported(p: Program, d: nat, depth: nat, stack: set<FuncId>, caught: set<TypeId>,
                                body: Stmt, handlers: seq<Handler>, k: nat, t: TypeId)
    requires k < |handlers| && handlers[k].CatchAll? && d <= depth
    requires Reported(ThrowsStmt(p, d, stack, {}, handlers[k].block), Known(t))
    ensures Reported(ThrowsStmt(p, depth + 1, stack, caught, Try(body, handlers)), Known(t))
  {
    var u := ThrowsStmt(p, depth, stack, caught, body).thrown;
    ReportsMore(p, d, depth, stack, {}, RethrowTypes(p, handlers, k, u), handlers[k].block, Known(t));
    TryReports(p, depth, stack, caught, body, handlers, Known(t));
    assert Analysed(p, handlers, k, u) && Reported(BlockInfo(p, depth, stack, handlers, k, u), Known(t));
  }

  /** What the block of a catch(...) throws is reported at every depth from some on, whatever
      the try block and the handlers before it. It may be raised iff something reaches the
      catch(...), or a handler before it raises the same. */
  lemma UnreachedBlockIsExactIff(p: Program, from: Origin, stack: set<FuncId>, caught: set<TypeId>,
                                 body: Stmt, handlers: seq<Handler>, k: nat, t: TypeId)
    returns (depth: nat)
    requires |handlers| == k + 1 && handlers[k].CatchAll?
    requires HandlerFree(handlers[k].block) && ThrowsItself(handlers[k].block, Known(t))
    ensures forall d :: depth < d ==> t in ThrowsStmt(p, d, stack, caught, Try(body, handlers)).thrown
    ensures StmtMayRaise(p, from, Try(body, handlers), Known(t)) <==>
              (exists y :: ReachedBy(p, from, None, body, handlers, k, y)) ||
              EarlierRaises(p, from, body, handlers, k, Known(t))
  {
    var s := Try(body, handlers);
    depth := OwnThrowReported(p, stack, handlers[k].block, Known(t));
    forall d | depth < d
      ensures Reported(ThrowsStmt(p, d, stack, caught, s), Known(t))
    {
      CatchAllBlockIsReported(p, depth, d - 1, stack, caught, body, handlers, k, t);
    }
    if n: nat :| Raises(p, from, n, s, None, Known(t)) {
      var handled, j, y := WhichHandler(p, from, n, body, handlers, None, Known(t));
      assert Takes(p, handlers[k], Known(t));
      assert j < k || ReachedBy(p, from, None, body, handlers, k, y);
    }
    if y :| ReachedBy(p, from, None, body, handlers, k, y) {
      var n: nat :| Raises(p, from, n, body, None, y);
      ItselfIsRaised(p, from, n, handlers[k].block, Some(y), Known(t));
      assert Raises(p, from, n, s, None, Known(t));
    }
    if EarlierRaises(p, from, body, handlers, k, Known(t)) {
      var n: nat, j, y :| 0 <= j < k && TakenBy(p, handlers, j, y) && Raises(p, from, n, body, None, y) &&
                          Raises(p, from, n, handlers[j].block, Some(y), Known(t));
      assert Raises(p, from, n, s, None, Known(t));
    }
  }
}
