/** What a statement may raise, one exception at a time.

    An exception is of a known type, or foreign: of a type that no typed handler names,
    raised by code the analyzer does not look into. Control flow is not tracked: any child
    of a statement may be the one that raises. `n` bounds the depth of calls; `cur` is the
    exception being handled, which a bare `throw;` raises again, also from a function
    called by the handler. */
module RaiseSemantics {
  import opened Basics
  import opened Ast
  import opened CallGraph

  datatype Exc = Known(ty: TypeId) | Foreign

  /** Where foreign exceptions come from: nowhere; functions without a body; or also the
      operands, arguments and indirect callees that the analyzer does not visit. */
  datatype Origin = Nowhere | External | Unvisited

  predicate Takes(p: Program, h: Handler, x: Exc) {
    h.CatchAll? || (x.Known? && p.Catches(h.ty, x.ty))
  }

  /** Handler `i` is the one that runs for `x`. */
  ghost predicate TakenBy(p: Program, handlers: seq<Handler>, i: int, x: Exc) {
    0 <= i < |handlers| && Takes(p, handlers[i], x) &&
    forall j :: 0 <= j < i ==> !Takes(p, handlers[j], x)
  }

  ghost predicate Uncaught(p: Program, handlers: seq<Handler>, x: Exc) {
    forall j :: 0 <= j < |handlers| ==> !Takes(p, handlers[j], x)
  }

  /** The part of a throw, call or construction that the analyzer does not visit. */
  predicate RaisesUnvisited(from: Origin, x: Exc) {
    from.Unvisited? && x.Foreign?
  }

  ghost predicate Raises(p: Program, from: Origin, n: nat, s: Stmt, cur: Option<Exc>, x: Exc)
    decreases n, s
  {
    match s
    case Null => false
    case Throw(t) => x == Known(t) || RaisesUnvisited(from, x)
    case Rethrow => cur == Some(x)
    case Try(body, handlers) =>
      (Raises(p, from, n, body, cur, x) && Uncaught(p, handlers, x)) ||
      exists i, y ::
        TakenBy(p, handlers, i, y) && Raises(p, from, n, body, cur, y) &&
        Raises(p, from, n, handlers[i].block, Some(y), x)
    case Call(callee) =>
      RaisesUnvisited(from, x) || (callee.Some? && n > 0 && FuncRaises(p, from, n - 1, callee.value, cur, x))
    case Construct(ctor) => RaisesUnvisited(from, x) || (n > 0 && FuncRaises(p, from, n - 1, ctor, cur, x))
    case DefaultInit(expr) => Raises(p, from, n, expr, cur, x)
    case Other(children) =>
      exists i :: 0 <= i < |children| && Raises(p, from, n, children[i], cur, x)
  }

  ghost predicate FuncRaises(p: Program, from: Origin, n: nat, f: FuncId, cur: Option<Exc>, x: Exc)
    decreases n
  {
    var fn := p.Func(f);
    if fn.body.Some? then
      Raises(p, from, n, fn.body.value, cur, x) ||
      exists i :: 0 <= i < |fn.inits| && Raises(p, from, n, fn.inits[i], cur, x)
    else
      if x.Known? then x.ty in fn.spec else !from.Nowhere?
  }

  /** A call of `f`, from outside any handler, may raise `x`. */
  ghost predicate MayRaise(p: Program, from: Origin, f: FuncId, x: Exc) {
    exists n: nat :: FuncRaises(p, from, n, f, None, x)
  }

  ghost predicate StmtMayRaise(p: Program, from: Origin, s: Stmt, x: Exc) {
    exists n: nat :: Raises(p, from, n, s, None, x)
  }

  /** Either no handler takes what the try block raises, or handler `i` takes `y`. */
  lemma WhichHandler(p: Program, from: Origin, n: nat, body: Stmt, handlers: seq<Handler>, cur: Option<Exc>, x: Exc)
    returns (handled: bool, i: nat, y: Exc)
    requires Raises(p, from, n, Try(body, handlers), cur, x)
    ensures !handled ==> Raises(p, from, n, body, cur, x) && Uncaught(p, handlers, x)
    ensures handled ==> TakenBy(p, handlers, i, y) && Raises(p, from, n, body, cur, y) &&
                        Raises(p, from, n, handlers[i].block, Some(y), x)
  {
    handled := !(Raises(p, from, n, body, cur, x) && Uncaught(p, handlers, x));
    i, y := 0, x;
    if handled {
      i, y :| TakenBy(p, handlers, i, y) && Raises(p, from, n, body, cur, y) &&
              Raises(p, from, n, handlers[i].block, Some(y), x);
    }
  }

  // ----- tame programs -----

  /** No other type derives from `ty`: what `catch (ty)` takes is of that type. */
  ghost predicate Final(p: Program, ty: TypeId) {
    forall d :: (d, ty) in p.derives ==> d == ty
  }

  /** Handlers under which a bare `throw;` is tame: typed ones of a final type, and
      catch(...) if `all`. */
  ghost predicate MayRethrow(p: Program, all: bool, h: Handler) {
    match h
    case CatchAll(_) => all
    case Catch(ty, _) => Final(p, ty)
  }

  /** Every bare `throw;` has one of those as its innermost handler (`may` says whether it
      is outside `s`), and a catch(...) comes last, as the language demands. */
  ghost predicate Tame(p: Program, all: bool, s: Stmt, may: bool) {
    match s
    case Rethrow => may
    case Try(body, handlers) =>
      Tame(p, all, body, may) &&
      (forall i :: 0 <= i < |handlers| ==> Tame(p, all, handlers[i].block, MayRethrow(p, all, handlers[i]))) &&
      CatchAllLast(handlers)
    case DefaultInit(expr) => Tame(p, all, expr, may)
    case Other(children) => forall i :: 0 <= i < |children| ==> Tame(p, all, children[i], may)
    case _ => true
  }

  ghost predicate CatchAllLast(handlers: seq<Handler>) {
    forall i :: 0 <= i < |handlers| - 1 ==> handlers[i].Catch?
  }

  ghost predicate TameFunc(p: Program, all: bool, fn: Function) {
    fn.body.Some? ==>
      Tame(p, all, fn.body.value, false) && forall i :: 0 <= i < |fn.inits| ==> Tame(p, all, fn.inits[i], false)
  }

  ghost predicate TameProgram(p: Program, all: bool) {
    forall f :: f in p.functions ==> TameFunc(p, all, p.functions[f])
  }

  lemma PartIsTame(p: Program, all: bool, g: FuncId, s: Stmt)
    requires TameProgram(p, all) && PartOf(p, g, s)
    ensures Tame(p, all, s, false)
  {
    assert g in p.functions && TameFunc(p, all, p.functions[g]);
  }

  // ----- two facts about the semantics -----

  lemma {:induction false} RaisesDeeper(p: Program, from: Origin, n: nat, m: nat, s: Stmt, cur: Option<Exc>, x: Exc)
    requires n <= m && Raises(p, from, n, s, cur, x)
    ensures Raises(p, from, m, s, cur, x)
    decreases n, s
  {
    match s
    case Throw(_) =>
    case Rethrow =>
    case Try(body, handlers) =>
      var handled, i, y := WhichHandler(p, from, n, body, handlers, cur, x);
      if !handled {
        RaisesDeeper(p, from, n, m, body, cur, x);
      } else {
        RaisesDeeper(p, from, n, m, body, cur, y);
        RaisesDeeper(p, from, n, m, handlers[i].block, Some(y), x);
      }
    case Call(callee) =>
      if !RaisesUnvisited(from, x) {
        FuncRaisesDeeper(p, from, n - 1, m - 1, callee.value, cur, x);
      }
    case Construct(ctor) =>
      if !RaisesUnvisited(from, x) {
        FuncRaisesDeeper(p, from, n - 1, m - 1, ctor, cur, x);
      }
    case DefaultInit(expr) => RaisesDeeper(p, from, n, m, expr, cur, x);
    case Other(children) =>
      var i :| 0 <= i < |children| && Raises(p, from, n, children[i], cur, x);
      RaisesDeeper(p, from, n, m, children[i], cur, x);
  }

  lemma {:induction false} FuncRaisesDeeper(p: Program, from: Origin, n: nat, m: nat, f: FuncId,
                                            cur: Option<Exc>, x: Exc)
    requires n <= m && FuncRaises(p, from, n, f, cur, x)
    ensures FuncRaises(p, from, m, f, cur, x)
    decreases n
  {
    var fn := p.Func(f);
    if fn.body.Some? {
      if Raises(p, from, n, fn.body.value, cur, x) {
        RaisesDeeper(p, from, n, m, fn.body.value, cur, x);
      } else {
        var i :| 0 <= i < |fn.inits| && Raises(p, from, n, fn.inits[i], cur, x);
        RaisesDeeper(p, from, n, m, fn.inits[i], cur, x);
      }
    }
  }

  /** Outside of handlers a tame statement does not look at the handled exception. */
  lemma {:induction false} HandledIsIrrelevant(p: Program, from: Origin, n: nat, s: Stmt,
                                               cur: Option<Exc>, other: Option<Exc>, x: Exc)
    requires TameProgram(p, true) && Tame(p, true, s, false) && Raises(p, from, n, s, cur, x)
    ensures Raises(p, from, n, s, other, x)
    decreases n, s
  {
    match s
    case Throw(_) =>
    case Try(body, handlers) =>
      var handled, i, y := WhichHandler(p, from, n, body, handlers, cur, x);
      HandledIsIrrelevant(p, from, n, body, cur, other, if handled then y else x);
    case Call(callee) =>
      if !RaisesUnvisited(from, x) {
        FuncHandledIsIrrelevant(p, from, n - 1, callee.value, cur, other, x);
      }
    case Construct(ctor) =>
      if !RaisesUnvisited(from, x) {
        FuncHandledIsIrrelevant(p, from, n - 1, ctor, cur, other, x);
      }
    case DefaultInit(expr) => HandledIsIrrelevant(p, from, n, expr, cur, other, x);
    case Other(children) =>
      var i :| 0 <= i < |children| && Raises(p, from, n, children[i], cur, x);
      HandledIsIrrelevant(p, from, n, children[i], cur, other, x);
  }

  lemma {:induction false} FuncHandledIsIrrelevant(p: Program, from: Origin, n: nat, f: FuncId,
                                                   cur: Option<Exc>, other: Option<Exc>, x: Exc)
    requires TameProgram(p, true) && FuncRaises(p, from, n, f, cur, x)
    ensures FuncRaises(p, from, n, f, other, x)
    decreases n
  {
    var fn := p.Func(f);
    if fn.body.Some? {
      if Raises(p, from, n, fn.body.value, cur, x) {
        HandledIsIrrelevant(p, from, n, fn.body.value, cur, other, x);
      } else {
        var i :| 0 <= i < |fn.inits| && Raises(p, from, n, fn.inits[i], cur, x);
        HandledIsIrrelevant(p, from, n, fn.inits[i], cur, other, x);
      }
    }
  }

  /** What is tame without a bare `throw;` in catch(...) is tame with it. */
  lemma {:induction false} TameInAll(p: Program, all: bool, s: Stmt, may: bool, more: bool)
    requires Tame(p, all, s, may) && (may ==> more)
    ensures Tame(p, true, s, more)
  {
    match s
    case Try(body, handlers) =>
      TameInAll(p, all, body, may, more);
      forall i | 0 <= i < |handlers|
        ensures Tame(p, true, handlers[i].block, MayRethrow(p, true, handlers[i]))
      {
        TameInAll(p, all, handlers[i].block, MayRethrow(p, all, handlers[i]), MayRethrow(p, true, handlers[i]));
      }
    case DefaultInit(expr) => TameInAll(p, all, expr, may, more);
    case Other(children) =>
      forall i | 0 <= i < |children|
        ensures Tame(p, true, children[i], more)
      {
        TameInAll(p, all, children[i], may, more);
      }
    case _ =>
  }

  lemma TameProgramInAll(p: Program, all: bool)
    requires TameProgram(p, all)
    ensures TameProgram(p, true)
  {
    forall f | f in p.functions && p.functions[f].body.Some?
      ensures Tame(p, true, p.functions[f].body.value, false)
      ensures forall i :: 0 <= i < |p.functions[f].inits| ==> Tame(p, true, p.functions[f].inits[i], false)
    {
      assert TameFunc(p, all, p.functions[f]);
      TameInAll(p, all, p.functions[f].body.value, false, false);
      forall i | 0 <= i < |p.functions[f].inits|
        ensures Tame(p, true, p.functions[f].inits[i], false)
      {
        TameInAll(p, all, p.functions[f].inits[i], false, false);
      }
    }
  }
}
