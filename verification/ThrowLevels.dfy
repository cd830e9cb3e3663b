/** What the trace level and the call stack do to a result: more levels or a
    smaller stack never lose anything, and past an explicit bound nothing changes. */
module ThrowLevels {
  import opened Ast
  import opened ExceptionInfos
  import opened CallGraph
  import opened ThrowAnalysis

  // ----- the bound -----

  /** Nesting of statements, calls not followed. */
  ghost predicate HeightAtMost(s: Stmt, h: nat)
    decreases h
  {
    h > 0 &&
    match s
    case Try(body, handlers) =>
      HeightAtMost(body, h - 1) &&
      forall i :: 0 <= i < |handlers| ==> HeightAtMost(handlers[i].block, h - 1)
    case DefaultInit(expr) => HeightAtMost(expr, h - 1)
    case Other(children) => forall i :: 0 <= i < |children| ==> HeightAtMost(children[i], h - 1)
    case _ => true
  }

  ghost predicate FuncHeightAtMost(fn: Function, h: nat) {
    fn.body.Some? ==>
      HeightAtMost(fn.body.value, h) && forall i :: 0 <= i < |fn.inits| ==> HeightAtMost(fn.inits[i], h)
  }

  /** No body or initialiser of the program nests deeper than `h`. */
  ghost predicate BodiesAtMost(p: Program, h: nat) {
    forall f :: f in p.functions ==> FuncHeightAtMost(p.functions[f], h)
  }

  /** A walk of `f` with `stack` on the call stack follows chains of at most `k` functions
      with bodies, none nesting deeper than `h`. Only functions reached from `f` count. */
  ghost predicate Shallow(p: Program, stack: set<FuncId>, f: FuncId, k: nat, h: nat)
    decreases k
  {
    f in stack || !p.HasBody(f) ||
    (k > 0 && FuncHeightAtMost(p.Func(f), h) && forall g :: Calls(p, f, g) ==> Shallow(p, stack + {f}, g, k - 1, h))
  }

  /** Levels that a chain of `n` functions can use up: each one level for itself and `h`
      for its statements, and one for the last call. */
  function Budget(n: nat, h: nat): nat {
    if n == 0 then 1 else 1 + h + Budget(n - 1, h)
  }

  lemma {:induction false} BudgetClosedForm(n: nat, h: nat)
    ensures Budget(n, h) == 1 + n * (h + 1)
  {
    if n > 0 {
      BudgetClosedForm(n - 1, h);
    }
  }

  /** No chain is longer than the number of functions. */
  lemma {:induction false} ChainsWithinProgram(p: Program, stack: set<FuncId>, f: FuncId, h: nat)
    requires BodiesAtMost(p, h)
    ensures Shallow(p, stack, f, |p.functions.Keys - stack|, h)
    decreases |p.functions.Keys - stack|
  {
    if f !in stack && p.HasBody(f) {
      assert p.functions.Keys - stack == (p.functions.Keys - (stack + {f})) + {f};
      forall g | Calls(p, f, g)
        ensures Shallow(p, stack + {f}, g, |p.functions.Keys - stack| - 1, h)
      {
        ChainsWithinProgram(p, stack + {f}, g, h);
      }
    }
  }

  // ----- one induction for both results -----
  //
  // Depth `e` with stack `less` sees at least what depth `d` with stack `stack` sees,
  // when `e` is the larger depth or when `e` is large enough on its own.

  /** Depth `e` is enough for `s`, of height `hs`, and for the calls in it. */
  ghost predicate Fits(p: Program, h: nat, k: nat, hs: nat, e: nat, less: set<FuncId>, s: Stmt) {
    HeightAtMost(s, hs) && hs + Budget(k, h) <= e && forall g :: CallsTo(s, g) ==> Shallow(p, less, g, k, h)
  }

  lemma {:induction false} FuncMonotone(p: Program, h: nat, k: nat, d: nat, e: nat,
                                        stack: set<FuncId>, less: set<FuncId>, f: FuncId)
    requires less <= stack && (d <= e || (Shallow(p, less, f, k, h) && Budget(k, h) <= e))
    ensures Leq(ThrowsFunc(p, d, stack, f), ThrowsFunc(p, e, less, f))
    decreases d, 0, 0
  {
    if f !in stack && d > 0 && p.HasBody(f) {
      var inner := if k > 0 then k - 1 else 0;
      assert forall s, g :: CallsTo(s, g) && PartOf(p, f, s) ==> Calls(p, f, g);
      FuncLoopMonotone(p, h, inner, d - 1, e - 1, stack + {f}, less + {f}, p.Func(f), |p.Func(f).inits|);
    }
  }

  lemma {:induction false} FuncLoopMonotone(p: Program, h: nat, k: nat, d: nat, e: nat,
                                            stack: set<FuncId>, less: set<FuncId>, fn: Function, i: nat)
    requires less <= stack && fn.body.Some? && i <= |fn.inits|
    requires d <= e || (Fits(p, h, k, h, e, less, fn.body.value) &&
                        forall j :: 0 <= j < |fn.inits| ==> Fits(p, h, k, h, e, less, fn.inits[j]))
    ensures Leq(FuncLoop(p, d, stack, fn, i), FuncLoop(p, e, less, fn, i))
    decreases d, 1, i
  {
    if i == 0 {
      StmtMonotone(p, h, k, h, d, e, stack, less, {}, {}, fn.body.value);
    } else {
      FuncLoopMonotone(p, h, k, d, e, stack, less, fn, i - 1);
      StmtMonotone(p, h, k, h, d, e, stack, less, {}, {}, fn.inits[i - 1]);
    }
  }

  /** Holds through try/catch, rethrow and calls, and in the caught types too. */
  lemma {:induction false} StmtMonotone(p: Program, h: nat, k: nat, hs: nat, d: nat, e: nat,
                                        stack: set<FuncId>, less: set<FuncId>,
                                        caught: set<TypeId>, more: set<TypeId>, s: Stmt)
    requires less <= stack && caught <= more && (d <= e || Fits(p, h, k, hs, e, less, s))
    ensures Leq(ThrowsStmt(p, d, stack, caught, s), ThrowsStmt(p, e, less, more, s))
    decreases d, 0, 0
  {
    if d > 0 {
      var inner := if hs > 0 then hs - 1 else 0;
      match s {
        case Null =>
        case Throw(_) =>
        case Rethrow =>
        case Try(_, _) => TryMonotone(p, h, k, inner, d - 1, e - 1, stack, less, caught, more, s);
        case Call(callee) =>
          if callee.Some? {
            CalleeMonotone(p, h, k, d, e, stack, less, callee.value);
          }
        case Construct(ctor) => CalleeMonotone(p, h, k, d, e, stack, less, ctor);
        case DefaultInit(expr) =>
          StmtMonotone(p, h, k, inner, d - 1, e - 1, stack, less, caught, more, expr);
          MergedSeedMonotone(ThrowsStmt(p, d - 1, stack, caught, expr), ThrowsStmt(p, e - 1, less, more, expr));
        case Other(children) =>
          ChildLoopMonotone(p, h, k, inner, d - 1, e - 1, stack, less, caught, more, children, |children|);
      }
    }
  }

  lemma {:induction false} CalleeMonotone(p: Program, h: nat, k: nat, d: nat, e: nat,
                                          stack: set<FuncId>, less: set<FuncId>, g: FuncId)
    requires less <= stack && d > 0 && (d <= e || (Shallow(p, less, g, k, h) && 1 + Budget(k, h) <= e))
    ensures Leq(Merged(CreateNonThrowing(), ThrowsFunc(p, d - 1, stack, g)),
                Merged(CreateNonThrowing(), ThrowsFunc(p, e - 1, less, g)))
    decreases d - 1, 1, 0
  {
    FuncMonotone(p, h, k, d - 1, e - 1, stack, less, g);
    MergedSeedMonotone(ThrowsFunc(p, d - 1, stack, g), ThrowsFunc(p, e - 1, less, g));
  }

  lemma MergedSeedMonotone(i: Info, j: Info)
    requires Leq(i, j)
    ensures Leq(Merged(CreateNonThrowing(), i), Merged(CreateNonThrowing(), j))
  {
  }

  lemma {:induction false} TryMonotone(p: Program, h: nat, k: nat, hs: nat, d: nat, e: nat,
                                       stack: set<FuncId>, less: set<FuncId>,
                                       caught: set<TypeId>, more: set<TypeId>, s: Stmt)
    requires less <= stack && caught <= more && s.Try?
    requires d <= e || (Fits(p, h, k, hs, e, less, s.body) &&
                        forall i :: 0 <= i < |s.handlers| ==> Fits(p, h, k, hs, e, less, s.handlers[i].block))
    ensures Leq(ThrowsStmt(p, d + 1, stack, caught, s), ThrowsStmt(p, e + 1, less, more, s))
    decreases d, 2, 0
  {
    StmtMonotone(p, h, k, hs, d, e, stack, less, caught, more, s.body);
    var u, v := ThrowsStmt(p, d, stack, caught, s.body), ThrowsStmt(p, e, less, more, s.body);
    HandlerLoopMonotone(p, h, k, hs, d, e, stack, less, s.handlers, |s.handlers|, u, v);
  }

  lemma {:induction false} ChildLoopMonotone(p: Program, h: nat, k: nat, hs: nat, d: nat, e: nat,
                                             stack: set<FuncId>, less: set<FuncId>,
                                             caught: set<TypeId>, more: set<TypeId>, children: seq<Stmt>, i: nat)
    requires less <= stack && caught <= more && i <= |children|
    requires d <= e || forall j :: 0 <= j < |children| ==> Fits(p, h, k, hs, e, less, children[j])
    ensures Leq(ChildLoop(p, d, stack, caught, children, i), ChildLoop(p, e, less, more, children, i))
    decreases d, 1, i
  {
    if i > 0 {
      ChildLoopMonotone(p, h, k, hs, d, e, stack, less, caught, more, children, i - 1);
      StmtMonotone(p, h, k, hs, d, e, stack, less, caught, more, children[i - 1]);
    }
  }

  lemma {:induction false} HandlerLoopMonotone(p: Program, h: nat, k: nat, hs: nat, d: nat, e: nat,
                                               stack: set<FuncId>, less: set<FuncId>,
                                               handlers: seq<Handler>, i: nat, u: Info, v: Info)
    requires less <= stack && i <= |handlers| && Leq(u, v)
    requires d <= e || forall j :: 0 <= j < |handlers| ==> Fits(p, h, k, hs, e, less, handlers[j].block)
    ensures Leq(HandlerLoop(p, d, stack, handlers, i, u).uncaught, HandlerLoop(p, e, less, handlers, i, v).uncaught)
    ensures Leq(HandlerLoop(p, d, stack, handlers, i, u).results, HandlerLoop(p, e, less, handlers, i, v).results)
    decreases d, 1, i
  {
    if i > 0 {
      HandlerLoopMonotone(p, h, k, hs, d, e, stack, less, handlers, i - 1, u, v);
      var a := HandlerLoop(p, d, stack, handlers, i - 1, u).uncaught;
      var b := HandlerLoop(p, e, less, handlers, i - 1, v).uncaught;
      match handlers[i - 1] {
        case CatchAll(block) => StmtMonotone(p, h, k, hs, d, e, stack, less, a.thrown, b.thrown, block);
        case Catch(ty, block) =>
          assert forall t :: t in Caught(p, a, ty) ==> t in Caught(p, b, ty);
          StmtMonotone(p, h, k, hs, d, e, stack, less, {ty}, {ty}, block);
      }
    }
  }

  // ----- the reported state -----

  /** The walk over a statement always reports Throwing, even for an empty one: the
      seed never goes away. */
  lemma WalkReportsThrowing(p: Program, depth: nat, stack: set<FuncId>, caught: set<TypeId>, s: Stmt)
    ensures ThrowsStmt(p, depth, stack, caught, s).behaviour == Throwing
  {
    if depth > 0 {
      match s
      case Try(body, handlers) =>
        var u := ThrowsStmt(p, depth - 1, stack, caught, body);
        HandlerLoopReportsThrowing(p, depth - 1, stack, handlers, |handlers|, u);
      case Other(children) => ChildLoopReportsThrowing(p, depth - 1, stack, caught, children, |children|);
      case _ =>
    }
  }

  lemma {:induction false} HandlerLoopReportsThrowing(p: Program, depth: nat, stack: set<FuncId>,
                                                      handlers: seq<Handler>, k: nat, u: Info)
    requires k <= |handlers|
    ensures HandlerLoop(p, depth, stack, handlers, k, u).results.behaviour == Throwing
  {
    if k > 0 {
      HandlerLoopReportsThrowing(p, depth, stack, handlers, k - 1, u);
    }
  }

  lemma {:induction false} ChildLoopReportsThrowing(p: Program, depth: nat, stack: set<FuncId>, caught: set<TypeId>,
                                                    children: seq<Stmt>, k: nat)
    requires k <= |children|
    ensures ChildLoop(p, depth, stack, caught, children, k).behaviour == Throwing
  {
    if k > 0 {
      ChildLoopReportsThrowing(p, depth, stack, caught, children, k - 1);
    }
  }

  /** The walk over a function reports Throwing too, unless there is nothing to walk:
      then it reports Unknown and has gathered no type. */
  lemma FuncWalkReportsThrowing(p: Program, depth: nat, stack: set<FuncId>, f: FuncId)
    ensures var r := ThrowsFunc(p, depth, stack, f);
            r.behaviour == Throwing || r == CreateUnknown()
    ensures ThrowsFunc(p, depth, stack, f) == CreateUnknown() <==>
              f !in stack && depth > 0 && !p.HasBody(f) && p.Func(f).spec == []
  {
    if f !in stack && depth > 0 {
      if p.HasBody(f) {
        FuncLoopReportsThrowing(p, depth - 1, stack + {f}, p.Func(f), |p.Func(f).inits|);
      } else if p.Func(f).spec != [] {
        assert SpecLoop(p.Func(f).spec, |p.Func(f).spec|).behaviour == Throwing;
      }
    }
  }

  lemma {:induction false} FuncLoopReportsThrowing(p: Program, depth: nat, stack: set<FuncId>, fn: Function, k: nat)
    requires fn.body.Some? && k <= |fn.inits|
    ensures FuncLoop(p, depth, stack, fn, k).behaviour == Throwing
  {
    if k == 0 {
      WalkReportsThrowing(p, depth, stack, {}, fn.body.value);
    } else {
      FuncLoopReportsThrowing(p, depth, stack, fn, k - 1);
    }
  }

  // ----- main results -----

  /** Raising MaxTraceLevel, or analysing with fewer functions on the call stack,
      never removes a type or the unknown flag. */
  lemma RaisingTheLevelOnlyAdds(p: Program, low: int, high: int, stack: set<FuncId>, less: set<FuncId>, f: FuncId)
    requires low <= high && less <= stack
    ensures Leq(ThrowsFunc(p, LevelsLeft(low, 0), stack, f), ThrowsFunc(p, LevelsLeft(high, 0), less, f))
  {
    FuncMonotone(p, 0, 0, LevelsLeft(low, 0), LevelsLeft(high, 0), stack, less, f);
  }

  /** `max` levels are enough for `f`: k * (h + 1) + 1 of them, where no simple chain of
      calls from `f` has more than `k` functions, none nesting deeper than `h`. */
  ghost predicate EnoughLevels(p: Program, f: FuncId, k: nat, h: nat, max: int) {
    Shallow(p, {}, f, k, h) && k * (h + 1) + 1 <= max
  }

  /** With enough levels, or more, the result is final, call cycles included. */
  lemma LevelStabilises(p: Program, k: nat, h: nat, low: int, high: int, f: FuncId)
    requires EnoughLevels(p, f, k, h, low) && low <= high
    ensures ThrowsFunc(p, LevelsLeft(low, 0), {}, f) == ThrowsFunc(p, LevelsLeft(high, 0), {}, f)
  {
    BudgetClosedForm(k, h);
    FuncMonotone(p, h, k, low, high, {}, {}, f);
    FuncMonotone(p, h, k, high, low, {}, {}, f);
    FuncWalkReportsThrowing(p, low, {}, f);
    FuncWalkReportsThrowing(p, high, {}, f);
  }

  /** For any program |functions| * (height + 1) + 1 levels are enough for every function. */
  lemma ProgramBound(p: Program, h: nat, max: int, f: FuncId)
    requires BodiesAtMost(p, h) && |p.functions| * (h + 1) + 1 <= max
    ensures EnoughLevels(p, f, |p.functions|, h, max)
  {
    assert p.functions.Keys - {} == p.functions.Keys;
    ChainsWithinProgram(p, {}, f, h);
  }
}
