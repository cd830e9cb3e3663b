/** The result of `ExceptionAnalyzer::throwsException` as a function of its inputs.

    `depth` is the number of levels left before the cut-off: MaxTraceLevel minus
    CurLevel, or 0 when the current level is at or past the maximum. */
module ThrowAnalysis {
  import opened Basics
  import opened Ast
  import opened ExceptionInfos

  function ThrowsFunc(p: Program, depth: nat, stack: set<FuncId>, f: FuncId): Info
    decreases depth, 0, 0
  {
    if f in stack || depth == 0 then CreateNonThrowing()
    else if p.HasBody(f) then
      FuncLoop(p, depth - 1, stack + {f}, p.Func(f), |p.Func(f).inits|)
    else
      SpecLoop(p.Func(f).spec, |p.Func(f).spec|)
  }

  /** The body of `fn` merged with its first `k` initialisers. */
  function FuncLoop(p: Program, depth: nat, stack: set<FuncId>, fn: Function, k: nat): Info
    requires fn.body.Some? && k <= |fn.inits|
    decreases depth, 1, k
  {
    if k == 0 then ThrowsStmt(p, depth, stack, {}, fn.body.value)
    else Merged(FuncLoop(p, depth, stack, fn, k - 1), ThrowsStmt(p, depth, stack, {}, fn.inits[k - 1]))
  }

  /** A function without a body: unknown, plus the first `k` types of its
      exception specification. */
  function SpecLoop(spec: seq<TypeId>, k: nat): Info
    requires k <= |spec|
  {
    if k == 0 then CreateUnknown() else Registered(SpecLoop(spec, k - 1), spec[k - 1])
  }

  function ThrowsStmt(p: Program, depth: nat, stack: set<FuncId>, caught: set<TypeId>, s: Stmt): Info
    decreases depth, 0, 0
  {
    if depth == 0 then CreateNonThrowing()
    else match s
      case Null => CreateNonThrowing()
      case Throw(t) => Registered(CreateNonThrowing(), t)
      case Rethrow => RegisteredAll(CreateNonThrowing(), caught)
      case Try(body, handlers) =>
        var uncaught := ThrowsStmt(p, depth - 1, stack, caught, body);
        var loop := HandlerLoop(p, depth - 1, stack, handlers, |handlers|, uncaught);
        Merged(loop.results, loop.uncaught)
      case Call(callee) =>
        if callee.None? then CreateNonThrowing()
        else Merged(CreateNonThrowing(), ThrowsFunc(p, depth - 1, stack, callee.value))
      case Construct(ctor) => Merged(CreateNonThrowing(), ThrowsFunc(p, depth - 1, stack, ctor))
      case DefaultInit(expr) => Merged(CreateNonThrowing(), ThrowsStmt(p, depth - 1, stack, caught, expr))
      case Other(children) => ChildLoop(p, depth - 1, stack, caught, children, |children|)
  }

  /** The first `k` children merged into an empty result. */
  function ChildLoop(p: Program, depth: nat, stack: set<FuncId>, caught: set<TypeId>,
                     children: seq<Stmt>, k: nat): Info
    requires k <= |children|
    decreases depth, 1, k
  {
    if k == 0 then CreateNonThrowing()
    else Merged(ChildLoop(p, depth, stack, caught, children, k - 1),
                ThrowsStmt(p, depth, stack, caught, children[k - 1]))
  }

  datatype LoopState = LoopState(uncaught: Info, results: Info)

  /** State of the handler loop after the first `k` handlers, entered with
      `uncaught` from the try block. */
  function HandlerLoop(p: Program, depth: nat, stack: set<FuncId>, handlers: seq<Handler>,
                       k: nat, uncaught: Info): LoopState
    requires k <= |handlers|
    decreases depth, 1, k
  {
    if k == 0 then LoopState(uncaught, CreateNonThrowing())
    else
      var before := HandlerLoop(p, depth, stack, handlers, k - 1, uncaught);
      match handlers[k - 1]
      case CatchAll(block) =>
        LoopState(Cleared(), Merged(before.results,
                                    ThrowsStmt(p, depth, stack, before.uncaught.thrown, block)))
      case Catch(ty, block) =>
        LoopState(AfterCatch(p, before.uncaught, ty),
                  if Caught(p, before.uncaught, ty) == {} then before.results
                  else Merged(before.results, ThrowsStmt(p, depth, stack, {ty}, block)))
  }

  /** Levels left when `level` of at most `max` have been used. */
  function LevelsLeft(max: int, level: int): nat {
    if level >= max then 0 else max - level
  }
}
