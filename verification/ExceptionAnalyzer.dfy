/** `ExceptionAnalyzer`: the two mutually recursive walks over one shared call
    stack, the result cache and the entry points. */
module ExceptionAnalyzers {
  import opened Basics
  import opened Ast
  import opened ExceptionInfos
  import opened ThrowAnalysis

  /** The call stack, passed by reference and restored by every call. */
  class CallStack {
    var funcs: set<FuncId>

    constructor ()
      ensures funcs == {}
    {
      funcs := {};
    }
  }

  /** What the entry points report: the gathered information after ignoring, but
      untouched when the walk already reported NotThrowing or Unknown. */
  function Dispatched(p: Program, ign: Ignore, gathered: Info): Info {
    if gathered.behaviour == NotThrowing || gathered.behaviour == Unknown then gathered
    else AfterIgnoring(p, gathered, ign)
  }

  class ExceptionAnalyzer {
    const program: Program
    var maxTraceLevel: int64
    var ignore: Ignore
    var cache: map<FuncId, Info>
    // The trace level in force when each cached result was computed.
    ghost var cachedAt: map<FuncId, int64>

    ghost predicate Valid()
      reads this
    {
      cache.Keys == cachedAt.Keys &&
      forall f :: f in cache ==> cache[f] == ThrowsFunc(program, LevelsLeft(cachedAt[f] as int, 0), {}, f)
    }

    /** The trace level has not changed since anything was cached. */
    ghost predicate LevelUnchanged()
      reads this
    {
      forall f :: f in cachedAt ==> cachedAt[f] == maxTraceLevel
    }

    constructor (program: Program)
      ensures Valid() && LevelUnchanged() && this.program == program && cache == map[]
      ensures maxTraceLevel == -1 && ignore == Ignore({}, true)
    {
      this.program := program;
      maxTraceLevel, ignore := -1, Ignore({}, true);
      cache, cachedAt := map[], map[];
    }

    method SetMaxTraceLevel(level: int64)
      requires Valid()
      modifies this`maxTraceLevel
      ensures Valid() && maxTraceLevel == level
    {
      maxTraceLevel := level;
    }

    method IgnoreBadAlloc(shallIgnore: bool)
      requires Valid()
      modifies this`ignore
      ensures Valid() && ignore == old(ignore).(badAlloc := shallIgnore)
    {
      ignore := ignore.(badAlloc := shallIgnore);
    }

    method IgnoreExceptions(names: set<string>)
      requires Valid()
      modifies this`ignore
      ensures Valid() && ignore == old(ignore).(names := names)
    {
      ignore := ignore.(names := names);
    }

    method ThrowsExceptionFunc(f: FuncId, callStack: CallStack, curLevel: int64) returns (info: ExceptionInfo)
      modifies callStack
      ensures fresh(info) && callStack.funcs == old(callStack.funcs)
      ensures info.View() ==
              ThrowsFunc(program, LevelsLeft(maxTraceLevel as int, curLevel as int), old(callStack.funcs), f)
      decreases LevelsLeft(maxTraceLevel as int, curLevel as int)
    {
      if f in callStack.funcs {
        info := new ExceptionInfo.WithState(Throwing);
        return;
      }
      if curLevel >= maxTraceLevel {
        info := new ExceptionInfo.WithState(Throwing);
        return;
      }
      var nextLevel := curLevel + 1;
      var fn := program.Func(f);
      if fn.body.Some? {
        callStack.funcs := callStack.funcs + {f};
        info := ThrowsExceptionStmt(fn.body.value, {}, callStack, nextLevel);
        for k := 0 to |fn.inits|
          invariant fresh(info) && callStack.funcs == old(callStack.funcs) + {f}
          invariant info.View() == FuncLoop(program, LevelsLeft(maxTraceLevel as int, nextLevel as int),
                                            callStack.funcs, fn, k)
        {
          var excs := ThrowsExceptionStmt(fn.inits[k], {}, callStack, nextLevel);
          info.Merge(excs);
        }
        callStack.funcs := callStack.funcs - {f};
        return;
      }
      info := new ExceptionInfo.WithState(Unknown);
      for k := 0 to |fn.spec|
        invariant fresh(info) && callStack.funcs == old(callStack.funcs)
        invariant info.View() == SpecLoop(fn.spec, k)
      {
        info.RegisterException(fn.spec[k]);
      }
    }

    method ThrowsExceptionStmt(s: Stmt, caught: set<TypeId>, callStack: CallStack, curLevel: int64)
      returns (results: ExceptionInfo)
      modifies callStack
      ensures fresh(results) && callStack.funcs == old(callStack.funcs)
      ensures results.View() ==
              ThrowsStmt(program, LevelsLeft(maxTraceLevel as int, curLevel as int), old(callStack.funcs), caught, s)
      decreases LevelsLeft(maxTraceLevel as int, curLevel as int)
    {
      results := new ExceptionInfo.WithState(Throwing);
      if curLevel >= maxTraceLevel {
        return;
      }
      var nextLevel := curLevel + 1;
      ghost var depth := LevelsLeft(maxTraceLevel as int, nextLevel as int);
      match s {
        case Null =>
        case Throw(t) => results.RegisterException(t);
        case Rethrow => results.RegisterExceptions(caught);
        case Try(body, handlers) =>
          var uncaught := ThrowsExceptionStmt(body, caught, callStack, nextLevel);
          ghost var thrownByBody := uncaught.View();
          for i := 0 to |handlers|
            invariant fresh(results) && fresh(uncaught) && results != uncaught
            invariant callStack.funcs == old(callStack.funcs)
            invariant LoopState(uncaught.View(), results.View()) ==
                      HandlerLoop(program, depth, callStack.funcs, handlers, i, thrownByBody)
          {
            match handlers[i] {
              case CatchAll(block) =>
                var rethrown := ThrowsExceptionStmt(block, uncaught.thrownExceptions, callStack, nextLevel);
                results.Merge(rethrown);
                uncaught.Clear();
              case Catch(ty, block) =>
                var filtered := uncaught.FilterByCatch(program, ty);
                if filtered {
                  var rethrown := ThrowsExceptionStmt(block, {ty}, callStack, nextLevel);
                  results.Merge(rethrown);
                }
            }
          }
          results.Merge(uncaught);
        case Call(callee) =>
          if callee.Some? {
            var excs := ThrowsExceptionFunc(callee.value, callStack, nextLevel);
            results.Merge(excs);
          }
        case Construct(ctor) =>
          var excs := ThrowsExceptionFunc(ctor, callStack, nextLevel);
          results.Merge(excs);
        case DefaultInit(expr) =>
          var excs := ThrowsExceptionStmt(expr, caught, callStack, nextLevel);
          results.Merge(excs);
        case Other(children) =>
          for k := 0 to |children|
            invariant fresh(results) && callStack.funcs == old(callStack.funcs)
            invariant results.View() == ChildLoop(program, depth, callStack.funcs, caught, children, k)
          {
            var excs := ThrowsExceptionStmt(children[k], caught, callStack, nextLevel);
            results.Merge(excs);
          }
      }
    }

    /** Cached results are reused as they are, even after the trace level changed:
        the level that counts is the one of the first analysis of `f`. */
    method AnalyzeImplFunc(f: FuncId) returns (info: ExceptionInfo)
      requires Valid()
      modifies this`cache, this`cachedAt
      ensures Valid() && fresh(info)
      ensures cachedAt == if f in old(cachedAt) then old(cachedAt) else old(cachedAt)[f := maxTraceLevel]
      ensures info.View() == ThrowsFunc(program, LevelsLeft(cachedAt[f] as int, 0), {}, f)
    {
      if f !in cache {
        var callStack := new CallStack();
        info := ThrowsExceptionFunc(f, callStack, 0);
        cache := cache[f := info.View()];
        cachedAt := cachedAt[f := maxTraceLevel];
      } else {
        info := new ExceptionInfo.Copy(cache[f]);
      }
    }

    method AnalyzeFunc(f: FuncId) returns (info: ExceptionInfo)
      requires Valid()
      modifies this`cache, this`cachedAt
      ensures Valid() && fresh(info)
      ensures cachedAt == if f in old(cachedAt) then old(cachedAt) else old(cachedAt)[f := maxTraceLevel]
      ensures info.View() ==
              Dispatched(program, ignore, ThrowsFunc(program, LevelsLeft(cachedAt[f] as int, 0), {}, f))
      ensures old(LevelUnchanged()) ==>
                LevelUnchanged() &&
                info.View() ==
                Dispatched(program, ignore, ThrowsFunc(program, LevelsLeft(maxTraceLevel as int, 0), {}, f))
    {
      info := AnalyzeImplFunc(f);
      if info.behaviour == NotThrowing || info.behaviour == Unknown {
        return;
      }
      info.FilterIgnoredExceptions(program, ignore);
    }

    method AnalyzeStmt(s: Stmt) returns (info: ExceptionInfo)
      requires Valid()
      ensures fresh(info)
      ensures info.View() ==
              Dispatched(program, ignore, ThrowsStmt(program, LevelsLeft(maxTraceLevel as int, 0), {}, {}, s))
    {
      var callStack := new CallStack();
      info := ThrowsExceptionStmt(s, {}, callStack, 0);
      if info.behaviour == NotThrowing || info.behaviour == Unknown {
        return;
      }
      info.FilterIgnoredExceptions(program, ignore);
    }
  }
}
