/** What the trace level costs: exactly when a cached result is out of date, and a program
    that the indexer's level of 20 misjudges. */
module LevelLimits {
  import opened Basics
  import opened Ast
  import opened ExceptionInfos
  import opened ThrowAnalysis
  import opened ThrowLevels
  import opened RaiseSemantics
  import opened GuardedPrograms
  import opened LiveHandlers
  import opened ExceptionAnalyzers
  import opened AnalyzerReports

  // ----- a throw below many statements -----

  /** `throw t;` as the innermost of `n` default arguments. */
  function Nested(n: nat, t: TypeId): Stmt {
    if n == 0 then Throw(t) else DefaultInit(Nested(n - 1, t))
  }

  function NestedProgram(f: FuncId, n: nat, t: TypeId): Program {
    Program(map[f := Function(Some(Nested(n, t)), [], [])], {}, map[])
  }

  lemma {:induction false} NestedWalk(p: Program, depth: nat, stack: set<FuncId>, caught: set<TypeId>,
                                      n: nat, t: TypeId)
    ensures ThrowsStmt(p, depth, stack, caught, Nested(n, t)) == Info(Throwing, false, if depth > n then {t} else {})
  {
    if depth > 0 && n > 0 {
      NestedWalk(p, depth - 1, stack, caught, n - 1, t);
    }
  }

  /** The throw is seen iff more than n + 1 levels are left. */
  lemma NestedIsSeenIff(f: FuncId, n: nat, t: TypeId, depth: nat)
    ensures ThrowsFunc(NestedProgram(f, n, t), depth, {}, f) ==
            Info(Throwing, false, if depth > n + 1 then {t} else {})
  {
    var p := NestedProgram(f, n, t);
    if depth > 0 {
      assert ThrowsFunc(p, depth, {}, f) == ThrowsStmt(p, depth - 1, {} + {f}, {}, Nested(n, t));
      NestedWalk(p, depth - 1, {} + {f}, {}, n, t);
    }
  }

  // ----- the result cache -----

  /** The report of a function whose result was computed at level `level`. */
  function ReportAt(p: Program, ign: Ignore, level: int, f: FuncId): Info {
    Dispatched(p, ign, ThrowsFunc(p, LevelsLeft(level, 0), {}, f))
  }

  /** What an analyzer reports that first saw `f` at level `since` and is asked again at
      level `now`, and what one reports that has never seen it. */
  method ReportTwice(p: Program, ign: Ignore, f: FuncId, since: int64, now: int64)
    returns (cached: Info, current: Info)
    ensures cached == ReportAt(p, ign, since as int, f) && current == ReportAt(p, ign, now as int, f)
  {
    var used := new ExceptionAnalyzer(p);
    used.IgnoreBadAlloc(ign.badAlloc);
    used.IgnoreExceptions(ign.names);
    used.SetMaxTraceLevel(since);
    var info := used.AnalyzeFunc(f);
    used.SetMaxTraceLevel(now);
    info := used.AnalyzeFunc(f);
    cached := info.View();

    var unused := new ExceptionAnalyzer(p);
    unused.IgnoreBadAlloc(ign.badAlloc);
    unused.IgnoreExceptions(ign.names);
    unused.SetMaxTraceLevel(now);
    info := unused.AnalyzeFunc(f);
    current := info.View();
  }

  /** A program whose function `f` is judged differently with `depth` levels left than with
      any less. */
  function Separating(f: FuncId, t: TypeId, depth: nat): Program {
    if depth < 2 then Program(map[], {}, map[]) else NestedProgram(f, depth - 2, t)
  }

  lemma SeparatingReports(ign: Ignore, f: FuncId, t: TypeId, a: int, b: int)
    requires a < b && 0 < b
    ensures ReportAt(Separating(f, t, b), ign, a, f).behaviour == NotThrowing
    ensures ReportAt(Separating(f, t, b), ign, b, f).behaviour == if b == 1 then Unknown else Throwing
  {
    var p, low := Separating(f, t, b), LevelsLeft(a, 0);
    FuncReportIsExact(p, ign, low, f);
    FuncReportIsExact(p, ign, b, f);
    if b >= 2 {
      NestedIsSeenIff(f, b - 2, t, low);
      NestedIsSeenIff(f, b - 2, t, b);
      assert t in ReportAt(p, ign, b, f).thrown;
    } else {
      FuncWalkReportsThrowing(p, b, {}, f);
    }
  }

  /** A result cached at level `since` may be used at level `now`, for every program and
      function, iff the two leave as many levels. */
  lemma CachedIsCurrentIff(ign: Ignore, since: int, now: int)
    ensures LevelsLeft(since, 0) == LevelsLeft(now, 0) <==>
            forall p, f :: ReportAt(p, ign, since, f) == ReportAt(p, ign, now, f)
  {
    if LevelsLeft(since, 0) != LevelsLeft(now, 0) {
      var a, b := if since < now then since else now, if since < now then now else since;
      SeparatingReports(ign, 0, 0, a, b);
      assert ReportAt(Separating(0, 0, b), ign, since, 0) != ReportAt(Separating(0, 0, b), ign, now, 0);
    }
  }

  /** Setting the trace level does not invalidate the cache: whatever the levels, if the
      second one leaves more, some function stays NotThrowing that a fresh analyzer
      reports to be Throwing, or Unknown where one level is left. */
  method StaleAfterRaisingTheLevel(ign: Ignore, f: FuncId, t: TypeId, since: int64, now: int64)
    returns (stale: State, current: State)
    requires since < now && 0 < now
    ensures stale == NotThrowing && current == if now == 1 then Unknown else Throwing
  {
    var cached, anew := ReportTwice(Separating(f, t, now as int), ign, f, since, now);
    SeparatingReports(ign, f, t, since as int, now as int);
    stale, current := cached.behaviour, anew.behaviour;
  }

  // ----- the level of the indexer -----

  lemma {:induction false} NestedParts(p: Program, n: nat, t: TypeId)
    ensures Tame(p, true, Nested(n, t), false) && HandlerFree(Nested(n, t)) && CatchAllFree(Nested(n, t))
  {
    if n > 0 {
      NestedParts(p, n - 1, t);
    }
  }

  lemma {:induction false} NestedRaises(p: Program, from: Origin, n: nat, t: TypeId)
    ensures Raises(p, from, 0, Nested(n, t), None, Known(t))
  {
    if n > 0 {
      NestedRaises(p, from, n - 1, t);
    }
  }

  /** With 20 levels the answer to whether a function might throw is right up to 18
      statements around its throw, and wrong from 19 on: the level binds, in programs that
      are tame, guarded and live. */
  lemma LevelBindsIff(from: Origin, fd: FuncId, n: nat, t: TypeId)
    ensures var p := NestedProgram(fd, n, t);
            TameProgram(p, true) && GuardedProgram(p) && LiveProgram(p, from) &&
            MayRaiseUnignored(p, from, fd) && (MightThrow(p, fd) <==> n < 19)
  {
    var p := NestedProgram(fd, n, t);
    NestedParts(p, n, t);
    HandlerFreeIsGuarded(p);
    CatchAllFreeIsLive(p, from);
    NestedRaises(p, from, n, t);
    assert FuncRaises(p, from, 0, fd, None, Known(t)) && MayRaise(p, from, fd, Known(t));
    assert !Ignored(p, IndexerIgnore(), t);
    NestedIsSeenIff(fd, n, t, 20);
  }
}
