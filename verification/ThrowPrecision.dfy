/** Every exception the analyzer reports for a tame program can be raised, whatever the
    trace level and call cycles, if every catch(...) can be reached; with ThrowSoundness,
    the result is exact. */
module ThrowPrecision {
  import opened Basics
  import opened Ast
  import opened CallGraph
  import opened ThrowAnalysis
  import opened ThrowLevels
  import opened HandlerDispatch
  import opened RaiseSemantics
  import opened GuardedPrograms
  import opened LiveHandlers
  import opened ThrowReports
  import opened ThrowSoundness

  /** The exception handled when a report comes true: the one handled outside, or one of the
      caught types. */
  ghost predicate Handling(home: Option<Exc>, caught: set<TypeId>, cur: Option<Exc>) {
    cur == home || (cur.Some? && cur.value.Known? && cur.value.ty in caught)
  }

  ghost predicate Precise(p: Program, from: Origin, x: Exc) {
    TameProgram(p, true) && LiveProgram(p, from) && (x.Foreign? ==> !from.Nowhere?)
  }

  lemma {:induction false} StmtPrecise(p: Program, from: Origin, depth: nat, stack: set<FuncId>, caught: set<TypeId>,
                                       may: bool, home: Option<Exc>, s: Stmt, x: Exc)
    returns (n: nat, cur: Option<Exc>)
    requires Precise(p, from, x) && Tame(p, true, s, may) && Live(p, from, home, s)
    requires Reported(ThrowsStmt(p, depth, stack, caught, s), x)
    ensures Handling(home, caught, cur) && Raises(p, from, n, s, cur, x)
    decreases depth, 0
  {
    n, cur := 0, home;
    match s {
      case Throw(_) =>
      case Rethrow => cur := Some(x);
      case Try(body, handlers) =>
        n, cur := TryPrecise(p, from, depth - 1, stack, caught, may, home, body, handlers, x);
      case Call(callee) =>
        n := FuncPrecise(p, from, depth - 1, stack, callee.value, home, x);
        n := n + 1;
      case Construct(ctor) =>
        n := FuncPrecise(p, from, depth - 1, stack, ctor, home, x);
        n := n + 1;
      case DefaultInit(expr) => n, cur := StmtPrecise(p, from, depth - 1, stack, caught, may, home, expr, x);
      case Other(children) =>
        ChildrenReport(p, depth - 1, stack, caught, children, x);
        var i :| 0 <= i < |children| && Reported(ThrowsStmt(p, depth - 1, stack, caught, children[i]), x);
        n, cur := StmtPrecise(p, from, depth - 1, stack, caught, may, home, children[i], x);
    }
  }

  lemma {:induction false} TryPrecise(p: Program, from: Origin, depth: nat, stack: set<FuncId>, caught: set<TypeId>,
                                      may: bool, home: Option<Exc>, body: Stmt, handlers: seq<Handler>, x: Exc)
    returns (n: nat, cur: Option<Exc>)
    requires Precise(p, from, x) && Tame(p, true, Try(body, handlers), may) && Live(p, from, home, Try(body, handlers))
    requires Reported(ThrowsStmt(p, depth + 1, stack, caught, Try(body, handlers)), x)
    ensures Handling(home, caught, cur) && Raises(p, from, n, Try(body, handlers), cur, x)
    decreases depth, 2
  {
    var u := ThrowsStmt(p, depth, stack, caught, body);
    TryReports(p, depth, stack, caught, body, handlers, x);
    if Reported(u, x) && Uncaught(p, handlers, x) {
      n, cur := StmtPrecise(p, from, depth, stack, caught, may, home, body, x);
    } else {
      var i :| 0 <= i < |handlers| && Analysed(p, handlers, i, u.thrown) &&
               Reported(BlockInfo(p, depth, stack, handlers, i, u.thrown), x);
      if handlers[i].Catch? {
        n, cur := TypedPrecise(p, from, depth, stack, caught, may, home, body, handlers, i, x);
      } else {
        n, cur := CatchAllPrecise(p, from, depth, stack, caught, may, home, body, handlers, i, x);
      }
    }
  }

  /** The block of an analysed typed handler runs for one of the types the try block was
      seen to raise. */
  lemma {:induction false} TypedPrecise(p: Program, from: Origin, depth: nat, stack: set<FuncId>, caught: set<TypeId>,
                                        may: bool, home: Option<Exc>, body: Stmt, handlers: seq<Handler>,
                                        i: nat, x: Exc)
    returns (n: nat, cur: Option<Exc>)
    requires Precise(p, from, x) && Tame(p, true, body, may) && Live(p, from, home, body)
    requires i < |handlers| && handlers[i].Catch? && Live(p, from, TypedHome(p, handlers[i].ty), handlers[i].block)
    requires Tame(p, true, handlers[i].block, Final(p, handlers[i].ty))
    requires var u := ThrowsStmt(p, depth, stack, caught, body).thrown;
             Analysed(p, handlers, i, u) && Reported(BlockInfo(p, depth, stack, handlers, i, u), x)
    ensures Handling(home, caught, cur) && Raises(p, from, n, Try(body, handlers), cur, x)
    decreases depth, 1
  {
    var u := ThrowsStmt(p, depth, stack, caught, body).thrown;
    var ty, block := handlers[i].ty, handlers[i].block;
    var v :| v in u && TakenBy(p, handlers, i, Known(v));
    var m, c := StmtPrecise(p, from, depth, stack, {ty}, Final(p, ty), TypedHome(p, ty), block, x);
    if !Final(p, ty) {
      HandledIsIrrelevant(p, from, m, block, c, Some(Known(v)), x);
    }
    n, cur := StmtPrecise(p, from, depth, stack, caught, may, home, body, Known(v));
    n := HandlerRuns(p, from, n, m, body, handlers, i, cur, Known(v), x);
  }

  /** The block of a catch(...) runs for the exception that makes it live, or for one of the
      types the try block was seen to raise. */
  lemma {:induction false} CatchAllPrecise(p: Program, from: Origin, depth: nat, stack: set<FuncId>,
                                           caught: set<TypeId>, may: bool, home: Option<Exc>,
                                           body: Stmt, handlers: seq<Handler>, i: nat, x: Exc)
    returns (n: nat, cur: Option<Exc>)
    requires Precise(p, from, x) && Tame(p, true, body, may) && Live(p, from, home, body)
    requires i < |handlers| && handlers[i].CatchAll? && Tame(p, true, handlers[i].block, true)
    requires exists y :: ReachedBy(p, from, home, body, handlers, i, y) && Live(p, from, Some(y), handlers[i].block)
    requires var u := ThrowsStmt(p, depth, stack, caught, body).thrown;
             Reported(BlockInfo(p, depth, stack, handlers, i, u), x)
    ensures Handling(home, caught, cur) && Raises(p, from, n, Try(body, handlers), cur, x)
    decreases depth, 1
  {
    var u := ThrowsStmt(p, depth, stack, caught, body).thrown;
    var y :| ReachedBy(p, from, home, body, handlers, i, y) && Live(p, from, Some(y), handlers[i].block);
    var types := RethrowTypes(p, handlers, i, u);
    var m, c := StmtPrecise(p, from, depth, stack, types, true, Some(y), handlers[i].block, x);
    if c == Some(y) {
      n, cur :| Raises(p, from, n, body, home, y) && cur == home;
    } else {
      n, cur := StmtPrecise(p, from, depth, stack, caught, may, home, body, c.value);
    }
    n := HandlerRuns(p, from, n, m, body, handlers, i, cur, c.value, x);
  }

  lemma HandlerRuns(p: Program, from: Origin, n: nat, m: nat, body: Stmt, handlers: seq<Handler>, i: nat,
                    cur: Option<Exc>, y: Exc, x: Exc)
    returns (d: nat)
    requires TakenBy(p, handlers, i, y) && Raises(p, from, n, body, cur, y)
    requires Raises(p, from, m, handlers[i].block, Some(y), x)
    ensures Raises(p, from, d, Try(body, handlers), cur, x)
  {
    d := if n < m then m else n;
    RaisesDeeper(p, from, n, d, body, cur, y);
    RaisesDeeper(p, from, m, d, handlers[i].block, Some(y), x);
  }

  lemma {:induction false} FuncPrecise(p: Program, from: Origin, depth: nat, stack: set<FuncId>, f: FuncId,
                                       cur: Option<Exc>, x: Exc)
    returns (n: nat)
    requires Precise(p, from, x) && Reported(ThrowsFunc(p, depth, stack, f), x)
    ensures FuncRaises(p, from, n, f, cur, x)
    decreases depth, 1
  {
    if p.HasBody(f) {
      FuncReports(p, depth - 1, stack, f, x);
      var s :| PartOf(p, f, s) && Reported(ThrowsStmt(p, depth - 1, stack + {f}, {}, s), x);
      PartIsTame(p, true, f, s);
      var c: Option<Exc>;
      n, c := StmtPrecise(p, from, depth - 1, stack + {f}, {}, false, None, s, x);
      HandledIsIrrelevant(p, from, n, s, c, cur, x);
    } else {
      ExternalReports(p, depth - 1, stack, f, x);
      n := 0;
    }
  }

  // ----- main results -----

  /** Soundness: with enough levels, what a call of `f` raises is reported, wherever foreign
      exceptions come from; and if they come from functions without a body only, and no
      catch(...) rethrows, the unknown flag is set whenever one gets out. */
  lemma NothingRaisedIsMissed(p: Program, all: bool, from: Origin, k: nat, h: nat, max: int, f: FuncId, x: Exc)
    requires TameProgram(p, all) && GuardedProgram(p) && EnoughLevels(p, f, k, h, max)
    requires x.Foreign? ==> !from.Unvisited? && !all
    requires MayRaise(p, from, f, x)
    ensures Reported(ThrowsFunc(p, LevelsLeft(max, 0), {}, f), x)
  {
    TameProgramInAll(p, all);
    var n: nat :| FuncRaises(p, from, n, f, None, x);
    var depth, cut := FuncSound(p, all, {}, from, n, f, None, x);
    var top := if depth < max then max else depth;
    RaisingTheLevelOnlyAdds(p, depth, top, {}, {}, f);
    LevelStabilises(p, k, h, max, top, f);
  }

  /** Precision: at any level, with or without call cycles, what is reported can be raised,
      if every catch(...) is live. */
  lemma NothingReportedIsSpurious(p: Program, from: Origin, max: int, f: FuncId, x: Exc)
    requires TameProgram(p, true) && LiveProgram(p, from) && (x.Foreign? ==> !from.Nowhere?)
    requires Reported(ThrowsFunc(p, LevelsLeft(max, 0), {}, f), x)
    ensures MayRaise(p, from, f, x)
  {
    var n := FuncPrecise(p, from, LevelsLeft(max, 0), {}, f, None, x);
  }

  /** For tame, guarded and live programs, and enough levels, the analyzer reports exactly
      the types that may be raised, wherever foreign exceptions come from. */
  lemma AnalysisIsExact(p: Program, from: Origin, k: nat, h: nat, max: int, f: FuncId, t: TypeId)
    requires TameProgram(p, true) && GuardedProgram(p) && LiveProgram(p, from) && EnoughLevels(p, f, k, h, max)
    ensures t in ThrowsFunc(p, LevelsLeft(max, 0), {}, f).thrown <==> MayRaise(p, from, f, Known(t))
  {
    if t in ThrowsFunc(p, LevelsLeft(max, 0), {}, f).thrown {
      NothingReportedIsSpurious(p, from, max, f, Known(t));
    }
    if MayRaise(p, from, f, Known(t)) {
      NothingRaisedIsMissed(p, true, from, k, h, max, f, Known(t));
    }
  }

  /** In particular without catch(...) it is exact even if nothing but the code it visits
      raises anything. */
  lemma ExactWithoutCatchAll(p: Program, k: nat, h: nat, max: int, f: FuncId, t: TypeId)
    requires TameProgram(p, true) && GuardedProgram(p) && CatchAllFreeProgram(p) && EnoughLevels(p, f, k, h, max)
    ensures t in ThrowsFunc(p, LevelsLeft(max, 0), {}, f).thrown <==> MayRaise(p, Nowhere, f, Known(t))
  {
    CatchAllFreeIsLive(p, Nowhere);
    AnalysisIsExact(p, Nowhere, k, h, max, f, t);
  }

  /** With catch(...), a check on the syntax is enough. */
  lemma ExactIfAwake(p: Program, from: Origin, n: nat, k: nat, h: nat, max: int, f: FuncId, t: TypeId)
    requires TameProgram(p, true) && GuardedProgram(p) && AwakeProgram(p, from, n) && EnoughLevels(p, f, k, h, max)
    ensures t in ThrowsFunc(p, LevelsLeft(max, 0), {}, f).thrown <==> MayRaise(p, from, f, Known(t))
  {
    AwakeIsLive(p, from, n);
    AnalysisIsExact(p, from, k, h, max, f, t);
  }

  /** If moreover no catch(...) rethrows, the unknown flag is set exactly if an exception
      from a function without a body may get out of a call: it is caught like any other,
      and handlers that only such an exception or a known one reaches count. */
  lemma UnknownFlagIsExact(p: Program, k: nat, h: nat, max: int, f: FuncId)
    requires TameProgram(p, false) && GuardedProgram(p) && LiveProgram(p, External) && EnoughLevels(p, f, k, h, max)
    ensures ThrowsFunc(p, LevelsLeft(max, 0), {}, f).containsUnknown <==> MayRaise(p, External, f, Foreign)
  {
    if ThrowsFunc(p, LevelsLeft(max, 0), {}, f).containsUnknown {
      TameProgramInAll(p, false);
      NothingReportedIsSpurious(p, External, max, f, Foreign);
    }
    if MayRaise(p, External, f, Foreign) {
      NothingRaisedIsMissed(p, false, External, k, h, max, f, Foreign);
    }
  }
}
