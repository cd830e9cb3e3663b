/** Programs without try blocks, whatever their call cycles: the recursion cut-off
    loses nothing, and the result is what the reachable functions contribute. */
module CallCycles {
  import opened Basics
  import opened Ast
  import opened Graphs
  import opened CallGraph
  import opened ThrowAnalysis
  import opened ThrowLevels
  import opened RaiseSemantics
  import opened GuardedPrograms
  import opened LiveHandlers
  import opened ThrowReports
  import opened ThrowPrecision

  /** `s` throws `x` itself, in code it contains. */
  ghost predicate ThrowsItself(s: Stmt, x: Exc) {
    match s
    case Throw(t) => x == Known(t)
    case DefaultInit(expr) => ThrowsItself(expr, x)
    case Other(children) => exists i :: 0 <= i < |children| && ThrowsItself(children[i], x)
    case _ => false
  }

  /** What function `f` contributes on its own: its throw expressions, or, without a
      body, its exception specification and that it is unknown. */
  ghost predicate Contributes(p: Program, f: FuncId, x: Exc) {
    if p.HasBody(f) then exists s :: PartOf(p, f, s) && ThrowsItself(s, x)
    else x.Foreign? || x.ty in p.Func(f).spec
  }

  // ----- everything reported is contributed by a reachable function -----

  /** Where a statement's result comes from: itself, or a function it calls. */
  lemma {:induction false} StmtSource(p: Program, depth: nat, stack: set<FuncId>, s: Stmt, x: Exc)
    returns (g: FuncId, inner: nat)
    requires HandlerFree(s) && Reported(ThrowsStmt(p, depth, stack, {}, s), x)
    ensures ThrowsItself(s, x) || (CallsTo(s, g) && inner < depth && Reported(ThrowsFunc(p, inner, stack, g), x))
    decreases depth
  {
    g, inner := 0, 0;
    match s
    case Throw(_) =>
    case Call(callee) => g, inner := callee.value, depth - 1;
    case Construct(ctor) => g, inner := ctor, depth - 1;
    case DefaultInit(expr) => g, inner := StmtSource(p, depth - 1, stack, expr, x);
    case Other(children) =>
      ChildrenReport(p, depth - 1, stack, {}, children, x);
      var i :| 0 <= i < |children| && Reported(ThrowsStmt(p, depth - 1, stack, {}, children[i]), x);
      g, inner := StmtSource(p, depth - 1, stack, children[i], x);
  }

  lemma {:induction false} FuncSource(p: Program, depth: nat, stack: set<FuncId>, f: FuncId, x: Exc) returns (g: FuncId)
    requires HandlerFreeProgram(p) && Reported(ThrowsFunc(p, depth, stack, f), x)
    ensures Reaches(CallEdge(p), f, g) && Contributes(p, g, x)
    decreases depth
  {
    ReachesSelf(CallEdge(p), f);
    g := f;
    if p.HasBody(f) {
      FuncReports(p, depth - 1, stack, f, x);
      var s :| PartOf(p, f, s) && Reported(ThrowsStmt(p, depth - 1, stack + {f}, {}, s), x);
      var callee, inner := StmtSource(p, depth - 1, stack + {f}, s, x);
      if !ThrowsItself(s, x) {
        g := FuncSource(p, inner, stack + {f}, callee, x);
        assert CallEdge(p)(f, callee);
        StepReaches(CallEdge(p), f, callee, g);
      }
    } else {
      ExternalReports(p, depth - 1, stack, f, x);
    }
  }

  // ----- everything a reachable function contributes is reported -----

  lemma {:induction false} OwnThrowReported(p: Program, stack: set<FuncId>, s: Stmt, x: Exc) returns (depth: nat)
    requires HandlerFree(s) && ThrowsItself(s, x)
    ensures Reported(ThrowsStmt(p, depth, stack, {}, s), x)
    decreases s
  {
    match s {
      case Throw(_) => depth := 1;
      case DefaultInit(expr) =>
        depth := OwnThrowReported(p, stack, expr, x);
        depth := depth + 1;
      case Other(children) =>
        var i :| 0 <= i < |children| && ThrowsItself(children[i], x);
        depth := OwnThrowReported(p, stack, children[i], x);
        ChildrenReport(p, depth, stack, {}, children, x);
        depth := depth + 1;
    }
  }

  lemma {:induction false} CalleeReported(p: Program, stack: set<FuncId>, s: Stmt, g: FuncId, inner: nat, x: Exc)
    returns (depth: nat)
    requires HandlerFree(s) && CallsTo(s, g) && Reported(ThrowsFunc(p, inner, stack, g), x)
    ensures Reported(ThrowsStmt(p, depth, stack, {}, s), x)
    decreases s
  {
    match s {
      case Call(_) => depth := inner + 1;
      case Construct(_) => depth := inner + 1;
      case DefaultInit(expr) =>
        depth := CalleeReported(p, stack, expr, g, inner, x);
        depth := depth + 1;
      case Other(children) =>
        var i :| 0 <= i < |children| && CallsTo(children[i], g);
        depth := CalleeReported(p, stack, children[i], g, inner, x);
        ChildrenReport(p, depth, stack, {}, children, x);
        depth := depth + 1;
    }
  }

  lemma CallingPart(p: Program, f: FuncId, g: FuncId) returns (s: Stmt)
    requires Calls(p, f, g)
    ensures PartOf(p, f, s) && CallsTo(s, g)
  {
    var fn := p.Func(f);
    s := fn.body.value;
    if !CallsTo(s, g) {
      var i :| 0 <= i < |fn.inits| && CallsTo(fn.inits[i], g);
      s := fn.inits[i];
    }
  }

  /** Along a path that visits nothing twice, and nothing on the call stack, the walk is
      never cut. */
  lemma {:induction false} PathReported(p: Program, stack: set<FuncId>, path: seq<FuncId>, x: Exc) returns (depth: nat)
    requires HandlerFreeProgram(p) && IsPath(CallEdge(p), path) && Simple(path)
    requires forall i :: 0 <= i < |path| ==> path[i] !in stack
    requires Contributes(p, path[|path| - 1], x)
    ensures Reported(ThrowsFunc(p, depth, stack, path[0]), x)
    decreases |path|
  {
    var f := path[0];
    depth := 0;
    if |path| == 1 && !p.HasBody(f) {
      ExternalReports(p, 0, stack, f, x);
    } else {
      if |path| == 1 {
        var s :| PartOf(p, f, s) && ThrowsItself(s, x);
        depth := OwnThrowReported(p, stack + {f}, s, x);
      } else {
        TailIsPath(CallEdge(p), path);
        depth := PathReported(p, stack + {f}, path[1..], x);
        var s := CallingPart(p, f, path[1]);
        depth := CalleeReported(p, stack + {f}, s, path[1], depth, x);
      }
      FuncReports(p, depth, stack, f, x);
    }
    depth := depth + 1;
  }

  // ----- main result -----

  /** For a program without try blocks and with enough levels, a type is reported iff a
      reachable function throws or specifies it, and the unknown flag is set iff a
      reachable function has no body. */
  lemma ReportIsReachableContributions(p: Program, k: nat, h: nat, max: int, f: FuncId, x: Exc)
    requires HandlerFreeProgram(p) && EnoughLevels(p, f, k, h, max)
    ensures Reported(ThrowsFunc(p, LevelsLeft(max, 0), {}, f), x) <==>
              exists g :: Reaches(CallEdge(p), f, g) && Contributes(p, g, x)
  {
    if Reported(ThrowsFunc(p, LevelsLeft(max, 0), {}, f), x) {
      var g := FuncSource(p, LevelsLeft(max, 0), {}, f, x);
    }
    if g :| Reaches(CallEdge(p), f, g) && Contributes(p, g, x) {
      var path :| Connects(CallEdge(p), path, f, g);
      path := SimplePath(CallEdge(p), path, f, g);
      var depth := PathReported(p, {}, path, x);
      var top := if depth < max then max else depth;
      RaisingTheLevelOnlyAdds(p, depth, top, {}, {}, f);
      LevelStabilises(p, k, h, max, top, f);
    }
  }

  // ----- the unknown flag, with handlers -----

  /** `s` has a call of `g` outside of handlers. */
  ghost predicate CallsOutside(s: Stmt, g: FuncId) {
    match s
    case Try(body, _) => CallsOutside(body, g)
    case Call(callee) => callee == Some(g)
    case Construct(ctor) => ctor == g
    case DefaultInit(expr) => CallsOutside(expr, g)
    case Other(children) => exists i :: 0 <= i < |children| && CallsOutside(children[i], g)
    case _ => false
  }

  ghost function OutsideEdge(p: Program): (FuncId, FuncId) -> bool {
    (f: FuncId, g: FuncId) => exists s :: PartOf(p, f, s) && CallsOutside(s, g)
  }

  lemma {:induction false} ForeignGetsOut(p: Program, n: nat, s: Stmt, g: FuncId)
    requires CatchAllFree(s) && CallsOutside(s, g) && FuncRaises(p, External, n, g, None, Foreign)
    ensures Raises(p, External, n + 1, s, None, Foreign)
  {
    match s
    case Try(body, _) => ForeignGetsOut(p, n, body, g);
    case DefaultInit(expr) => ForeignGetsOut(p, n, expr, g);
    case Other(children) =>
      var i :| 0 <= i < |children| && CallsOutside(children[i], g);
      ForeignGetsOut(p, n, children[i], g);
    case _ =>
  }

  lemma {:induction false} ForeignAlongPath(p: Program, path: seq<FuncId>)
    requires CatchAllFreeProgram(p) && IsPath(OutsideEdge(p), path) && !p.HasBody(path[|path| - 1])
    ensures FuncRaises(p, External, |path| - 1, path[0], None, Foreign)
    decreases |path|
  {
    if |path| > 1 {
      TailIsPath(OutsideEdge(p), path);
      ForeignAlongPath(p, path[1..]);
      var s :| PartOf(p, path[0], s) && CallsOutside(s, path[1]);
      ForeignGetsOut(p, |path| - 2, s, path[1]);
    }
  }

  /** Without catch(...) the flag is set whenever a function without a body is reached by
      calls outside of handlers; and whenever it is set, one may raise an exception that
      gets out. */
  lemma FlagWithTypedHandlers(p: Program, k: nat, h: nat, max: int, f: FuncId, g: FuncId)
    requires TameProgram(p, false) && GuardedProgram(p) && CatchAllFreeProgram(p) && EnoughLevels(p, f, k, h, max)
    ensures Reaches(OutsideEdge(p), f, g) && !p.HasBody(g) ==>
              ThrowsFunc(p, LevelsLeft(max, 0), {}, f).containsUnknown
    ensures ThrowsFunc(p, LevelsLeft(max, 0), {}, f).containsUnknown <==> MayRaise(p, External, f, Foreign)
  {
    CatchAllFreeIsLive(p, External);
    UnknownFlagIsExact(p, k, h, max, f);
    if Reaches(OutsideEdge(p), f, g) && !p.HasBody(g) {
      var path :| Connects(OutsideEdge(p), path, f, g);
      ForeignAlongPath(p, path);
    }
  }
}
