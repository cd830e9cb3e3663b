/** What the analyzer makes of a bare `throw;`: why the exactness results ask for tame
    programs, and what becomes of the unknown flag. */
module RethrowLimits {
  import opened Basics
  import opened Ast
  import opened Graphs
  import opened CallGraph
  import opened ThrowAnalysis
  import opened HandlerDispatch
  import opened RaiseSemantics
  import opened GuardedPrograms
  import opened LiveHandlers
  import opened ThrowReports
  import opened CallCycles
  import opened AnalyzerLimits

  /** The report has exactly the types that may be raised. */
  ghost predicate Exact(p: Program, from: Origin, thrown: set<TypeId>, s: Stmt) {
    forall t :: t in thrown <==> StmtMayRaise(p, from, s, Known(t))
  }

  /** With `y` handled, `block` raises `x` iff `x` is `y`. */
  ghost predicate PassesOn(p: Program, from: Origin, block: Stmt, x: Exc) {
    forall n: nat, y :: n > 0 ==> (Raises(p, from, n, block, Some(y), x) <==> y == x)
  }

  ghost predicate AllPassOn(p: Program, from: Origin, handlers: seq<Handler>, x: Exc) {
    forall i :: 0 <= i < |handlers| ==> PassesOn(p, from, handlers[i].block, x)
  }

  lemma PassedOnRaises(p: Program, from: Origin, n: nat, body: Stmt, handlers: seq<Handler>, x: Exc)
    requires AllPassOn(p, from, handlers, x) && n > 0
    ensures Raises(p, from, n, Try(body, handlers), None, x) <==> Raises(p, from, n, body, None, x)
  {
    if Raises(p, from, n, Try(body, handlers), None, x) {
      var handled, i, y := WhichHandler(p, from, n, body, handlers, None, x);
      assert handled ==> PassesOn(p, from, handlers[i].block, x);
    }
    if Raises(p, from, n, body, None, x) {
      var i := FirstTaker(p, handlers, x);
      if i < |handlers| {
        assert PassesOn(p, from, handlers[i].block, x);
        assert Raises(p, from, n, handlers[i].block, Some(x), x);
      }
    }
  }

  /** Handlers that pass on what they take do not change what may be raised. */
  lemma PassingOnRaises(p: Program, from: Origin, body: Stmt, handlers: seq<Handler>, x: Exc)
    requires AllPassOn(p, from, handlers, x)
    ensures StmtMayRaise(p, from, Try(body, handlers), x) <==> StmtMayRaise(p, from, body, x)
  {
    var s := Try(body, handlers);
    if n: nat :| Raises(p, from, n, s, None, x) {
      RaisesDeeper(p, from, n, n + 1, s, None, x);
      PassedOnRaises(p, from, n + 1, body, handlers, x);
    }
    if n: nat :| Raises(p, from, n, body, None, x) {
      RaisesDeeper(p, from, n, n + 1, body, None, x);
      PassedOnRaises(p, from, n + 1, body, handlers, x);
    }
  }

  // ----- in a typed handler -----

  /** try { body } catch (B) { throw; } raises what its body does, but is reported to raise B
      in place of what the handler takes. Where the body is reported exactly, the statement
      is iff no type reported of it derives from B but B itself. That is why a tame program
      rethrows in typed handlers of a final type only. */
  lemma TypedRethrowIsExactIff(p: Program, from: Origin, depth: nat, stack: set<FuncId>, caught: set<TypeId>,
                               body: Stmt, b: TypeId)
    requires depth > 0 && Exact(p, from, ThrowsStmt(p, depth, stack, caught, body).thrown, body)
    ensures var u, s := ThrowsStmt(p, depth, stack, caught, body).thrown, Try(body, [Catch(b, Rethrow)]);
            Exact(p, from, ThrowsStmt(p, depth + 1, stack, caught, s).thrown, s) <==>
            forall t :: t in u && p.IsBaseOf(t, b) ==> t == b
  {
    var handlers := [Catch(b, Rethrow)];
    var s := Try(body, handlers);
    var u := ThrowsStmt(p, depth, stack, caught, body).thrown;
    var report := ThrowsStmt(p, depth + 1, stack, caught, s).thrown;
    forall t
      ensures t in report <==> (t in u && !p.Catches(b, t)) || (t == b && exists v :: v in u && p.Catches(b, v))
      ensures StmtMayRaise(p, from, s, Known(t)) <==> t in u
    {
      TypedRethrowReports(p, depth, stack, caught, body, b, t);
      PassingOnRaises(p, from, body, handlers, Known(t));
    }
  }

  lemma TypedRethrowReports(p: Program, depth: nat, stack: set<FuncId>, caught: set<TypeId>, body: Stmt, b: TypeId,
                            t: TypeId)
    requires depth > 0
    ensures var u := ThrowsStmt(p, depth, stack, caught, body).thrown;
            t in ThrowsStmt(p, depth + 1, stack, caught, Try(body, [Catch(b, Rethrow)])).thrown <==>
              (t in u && !p.Catches(b, t)) || (t == b && exists v :: v in u && p.Catches(b, v))
  {
    var handlers := [Catch(b, Rethrow)];
    var u := ThrowsStmt(p, depth, stack, caught, body).thrown;
    TryReports(p, depth, stack, caught, body, handlers, Known(t));
    assert BlockInfo(p, depth, stack, handlers, 0, u).thrown == {b};
    assert forall v :: TakenBy(p, handlers, 0, Known(v)) <==> p.Catches(b, v);
    assert Analysed(p, handlers, 0, u) <==> exists v :: v in u && p.Catches(b, v);
  }

  // ----- in catch(...) -----

  /** try { body } catch (...) { throw; } keeps every type of the body and forgets its
      unknown flag, though it raises exactly what the body does. */
  lemma RethrowForgetsUnknown(p: Program, from: Origin, depth: nat, stack: set<FuncId>, caught: set<TypeId>,
                              body: Stmt, x: Exc)
    requires depth > 1
    ensures var inner := ThrowsStmt(p, depth - 1, stack, caught, body);
            var outer := ThrowsStmt(p, depth, stack, caught, Try(body, [CatchAll(Rethrow)]));
            outer.thrown == inner.thrown && !outer.containsUnknown
    ensures StmtMayRaise(p, from, Try(body, [CatchAll(Rethrow)]), x) <==> StmtMayRaise(p, from, body, x)
  {
    var handlers := [CatchAll(Rethrow)];
    var u := ThrowsStmt(p, depth - 1, stack, caught, body).thrown;
    TryThrows(p, depth, stack, caught, Try(body, handlers));
    assert RethrowTypes(p, handlers, 0, u) == u;
    assert BlockInfo(p, depth - 1, stack, handlers, 0, u).thrown == u;
    assert Analysed(p, handlers, 0, u);
    forall t
      ensures SomeBlockThrows(p, depth - 1, stack, handlers, 1, u, t) <==> t in u
    {
    }
    assert forall t :: !Escapes(p, handlers, 1, t);
    PassingOnRaises(p, from, body, handlers, x);
  }

  // ----- in a function called from a handler -----

  /** void g() { throw; } */
  ghost predicate IsRethrow(p: Program, g: FuncId) {
    p.Func(g) == Function(Some(Rethrow), [], [])
  }

  lemma CalledRethrowPassesOn(p: Program, from: Origin, g: FuncId, x: Exc)
    requires IsRethrow(p, g) && !RaisesUnvisited(from, x)
    ensures PassesOn(p, from, Call(Some(g)), x)
  {
    forall n: nat, y | n > 0
      ensures Raises(p, from, n, Call(Some(g)), Some(y), x) <==> y == x
    {
      assert FuncRaises(p, from, n - 1, g, Some(y), x) <==> y == x;
    }
  }

  /** The walk forgets what is handled when it enters a function. */
  lemma CalledRethrowReports(p: Program, depth: nat, stack: set<FuncId>, caught: set<TypeId>, g: FuncId)
    requires IsRethrow(p, g)
    ensures ThrowsStmt(p, depth, stack, caught, Call(Some(g))).thrown == {}
  {
    if depth > 1 && g !in stack {
      assert ThrowsFunc(p, depth - 1, stack, g) == ThrowsStmt(p, depth - 2, stack + {g}, {}, Rethrow);
    }
  }

  /** Handlers that call such a function raise what they take, but are reported to raise
      nothing: of the types reported of the try block just those stay that no handler takes.
      Where the try block is reported exactly, the statement is iff no handler takes any of
      those types. With a catch(...) it is iff the try block raises none. */
  lemma CalledRethrowIsExactIff(p: Program, from: Origin, depth: nat, stack: set<FuncId>, caught: set<TypeId>,
                                body: Stmt, handlers: seq<Handler>, g: FuncId)
    requires IsRethrow(p, g) && forall i :: 0 <= i < |handlers| ==> handlers[i].block == Call(Some(g))
    ensures var u, s := ThrowsStmt(p, depth, stack, caught, body).thrown, Try(body, handlers);
            var report := ThrowsStmt(p, depth + 1, stack, caught, s).thrown;
            report == (set t | t in u && Uncaught(p, handlers, Known(t))) &&
            (Exact(p, from, u, body) ==>
               (Exact(p, from, report, s) <==> forall t :: t in u ==> Uncaught(p, handlers, Known(t)))) &&
            ((exists i :: 0 <= i < |handlers| && handlers[i].CatchAll?) ==>
               (Exact(p, from, report, s) <==> forall t :: !StmtMayRaise(p, from, body, Known(t))))
    ensures forall x :: !RaisesUnvisited(from, x) ==>
              (StmtMayRaise(p, from, Try(body, handlers), x) <==> StmtMayRaise(p, from, body, x))
  {
    var s := Try(body, handlers);
    var u := ThrowsStmt(p, depth, stack, caught, body).thrown;
    var report := ThrowsStmt(p, depth + 1, stack, caught, s).thrown;
    forall t
      ensures t in report <==> t in u && Uncaught(p, handlers, Known(t))
    {
      TryReports(p, depth, stack, caught, body, handlers, Known(t));
      forall i | 0 <= i < |handlers|
        ensures !Reported(BlockInfo(p, depth, stack, handlers, i, u), Known(t))
      {
        CalledRethrowReports(p, depth, stack, RethrowTypes(p, handlers, i, u), g);
      }
    }
    forall x | !RaisesUnvisited(from, x)
      ensures StmtMayRaise(p, from, s, x) <==> StmtMayRaise(p, from, body, x)
    {
      CalledRethrowPassesOn(p, from, g, x);
      PassingOnRaises(p, from, body, handlers, x);
    }
    assert forall t :: StmtMayRaise(p, from, s, Known(t)) <==> StmtMayRaise(p, from, body, Known(t));
  }

  /** void g() { throw; }  void f() { try { body } catch (...) { g(); } } */
  function CallingRethrow(f: FuncId, g: FuncId, body: Stmt, derives: set<(TypeId, TypeId)>): Program {
    Program(map[f := Function(Some(Try(body, [CatchAll(Call(Some(g)))])), [], []),
                g := Function(Some(Rethrow), [], [])], derives, map[])
  }

  lemma CallingRethrowIsAcyclic(f: FuncId, g: FuncId, body: Stmt, derives: set<(TypeId, TypeId)>)
    requires Plain(body) && f != g
    ensures Acyclic(CallingRethrow(f, g, body, derives))
  {
    var p := CallingRethrow(f, g, body, derives);
    forall a, b | Calls(p, a, b)
      ensures !Reaches(CallEdge(p), b, a)
    {
      PlainParts(p, body, b);
      assert CallsTo(Call(Some(g)), b) <==> b == g;
      assert a == f && b == g;
      forall path
        ensures !Connects(CallEdge(p), path, g, f)
      {
        if |path| > 1 {
          assert !CallEdge(p)(g, path[1]);
        }
      }
    }
  }

  lemma CallingRethrowRaises(f: FuncId, g: FuncId, body: Stmt, derives: set<(TypeId, TypeId)>, x: Exc)
    requires Plain(body) && f != g
    ensures MayRaise(CallingRethrow(f, g, body, derives), Nowhere, f, x) <==> ThrowsItself(body, x)
  {
    var p := CallingRethrow(f, g, body, derives);
    var s := p.Func(f).body.value;
    CalledRethrowPassesOn(p, Nowhere, g, x);
    PassingOnRaises(p, Nowhere, body, s.handlers, x);
    if n: nat :| FuncRaises(p, Nowhere, n, f, None, x) {
      assert Raises(p, Nowhere, n, s, None, x);
      var m: nat :| Raises(p, Nowhere, m, body, None, x);
      PlainRaises(p, m, body, None, x);
    }
    if ThrowsItself(body, x) {
      PlainRaises(p, 0, body, None, x);
      assert StmtMayRaise(p, Nowhere, s, x);
      var n: nat :| Raises(p, Nowhere, n, s, None, x);
      assert FuncRaises(p, Nowhere, n, f, None, x);
    }
  }

  /** A program without call cycles, guarded but not tame: whatever the level nothing is
      reported of `f`, which raises all that the body throws. */
  lemma CalledRethrowIsMissed(f: FuncId, g: FuncId, body: Stmt, derives: set<(TypeId, TypeId)>, depth: nat, t: TypeId)
    requires Plain(body) && f != g
    ensures var p := CallingRethrow(f, g, body, derives);
            Acyclic(p) && GuardedProgram(p) && !TameProgram(p, true) &&
            ThrowsFunc(p, depth, {}, f).thrown == {} &&
            (MayRaise(p, Nowhere, f, Known(t)) <==> ThrowsItself(body, Known(t)))
  {
    var p := CallingRethrow(f, g, body, derives);
    var handlers := [CatchAll(Call(Some(g)))];
    var s := Try(body, handlers);
    CallingRethrowIsAcyclic(f, g, body, derives);
    AcyclicIsGuarded(p);
    assert !TameFunc(p, true, p.functions[g]);
    if depth > 1 {
      assert ThrowsFunc(p, depth, {}, f) == ThrowsStmt(p, depth - 1, {} + {f}, {}, s);
      CalledRethrowIsExactIff(p, Nowhere, depth - 2, {} + {f}, {}, body, handlers, g);
      assert forall x :: !Uncaught(p, handlers, x);
    }
    CallingRethrowRaises(f, g, body, derives, Known(t));
  }
}
