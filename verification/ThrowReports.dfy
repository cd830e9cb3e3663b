/** Closed forms of what the walk reports, one exception at a time: of a statement with
    children, a try statement and a function. */
module ThrowReports {
  import opened Basics
  import opened Ast
  import opened CallGraph
  import opened ExceptionInfos
  import opened ThrowAnalysis
  import opened ThrowLevels
  import opened HandlerDispatch
  import opened RaiseSemantics

  /** A result accounts for `x`: its type is among the thrown ones, or, when it is foreign,
      the unknown flag is set. */
  predicate Reported(i: Info, x: Exc) {
    match x
    case Known(t) => t in i.thrown
    case Foreign => i.containsUnknown
  }

  // ----- closed forms of the function loops -----

  lemma {:induction false} FuncLoopThrows(p: Program, depth: nat, stack: set<FuncId>, fn: Function, k: nat)
    requires fn.body.Some? && k <= |fn.inits|
    ensures forall t :: t in FuncLoop(p, depth, stack, fn, k).thrown <==>
              t in ThrowsStmt(p, depth, stack, {}, fn.body.value).thrown ||
              exists i :: 0 <= i < k && t in ThrowsStmt(p, depth, stack, {}, fn.inits[i]).thrown
    ensures FuncLoop(p, depth, stack, fn, k).containsUnknown <==>
              ThrowsStmt(p, depth, stack, {}, fn.body.value).containsUnknown ||
              exists i :: 0 <= i < k && ThrowsStmt(p, depth, stack, {}, fn.inits[i]).containsUnknown
  {
    if k > 0 {
      FuncLoopThrows(p, depth, stack, fn, k - 1);
    }
  }

  lemma InitialisersInclude(p: Program, depth: nat, stack: set<FuncId>, fn: Function, gn: Function)
    requires fn.body.Some? && fn.body == gn.body && forall s :: s in fn.inits ==> s in gn.inits
    ensures Leq(FuncLoop(p, depth, stack, fn, |fn.inits|), FuncLoop(p, depth, stack, gn, |gn.inits|))
  {
    FuncLoopThrows(p, depth, stack, fn, |fn.inits|);
    FuncLoopThrows(p, depth, stack, gn, |gn.inits|);
    forall i | 0 <= i < |fn.inits|
      ensures exists j :: 0 <= j < |gn.inits| && gn.inits[j] == fn.inits[i]
    {
      assert fn.inits[i] in gn.inits;
    }
  }

  /** The order of a constructor's initialisers does not matter, as every walk restores
      the call stack. */
  lemma InitialiserOrderIsIrrelevant(p: Program, depth: nat, stack: set<FuncId>, fn: Function, gn: Function)
    requires fn.body.Some? && fn.body == gn.body && forall s :: s in fn.inits <==> s in gn.inits
    ensures FuncLoop(p, depth, stack, fn, |fn.inits|) == FuncLoop(p, depth, stack, gn, |gn.inits|)
  {
    InitialisersInclude(p, depth, stack, fn, gn);
    InitialisersInclude(p, depth, stack, gn, fn);
    FuncLoopReportsThrowing(p, depth, stack, fn, |fn.inits|);
    FuncLoopReportsThrowing(p, depth, stack, gn, |gn.inits|);
  }

  lemma {:induction false} SpecLoopThrows(spec: seq<TypeId>, k: nat)
    requires k <= |spec|
    ensures SpecLoop(spec, k).thrown == (set t | t in spec[..k]) && SpecLoop(spec, k).containsUnknown
  {
    if k > 0 {
      SpecLoopThrows(spec, k - 1);
      assert spec[..k] == spec[..k - 1] + [spec[k - 1]];
    }
  }

  // ----- one exception at a time -----

  lemma ChildrenReport(p: Program, depth: nat, stack: set<FuncId>, caught: set<TypeId>, children: seq<Stmt>, x: Exc)
    ensures Reported(ThrowsStmt(p, depth + 1, stack, caught, Other(children)), x) <==>
              exists i :: 0 <= i < |children| && Reported(ThrowsStmt(p, depth, stack, caught, children[i]), x)
  {
    ChildrenThrow(p, depth, stack, caught, children, |children|);
  }

  /** Some handler is analysed and its block reports `x`. */
  ghost predicate SomeBlockReports(p: Program, depth: nat, stack: set<FuncId>, handlers: seq<Handler>,
                                   thrown: set<TypeId>, x: Exc)
  {
    exists i :: 0 <= i < |handlers| && Analysed(p, handlers, i, thrown) &&
                Reported(BlockInfo(p, depth, stack, handlers, i, thrown), x)
  }

  lemma TryReports(p: Program, depth: nat, stack: set<FuncId>, caught: set<TypeId>,
                   body: Stmt, handlers: seq<Handler>, x: Exc)
    ensures var u := ThrowsStmt(p, depth, stack, caught, body);
            Reported(ThrowsStmt(p, depth + 1, stack, caught, Try(body, handlers)), x) <==>
              (Reported(u, x) && Uncaught(p, handlers, x)) ||
              SomeBlockReports(p, depth, stack, handlers, u.thrown, x)
  {
    TryThrows(p, depth + 1, stack, caught, Try(body, handlers));
  }

  lemma FuncReports(p: Program, depth: nat, stack: set<FuncId>, f: FuncId, x: Exc)
    requires f !in stack && p.HasBody(f)
    ensures Reported(ThrowsFunc(p, depth + 1, stack, f), x) <==>
              exists s :: PartOf(p, f, s) && Reported(ThrowsStmt(p, depth, stack + {f}, {}, s), x)
  {
    var fn := p.Func(f);
    FuncLoopThrows(p, depth, stack + {f}, fn, |fn.inits|);
    assert PartOf(p, f, fn.body.value);
    assert forall i :: 0 <= i < |fn.inits| ==> PartOf(p, f, fn.inits[i]);
  }

  lemma ExternalReports(p: Program, depth: nat, stack: set<FuncId>, f: FuncId, x: Exc)
    requires f !in stack && !p.HasBody(f)
    ensures Reported(ThrowsFunc(p, depth + 1, stack, f), x) <==> x.Foreign? || x.ty in p.Func(f).spec
  {
    var spec := p.Func(f).spec;
    SpecLoopThrows(spec, |spec|);
    assert spec[..|spec|] == spec;
  }

  /** More levels, fewer functions on the stack and more caught types report more. */
  lemma ReportsMore(p: Program, d: nat, e: nat, stack: set<FuncId>, caught: set<TypeId>, more: set<TypeId>,
                    s: Stmt, x: Exc)
    requires d <= e && caught <= more && Reported(ThrowsStmt(p, d, stack, caught, s), x)
    ensures Reported(ThrowsStmt(p, e, stack, more, s), x)
  {
    StmtMonotone(p, 0, 0, 0, d, e, stack, stack, caught, more, s);
  }

  // ----- statements without handlers -----

  /** With levels left: a throw reports its type and a bare one the caught types, a call and
      a construction what their function does, and a default initialiser what its
      expression does in the same handler. */
  lemma SimpleStatementsReport(p: Program, depth: nat, stack: set<FuncId>, caught: set<TypeId>,
                               t: TypeId, g: FuncId, expr: Stmt, x: Exc)
    ensures Reported(ThrowsStmt(p, depth + 1, stack, caught, Throw(t)), x) <==> x == Known(t)
    ensures Reported(ThrowsStmt(p, depth + 1, stack, caught, Rethrow), x) <==> x.Known? && x.ty in caught
    ensures Reported(ThrowsStmt(p, depth + 1, stack, caught, Call(Some(g))), x) <==>
              Reported(ThrowsFunc(p, depth, stack, g), x)
    ensures Reported(ThrowsStmt(p, depth + 1, stack, caught, Construct(g)), x) <==>
              Reported(ThrowsFunc(p, depth, stack, g), x)
    ensures Reported(ThrowsStmt(p, depth + 1, stack, caught, DefaultInit(expr)), x) <==>
              Reported(ThrowsStmt(p, depth, stack, caught, expr), x)
    ensures !Reported(ThrowsStmt(p, depth + 1, stack, caught, Call(None)), x)
    ensures !Reported(ThrowsStmt(p, depth + 1, stack, caught, Null), x)
  {
  }

  // ----- which handler takes what -----

  /** What gets out of a try block that throws `d` under two handlers, one throwing `x`, the
      other `y`. */
  function FirstMatch(p: Program, d: TypeId, b: TypeId, c: TypeId, x: TypeId, y: TypeId): TypeId {
    if p.Catches(b, d) then x else if p.Catches(c, d) then y else d
  }

  lemma FirstMatchReports(p: Program, depth: nat, stack: set<FuncId>, caught: set<TypeId>,
                          d: TypeId, b: TypeId, c: TypeId, x: TypeId, y: TypeId, t: TypeId)
    requires depth > 0
    ensures var s := Try(Throw(d), [Catch(b, Throw(x)), Catch(c, Throw(y))]);
            t in ThrowsStmt(p, depth + 1, stack, caught, s).thrown <==> t == FirstMatch(p, d, b, c, x, y)
  {
    var handlers := [Catch(b, Throw(x)), Catch(c, Throw(y))];
    var u := ThrowsStmt(p, depth, stack, caught, Throw(d)).thrown;
    assert u == {d};
    TryReports(p, depth, stack, caught, Throw(d), handlers, Known(t));
    assert TakenBy(p, handlers, 0, Known(d)) <==> p.Catches(b, d);
    assert TakenBy(p, handlers, 1, Known(d)) <==> !p.Catches(b, d) && p.Catches(c, d);
    assert BlockInfo(p, depth, stack, handlers, 0, u).thrown == {x};
    assert BlockInfo(p, depth, stack, handlers, 1, u).thrown == {y};
    assert Uncaught(p, handlers, Known(d)) <==> !p.Catches(b, d) && !p.Catches(c, d);
  }

  lemma FirstMatchRaises(p: Program, d: TypeId, b: TypeId, c: TypeId, x: TypeId, y: TypeId, t: TypeId)
    ensures StmtMayRaise(p, Nowhere, Try(Throw(d), [Catch(b, Throw(x)), Catch(c, Throw(y))]), Known(t)) <==>
              t == FirstMatch(p, d, b, c, x, y)
  {
    var handlers := [Catch(b, Throw(x)), Catch(c, Throw(y))];
    var s := Try(Throw(d), handlers);
    if n: nat :| Raises(p, Nowhere, n, s, None, Known(t)) {
      var handled, i, z := WhichHandler(p, Nowhere, n, s.body, handlers, None, Known(t));
      assert Raises(p, Nowhere, n, s.body, None, if handled then z else Known(t));
      if handled {
        assert z == Known(d) && Takes(p, handlers[i], z) && (i == 1 ==> !Takes(p, handlers[0], z));
      } else {
        assert !Takes(p, handlers[0], Known(d)) && !Takes(p, handlers[1], Known(d));
      }
    }
    if t == FirstMatch(p, d, b, c, x, y) {
      var i := if p.Catches(b, d) then 0 else 1;
      assert p.Catches(b, d) || p.Catches(c, d) ==> TakenBy(p, handlers, i, Known(d));
      assert Raises(p, Nowhere, 0, s.body, None, Known(d));
      assert Raises(p, Nowhere, 0, handlers[i].block, Some(Known(d)), Known(if i == 0 then x else y));
      assert Raises(p, Nowhere, 0, s, None, Known(t));
    }
  }

  /** The first handler that names the thrown type or a base class of it takes it, for the
      analyzer and in the semantics; a later one that fits better does not matter. */
  lemma FirstMatchTakes(p: Program, depth: nat, stack: set<FuncId>, caught: set<TypeId>,
                        d: TypeId, b: TypeId, c: TypeId, x: TypeId, y: TypeId)
    requires depth > 1
    ensures var s := Try(Throw(d), [Catch(b, Throw(x)), Catch(c, Throw(y))]);
            var out := if d == b || (d, b) in p.derives then x else if d == c || (d, c) in p.derives then y else d;
            ThrowsStmt(p, depth, stack, caught, s).thrown == {out} &&
            forall t :: StmtMayRaise(p, Nowhere, s, Known(t)) <==> t == out
  {
    var s := Try(Throw(d), [Catch(b, Throw(x)), Catch(c, Throw(y))]);
    var out := FirstMatch(p, d, b, c, x, y);
    var report := ThrowsStmt(p, depth, stack, caught, s).thrown;
    forall t
      ensures t in report <==> t == out
      ensures StmtMayRaise(p, Nowhere, s, Known(t)) <==> t == out
    {
      FirstMatchReports(p, depth - 1, stack, caught, d, b, c, x, y, t);
      FirstMatchRaises(p, d, b, c, x, y, t);
    }
    assert report == {out};
  }
}
