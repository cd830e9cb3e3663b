/** A program that has everything the exactness results allow at once: recursion through a
    try block, a bare `throw;` in a typed handler, and one in catch(...) after some work that
    handles its own exceptions. */
module ExactExample {
  import opened Basics
  import opened Ast
  import opened CallGraph
  import opened ThrowAnalysis
  import opened ThrowLevels
  import opened RaiseSemantics
  import opened GuardedPrograms
  import opened LiveHandlers
  import opened ThrowPrecision

  /** try { throw C; } catch (C) { } throw; */
  function CleanUp(c: TypeId): Stmt {
    Other([Try(Throw(c), [Catch(c, Null)]), Rethrow])
  }

  /** void f() { try { f(); throw A; } catch (C) { throw; } catch (...) { clean up } } */
  function Retry(f: FuncId, a: TypeId, c: TypeId): Program {
    Program(map[f := Function(Some(RetryBody(f, a, c)), [], [])], {}, map[])
  }

  function RetryBody(f: FuncId, a: TypeId, c: TypeId): Stmt {
    Try(Other([Call(Some(f)), Throw(a)]), [Catch(c, Rethrow), CatchAll(CleanUp(c))])
  }

  lemma SilentTryIsTame(p: Program, c: TypeId, f: FuncId, may: bool)
    ensures var s := Try(Throw(c), [Catch(c, Null)]);
            Tame(p, true, s, may) && Guarded(p, s, f) && HeightAtMost(s, 2) && !CallsTo(s, f)
  {
    var s := Try(Throw(c), [Catch(c, Null)]);
    assert Tame(p, true, s.handlers[0].block, MayRethrow(p, true, s.handlers[0])) && Tame(p, true, s.body, may);
    assert Guarded(p, s.handlers[0].block, f) && Guarded(p, s.body, f);
    assert !CallsTo(s.handlers[0].block, f) && !CallsTo(s.body, f);
    assert HeightAtMost(s.handlers[0].block, 1) && HeightAtMost(s.body, 1);
  }

  lemma CleanUpIsTame(p: Program, c: TypeId, f: FuncId)
    ensures Tame(p, true, CleanUp(c), true) && LetsRethrown(p, CleanUp(c)) && Guarded(p, CleanUp(c), f)
    ensures HeightAtMost(CleanUp(c), 3) && !CallsTo(CleanUp(c), f)
  {
    SilentTryIsTame(p, c, f, true);
    SilentTryIsTame(p, c, f, false);
    assert CleanUp(c).children[1] == Rethrow && !CallsTo(CleanUp(c).children[1], f);
  }

  lemma CleanUpIsAwake(p: Program, c: TypeId, from: Origin, y: Exc)
    ensures Awake(p, from, 0, Some(y), CleanUp(c)) && Raises(p, from, 0, CleanUp(c), Some(y), y)
  {
    var s := Try(Throw(c), [Catch(c, Null)]);
    assert s.handlers[0].Catch? && Awake(p, from, 0, TypedHome(p, c), s.handlers[0].block);
    assert Awake(p, from, 0, Some(y), s);
    assert Raises(p, from, 0, CleanUp(c).children[1], Some(y), y);
  }

  lemma RetryIsTame(f: FuncId, a: TypeId, c: TypeId)
    ensures TameProgram(Retry(f, a, c), true)
  {
    var p, s := Retry(f, a, c), RetryBody(f, a, c);
    CleanUpIsTame(p, c, f);
    assert Tame(p, true, s.body, false);
    assert forall i :: 0 <= i < 2 ==> Tame(p, true, s.handlers[i].block, MayRethrow(p, true, s.handlers[i]));
    assert Tame(p, true, s, false);
  }

  lemma RetryIsGuarded(f: FuncId, a: TypeId, c: TypeId)
    ensures GuardedProgram(Retry(f, a, c))
  {
    var p, s := Retry(f, a, c), RetryBody(f, a, c);
    CleanUpIsTame(p, c, f);
    assert Bland(p, s.handlers);
    assert Guarded(p, s.handlers[0].block, f) && Guarded(p, s.handlers[1].block, f) && Guarded(p, s.body, f);
    assert Guarded(p, s, f);
  }

  lemma ThrownTypeGetsOut(p: Program, f: FuncId, a: TypeId, from: Origin)
    ensures var body := Other([Call(Some(f)), Throw(a)]);
            GetsOut(p, from, 0, body, None, Known(a)) && Awake(p, from, 0, None, body)
  {
    var body := Other([Call(Some(f)), Throw(a)]);
    assert GetsOut(p, from, 0, body.children[1], None, Known(a));
  }

  /** The thrown type reaches the catch(...). */
  lemma RetryIsAwake(f: FuncId, a: TypeId, c: TypeId, from: Origin)
    requires a != c
    ensures AwakeProgram(Retry(f, a, c), from, 0)
  {
    var p, s := Retry(f, a, c), RetryBody(f, a, c);
    ThrownTypeGetsOut(p, f, a, from);
    CleanUpIsAwake(p, c, from, Known(a));
    assert TakenBy(p, s.handlers, 1, Known(a)) && Awake(p, from, 0, Some(Known(a)), s.handlers[1].block);
    assert s.handlers[0].Catch? && Awake(p, from, 0, TypedHome(p, c), s.handlers[0].block);
    assert Awake(p, from, 0, None, s);
  }

  lemma RetryIsShallow(f: FuncId, a: TypeId, c: TypeId)
    ensures EnoughLevels(Retry(f, a, c), f, 1, 4, 6)
  {
    var p, s := Retry(f, a, c), RetryBody(f, a, c);
    CleanUpIsTame(p, c, f);
    assert HeightAtMost(s.body, 3) && HeightAtMost(s.handlers[0].block, 3) && HeightAtMost(s, 4);
    assert {} + {f} == {f};
    forall g | Calls(p, f, g)
      ensures g == f
    {
      CleanUpIsTame(p, c, g);
      assert !CallsTo(s.handlers[0].block, g) && !CallsTo(s.handlers[1].block, g);
      assert CallsTo(s.body, g) && forall i :: 0 <= i < 2 ==> (CallsTo(s.body.children[i], g) ==> g == f);
    }
  }

  lemma RetryRaises(f: FuncId, a: TypeId, c: TypeId, from: Origin)
    requires a != c
    ensures MayRaise(Retry(f, a, c), from, f, Known(a))
  {
    var p, s := Retry(f, a, c), RetryBody(f, a, c);
    assert Raises(p, from, 0, s.body.children[1], None, Known(a));
    assert TakenBy(p, s.handlers, 1, Known(a)) && Raises(p, from, 0, s.body, None, Known(a));
    CleanUpIsAwake(p, c, from, Known(a));
    assert Raises(p, from, 0, s.handlers[1].block, Some(Known(a)), Known(a));
    assert Raises(p, from, 0, s, None, Known(a)) && FuncRaises(p, from, 0, f, None, Known(a));
  }

  /** With 6 levels or more its report is exact, wherever foreign exceptions come from, and
      not empty. */
  lemma RetryIsExact(f: FuncId, a: TypeId, c: TypeId, from: Origin, max: int, t: TypeId)
    requires a != c && max >= 6
    ensures var p := Retry(f, a, c); var report := ThrowsFunc(p, LevelsLeft(max, 0), {}, f).thrown;
            (t in report <==> MayRaise(p, from, f, Known(t))) && a in report
  {
    var p := Retry(f, a, c);
    RetryIsTame(f, a, c);
    RetryIsGuarded(f, a, c);
    RetryIsAwake(f, a, c, from);
    RetryIsShallow(f, a, c);
    ExactIfAwake(p, from, 0, 1, 4, max, f, t);
    ExactIfAwake(p, from, 0, 1, 4, max, f, a);
    RetryRaises(f, a, c, from);
  }
}
