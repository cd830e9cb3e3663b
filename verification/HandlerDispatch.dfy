/** The handler loop of a try statement, which shrinks a set in place, against
    first-match dispatch of one exception at a time. */
module HandlerDispatch {
  import opened Ast
  import opened ExceptionInfos
  import opened ThrowAnalysis
  import opened RaiseSemantics

  /** None of the first `k` handlers takes `t`. */
  ghost predicate Escapes(p: Program, handlers: seq<Handler>, k: nat, t: TypeId) {
    forall j :: 0 <= j < k <= |handlers| ==> !Takes(p, handlers[j], Known(t))
  }

  /** Handler `i` is analysed when the try block throws `thrown`: typed ones only if
      some thrown type reaches them. */
  ghost predicate Analysed(p: Program, handlers: seq<Handler>, i: nat, thrown: set<TypeId>) {
    i < |handlers| && (handlers[i].CatchAll? || exists t :: t in thrown && TakenBy(p, handlers, i, Known(t)))
  }

  /** The types a bare `throw;` directly in handler `i` stands for. */
  ghost function RethrowTypes(p: Program, handlers: seq<Handler>, i: nat, thrown: set<TypeId>): set<TypeId>
    requires i < |handlers|
  {
    match handlers[i]
    case CatchAll(_) => set t | t in thrown && Escapes(p, handlers, i, t)
    case Catch(ty, _) => {ty}
  }

  ghost function BlockInfo(p: Program, depth: nat, stack: set<FuncId>, handlers: seq<Handler>, i: nat,
                           thrown: set<TypeId>): Info
    requires i < |handlers|
  {
    ThrowsStmt(p, depth, stack, RethrowTypes(p, handlers, i, thrown), handlers[i].block)
  }

  /** One of the first `k` handlers is analysed and its block throws `t`. */
  ghost predicate SomeBlockThrows(p: Program, depth: nat, stack: set<FuncId>, handlers: seq<Handler>, k: nat,
                                  thrown: set<TypeId>, t: TypeId)
  {
    exists i :: 0 <= i < k <= |handlers| && Analysed(p, handlers, i, thrown) &&
                t in BlockInfo(p, depth, stack, handlers, i, thrown).thrown
  }

  ghost predicate SomeBlockUnknown(p: Program, depth: nat, stack: set<FuncId>, handlers: seq<Handler>, k: nat,
                                   thrown: set<TypeId>)
  {
    exists i :: 0 <= i < k <= |handlers| && Analysed(p, handlers, i, thrown) &&
                BlockInfo(p, depth, stack, handlers, i, thrown).containsUnknown
  }

  /** After k handlers, exactly the types no handler so far matches are uncaught. */
  lemma {:induction false} UncaughtAreTheUnmatched(p: Program, depth: nat, stack: set<FuncId>,
                                                   handlers: seq<Handler>, k: nat, u: Info)
    requires k <= |handlers|
    ensures HandlerLoop(p, depth, stack, handlers, k, u).uncaught.thrown
            == set t | t in u.thrown && Escapes(p, handlers, k, t)
    ensures HandlerLoop(p, depth, stack, handlers, k, u).uncaught.containsUnknown
            <==> u.containsUnknown && forall j :: 0 <= j < k ==> handlers[j].Catch?
  {
    if k > 0 {
      UncaughtAreTheUnmatched(p, depth, stack, handlers, k - 1, u);
      var before := HandlerLoop(p, depth, stack, handlers, k - 1, u).uncaught;
      var after := HandlerLoop(p, depth, stack, handlers, k, u).uncaught;
      forall t
        ensures t in after.thrown <==> t in u.thrown && Escapes(p, handlers, k, t)
      {
        assert Escapes(p, handlers, k, t) <==> Escapes(p, handlers, k - 1, t) && !Takes(p, handlers[k - 1], Known(t));
      }
    }
  }

  /** The loop gathers exactly the results of the analysed handler blocks, each run
      with the types its bare `throw;` stands for. */
  lemma {:induction false} LoopRefinesFirstMatch(p: Program, depth: nat, stack: set<FuncId>,
                                                 handlers: seq<Handler>, k: nat, u: Info)
    requires k <= |handlers|
    ensures forall t :: t in HandlerLoop(p, depth, stack, handlers, k, u).results.thrown <==>
                        SomeBlockThrows(p, depth, stack, handlers, k, u.thrown, t)
    ensures HandlerLoop(p, depth, stack, handlers, k, u).results.containsUnknown <==>
            SomeBlockUnknown(p, depth, stack, handlers, k, u.thrown)
  {
    if k > 0 {
      LoopRefinesFirstMatch(p, depth, stack, handlers, k - 1, u);
      UncaughtAreTheUnmatched(p, depth, stack, handlers, k - 1, u);
      var before := HandlerLoop(p, depth, stack, handlers, k - 1, u);
      var after := HandlerLoop(p, depth, stack, handlers, k, u).results;
      var block := BlockInfo(p, depth, stack, handlers, k - 1, u.thrown);
      LastHandlerAnalysed(p, handlers, k, before.uncaught, u);
      assert after.thrown ==
             before.results.thrown + (if Analysed(p, handlers, k - 1, u.thrown) then block.thrown else {});
      assert after.containsUnknown <==>
             before.results.containsUnknown || (Analysed(p, handlers, k - 1, u.thrown) && block.containsUnknown);
    }
  }

  lemma LastHandlerAnalysed(p: Program, handlers: seq<Handler>, k: nat, before: Info, u: Info)
    requires 0 < k <= |handlers|
    requires before.thrown == set t | t in u.thrown && Escapes(p, handlers, k - 1, t)
    ensures Analysed(p, handlers, k - 1, u.thrown) <==>
              handlers[k - 1].CatchAll? || Caught(p, before, handlers[k - 1].ty) != {}
    ensures handlers[k - 1].CatchAll? ==> RethrowTypes(p, handlers, k - 1, u.thrown) == before.thrown
  {
    if handlers[k - 1].Catch? {
      var ty := handlers[k - 1].ty;
      if t :| t in Caught(p, before, ty) {
        assert TakenBy(p, handlers, k - 1, Known(t));
      }
      if t :| t in u.thrown && TakenBy(p, handlers, k - 1, Known(t)) {
        assert t in Caught(p, before, ty);
      }
    }
  }

  /** A whole try statement: what no handler matches, and what the analysed handler
      blocks throw. */
  lemma TryThrows(p: Program, depth: nat, stack: set<FuncId>, caught: set<TypeId>, s: Stmt)
    requires s.Try? && depth > 0
    ensures var u := ThrowsStmt(p, depth - 1, stack, caught, s.body).thrown;
            forall t :: t in ThrowsStmt(p, depth, stack, caught, s).thrown <==>
                        (t in u && Escapes(p, s.handlers, |s.handlers|, t)) ||
                        SomeBlockThrows(p, depth - 1, stack, s.handlers, |s.handlers|, u, t)
    ensures var u := ThrowsStmt(p, depth - 1, stack, caught, s.body);
            ThrowsStmt(p, depth, stack, caught, s).containsUnknown <==>
              (u.containsUnknown && forall j :: 0 <= j < |s.handlers| ==> s.handlers[j].Catch?) ||
              SomeBlockUnknown(p, depth - 1, stack, s.handlers, |s.handlers|, u.thrown)
  {
    var u := ThrowsStmt(p, depth - 1, stack, caught, s.body);
    UncaughtAreTheUnmatched(p, depth - 1, stack, s.handlers, |s.handlers|, u);
    LoopRefinesFirstMatch(p, depth - 1, stack, s.handlers, |s.handlers|, u);
    var loop := HandlerLoop(p, depth - 1, stack, s.handlers, |s.handlers|, u);
    assert ThrowsStmt(p, depth, stack, caught, s) == Merged(loop.results, loop.uncaught);
  }

  // ----- sibling order -----

  lemma {:induction false} ChildrenThrow(p: Program, depth: nat, stack: set<FuncId>, caught: set<TypeId>,
                                         children: seq<Stmt>, k: nat)
    requires k <= |children|
    ensures ChildLoop(p, depth, stack, caught, children, k).behaviour == Throwing
    ensures forall t :: t in ChildLoop(p, depth, stack, caught, children, k).thrown <==>
              exists i :: 0 <= i < k && t in ThrowsStmt(p, depth, stack, caught, children[i]).thrown
    ensures ChildLoop(p, depth, stack, caught, children, k).containsUnknown <==>
              exists i :: 0 <= i < k && ThrowsStmt(p, depth, stack, caught, children[i]).containsUnknown
  {
    if k > 0 {
      ChildrenThrow(p, depth, stack, caught, children, k - 1);
    }
  }

  /** Since every walk restores the call stack, only which statements are siblings
      matters, not their order or number. */
  lemma SiblingOrderIsIrrelevant(p: Program, depth: nat, stack: set<FuncId>, caught: set<TypeId>,
                                 a: seq<Stmt>, b: seq<Stmt>)
    requires forall s :: s in a <==> s in b
    ensures ThrowsStmt(p, depth, stack, caught, Other(a)) == ThrowsStmt(p, depth, stack, caught, Other(b))
  {
    if depth > 0 {
      ChildrenThrow(p, depth - 1, stack, caught, a, |a|);
      ChildrenThrow(p, depth - 1, stack, caught, b, |b|);
      SiblingsInclude(p, depth - 1, stack, caught, a, b);
      SiblingsInclude(p, depth - 1, stack, caught, b, a);
    }
  }

  lemma SiblingsInclude(p: Program, depth: nat, stack: set<FuncId>, caught: set<TypeId>, a: seq<Stmt>, b: seq<Stmt>)
    requires forall s :: s in a ==> s in b
    ensures Leq(ChildLoop(p, depth, stack, caught, a, |a|), ChildLoop(p, depth, stack, caught, b, |b|))
  {
    ChildrenThrow(p, depth, stack, caught, a, |a|);
    ChildrenThrow(p, depth, stack, caught, b, |b|);
    forall i | 0 <= i < |a|
      ensures exists j :: 0 <= j < |b| && b[j] == a[i]
    {
      assert a[i] in b;
    }
  }
}
