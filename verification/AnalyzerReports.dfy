/** What the entry points of the analyzer report, and `func_might_throw`, the one
    question the indexer asks it. */
module AnalyzerReports {
  import opened Basics
  import opened Ast
  import opened ExceptionInfos
  import opened ThrowAnalysis
  import opened ThrowLevels
  import opened RaiseSemantics
  import opened GuardedPrograms
  import opened LiveHandlers
  import opened ThrowPrecision
  import opened ExceptionAnalyzers

  /** The report for what the walk gathered: exactly the types that are not ignored,
      the unknown flag, and the state those two stand for. The misnamed seed of the
      walk never shows. */
  ghost predicate ExactReport(p: Program, ign: Ignore, gathered: Info, report: Info) {
    report.thrown == (set t | t in gathered.thrown && !Ignored(p, ign, t)) &&
    report.containsUnknown == gathered.containsUnknown &&
    report.behaviour == Classify(report.thrown, report.containsUnknown)
  }

  /** Consistent information is reported exactly, whatever state it was seeded with. */
  lemma ConsistentIsReportedExactly(p: Program, ign: Ignore, gathered: Info)
    requires Consistent(gathered)
    ensures ExactReport(p, ign, gathered, Dispatched(p, ign, gathered))
  {
    assert AfterIgnoring(p, gathered, ign).thrown == set t | t in gathered.thrown && !Ignored(p, ign, t);
  }

  lemma {:induction false} FuncLoopConsistent(p: Program, depth: nat, stack: set<FuncId>, fn: Function, k: nat)
    requires fn.body.Some? && k <= |fn.inits|
    ensures Consistent(FuncLoop(p, depth, stack, fn, k))
  {
    if k == 0 {
      WalkReportsThrowing(p, depth, stack, {}, fn.body.value);
    } else {
      FuncLoopConsistent(p, depth, stack, fn, k - 1);
      var i, j := FuncLoop(p, depth, stack, fn, k - 1), ThrowsStmt(p, depth, stack, {}, fn.inits[k - 1]);
      WalkReportsThrowing(p, depth, stack, {}, fn.inits[k - 1]);
      OperationsKeepConsistent(p, i, j, 0, {}, IndexerIgnore(), Throwing);
    }
  }

  lemma {:induction false} SpecLoopConsistent(p: Program, spec: seq<TypeId>, k: nat)
    requires k <= |spec|
    ensures Consistent(SpecLoop(spec, k))
  {
    if k > 0 {
      SpecLoopConsistent(p, spec, k - 1);
      var i := SpecLoop(spec, k - 1);
      OperationsKeepConsistent(p, i, i, spec[k - 1], {}, IndexerIgnore(), Throwing);
    }
  }

  lemma FuncReportIsExact(p: Program, ign: Ignore, depth: nat, f: FuncId)
    ensures ExactReport(p, ign, ThrowsFunc(p, depth, {}, f), Dispatched(p, ign, ThrowsFunc(p, depth, {}, f)))
  {
    var fn := p.Func(f);
    if depth > 0 {
      if fn.body.Some? {
        FuncLoopConsistent(p, depth - 1, {} + {f}, fn, |fn.inits|);
      } else {
        SpecLoopConsistent(p, fn.spec, |fn.spec|);
      }
    }
    ConsistentIsReportedExactly(p, ign, ThrowsFunc(p, depth, {}, f));
  }

  lemma StmtReportIsExact(p: Program, ign: Ignore, depth: nat, s: Stmt)
    ensures ExactReport(p, ign, ThrowsStmt(p, depth, {}, {}, s), Dispatched(p, ign, ThrowsStmt(p, depth, {}, {}, s)))
  {
    WalkReportsThrowing(p, depth, {}, {}, s);
    ConsistentIsReportedExactly(p, ign, ThrowsStmt(p, depth, {}, {}, s));
  }

  // ----- the result cache -----

  /** A result cached at level `since` and reported at level `now` differs from a fresh one
      only if the number of levels left does, and not once both levels are enough. */
  lemma CachedReportIsCurrent(p: Program, k: nat, h: nat, since: int, now: int, f: FuncId)
    requires LevelsLeft(since, 0) == LevelsLeft(now, 0) ||
             (EnoughLevels(p, f, k, h, since) && EnoughLevels(p, f, k, h, now))
    ensures ThrowsFunc(p, LevelsLeft(since, 0), {}, f) == ThrowsFunc(p, LevelsLeft(now, 0), {}, f)
  {
    if LevelsLeft(since, 0) != LevelsLeft(now, 0) {
      if since < now {
        LevelStabilises(p, k, h, since, now, f);
      } else {
        LevelStabilises(p, k, h, now, since, f);
      }
    }
  }

  // ----- func_might_throw -----

  const INDEXER_LEVEL: int64 := 20

  /** The indexer disregards its own assertion failures and std::bad_alloc. */
  function IndexerIgnore(): Ignore {
    Ignore({"AssertionError"}, true)
  }

  /** The question that `func_might_throw` answers. */
  ghost predicate MightThrow(p: Program, fd: FuncId) {
    exists t :: t in ThrowsFunc(p, 20, {}, fd).thrown && !Ignored(p, IndexerIgnore(), t)
  }

  ghost predicate MayRaiseUnignored(p: Program, from: Origin, fd: FuncId) {
    exists t :: MayRaise(p, from, fd, Known(t)) && !Ignored(p, IndexerIgnore(), t)
  }

  /** Neither an assertion failure nor std::bad_alloc; a type without a name counts. */
  lemma IgnoredByIndexerIff(p: Program, t: TypeId)
    ensures Ignored(p, IndexerIgnore(), t) <==>
              t in p.tags &&
              (p.tags[t].name == "AssertionError" || (p.tags[t].name == "bad_alloc" && p.tags[t].inStd))
  {
  }

  method FuncMightThrow(p: Program, fd: FuncId) returns (mightThrow: bool)
    ensures mightThrow <==> MightThrow(p, fd)
    ensures mightThrow <==>
              exists t :: t in ThrowsFunc(p, 20, {}, fd).thrown &&
                          (t in p.tags ==>
                             p.tags[t].name != "AssertionError" &&
                             !(p.tags[t].name == "bad_alloc" && p.tags[t].inStd))
  {
    var tracer := new ExceptionAnalyzer(p);
    tracer.SetMaxTraceLevel(INDEXER_LEVEL);
    tracer.IgnoreExceptions({"AssertionError"});
    tracer.IgnoreBadAlloc(true);
    var info := tracer.AnalyzeFunc(fd);
    mightThrow := info.behaviour == Throwing;
    FuncReportIsExact(p, IndexerIgnore(), 20, fd);
    ghost var gathered := ThrowsFunc(p, 20, {}, fd);
    ghost var report := Dispatched(p, IndexerIgnore(), gathered);
    assert tracer.ignore == IndexerIgnore() && info.View() == report;
    assert mightThrow <==> report.thrown != {};
    assert forall t :: t in report.thrown <==> t in gathered.thrown && !Ignored(p, IndexerIgnore(), t);
  }

  /** The answer yes is right for every tame and live program, however large. */
  lemma YesIsRight(p: Program, from: Origin, fd: FuncId)
    requires TameProgram(p, true) && LiveProgram(p, from) && MightThrow(p, fd)
    ensures MayRaiseUnignored(p, from, fd)
  {
    var t :| t in ThrowsFunc(p, 20, {}, fd).thrown && !Ignored(p, IndexerIgnore(), t);
    NothingReportedIsSpurious(p, from, 20, fd, Known(t));
  }

  /** The answer no is right where 20 levels are enough for the simple chains of calls from
      the function, in tame and guarded programs. */
  lemma NoIsRight(p: Program, from: Origin, k: nat, h: nat, fd: FuncId)
    requires TameProgram(p, true) && GuardedProgram(p) && EnoughLevels(p, fd, k, h, 20) && !MightThrow(p, fd)
    ensures !MayRaiseUnignored(p, from, fd)
  {
    forall t | MayRaise(p, from, fd, Known(t))
      ensures Ignored(p, IndexerIgnore(), t)
    {
      NothingRaisedIsMissed(p, true, from, k, h, 20, fd, Known(t));
    }
  }

  /** Both together. */
  lemma MightThrowIffMayRaise(p: Program, from: Origin, k: nat, h: nat, fd: FuncId)
    requires TameProgram(p, true) && GuardedProgram(p) && LiveProgram(p, from) && EnoughLevels(p, fd, k, h, 20)
    ensures MightThrow(p, fd) <==> MayRaiseUnignored(p, from, fd)
  {
    if MightThrow(p, fd) {
      YesIsRight(p, from, fd);
    } else {
      NoIsRight(p, from, k, h, fd);
    }
  }
}
