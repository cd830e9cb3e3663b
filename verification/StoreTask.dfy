/** `do_store`: the statements of each batch, in order, up to the first one that is
    reported to have failed. */
module StoreTasks {
  import opened Basics
  import opened Batching

  /** A connection to the database. What it reports of the n-th statement it is given is
      not up to the program; a report of success is no proof that it took effect. */
  class Connection {
    const reportsSuccess: nat -> bool
    var issued: seq<Stmt>

    constructor (reportsSuccess: nat -> bool)
      ensures this.reportsSuccess == reportsSuccess && issued == []
    {
      this.reportsSuccess, issued := reportsSuccess, [];
    }

    method Dml(stmt: Stmt) returns (failed: bool)
      modifies this`issued
      ensures issued == old(issued) + [stmt] && failed == !reportsSuccess(old(|issued|))
    {
      failed := !reportsSuccess(|issued|);
      issued := issued + [stmt];
    }
  }

  /** How many statements of a batch are issued when its first one is statement `at` of
      the connection. */
  function Issued(stmts: seq<Stmt>, reports: nat -> bool, at: nat): (n: nat)
    ensures n <= |stmts| && (stmts != [] ==> n > 0)
  {
    if stmts == [] then 0 else if reports(at) then 1 + Issued(stmts[1..], reports, at + 1) else 1
  }

  /** What is issued for batches taken from the queue one after the other. An empty batch
      ends the task. */
  function IssuedOfRun(batches: seq<seq<Stmt>>, reports: nat -> bool, at: nat): seq<Stmt> {
    if batches == [] || batches[0] == [] then []
    else
      var n := Issued(batches[0], reports, at);
      batches[0][..n] + IssuedOfRun(batches[1..], reports, at + n)
  }

  method StoreBatch(conn: Connection, stmts: seq<Stmt>)
    modifies conn`issued
    ensures conn.issued == old(conn.issued) + stmts[..Issued(stmts, conn.reportsSuccess, old(|conn.issued|))]
  {
    ghost var at := |conn.issued|;
    var n := 0;
    while n < |stmts|
      invariant n <= |stmts| && conn.issued == old(conn.issued) + stmts[..n]
      invariant Issued(stmts, conn.reportsSuccess, at) == n + Issued(stmts[n..], conn.reportsSuccess, at + n)
    {
      var failed := conn.Dml(stmts[n]);
      n := n + 1;
      if failed {
        break;
      }
    }
  }

  /** `batches` are the results of `get_stmts` up to the end of the queue. */
  method DoStore(conn: Connection, batches: seq<seq<Stmt>>)
    modifies conn`issued
    ensures conn.issued == old(conn.issued) + IssuedOfRun(batches, conn.reportsSuccess, old(|conn.issued|))
  {
    ghost var before, at := conn.issued, |conn.issued|;
    assert batches[0..] == batches;
    var i := 0;
    while i < |batches| && batches[i] != []
      invariant i <= |batches|
      invariant before + IssuedOfRun(batches, conn.reportsSuccess, at) ==
                conn.issued + IssuedOfRun(batches[i..], conn.reportsSuccess, |conn.issued|)
    {
      ghost var had, n := conn.issued, Issued(batches[i], conn.reportsSuccess, |conn.issued|);
      StoreBatch(conn, batches[i]);
      assert batches[i..][1..] == batches[i + 1..];
      Regroup(had, batches[i][..n], IssuedOfRun(batches[i + 1..], conn.reportsSuccess, |had| + n));
      i := i + 1;
    }
  }

  /** A statement is issued exactly when it is in the batch and every earlier one of the
      batch was reported a success. */
  lemma {:induction false} IssuedIffAllBeforeSucceeded(stmts: seq<Stmt>, reports: nat -> bool, at: nat, n: nat)
    ensures n < Issued(stmts, reports, at) <==> n < |stmts| && forall m: nat :: at <= m < at + n ==> reports(m)
  {
    if stmts != [] && n > 0 {
      IssuedIffAllBeforeSucceeded(stmts[1..], reports, at + 1, n - 1);
      assert (forall m: nat :: at <= m < at + n ==> reports(m)) <==>
             reports(at) && forall m: nat :: at + 1 <= m < at + n ==> reports(m);
    }
  }

  /** The file path of a unit is issued exactly when every row statement of the unit was
      reported a success. */
  lemma {:induction false} FilepathIffAllRowsReported(unit: seq<Stmt>, reports: nat -> bool, at: nat)
    requires IsUnit(unit)
    ensures unit[|unit| - 1] in unit[..Issued(unit, reports, at)] <==>
            forall m: nat :: at <= m < at + |unit| - 1 ==> reports(m)
  {
    var n := Issued(unit, reports, at);
    IssuedIffAllBeforeSucceeded(unit, reports, at, |unit| - 1);
    if n == |unit| {
      assert unit[..n][|unit| - 1] == unit[|unit| - 1];
    } else {
      assert forall i :: 0 <= i < n ==> !unit[..n][i].ReplaceFilepath?;
    }
  }

  ghost predicate AllReported(reports: nat -> bool, lo: nat, hi: nat) {
    forall m: nat :: lo <= m < hi ==> reports(m)
  }

  /** `log` has a whole unit after `before`, whose row statements were all reported
      successes. */
  ghost predicate HasUnit(log: seq<Stmt>, before: seq<Stmt>, unit: seq<Stmt>, after: seq<Stmt>,
                          reports: nat -> bool, at: nat)
  {
    log == before + (unit + after) && unit != [] &&
    AllReported(reports, at + |before|, at + |before| + |unit| - 1)
  }

  lemma UnitInFront(unit: seq<Stmt>, reports: nat -> bool, at: nat, rest: seq<Stmt>, p: nat)
    requires IsUnit(unit) && p < Issued(unit, reports, at) && unit[p].ReplaceFilepath?
    ensures p + 1 == |unit| && HasUnit(unit[..Issued(unit, reports, at)] + rest, [], unit, rest, reports, at)
  {
    IssuedIffAllBeforeSucceeded(unit, reports, at, p);
    assert p + 1 == |unit| == Issued(unit, reports, at);
    assert unit[..|unit|] == unit;
  }

  lemma UnitLater(front: seq<Stmt>, rest: seq<Stmt>, before: seq<Stmt>, unit: seq<Stmt>, after: seq<Stmt>,
                  reports: nat -> bool, at: nat)
    requires HasUnit(rest, before, unit, after, reports, at + |front|)
    ensures HasUnit(front + rest, front + before, unit, after, reports, at)
  {
    Regroup(front, before, unit + after);
  }

  ghost predicate AllUnits(batches: seq<seq<Stmt>>) {
    batches == [] || (IsUnit(batches[0]) && AllUnits(batches[1..]))
  }

  /** The log of a run is what is issued of its first batch, and the log of the others. */
  lemma LogOfRun(batches: seq<seq<Stmt>>, reports: nat -> bool, at: nat) returns (front: seq<Stmt>, rest: seq<Stmt>)
    requires batches != [] && batches[0] != []
    ensures front == batches[0][..Issued(batches[0], reports, at)]
    ensures rest == IssuedOfRun(batches[1..], reports, at + |front|)
    ensures IssuedOfRun(batches, reports, at) == front + rest
  {
    front := batches[0][..Issued(batches[0], reports, at)];
    rest := IssuedOfRun(batches[1..], reports, at + |front|);
  }

  lemma IssuedPrefix(stmts: seq<Stmt>, reports: nat -> bool, at: nat)
    requires stmts != []
    ensures var m := Issued(stmts, reports, at);
            (m < |stmts| ==> !reports(at + (m - 1))) && AllReported(reports, at, at + (m - 1))
  {
    var m := Issued(stmts, reports, at);
    IssuedIffAllBeforeSucceeded(stmts, reports, at, m - 1);
    IssuedIffAllBeforeSucceeded(stmts, reports, at, m);
  }

  /** A failure ends its own batch and no other: of every batch up to the end of the queue
      statements are issued, up to the first one that is reported failed, or all. */
  lemma {:induction false} EveryBatchIsTried(batches: seq<seq<Stmt>>, reports: nat -> bool, at: nat, k: nat)
    returns (before: seq<Stmt>, m: nat, after: seq<Stmt>)
    requires k < |batches| && forall i :: 0 <= i <= k ==> batches[i] != []
    ensures 0 < m <= |batches[k]| && IssuedOfRun(batches, reports, at) == before + (batches[k][..m] + after)
    ensures AllReported(reports, at + |before|, at + |before| + (m - 1))
    ensures m < |batches[k]| ==> !reports(at + |before| + (m - 1))
    decreases k
  {
    var front, rest := LogOfRun(batches, reports, at);
    if k == 0 {
      before, m, after := [], Issued(batches[0], reports, at), rest;
      IssuedPrefix(batches[0], reports, at);
    } else {
      before, m, after := EveryBatchIsTried(batches[1..], reports, at + |front|, k - 1);
      Regroup(front, before, batches[k][..m] + after);
      before := front + before;
    }
  }

  /** An empty batch ends the task: what comes after it is never issued. */
  lemma {:induction false} EmptyBatchEnds(batches: seq<seq<Stmt>>, later: seq<seq<Stmt>>, reports: nat -> bool, at: nat)
    ensures IssuedOfRun(batches + ([[]] + later), reports, at) == IssuedOfRun(batches, reports, at)
    decreases batches
  {
    var all := batches + ([[]] + later);
    if batches == [] {
      assert all[0] == [];
    } else if batches[0] != [] {
      assert all[1..] == batches[1..] + ([[]] + later);
      EmptyBatchEnds(batches[1..], later, reports, at + Issued(batches[0], reports, at));
    }
  }

  /** Which unit a file path in the log belongs to. */
  lemma {:induction false} UnitOf(batches: seq<seq<Stmt>>, reports: nat -> bool, at: nat, p: nat)
    returns (k: nat, before: seq<Stmt>, after: seq<Stmt>)
    requires AllUnits(batches)
    requires p < |IssuedOfRun(batches, reports, at)| && IssuedOfRun(batches, reports, at)[p].ReplaceFilepath?
    ensures k < |batches| && |before| + |batches[k]| == p + 1
    ensures HasUnit(IssuedOfRun(batches, reports, at), before, batches[k], after, reports, at)
    decreases batches
  {
    var front, rest := LogOfRun(batches, reports, at);
    if p < |front| {
      assert (front + rest)[p] == batches[0][p];
      UnitInFront(batches[0], reports, at, rest, p);
      k, before, after := 0, [], rest;
    } else {
      assert (front + rest)[p] == rest[p - |front|];
      k, before, after := UnitOf(batches[1..], reports, at + |front|, p - |front|);
      UnitLater(front, rest, before, batches[1..][k], after, reports, at);
      k, before := k + 1, front + before;
    }
  }

  /** Over a whole run of a store task: each file path it issues comes right after all row
      statements of its unit, all of them reported successes. */
  lemma EveryFilepathIsComplete(batches: seq<seq<Stmt>>, reports: nat -> bool, at: nat, p: nat)
    requires AllUnits(batches)
    requires p < |IssuedOfRun(batches, reports, at)| && IssuedOfRun(batches, reports, at)[p].ReplaceFilepath?
    ensures exists k, before, after ::
              0 <= k < |batches| && |before| + |batches[k]| == p + 1 &&
              HasUnit(IssuedOfRun(batches, reports, at), before, batches[k], after, reports, at)
  {
    var k, before, after := UnitOf(batches, reports, at, p);
  }
}
