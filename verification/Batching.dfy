/** What a parse task sends for one translation unit, and what a store task does with it. */
module Batching {
  import opened Basics

  // ----- statements -----

  datatype FuncDef = FuncDef(
    id: nat, usr: string, qualified: string, mightThrow: bool, fileId: int, line: int)

  datatype FuncCall = FuncCall(
    id: nat, callerUsr: string, callerMightThrow: bool, usr: string, qualified: string, fileId: int, line: int)

  datatype Stmt =
    | InsertFuncDefs(time: int, defs: seq<FuncDef>)
    | InsertFuncCalls(time: int, calls: seq<FuncCall>)
    | ReplaceFilepath(fileId: int, path: string, mtime: int)

  /** A signed flag as the unsigned comparison of the loops reads it. */
  function AsSize(flag: int64): nat {
    if flag < 0 then flag as int + 0x1_0000_0000_0000_0000 else flag as int
  }

  /** The cast is modulo 2^64. */
  lemma AsSizeIsModulo(flag: int64)
    ensures AsSize(flag) == flag as int % 0x1_0000_0000_0000_0000
  {
  }

  predicate StorableDef(d: FuncDef) {
    d.usr != "" && d.qualified != "" && d.fileId >= 0
  }

  predicate StorableCall(c: FuncCall) {
    c.callerUsr != "" && c.fileId >= 0
  }

  /** The items that pass, in order. */
  function Storable<T>(items: seq<T>, valid: T -> bool): seq<T> {
    if items == [] then []
    else
      var rest, last := items[..|items| - 1], items[|items| - 1];
      Storable(rest, valid) + if valid(last) then [last] else []
  }

  /** Rows in groups of `limit`, the last one perhaps smaller. */
  function Chunks<T>(rows: seq<T>, limit: nat): seq<seq<T>>
    requires limit > 0 || rows == []
  {
    if rows == [] then []
    else if |rows| <= limit then [rows]
    else [rows[..limit]] + Chunks(rows[limit..], limit)
  }

  function DefStmts(time: int, chunks: seq<seq<FuncDef>>): (stmts: seq<Stmt>)
    ensures |stmts| == |chunks| && forall i :: 0 <= i < |stmts| ==> stmts[i] == InsertFuncDefs(time, chunks[i])
  {
    seq(|chunks|, i requires 0 <= i < |chunks| => InsertFuncDefs(time, chunks[i]))
  }

  function CallStmts(time: int, chunks: seq<seq<FuncCall>>): (stmts: seq<Stmt>)
    ensures |stmts| == |chunks| && forall i :: 0 <= i < |stmts| ==> stmts[i] == InsertFuncCalls(time, chunks[i])
  {
    seq(|chunks|, i requires 0 <= i < |chunks| => InsertFuncCalls(time, chunks[i]))
  }

  /** What belongs in the queue for one translation unit. */
  function UnitStmts(time: int, defs: seq<FuncDef>, calls: seq<FuncCall>, limit: nat, filepath: Stmt): seq<Stmt>
    requires limit > 0 || (defs == [] && calls == [])
  {
    DefStmts(time, Chunks(Storable(defs, StorableDef), limit)) +
    CallStmts(time, Chunks(Storable(calls, StorableCall), limit)) + [filepath]
  }

  function DefRows(stmt: Option<Stmt>): seq<FuncDef> {
    if stmt.Some? && stmt.value.InsertFuncDefs? then stmt.value.defs else []
  }

  function CallRows(stmt: Option<Stmt>): seq<FuncCall> {
    if stmt.Some? && stmt.value.InsertFuncCalls? then stmt.value.calls else []
  }

  ghost predicate SendsDef(stmts: seq<Stmt>, d: FuncDef) {
    exists i :: 0 <= i < |stmts| && stmts[i].InsertFuncDefs? && d in stmts[i].defs
  }

  ghost predicate SendsCall(stmts: seq<Stmt>, c: FuncCall) {
    exists i :: 0 <= i < |stmts| && stmts[i].InsertFuncCalls? && c in stmts[i].calls
  }

  // ----- batching -----

  lemma {:induction false} StorableOfConcat<T>(a: seq<T>, b: seq<T>, valid: T -> bool)
    ensures Storable(a + b, valid) == Storable(a, valid) + Storable(b, valid)
  {
    if b == [] {
      assert a + b == a;
    } else {
      StorableOfConcat(a, b[..|b| - 1], valid);
      assert (a + b)[..|a + b| - 1] == a + b[..|b| - 1];
    }
  }

  lemma StorableHead<T>(items: seq<T>, i: nat, valid: T -> bool)
    requires i < |items|
    ensures Storable(items[i..], valid) ==
            (if valid(items[i]) then [items[i]] else []) + Storable(items[i + 1..], valid)
  {
    var head := [items[i]];
    assert head[..0] == [] && items[i..] == head + items[i + 1..];
    StorableOfConcat(head, items[i + 1..], valid);
  }

  lemma {:induction false} StorableMembers<T>(items: seq<T>, valid: T -> bool, x: T)
    ensures x in Storable(items, valid) <==> x in items && valid(x)
  {
    if items != [] {
      StorableMembers(items[..|items| - 1], valid, x);
      assert items == items[..|items| - 1] + [items[|items| - 1]];
    }
  }

  /** Nor is an item kept more often than it is there. */
  lemma {:induction false} StorableCount<T>(items: seq<T>, valid: T -> bool, x: T)
    ensures multiset(Storable(items, valid))[x] == if valid(x) then multiset(items)[x] else 0
  {
    if items != [] {
      var rest, last := items[..|items| - 1], items[|items| - 1];
      StorableCount(rest, valid, x);
      assert items == rest + [last];
      assert multiset(items) == multiset(rest) + multiset([last]);
      assert valid(last) ==> multiset(Storable(items, valid)) == multiset(Storable(rest, valid)) + multiset([last]);
    }
  }

  lemma ChunkStep<T>(rows: seq<T>, rest: seq<T>, limit: nat)
    requires 0 < |rows| <= limit && (|rows| < limit ==> rest == [])
    ensures Chunks(rows + rest, limit) == [rows] + Chunks(rest, limit)
  {
    if rest == [] {
      assert rows + rest == rows;
    } else {
      assert (rows + rest)[..limit] == rows && (rows + rest)[limit..] == rest;
    }
  }

  lemma DefStmtsStep(time: int, rows: seq<FuncDef>, rest: seq<FuncDef>, limit: nat)
    requires 0 < |rows| <= limit && (|rows| < limit ==> rest == [])
    ensures DefStmts(time, Chunks(rows + rest, limit)) ==
            [InsertFuncDefs(time, rows)] + DefStmts(time, Chunks(rest, limit))
  {
    ChunkStep(rows, rest, limit);
  }

  lemma CallStmtsStep(time: int, rows: seq<FuncCall>, rest: seq<FuncCall>, limit: nat)
    requires 0 < |rows| <= limit && (|rows| < limit ==> rest == [])
    ensures CallStmts(time, Chunks(rows + rest, limit)) ==
            [InsertFuncCalls(time, rows)] + CallStmts(time, Chunks(rest, limit))
  {
    ChunkStep(rows, rest, limit);
  }

  /** The loop of both statement generators: rows from `start` on, up to the limit. With
      a limit of zero it moves nowhere. */
  method NextRows<T>(items: seq<T>, valid: T -> bool, start: nat, limit: nat) returns (rows: seq<T>, next: nat)
    requires start <= |items|
    ensures start <= next <= |items|
    ensures Storable(items[start..], valid) == rows + Storable(items[next..], valid)
    ensures |rows| <= limit && (|rows| < limit ==> next == |items|)
    ensures start < |items| ==> (next == start <==> limit == 0)
  {
    rows := [];
    next := start;
    while next < |items| && |rows| < limit
      invariant start <= next <= |items| && |rows| <= limit
      invariant Storable(items[start..], valid) == rows + Storable(items[next..], valid)
      invariant limit == 0 ==> next == start
    {
      StorableHead(items, next, valid);
      if valid(items[next]) {
        Regroup(rows, [items[next]], Storable(items[next + 1..], valid));
        rows := rows + [items[next]];
      }
      next := next + 1;
    }
    assert next == |items| ==> items[next..] == [];
  }

  class ParseTask {
    var currentTime: int
    var currentFilepath: string
    var currentFilepathId: int
    var funcDefs: seq<FuncDef>
    var funcCalls: seq<FuncCall>

    constructor (time: int, filepath: string, filepathId: int)
      ensures currentTime == time && currentFilepath == filepath && currentFilepathId == filepathId
      ensures funcDefs == [] && funcCalls == []
    {
      currentTime, currentFilepath, currentFilepathId := time, filepath, filepathId;
      funcDefs, funcCalls := [], [];
    }

    method AddFuncDef(d: FuncDef)
      modifies this`funcDefs
      ensures funcDefs == old(funcDefs) + [d]
    {
      funcDefs := funcDefs + [d];
    }

    method AddFuncCall(c: FuncCall)
      modifies this`funcCalls
      ensures funcCalls == old(funcCalls) + [c]
    {
      funcCalls := funcCalls + [c];
    }

    /** No statement where no row is left; the source has the empty string there. */
    method GenBatchUpdateFuncDefsStmt(batchSize: int64, start: nat) returns (stmt: Option<Stmt>, next: nat)
      requires start <= |funcDefs|
      ensures start <= next <= |funcDefs|
      ensures stmt.Some? ==> stmt.value == InsertFuncDefs(currentTime, DefRows(stmt)) && DefRows(stmt) != []
      ensures Storable(funcDefs[start..], StorableDef) == DefRows(stmt) + Storable(funcDefs[next..], StorableDef)
      ensures |DefRows(stmt)| <= AsSize(batchSize) && (|DefRows(stmt)| < AsSize(batchSize) ==> next == |funcDefs|)
      ensures start < |funcDefs| ==> (next == start <==> batchSize == 0)
    {
      var rows;
      rows, next := NextRows(funcDefs, StorableDef, start, AsSize(batchSize));
      stmt := if rows == [] then None else Some(InsertFuncDefs(currentTime, rows));
    }

    method GenBatchUpdateFuncCallsStmt(batchSize: int64, start: nat) returns (stmt: Option<Stmt>, next: nat)
      requires start <= |funcCalls|
      ensures start <= next <= |funcCalls|
      ensures stmt.Some? ==> stmt.value == InsertFuncCalls(currentTime, CallRows(stmt)) && CallRows(stmt) != []
      ensures Storable(funcCalls[start..], StorableCall) == CallRows(stmt) + Storable(funcCalls[next..], StorableCall)
      ensures |CallRows(stmt)| <= AsSize(batchSize) && (|CallRows(stmt)| < AsSize(batchSize) ==> next == |funcCalls|)
      ensures start < |funcCalls| ==> (next == start <==> batchSize == 0)
    {
      var rows;
      rows, next := NextRows(funcCalls, StorableCall, start, AsSize(batchSize));
      stmt := if rows == [] then None else Some(InsertFuncCalls(currentTime, rows));
    }

    /** The statements handed to the queue. With a batch size of zero and anything to
        send, the loops would go on for ever. */
    method SendIndexedResult(batchSize: int64) returns (stmts: seq<Stmt>)
      requires batchSize != 0 || (funcDefs == [] && funcCalls == [])
      modifies this`funcDefs, this`funcCalls
      ensures stmts == UnitStmts(currentTime, old(funcDefs), old(funcCalls), AsSize(batchSize),
                                 ReplaceFilepath(currentFilepathId, currentFilepath, currentTime))
      ensures funcDefs == [] && funcCalls == []
      ensures forall d :: SendsDef(stmts, d) <==>
                d in old(funcDefs) && d.usr != "" && d.qualified != "" && d.fileId >= 0
      ensures forall c :: SendsCall(stmts, c) <==> c in old(funcCalls) && c.callerUsr != "" && c.fileId >= 0
    {
      assert funcDefs[0..] == funcDefs && funcCalls[0..] == funcCalls;
      stmts := SendFuncDefs(batchSize, []);
      stmts := SendFuncCalls(batchSize, stmts);
      stmts := stmts + [ReplaceFilepath(currentFilepathId, currentFilepath, currentTime)];
      SentRows(currentTime, funcDefs, funcCalls, AsSize(batchSize),
               ReplaceFilepath(currentFilepathId, currentFilepath, currentTime));
      ClearCurrentTranslationUnitResult();
    }

    /** The statements of `funcDefs` from `start` on. */
    ghost function LeftFuncDefs(batchSize: int64, start: nat): seq<Stmt>
      requires start <= |funcDefs| && (batchSize != 0 || funcDefs == [])
      reads this
    {
      DefStmts(currentTime, Chunks(Storable(funcDefs[start..], StorableDef), AsSize(batchSize)))
    }

    /** The first loop of `send_indexed_result`. */
    method SendFuncDefs(batchSize: int64, before: seq<Stmt>) returns (stmts: seq<Stmt>)
      requires batchSize != 0 || funcDefs == []
      ensures stmts == before + LeftFuncDefs(batchSize, 0)
    {
      stmts := before;
      var start := 0;
      while start < |funcDefs|
        invariant start <= |funcDefs|
        invariant before + LeftFuncDefs(batchSize, 0) == stmts + LeftFuncDefs(batchSize, start)
      {
        var stmt;
        stmt, start := GenBatchUpdateFuncDefsStmt(batchSize, start);
        if stmt.Some? {
          DefStmtsStep(currentTime, DefRows(stmt), Storable(funcDefs[start..], StorableDef), AsSize(batchSize));
          Regroup(stmts, [stmt.value], LeftFuncDefs(batchSize, start));
          stmts := stmts + [stmt.value];
        }
      }
    }

    /** The statements of `funcCalls` from `start` on. */
    ghost function LeftFuncCalls(batchSize: int64, start: nat): seq<Stmt>
      requires start <= |funcCalls| && (batchSize != 0 || funcCalls == [])
      reads this
    {
      CallStmts(currentTime, Chunks(Storable(funcCalls[start..], StorableCall), AsSize(batchSize)))
    }

    /** The second one. */
    method SendFuncCalls(batchSize: int64, before: seq<Stmt>) returns (stmts: seq<Stmt>)
      requires batchSize != 0 || funcCalls == []
      ensures stmts == before + LeftFuncCalls(batchSize, 0)
    {
      stmts := before;
      var start := 0;
      while start < |funcCalls|
        invariant start <= |funcCalls|
        invariant before + LeftFuncCalls(batchSize, 0) == stmts + LeftFuncCalls(batchSize, start)
      {
        var stmt;
        stmt, start := GenBatchUpdateFuncCallsStmt(batchSize, start);
        if stmt.Some? {
          CallStmtsStep(currentTime, CallRows(stmt), Storable(funcCalls[start..], StorableCall), AsSize(batchSize));
          Regroup(stmts, [stmt.value], LeftFuncCalls(batchSize, start));
          stmts := stmts + [stmt.value];
        }
      }
    }

    method ClearCurrentTranslationUnitResult()
      modifies this`funcDefs, this`funcCalls
      ensures funcDefs == [] && funcCalls == []
    {
      funcDefs, funcCalls := [], [];
    }
  }

  // ----- what one unit's statements hold -----

  function Flatten<T>(chunks: seq<seq<T>>): seq<T> {
    if chunks == [] then [] else chunks[0] + Flatten(chunks[1..])
  }

  function AllDefs(stmts: seq<Stmt>): seq<FuncDef> {
    if stmts == [] then [] else DefRows(Some(stmts[0])) + AllDefs(stmts[1..])
  }

  function AllCalls(stmts: seq<Stmt>): seq<FuncCall> {
    if stmts == [] then [] else CallRows(Some(stmts[0])) + AllCalls(stmts[1..])
  }

  /** No row is lost, doubled or moved by the grouping. */
  lemma {:induction false} FlattenedChunks<T>(rows: seq<T>, limit: nat)
    requires limit > 0 || rows == []
    ensures Flatten(Chunks(rows, limit)) == rows
  {
    if 0 < limit < |rows| {
      FlattenedChunks(rows[limit..], limit);
      assert Chunks(rows, limit)[1..] == Chunks(rows[limit..], limit);
    }
  }

  /** Every group has a row and at most `limit`; every group but the last is full. */
  lemma {:induction false} ChunkSizes<T>(rows: seq<T>, limit: nat, i: nat)
    requires limit > 0 && i < |Chunks(rows, limit)|
    ensures 1 <= |Chunks(rows, limit)[i]| <= limit
    ensures i + 1 < |Chunks(rows, limit)| ==> |Chunks(rows, limit)[i]| == limit
  {
    if limit < |rows| {
      assert Chunks(rows, limit)[1..] == Chunks(rows[limit..], limit);
      if i > 0 {
        ChunkSizes(rows[limit..], limit, i - 1);
      }
    }
  }

  lemma {:induction false} RowsOfDefStmts(time: int, chunks: seq<seq<FuncDef>>, rest: seq<Stmt>)
    ensures AllDefs(DefStmts(time, chunks) + rest) == Flatten(chunks) + AllDefs(rest)
    ensures AllCalls(DefStmts(time, chunks) + rest) == AllCalls(rest)
  {
    var stmts := DefStmts(time, chunks) + rest;
    if chunks == [] {
      assert stmts == rest;
    } else {
      assert stmts[0] == InsertFuncDefs(time, chunks[0]) && stmts[1..] == DefStmts(time, chunks[1..]) + rest;
      RowsOfDefStmts(time, chunks[1..], rest);
      Regroup(chunks[0], Flatten(chunks[1..]), AllDefs(rest));
    }
  }

  lemma {:induction false} RowsOfCallStmts(time: int, chunks: seq<seq<FuncCall>>, rest: seq<Stmt>)
    ensures AllCalls(CallStmts(time, chunks) + rest) == Flatten(chunks) + AllCalls(rest)
    ensures AllDefs(CallStmts(time, chunks) + rest) == AllDefs(rest)
  {
    var stmts := CallStmts(time, chunks) + rest;
    if chunks == [] {
      assert stmts == rest;
    } else {
      assert stmts[0] == InsertFuncCalls(time, chunks[0]) && stmts[1..] == CallStmts(time, chunks[1..]) + rest;
      RowsOfCallStmts(time, chunks[1..], rest);
      Regroup(chunks[0], Flatten(chunks[1..]), AllCalls(rest));
    }
  }

  /** The statements of a unit carry its storable definitions and calls, each once and in
      order, whatever the batch size. */
  lemma UnitCarriesEveryRow(time: int, defs: seq<FuncDef>, calls: seq<FuncCall>, limit: nat, filepath: Stmt)
    requires limit > 0 || (defs == [] && calls == [])
    requires filepath.ReplaceFilepath?
    ensures AllDefs(UnitStmts(time, defs, calls, limit, filepath)) == Storable(defs, StorableDef)
    ensures AllCalls(UnitStmts(time, defs, calls, limit, filepath)) == Storable(calls, StorableCall)
  {
    var d, c := Storable(defs, StorableDef), Storable(calls, StorableCall);
    var tail := CallStmts(time, Chunks(c, limit)) + [filepath];
    Regroup(DefStmts(time, Chunks(d, limit)), CallStmts(time, Chunks(c, limit)), [filepath]);
    RowsOfDefStmts(time, Chunks(d, limit), tail);
    RowsOfCallStmts(time, Chunks(c, limit), [filepath]);
    FlattenedChunks(d, limit);
    FlattenedChunks(c, limit);
    assert AllDefs([filepath]) == [] && AllCalls([filepath]) == [];
  }

  lemma {:induction false} InAllDefs(stmts: seq<Stmt>, d: FuncDef)
    ensures d in AllDefs(stmts) <==> SendsDef(stmts, d)
  {
    if stmts != [] {
      InAllDefs(stmts[1..], d);
      if i :| 0 <= i < |stmts| && stmts[i].InsertFuncDefs? && d in stmts[i].defs {
        assert i > 0 ==> stmts[1..][i - 1] == stmts[i];
      }
    }
  }

  lemma {:induction false} InAllCalls(stmts: seq<Stmt>, c: FuncCall)
    ensures c in AllCalls(stmts) <==> SendsCall(stmts, c)
  {
    if stmts != [] {
      InAllCalls(stmts[1..], c);
      if i :| 0 <= i < |stmts| && stmts[i].InsertFuncCalls? && c in stmts[i].calls {
        assert i > 0 ==> stmts[1..][i - 1] == stmts[i];
      }
    }
  }

  /** What is sent of a unit: the definitions that have a USR, a name and a file, and the
      calls that have a caller and a file. */
  lemma SentRows(time: int, defs: seq<FuncDef>, calls: seq<FuncCall>, limit: nat, filepath: Stmt)
    requires (limit > 0 || (defs == [] && calls == [])) && filepath.ReplaceFilepath?
    ensures forall d :: SendsDef(UnitStmts(time, defs, calls, limit, filepath), d) <==>
              d in defs && d.usr != "" && d.qualified != "" && d.fileId >= 0
    ensures forall c :: SendsCall(UnitStmts(time, defs, calls, limit, filepath), c) <==>
              c in calls && c.callerUsr != "" && c.fileId >= 0
  {
    var stmts := UnitStmts(time, defs, calls, limit, filepath);
    UnitCarriesEveryRow(time, defs, calls, limit, filepath);
    forall d: FuncDef
      ensures SendsDef(stmts, d) <==> d in defs && d.usr != "" && d.qualified != "" && d.fileId >= 0
    {
      InAllDefs(stmts, d);
      StorableMembers(defs, StorableDef, d);
    }
    forall c: FuncCall
      ensures SendsCall(stmts, c) <==> c in calls && c.callerUsr != "" && c.fileId >= 0
    {
      InAllCalls(stmts, c);
      StorableMembers(calls, StorableCall, c);
    }
  }

  /** A unit's statements are row statements and then one for its file path. */
  ghost predicate IsUnit(stmts: seq<Stmt>) {
    stmts != [] && forall i :: 0 <= i < |stmts| ==> (stmts[i].ReplaceFilepath? <==> i == |stmts| - 1)
  }

  /** First definitions, then calls, then the file path; the row statements have between
      one row and the batch size. */
  lemma UnitShape(time: int, defs: seq<FuncDef>, calls: seq<FuncCall>, limit: nat, filepath: Stmt)
    requires limit > 0 && filepath.ReplaceFilepath?
    ensures var u := UnitStmts(time, defs, calls, limit, filepath);
            && IsUnit(u)
            && u[|u| - 1] == filepath
            && (forall i :: 0 <= i < |u| - 1 ==> 1 <= |DefRows(Some(u[i]))| + |CallRows(Some(u[i]))| <= limit)
            && (forall i, j :: 0 <= i < j < |u| - 1 && u[i].InsertFuncCalls? ==> u[j].InsertFuncCalls?)
  {
    var d, c := Chunks(Storable(defs, StorableDef), limit), Chunks(Storable(calls, StorableCall), limit);
    var u := UnitStmts(time, defs, calls, limit, filepath);
    assert |u| == |d| + |c| + 1;
    forall i | 0 <= i < |u| - 1
      ensures 1 <= |DefRows(Some(u[i]))| + |CallRows(Some(u[i]))| <= limit
      ensures u[i] == if i < |d| then InsertFuncDefs(time, d[i]) else InsertFuncCalls(time, c[i - |d|])
    {
      if i < |d| {
        ChunkSizes(Storable(defs, StorableDef), limit, i);
      } else {
        ChunkSizes(Storable(calls, StorableCall), limit, i - |d|);
      }
    }
  }
}
