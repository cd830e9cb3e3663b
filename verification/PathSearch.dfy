/** `search_callpath` and `search_throwpath`: depth-first search of the func_calls
    table, which may be cyclic, with one visited set and one result for the whole
    recursion. */
module PathSearch {
  import opened Graphs

  // USRs and qualified names are only ever compared for equality.
  type Usr = nat
  type Name = nat

  /** A row of func_calls, stored under the USR of the caller. */
  datatype Row = Row(usr: Usr, qualified: Name, callerMightThrow: bool)

  type Table = map<Usr, seq<Row>>

  function Rows(table: Table, usr: Usr): seq<Row> {
    if usr in table then table[usr] else []
  }

  /** A function as the search meets it: by its USR and a name some row gives it. */
  datatype Vertex = Vertex(usr: Usr, qualified: Name)

  /** What the search looks for: a caller of `toFunc`, or a caller whose first row is
      flagged as throwing. */
  datatype Goal = CallerOf(toFunc: Name) | Throwing

  ghost predicate Hit(table: Table, goal: Goal, usr: Usr) {
    var rows := Rows(table, usr);
    match goal
    case CallerOf(toFunc) => exists i :: 0 <= i < |rows| && rows[i].qualified == toFunc
    case Throwing => rows != [] && rows[0].callerMightThrow
  }

  ghost predicate CallsRow(table: Table, a: Vertex, b: Vertex) {
    exists i :: 0 <= i < |Rows(table, a.usr)| &&
                Rows(table, a.usr)[i].usr == b.usr && Rows(table, a.usr)[i].qualified == b.qualified
  }

  ghost function CallRows(table: Table): (Vertex, Vertex) -> bool {
    (a: Vertex, b: Vertex) => CallsRow(table, a, b)
  }

  function Reversed(s: seq<Name>): seq<Name> {
    if s == [] then [] else Reversed(s[1..]) + [s[0]]
  }

  /** A chain of call rows from one of the callers to a hit. */
  ghost predicate Witness(table: Table, goal: Goal, usrs: seq<Usr>, qualified: seq<Name>, path: seq<Vertex>)
    requires |usrs| == |qualified|
  {
    IsPath(CallRows(table), path) &&
    (exists i :: 0 <= i < |usrs| && path[0] == Vertex(usrs[i], qualified[i])) &&
    Hit(table, goal, path[|path| - 1].usr)
  }

  /** What a search that found `path` pushes, deepest first: every name on the path, but
      for a call path `toFunc` in place of the name of its direct caller. */
  ghost function Pushed(goal: Goal, path: seq<Vertex>): seq<Name>
    requires path != []
  {
    if |path| > 1 then Pushed(goal, path[1..]) + [path[0].qualified]
    else match goal
      case CallerOf(toFunc) => [toFunc]
      case Throwing => [path[0].qualified]
  }

  /** Every searched USR that is not still open leads to searched ones only, and none of
      the searched ones is a hit. */
  ghost predicate Explored(table: Table, goal: Goal, searched: set<Usr>, open: set<Usr>) {
    open <= searched &&
    (forall u :: u in searched ==> !Hit(table, goal, u)) &&
    forall u, i :: u in searched - open && 0 <= i < |Rows(table, u)| ==> Rows(table, u)[i].usr in searched
  }

  ghost predicate NoDuplicates(s: seq<Usr>) {
    forall i, j :: 0 <= i < j < |s| ==> s[i] != s[j]
  }

  ghost predicate StartsAt(path: seq<Vertex>, usr: Usr, name: Name) {
    path != [] && path[0] == Vertex(usr, name)
  }

  predicate RowColumns(table: Table, usr: Usr, usrs: seq<Usr>, qualified: seq<Name>) {
    var rows := Rows(table, usr);
    |usrs| == |qualified| == |rows| &&
    forall i :: 0 <= i < |rows| ==> usrs[i] == rows[i].usr && qualified[i] == rows[i].qualified
  }

  /** Putting a caller in front of a path found from its rows. */
  lemma ExtendWitness(table: Table, goal: Goal, v: Vertex, usrs: seq<Usr>, qualified: seq<Name>, path: seq<Vertex>)
    returns (longer: seq<Vertex>)
    requires RowColumns(table, v.usr, usrs, qualified) && Witness(table, goal, usrs, qualified, path)
    ensures StartsAt(longer, v.usr, v.qualified) && IsPath(CallRows(table), longer)
    ensures Hit(table, goal, longer[|longer| - 1].usr) && Pushed(goal, longer) == Pushed(goal, path) + [v.qualified]
  {
    longer := [v] + path;
    assert CallRows(table)(v, path[0]);
    ConsIsPath(CallRows(table), v, path);
    PushedOfCons(goal, v, path);
  }

  lemma PushedOfCons(goal: Goal, v: Vertex, path: seq<Vertex>)
    requires path != []
    ensures Pushed(goal, [v] + path) == Pushed(goal, path) + [v.qualified]
  {
  }

  lemma HitWitness(table: Table, goal: Goal, v: Vertex)
    ensures IsPath(CallRows(table), [v])
    ensures Pushed(goal, [v]) == match goal case CallerOf(toFunc) => [toFunc] case Throwing => [v.qualified]
  {
  }

  /** A caller that is not a hit may be searched, and is open while its rows are. */
  lemma OpenCaller(table: Table, goal: Goal, searched: set<Usr>, open: set<Usr>, usr: Usr)
    requires Explored(table, goal, searched, open) && !Hit(table, goal, usr)
    ensures Explored(table, goal, searched + {usr}, open + {usr})
  {
  }

  /** A caller is no longer open once all USRs of its rows are searched. */
  lemma CloseCaller(table: Table, goal: Goal, searched: set<Usr>, open: set<Usr>, usr: Usr, usrs: seq<Usr>)
    requires Explored(table, goal, searched, open + {usr})
    requires |usrs| == |Rows(table, usr)| && forall i :: 0 <= i < |usrs| ==> usrs[i] == Rows(table, usr)[i].usr
    requires forall u :: u in usrs ==> u in searched
    ensures Explored(table, goal, searched, open)
  {
  }

  /** When all callers are explored and nothing is open, no hit can be reached. */
  lemma ExploredReachesNoHit(table: Table, goal: Goal, searched: set<Usr>, start: Vertex, v: Vertex)
    requires Explored(table, goal, searched, {}) && start.usr in searched && Reaches(CallRows(table), start, v)
    ensures !Hit(table, goal, v.usr)
  {
    var path :| Connects(CallRows(table), path, start, v);
    PathStaysInside(CallRows(table), (w: Vertex) => w.usr in searched, path);
  }

  method Mentions(qualified: seq<Name>, toFunc: Name) returns (found: bool)
    ensures found <==> exists i :: 0 <= i < |qualified| && qualified[i] == toFunc
  {
    for i := 0 to |qualified|
      invariant forall k :: 0 <= k < i ==> qualified[k] != toFunc
    {
      if qualified[i] == toFunc {
        return true;
      }
    }
    return false;
  }

  class Search {
    const table: Table
    var searched: set<Usr>
    var result: seq<Name>
    // The USRs the table was queried for, in order.
    ghost var queried: seq<Usr>

    ghost predicate Valid()
      reads this
    {
      NoDuplicates(queried) && searched == set u | u in queried
    }

    constructor (table: Table)
      ensures Valid() && this.table == table && searched == {} && result == []
    {
      this.table := table;
      searched, result, queried := {}, [], [];
    }

    /** The rows stored under a caller, column by column. */
    method Query(usr: Usr) returns (usrs: seq<Usr>, qualified: seq<Name>, mightThrow: seq<bool>)
      modifies this`queried
      ensures queried == old(queried) + [usr]
      ensures RowColumns(table, usr, usrs, qualified) && |mightThrow| == |usrs|
      ensures forall i :: 0 <= i < |mightThrow| ==> mightThrow[i] == Rows(table, usr)[i].callerMightThrow
    {
      queried := queried + [usr];
      var rows := Rows(table, usr);
      usrs, qualified, mightThrow := [], [], [];
      for i := 0 to |rows|
        invariant |usrs| == |qualified| == |mightThrow| == i
        invariant forall k :: 0 <= k < i ==> usrs[k] == rows[k].usr && qualified[k] == rows[k].qualified
        invariant forall k :: 0 <= k < i ==> mightThrow[k] == rows[k].callerMightThrow
      {
        usrs := usrs + [rows[i].usr];
        qualified := qualified + [rows[i].qualified];
        mightThrow := mightThrow + [rows[i].callerMightThrow];
      }
    }

    /** Marks a caller as searched and fetches its rows. */
    method Visit(usr: Usr) returns (usrs: seq<Usr>, qualified: seq<Name>, mightThrow: seq<bool>)
      requires Valid() && usr !in searched
      modifies this`searched, this`queried
      ensures Valid() && searched == old(searched) + {usr}
      ensures RowColumns(table, usr, usrs, qualified) && |mightThrow| == |usrs|
      ensures forall i :: 0 <= i < |mightThrow| ==> mightThrow[i] == Rows(table, usr)[i].callerMightThrow
    {
      searched := searched + {usr};
      usrs, qualified, mightThrow := Query(usr);
    }

    method SearchCallpath(usrs: seq<Usr>, qualified: seq<Name>, toFunc: Name, ghost open: set<Usr>)
      returns (found: bool, ghost path: seq<Vertex>)
      requires Valid() && |usrs| == |qualified| && Explored(table, CallerOf(toFunc), searched, open)
      modifies this
      ensures Valid() && old(searched) <= searched
      ensures found ==> Witness(table, CallerOf(toFunc), usrs, qualified, path) &&
                        result == old(result) + Pushed(CallerOf(toFunc), path)
      ensures !found ==> result == old(result) && Explored(table, CallerOf(toFunc), searched, open) &&
                         forall u :: u in usrs ==> u in searched
      decreases table.Keys - searched, |usrs|, 1
    {
      path := [];
      for n := 0 to |usrs|
        invariant Valid() && old(searched) <= searched
        invariant result == old(result) && Explored(table, CallerOf(toFunc), searched, open)
        invariant forall k :: 0 <= k < n ==> usrs[k] in searched
      {
        if usrs[n] in searched {
          continue;
        }
        found, path := SearchCaller(usrs[n], qualified[n], toFunc, open);
        if found {
          return;
        }
      }
      return false, path;
    }

    /** One caller of the loop, not searched before. */
    method SearchCaller(usr: Usr, name: Name, toFunc: Name, ghost open: set<Usr>)
      returns (found: bool, ghost path: seq<Vertex>)
      requires Valid() && usr !in searched && Explored(table, CallerOf(toFunc), searched, open)
      modifies this
      ensures Valid() && old(searched) <= searched
      ensures found ==> StartsAt(path, usr, name) && IsPath(CallRows(table), path) &&
                        Hit(table, CallerOf(toFunc), path[|path| - 1].usr) &&
                        result == old(result) + Pushed(CallerOf(toFunc), path)
      ensures !found ==> result == old(result) && usr in searched && Explored(table, CallerOf(toFunc), searched, open)
      decreases table.Keys - searched, 1, 0
    {
      path := [Vertex(usr, name)];
      var fcUsrs, fcQualified, _ := Visit(usr);
      found := Mentions(fcQualified, toFunc);
      assert found <==> Hit(table, CallerOf(toFunc), usr);
      if found {
        HitWitness(table, CallerOf(toFunc), Vertex(usr, name));
        result := result + [toFunc];
      } else {
        OpenCaller(table, CallerOf(toFunc), old(searched), open, usr);
        found, path := SearchCallpath(fcUsrs, fcQualified, toFunc, open + {usr});
        if found {
          path := ExtendWitness(table, CallerOf(toFunc), Vertex(usr, name), fcUsrs, fcQualified, path);
          result := result + [name];
        } else {
          CloseCaller(table, CallerOf(toFunc), searched, open, usr, fcUsrs);
        }
      }
    }

    method SearchThrowpath(usrs: seq<Usr>, qualified: seq<Name>, ghost open: set<Usr>)
      returns (found: bool, ghost path: seq<Vertex>)
      requires Valid() && |usrs| == |qualified| && Explored(table, Throwing, searched, open)
      modifies this
      ensures Valid() && old(searched) <= searched
      ensures found ==> Witness(table, Throwing, usrs, qualified, path) &&
                        result == old(result) + Pushed(Throwing, path)
      ensures !found ==> result == old(result) && Explored(table, Throwing, searched, open) &&
                         forall u :: u in usrs ==> u in searched
      decreases table.Keys - searched, |usrs|, 1
    {
      path := [];
      for n := 0 to |usrs|
        invariant Valid() && old(searched) <= searched
        invariant result == old(result) && Explored(table, Throwing, searched, open)
        invariant forall k :: 0 <= k < n ==> usrs[k] in searched
      {
        if usrs[n] in searched {
          continue;
        }
        found, path := SearchThrower(usrs[n], qualified[n], open);
        if found {
          return;
        }
      }
      return false, path;
    }

    /** One caller of the loop, not searched before. */
    method SearchThrower(usr: Usr, name: Name, ghost open: set<Usr>)
      returns (found: bool, ghost path: seq<Vertex>)
      requires Valid() && usr !in searched && Explored(table, Throwing, searched, open)
      modifies this
      ensures Valid() && old(searched) <= searched
      ensures found ==> StartsAt(path, usr, name) && IsPath(CallRows(table), path) &&
                        Hit(table, Throwing, path[|path| - 1].usr) &&
                        result == old(result) + Pushed(Throwing, path)
      ensures !found ==> result == old(result) && usr in searched && Explored(table, Throwing, searched, open)
      decreases table.Keys - searched, 1, 0
    {
      path := [Vertex(usr, name)];
      var fcUsrs, fcQualified, callerMightThrow := Visit(usr);
      if |fcUsrs| == 0 {
        found := false;
      } else if callerMightThrow[0] {
        HitWitness(table, Throwing, Vertex(usr, name));
        found, result := true, result + [name];
      } else {
        OpenCaller(table, Throwing, old(searched), open, usr);
        found, path := SearchThrowpath(fcUsrs, fcQualified, open + {usr});
        if found {
          path := ExtendWitness(table, Throwing, Vertex(usr, name), fcUsrs, fcQualified, path);
          result := result + [name];
        } else {
          CloseCaller(table, Throwing, searched, open, usr, fcUsrs);
        }
      }
    }
  }

  // ----- the two queries -----

  /** The functions the search starts from: one name, any number of USRs. */
  ghost predicate IsStart(usrs: seq<Usr>, fromFunc: Name, v: Vertex) {
    v.usr in usrs && v.qualified == fromFunc
  }

  ghost predicate Answerable(table: Table, goal: Goal, usrs: seq<Usr>, fromFunc: Name) {
    exists start, v :: IsStart(usrs, fromFunc, start) && Reaches(CallRows(table), start, v) && Hit(table, goal, v.usr)
  }

  /** A chain of call rows from a start function to a hit. */
  ghost predicate Chain(table: Table, goal: Goal, usrs: seq<Usr>, fromFunc: Name, path: seq<Vertex>) {
    IsPath(CallRows(table), path) && IsStart(usrs, fromFunc, path[0]) && Hit(table, goal, path[|path| - 1].usr)
  }

  /** What is printed for a path, from its start on. */
  ghost function Printed(goal: Goal, path: seq<Vertex>): seq<Name>
    requires path != []
  {
    if |path| > 1 then [path[0].qualified] + Printed(goal, path[1..])
    else match goal
      case CallerOf(toFunc) => [toFunc]
      case Throwing => [path[0].qualified]
  }

  lemma {:induction false} ReversedPushed(goal: Goal, path: seq<Vertex>)
    requires path != []
    ensures Reversed(Pushed(goal, path)) == Printed(goal, path)
    decreases |path|
  {
    if |path| > 1 {
      ReversedPushed(goal, path[1..]);
      ReversedSnoc(Pushed(goal, path[1..]), path[0].qualified);
    }
  }

  lemma {:induction false} ReversedSnoc(s: seq<Name>, x: Name)
    ensures Reversed(s + [x]) == [x] + Reversed(s)
  {
    if s != [] {
      ReversedSnoc(s[1..], x);
      assert (s + [x])[1..] == s[1..] + [x];
    }
  }

  /** A throw path is printed with the name of every function on it. */
  lemma {:induction false} PrintedThrowpath(path: seq<Vertex>)
    requires path != []
    ensures |Printed(Throwing, path)| == |path|
    ensures forall i :: 0 <= i < |path| ==> Printed(Throwing, path)[i] == path[i].qualified
    decreases |path|
  {
    if |path| > 1 {
      PrintedThrowpath(path[1..]);
    }
  }

  /** A call path is printed with the name of every function on it but the last, which
      is the one that calls `toFunc`; then comes `toFunc`. */
  lemma {:induction false} PrintedCallpath(toFunc: Name, path: seq<Vertex>)
    requires path != []
    ensures |Printed(CallerOf(toFunc), path)| == |path|
    ensures forall i :: 0 <= i < |path| - 1 ==> Printed(CallerOf(toFunc), path)[i] == path[i].qualified
    ensures Printed(CallerOf(toFunc), path)[|path| - 1] == toFunc
    decreases |path|
  {
    if |path| > 1 {
      PrintedCallpath(toFunc, path[1..]);
    }
  }

  lemma WitnessAnswers(table: Table, goal: Goal, usrs: seq<Usr>, qualified: seq<Name>, fromFunc: Name,
                       path: seq<Vertex>)
    requires |usrs| == |qualified| && Witness(table, goal, usrs, qualified, path)
    requires forall i :: 0 <= i < |qualified| ==> qualified[i] == fromFunc
    ensures Chain(table, goal, usrs, fromFunc, path) && Answerable(table, goal, usrs, fromFunc)
  {
    var i :| 0 <= i < |usrs| && path[0] == Vertex(usrs[i], qualified[i]);
    assert usrs[i] in usrs && IsStart(usrs, fromFunc, path[0]);
    assert Connects(CallRows(table), path, path[0], path[|path| - 1]);
  }

  lemma NotFoundAnswers(table: Table, goal: Goal, searched: set<Usr>, usrs: seq<Usr>, fromFunc: Name)
    requires Explored(table, goal, searched, {}) && forall u :: u in usrs ==> u in searched
    ensures !Answerable(table, goal, usrs, fromFunc)
  {
    if Answerable(table, goal, usrs, fromFunc) {
      var start, v :| IsStart(usrs, fromFunc, start) && Reaches(CallRows(table), start, v) && Hit(table, goal, v.usr);
      ExploredReachesNoHit(table, goal, searched, start, v);
    }
  }

  // ----- the same in terms of the table -----

  lemma HitsOfTable(table: Table, toFunc: Name)
    ensures forall u :: Hit(table, CallerOf(toFunc), u) <==>
              u in table && exists row :: row in table[u] && row.qualified == toFunc
    ensures forall u :: Hit(table, Throwing, u) <==> u in table && table[u] != [] && table[u][0].callerMightThrow
  {
    forall u | u in table
      ensures Hit(table, CallerOf(toFunc), u) <==> exists row :: row in table[u] && row.qualified == toFunc
    {
      if row :| row in table[u] && row.qualified == toFunc {
        var i :| 0 <= i < |table[u]| && table[u][i] == row;
        assert Rows(table, u)[i].qualified == toFunc;
      }
    }
  }

  /** One function leads to another iff it has a row with the USR and name of the other. */
  lemma EdgesOfTable(table: Table, a: Vertex, b: Vertex)
    ensures CallRows(table)(a, b) <==>
              a.usr in table && exists row :: row in table[a.usr] && row.usr == b.usr && row.qualified == b.qualified
  {
    if a.usr in table {
      if row :| row in table[a.usr] && row.usr == b.usr && row.qualified == b.qualified {
        var i :| 0 <= i < |table[a.usr]| && table[a.usr][i] == row;
        assert Rows(table, a.usr)[i] == row;
      }
    }
  }

  /** do_query_callpath: no caller is queried twice, and the printed path is a chain of
      calls from `fromFunc` to `toFunc` with its last caller, the one that calls
      `toFunc`, left out. */
  method QueryCallpath(table: Table, usrs: seq<Usr>, fromFunc: Name, toFunc: Name)
    returns (ok: bool, printed: seq<Name>, ghost path: seq<Vertex>, ghost queried: seq<Usr>)
    ensures NoDuplicates(queried)
    ensures ok <==> fromFunc != toFunc && Answerable(table, CallerOf(toFunc), usrs, fromFunc)
    ensures ok ==> Chain(table, CallerOf(toFunc), usrs, fromFunc, path) &&
                   printed == Printed(CallerOf(toFunc), path)
    ensures !ok ==> printed == []
    ensures ok <==> fromFunc != toFunc &&
                    exists start: Vertex, v: Vertex ::
                      start.usr in usrs && start.qualified == fromFunc && Reaches(CallRows(table), start, v) &&
                      v.usr in table && exists row :: row in table[v.usr] && row.qualified == toFunc
    ensures ok ==> path != [] && path[0].usr in usrs && path[0].qualified == fromFunc &&
                   var last := path[|path| - 1].usr;
                   last in table && exists row :: row in table[last] && row.qualified == toFunc
  {
    HitsOfTable(table, toFunc);
    ok, printed, path, queried := false, [], [], [];
    if fromFunc == toFunc {
      return;
    }
    var search := new Search(table);
    var qualified := seq(|usrs|, i => fromFunc);
    var found;
    found, path := search.SearchCallpath(usrs, qualified, toFunc, {});
    if found {
      WitnessAnswers(table, CallerOf(toFunc), usrs, qualified, fromFunc, path);
      assert search.result == Pushed(CallerOf(toFunc), path);
      ReversedPushed(CallerOf(toFunc), path);
    } else {
      NotFoundAnswers(table, CallerOf(toFunc), search.searched, usrs, fromFunc);
    }
    ok, printed, queried := search.result != [], Reversed(search.result), search.queried;
    assert found <==> ok;
  }

  /** do_query_throwpath: no caller is queried twice, and the printed path names every
      function of a chain of calls from `fromFunc` to a function flagged as throwing. */
  method QueryThrowpath(table: Table, usrs: seq<Usr>, fromFunc: Name)
    returns (ok: bool, printed: seq<Name>, ghost path: seq<Vertex>, ghost queried: seq<Usr>)
    ensures NoDuplicates(queried)
    ensures ok <==> Answerable(table, Throwing, usrs, fromFunc)
    ensures ok ==> Chain(table, Throwing, usrs, fromFunc, path) && printed == Printed(Throwing, path)
    ensures !ok ==> printed == []
    ensures ok <==> exists start: Vertex, v: Vertex ::
                      start.usr in usrs && start.qualified == fromFunc && Reaches(CallRows(table), start, v) &&
                      v.usr in table && table[v.usr] != [] && table[v.usr][0].callerMightThrow
    ensures ok ==> path != [] && path[0].usr in usrs && path[0].qualified == fromFunc &&
                   var last := path[|path| - 1].usr;
                   last in table && table[last] != [] && table[last][0].callerMightThrow
  {
    HitsOfTable(table, fromFunc);
    var search := new Search(table);
    var qualified := seq(|usrs|, i => fromFunc);
    var found;
    found, path := search.SearchThrowpath(usrs, qualified, {});
    if found {
      WitnessAnswers(table, Throwing, usrs, qualified, fromFunc, path);
      assert search.result == Pushed(Throwing, path);
      ReversedPushed(Throwing, path);
    } else {
      NotFoundAnswers(table, Throwing, search.searched, usrs, fromFunc);
    }
    ok, printed, queried := search.result != [], Reversed(search.result), search.queried;
    assert found <==> ok;
  }
}
