/** What the analyzer knows about one entity: `ExceptionAnalyzer::ExceptionInfo`,
    once as a value with its operations and once as the class that updates its
    fields in place. */
module ExceptionInfos {
  import opened Ast

  datatype State = Throwing | NotThrowing | Unknown

  datatype Info = Info(behaviour: State, containsUnknown: bool, thrown: set<TypeId>)

  /** Which exception names a run of the analyzer disregards. */
  datatype Ignore = Ignore(names: set<string>, badAlloc: bool)

  /** The state that a set of types and an unknown flag stand for. */
  function Classify(thrown: set<TypeId>, containsUnknown: bool): State {
    if thrown != {} then Throwing else if containsUnknown then Unknown else NotThrowing
  }

  function FromState(s: State): Info {
    Info(s, s == Unknown, {})
  }

  function CreateUnknown(): Info {
    FromState(Unknown)
  }

  /** The factory really seeds Throwing, whatever its name says. */
  function CreateNonThrowing(): Info {
    FromState(Throwing)
  }

  function Registered(i: Info, t: TypeId): Info {
    i.(behaviour := Throwing, thrown := i.thrown + {t})
  }

  function RegisteredAll(i: Info, ts: set<TypeId>): Info {
    if ts == {} then i else i.(behaviour := Throwing, thrown := i.thrown + ts)
  }

  function Merged(i: Info, other: Info): Info {
    Info(
      if other.behaviour == Throwing then Throwing
      else if other.behaviour == Unknown && i.behaviour == NotThrowing then Unknown
      else i.behaviour,
      i.containsUnknown || other.containsUnknown,
      i.thrown + other.thrown)
  }

  function Cleared(): Info {
    Info(NotThrowing, false, {})
  }

  function Without(i: Info, ts: set<TypeId>): Info {
    Info(Classify(i.thrown - ts, i.containsUnknown), i.containsUnknown, i.thrown - ts)
  }

  function Caught(p: Program, i: Info, base: TypeId): set<TypeId> {
    set t | t in i.thrown && p.Catches(base, t)
  }

  function AfterCatch(p: Program, i: Info, base: TypeId): Info {
    Without(i, Caught(p, i, base))
  }

  predicate Ignored(p: Program, ign: Ignore, t: TypeId) {
    t in p.tags &&
    var tag := p.tags[t];
    (ign.badAlloc && tag.name == "bad_alloc" && tag.inStd) || tag.name in ign.names
  }

  function AfterIgnoring(p: Program, i: Info, ign: Ignore): Info {
    Without(i, set t | t in i.thrown && Ignored(p, ign, t))
  }

  /** A state other than Throwing is the classification of what was gathered. The
      converse fails: the seed is Throwing with nothing gathered. */
  predicate Consistent(i: Info) {
    i.behaviour == Throwing || (i.thrown == {} && i.behaviour == Classify({}, i.containsUnknown))
  }

  /** Every operation keeps Consistent, and those that recompute the state make it
      exact. */
  lemma OperationsKeepConsistent(p: Program, i: Info, j: Info, t: TypeId, ts: set<TypeId>, ign: Ignore, s: State)
    requires Consistent(i) && Consistent(j)
    ensures Consistent(FromState(s)) && Consistent(Cleared())
    ensures Consistent(Registered(i, t)) && Consistent(RegisteredAll(i, ts)) && Consistent(Merged(i, j))
    ensures Consistent(AfterCatch(p, i, t)) && Consistent(AfterIgnoring(p, i, ign))
  {
  }

  /** `j` knows of everything `i` knows of. */
  predicate Leq(i: Info, j: Info) {
    i.thrown <= j.thrown && (i.containsUnknown ==> j.containsUnknown)
  }

  class ExceptionInfo {
    var behaviour: State
    var containsUnknown: bool
    var thrownExceptions: set<TypeId>

    function View(): Info
      reads this
    {
      Info(behaviour, containsUnknown, thrownExceptions)
    }

    /** By default nothing is known to throw. */
    constructor Default()
      ensures View() == Cleared()
    {
      behaviour, containsUnknown, thrownExceptions := NotThrowing, false, {};
    }

    constructor WithState(s: State)
      ensures View() == FromState(s)
    {
      behaviour, containsUnknown, thrownExceptions := s, s == Unknown, {};
    }

    constructor Copy(v: Info)
      ensures View() == v
    {
      behaviour, containsUnknown, thrownExceptions := v.behaviour, v.containsUnknown, v.thrown;
    }

    method RegisterException(t: TypeId)
      modifies this
      ensures View() == Registered(old(View()), t)
    {
      behaviour := Throwing;
      thrownExceptions := thrownExceptions + {t};
    }

    method RegisterExceptions(ts: set<TypeId>)
      modifies this
      ensures View() == RegisteredAll(old(View()), ts)
    {
      if ts == {} {
        return;
      }
      behaviour := Throwing;
      thrownExceptions := thrownExceptions + ts;
    }

    method Merge(other: ExceptionInfo)
      modifies this
      ensures View() == Merged(old(View()), old(other.View()))
    {
      if other.behaviour == Throwing {
        behaviour := Throwing;
      } else if other.behaviour == Unknown && behaviour == NotThrowing {
        behaviour := Unknown;
      }
      containsUnknown := containsUnknown || other.containsUnknown;
      thrownExceptions := thrownExceptions + other.thrownExceptions;
    }

    method ReevaluateBehaviour()
      modifies this`behaviour
      ensures behaviour == Classify(thrownExceptions, containsUnknown)
    {
      if thrownExceptions == {} {
        if containsUnknown {
          behaviour := Unknown;
        } else {
          behaviour := NotThrowing;
        }
      } else {
        behaviour := Throwing;
      }
    }

    /** Erases the listed types one by one. */
    method Erase(typesToDelete: seq<TypeId>)
      modifies this
      ensures View() == Without(old(View()), set t | t in typesToDelete)
    {
      for k := 0 to |typesToDelete|
        invariant containsUnknown == old(containsUnknown)
        invariant thrownExceptions == old(thrownExceptions) - set t | t in typesToDelete[..k]
      {
        thrownExceptions := thrownExceptions - {typesToDelete[k]};
      }
      assert typesToDelete[..|typesToDelete|] == typesToDelete;
      ReevaluateBehaviour();
    }

    /** Drops what `catch (base)` catches and says whether it caught anything. */
    method FilterByCatch(p: Program, base: TypeId) returns (filtered: bool)
      modifies this
      ensures View() == AfterCatch(p, old(View()), base)
      ensures filtered <==> Caught(p, old(View()), base) != {}
      ensures forall t :: t in thrownExceptions <==>
                t in old(thrownExceptions) && t != base && (t, base) !in p.derives
      ensures filtered <==> exists t :: t in old(thrownExceptions) && (t == base || (t, base) in p.derives)
    {
      var typesToDelete: seq<TypeId> := [];
      var rest := thrownExceptions;
      while rest != {}
        invariant rest <= thrownExceptions
        invariant forall t :: t in typesToDelete <==> t in thrownExceptions - rest && p.Catches(base, t)
        decreases rest
      {
        var t :| t in rest;
        if p.Catches(base, t) {
          typesToDelete := typesToDelete + [t];
        }
        rest := rest - {t};
      }
      assert (set t | t in typesToDelete) == Caught(p, View(), base);
      Erase(typesToDelete);
      filtered := |typesToDelete| > 0;
      if filtered {
        assert typesToDelete[0] in typesToDelete;
      } else {
        assert typesToDelete == [];
      }
    }

    method FilterIgnoredExceptions(p: Program, ign: Ignore)
      modifies this
      ensures View() == AfterIgnoring(p, old(View()), ign)
      ensures forall t :: t in thrownExceptions <==>
                t in old(thrownExceptions) &&
                (t in p.tags ==>
                   p.tags[t].name !in ign.names &&
                   !(ign.badAlloc && p.tags[t].name == "bad_alloc" && p.tags[t].inStd))
    {
      var typesToDelete: seq<TypeId> := [];
      var rest := thrownExceptions;
      while rest != {}
        invariant rest <= thrownExceptions
        invariant forall t :: t in typesToDelete <==> t in thrownExceptions - rest && Ignored(p, ign, t)
        decreases rest
      {
        var t :| t in rest;
        if t in p.tags {
          var tag := p.tags[t];
          if (ign.badAlloc && (tag.name == "bad_alloc" && tag.inStd)) || tag.name in ign.names {
            typesToDelete := typesToDelete + [t];
          }
        }
        rest := rest - {t};
      }
      assert (set t | t in typesToDelete) == (set t | t in thrownExceptions && Ignored(p, ign, t));
      Erase(typesToDelete);
    }

    method Clear()
      modifies this
      ensures View() == Cleared()
    {
      behaviour, containsUnknown, thrownExceptions := NotThrowing, false, {};
    }
  }
}
