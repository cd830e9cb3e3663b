/** The syntax the exception analyzer walks: statements, handlers, functions and
    the inheritance relation between exception types. */
module Ast {
  import opened Basics

  // Canonical (unqualified, desugared, reference-stripped) types and function
  // declarations are compared by identity only.
  type TypeId = nat
  type FuncId = nat

  datatype Stmt =
    | Null                                        // a null child pointer
    | Throw(ty: TypeId)                           // throw e;
    | Rethrow                                     // throw;
    | Try(body: Stmt, handlers: seq<Handler>)
    | Call(callee: Option<FuncId>)                // None: no direct callee
    | Construct(ctor: FuncId)
    | DefaultInit(expr: Stmt)
    | Other(children: seq<Stmt>)

  datatype Handler =
    | Catch(ty: TypeId, block: Stmt)              // catch (T) { ... }
    | CatchAll(block: Stmt)                       // catch (...) { ... }

  /** `inits` is empty unless the function is a constructor; `spec` lists the
      types of its exception specification. */
  datatype Function = Function(body: Option<Stmt>, inits: seq<Stmt>, spec: seq<TypeId>)

  /** A type that is a tag declaration with an identifier for a name. */
  datatype Tag = Tag(name: string, inStd: bool)

  /** `derives` holds (d, b) when class b is a proper, possibly indirect, base of
      class d. */
  datatype Program = Program(
    functions: map<FuncId, Function>,
    derives: set<(TypeId, TypeId)>,
    tags: map<TypeId, Tag>)
  {
    /** A function the program does not define is external: it has no body. */
    function Func(f: FuncId): Function {
      if f in functions then functions[f] else Function(None, [], [])
    }

    predicate HasBody(f: FuncId) {
      Func(f).body.Some?
    }

    predicate IsBaseOf(derived: TypeId, base: TypeId) {
      (derived, base) in derives
    }

    /** Would `catch (base)` catch an exception of type `t`? */
    predicate Catches(base: TypeId, t: TypeId) {
      t == base || IsBaseOf(t, base)
    }
  }
}
