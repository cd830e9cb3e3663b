/** The call graph: which functions the analyzer can get to from which. */
module CallGraph {
  import opened Basics
  import opened Ast
  import opened Graphs

  /** `s` contains a call that the analyzer follows to `g`. */
  ghost predicate CallsTo(s: Stmt, g: FuncId) {
    match s
    case Try(body, handlers) =>
      CallsTo(body, g) || exists i :: 0 <= i < |handlers| && CallsTo(handlers[i].block, g)
    case Call(callee) => callee == Some(g)
    case Construct(ctor) => ctor == g
    case DefaultInit(expr) => CallsTo(expr, g)
    case Other(children) => exists i :: 0 <= i < |children| && CallsTo(children[i], g)
    case _ => false
  }

  /** `s` is the body or an initialiser of `f`. */
  ghost predicate PartOf(p: Program, f: FuncId, s: Stmt) {
    var fn := p.Func(f);
    fn.body.Some? && (s == fn.body.value || s in fn.inits)
  }

  ghost predicate Calls(p: Program, f: FuncId, g: FuncId) {
    var fn := p.Func(f);
    fn.body.Some? &&
    (CallsTo(fn.body.value, g) || exists i :: 0 <= i < |fn.inits| && CallsTo(fn.inits[i], g))
  }

  ghost function CallEdge(p: Program): (FuncId, FuncId) -> bool {
    (f: FuncId, g: FuncId) => Calls(p, f, g)
  }

  ghost predicate Acyclic(p: Program) {
    forall f, g :: Calls(p, f, g) ==> !Reaches(CallEdge(p), g, f)
  }
}
