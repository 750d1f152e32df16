/**
 * The canonical engine's compiler (projects/panamint/src/profile/runtime.rs:84-281):
 * the variable mapping that gives every referenced local definition a memo
 * slot, and the builder that lowers a parsed expression to the indexed form.
 */
module PanamintCompiler {
  import opened Options
  import opened ProfileAst
  import opened PanamintScope
  import opened PanamintIr
  import opened PanamintVariables

  /** A variable mapping whose definitions are lowered expressions. */
  type VarState = Mapping<Expr>

  /** `VariableMapping::new`: one empty map in each stack, slot counter at zero. */
  const Initial: VarState := EmptyMapping()

  /** The fixed inputs of a builder: constant indices, global whitelist, tag dictionary. */
  datatype Env = Env(constants: map<string, nat>, globals: seq<string>, tagDict: TagDict)

  /** `compact_tag`: the dictionary id, or the reserved unknown id. */
  function CompactTag(dict: TagDict, key: string): (t: TagId)
    ensures t.Known? <==> key in dict
    ensures t.Known? ==> t.id == dict[key]
  {
    if key in dict then Known(dict[key]) else Unknown
  }

  function CompactTags(dict: TagDict, keys: seq<string>): (r: seq<TagId>)
    ensures |r| == |keys|
    ensures forall i :: 0 <= i < |keys| ==> r[i] == CompactTag(dict, keys[i])
  {
    seq(|keys|, i requires 0 <= i < |keys| => CompactTag(dict, keys[i]))
  }

  /** `q` is `p` with every key and value compacted, the pattern kind kept. */
  predicate CompactedFrom(dict: TagDict, p: TagPattern<string>, q: TagPattern<TagId>)
  {
    match p
    case Exists(k) => q == Exists(CompactTag(dict, k))
    case NotExists(k) => q == NotExists(CompactTag(dict, k))
    case OneOf(k, vs) =>
      q.OneOf? && q.key == CompactTag(dict, k) && |q.values| == |vs| &&
      forall j :: 0 <= j < |vs| ==> q.values[j] == CompactTag(dict, vs[j])
    case NoneOf(k, vs) =>
      q.NoneOf? && q.key == CompactTag(dict, k) && |q.values| == |vs| &&
      forall j :: 0 <= j < |vs| ==> q.values[j] == CompactTag(dict, vs[j])
  }

  function CompactPattern(dict: TagDict, p: TagPattern<string>): (q: TagPattern<TagId>)
    ensures CompactedFrom(dict, p, q)
  {
    match p
    case Exists(k) => Exists(CompactTag(dict, k))
    case NotExists(k) => NotExists(CompactTag(dict, k))
    case OneOf(k, vs) => OneOf(CompactTag(dict, k), CompactTags(dict, vs))
    case NoneOf(k, vs) => NoneOf(CompactTag(dict, k), CompactTags(dict, vs))
  }

  /** The tag-pattern case of `lower`: same patterns, same order, every text compacted. */
  function CompactPatterns(dict: TagDict, ps: seq<TagPattern<string>>): (r: seq<TagPattern<TagId>>)
    ensures |r| == |ps|
    ensures forall i :: 0 <= i < |ps| ==> CompactedFrom(dict, ps[i], r[i])
  {
    seq(|ps|, i requires 0 <= i < |ps| => CompactPattern(dict, ps[i]))
  }

  /** Index of every constant name; for a repeated name the later index wins. */
  function ConstIndices(names: seq<string>): (m: map<string, nat>)
    ensures forall x :: x in m <==> x in names
    ensures forall x :: x in m ==> m[x] < |names| && names[m[x]] == x
    ensures forall x, j :: x in m && m[x] < j < |names| ==> names[j] != x
    decreases |names|
  {
    if names == [] then map[]
    else ConstIndices(names[..|names| - 1])[names[|names| - 1] := |names| - 1]
  }

  /** `build_const_map`: constant ids are a `u8`, so 255 or more constants abort. */
  function BuildConstMap(defs: seq<Def>): (r: Result<map<string, nat>, CompileError>)
    ensures r.Err? <==> |defs| >= 255
    ensures r.Ok? ==> r.value == ConstIndices(DefNames(defs))
  {
    if |defs| >= 255 then Err(Panic("Too many constants defined"))
    else Ok(ConstIndices(DefNames(defs)))
  }

  /** The identifier case of `lower`: local definition, then constant, then global. */
  function LowerIdent(env: Env, st: VarState, name: string): (r: (Result<Expr, CompileError>, VarState))
    requires Open(st)
    ensures Extends(st, r.1) && Balanced(st, r.1)
  {
    match Lookup(st.defs, name)
    case Some(def) =>
      var (id, st1) := IdOf(st, name);
      (Ok(LookupOrCompute(id, def)), st1)
    case None =>
      if name in env.constants then (Ok(LookupConstant(env.constants[name])), st)
      else if name in env.globals then (Ok(LookupGlobal(name)), st)
      else (Err(UnknownIdent(name)), st)
  }

  /**
   * `Builder::lower` on a variable-mapping state. A failure leaves the state
   * where it stood, including any scope pushed by an unfinished block.
   */
  function LowerF(env: Env, st: VarState, e: Expression): (r: (Result<Expr, CompileError>, VarState))
    requires Open(st)
    ensures Extends(st, r.1)
    ensures r.0.Ok? ==> Balanced(st, r.1)
    decreases e, 2
  {
    match e
    case Literal(v) => (Ok(Lit(v)), st)
    case Ident(name) => LowerIdent(env, st, name)
    case Tags(ps) => (Ok(Patterns(CompactPatterns(env.tagDict, ps))), st)
    case NamedBlock(_, _, _) => LowerBlock(env, st, e)
    case WhenBlock(_) => LowerClauses(env, st, e, 0, [])
  }

  function LowerBlock(env: Env, st: VarState, e: Expression): (r: (Result<Expr, CompileError>, VarState))
    requires Open(st) && e.NamedBlock?
    ensures Extends(st, r.1)
    ensures r.0.Ok? ==> Balanced(st, r.1)
    decreases e, 1
  {
    var (err, st2) := LowerDefs(env, PushVars(st), e, 0);
    if err.Some? then (Err(err.value), st2)
    else match BlockTyOf(e.name)
      case None => (Err(UnknownBlockTy(e.name)), st2)
      case Some(ty) =>
        if !Admits(ArityOf(ty), |e.body|) then (Err(Panic("invalid number of arguments given")), st2)
        else
          var (rb, st3) := LowerBody(env, st2, e, 0, []);
          if rb.Err? then (Err(rb.error), st3) else (Ok(Block(ty, rb.value)), PopVars(st3))
  }

  /** The definitions of a block from the `i`-th on, each lowered and then registered. */
  function LowerDefs(env: Env, st: VarState, e: Expression, i: nat): (r: (Option<CompileError>, VarState))
    requires Open(st) && e.NamedBlock? && i <= |e.defs|
    ensures Extends(st, r.1)
    ensures r.0.None? ==> Balanced(st, r.1)
    decreases e, 0, |e.defs| - i
  {
    if i == |e.defs| then (Option.None, st)
    else
      var d := e.defs[i];
      assert d.expr < d < e;
      var (x, st1) := LowerF(env, st, d.expr);
      if x.Err? then (Some(x.error), st1)
      else LowerDefs(env, WithDefinition(st1, d.ident, x.value), e, i + 1)
  }

  /** The body of a block from the `i`-th element on, appended to `acc`. */
  function LowerBody(env: Env, st: VarState, e: Expression, i: nat, acc: seq<Expr>): (r: (Result<seq<Expr>, CompileError>, VarState))
    requires Open(st) && e.NamedBlock? && i <= |e.body|
    ensures Extends(st, r.1)
    ensures r.0.Ok? ==> Balanced(st, r.1) && |r.0.value| == |acc| + |e.body| - i
    decreases e, 0, |e.body| - i
  {
    if i == |e.body| then (Ok(acc), st)
    else
      var (x, st1) := LowerF(env, st, e.body[i]);
      if x.Err? then (Err(x.error), st1)
      else LowerBody(env, st1, e, i + 1, acc + [x.value])
  }

  /** The clauses of a when block from the `i`-th on: condition first, then value. */
  function LowerClauses(env: Env, st: VarState, e: Expression, i: nat, acc: seq<Clause>): (r: (Result<Expr, CompileError>, VarState))
    requires Open(st) && e.WhenBlock? && i <= |e.clauses|
    ensures Extends(st, r.1)
    ensures r.0.Ok? ==> Balanced(st, r.1)
    decreases e, 0, |e.clauses| - i
  {
    if i == |e.clauses| then (Ok(When(acc)), st)
    else
      var cl := e.clauses[i];
      assert cl < e;
      var (c, st1) := LowerF(env, st, cl.condition);
      if c.Err? then (Err(c.error), st1)
      else
        var (v, st2) := LowerF(env, st1, cl.value);
        if v.Err? then (Err(v.error), st2)
        else LowerClauses(env, st2, e, i + 1, acc + [Clause(c.value, v.value)])
  }

  /** A compiled expression with the variable mapping it was compiled against. */
  datatype RunnableExpr = RunnableExpr(expr: Expr, variables: VarState)

  /** `Builder::build`: lower, then hand over the mapping and start afresh. */
  function BuildF(env: Env, st: VarState, e: Expression): (r: (Result<RunnableExpr, CompileError>, VarState))
    requires Open(st)
    ensures r.0.Ok? ==> r.1 == Initial
    ensures r.0.Err? ==> Extends(st, r.1)
  {
    var (x, st1) := LowerF(env, st, e);
    if x.Err? then (Err(x.error), st1) else (Ok(RunnableExpr(x.value, st1)), Initial)
  }

  class Builder {
    const constants: map<string, nat>
    const globals: seq<string>
    const tagDict: TagDict
    const variables: VariableMapping<Expr>

    function Inputs(): Env
    {
      Env(constants, globals, tagDict)
    }

    ghost predicate Ready()
      reads this, variables, variables.ids, variables.defs
    {
      variables.Separate() && Open(variables.State())
    }

    /** `Builder::new`, given the constant map already built by `BuildConstMap`. */
    constructor (constants: map<string, nat>, globals: seq<string>, tagDict: TagDict)
      ensures Ready() && fresh(variables) && fresh(variables.ids) && fresh(variables.defs)
      ensures Inputs() == Env(constants, globals, tagDict)
      ensures variables.State() == Initial
    {
      this.constants := constants;
      this.globals := globals;
      this.tagDict := tagDict;
      variables := new VariableMapping<Expr>();
    }

    method Lower(e: Expression) returns (r: Result<Expr, CompileError>)
      requires Ready()
      modifies variables, variables.ids, variables.defs
      ensures Ready()
      ensures (r, variables.State()) == LowerF(Inputs(), old(variables.State()), e)
      decreases e, 2
    {
      match e {
        case Literal(v) =>
          r := Ok(Lit(v));
        case Ident(name) =>
          var def := variables.GetDefinition(name);
          if def.Some? {
            var id := variables.GetOrAssignId(name);
            r := Ok(LookupOrCompute(id, def.value));
          } else if name in constants {
            r := Ok(LookupConstant(constants[name]));
          } else if name in globals {
            r := Ok(LookupGlobal(name));
          } else {
            r := Err(UnknownIdent(name));
          }
        case Tags(ps) =>
          r := Ok(Patterns(CompactPatterns(tagDict, ps)));
        case NamedBlock(_, _, _) =>
          r := LowerBlock(e);
        case WhenBlock(_) =>
          r := LowerWhen(e);
      }
    }

    /** A named block: its definitions in a new scope, then its body, then the scope popped. */
    method LowerBlock(e: Expression) returns (r: Result<Expr, CompileError>)
      requires e.NamedBlock?
      requires Ready()
      modifies variables, variables.ids, variables.defs
      ensures Ready()
      ensures (r, variables.State()) == LowerF(Inputs(), old(variables.State()), e)
      decreases e, 1
    {
      variables.Push();
      var err := LowerDefinitions(e);
      if err.Some? {
        return Err(err.value);
      }
      var ty;
      match BlockTyOf(e.name) {
        case None =>
          return Err(UnknownBlockTy(e.name));
        case Some(t) =>
          ty := t;
      }
      if !Admits(ArityOf(ty), |e.body|) {
        return Err(Panic("invalid number of arguments given"));
      }
      var lowered := LowerBodyItems(e);
      if lowered.Err? {
        return Err(lowered.error);
      }
      variables.Pop();
      r := Ok(Block(ty, lowered.value));
    }

    /** The definitions of a block, each lowered and then registered in the innermost scope. */
    method LowerDefinitions(e: Expression) returns (err: Option<CompileError>)
      requires e.NamedBlock?
      requires Ready()
      modifies variables, variables.ids, variables.defs
      ensures Ready()
      ensures (err, variables.State()) == LowerDefs(Inputs(), old(variables.State()), e, 0)
      decreases e, 0
    {
      var defs := e.defs;
      var i := 0;
      while i < |defs|
        invariant 0 <= i <= |defs|
        invariant Ready()
        invariant LowerDefs(Inputs(), old(variables.State()), e, 0) == LowerDefs(Inputs(), variables.State(), e, i)
      {
        assert defs[i].expr < defs[i] < e;
        var x := Lower(defs[i].expr);
        if x.Err? {
          return Some(x.error);
        }
        variables.AddDefinition(defs[i].ident, x.value);
        i := i + 1;
      }
      err := Option.None;
    }

    /** The body of a block, each element lowered in order. */
    method LowerBodyItems(e: Expression) returns (r: Result<seq<Expr>, CompileError>)
      requires e.NamedBlock?
      requires Ready()
      modifies variables, variables.ids, variables.defs
      ensures Ready()
      ensures (r, variables.State()) == LowerBody(Inputs(), old(variables.State()), e, 0, [])
      decreases e, 0
    {
      var body := e.body;
      var lowered := [];
      var i := 0;
      while i < |body|
        invariant 0 <= i <= |body|
        invariant Ready()
        invariant LowerBody(Inputs(), old(variables.State()), e, 0, []) == LowerBody(Inputs(), variables.State(), e, i, lowered)
      {
        var x := Lower(body[i]);
        if x.Err? {
          return Err(x.error);
        }
        lowered := lowered + [x.value];
        i := i + 1;
      }
      r := Ok(lowered);
    }

    /** A `when` block: each clause's condition and value, in order. */
    method LowerWhen(e: Expression) returns (r: Result<Expr, CompileError>)
      requires e.WhenBlock?
      requires Ready()
      modifies variables, variables.ids, variables.defs
      ensures Ready()
      ensures (r, variables.State()) == LowerF(Inputs(), old(variables.State()), e)
      decreases e, 1
    {
      var clauses := e.clauses;
      var lowered := [];
      var i := 0;
      while i < |clauses|
        invariant 0 <= i <= |clauses|
        invariant Ready()
        invariant LowerClauses(Inputs(), old(variables.State()), e, 0, []) == LowerClauses(Inputs(), variables.State(), e, i, lowered)
      {
        assert clauses[i] < e;
        var c := Lower(clauses[i].condition);
        if c.Err? {
          return Err(c.error);
        }
        var v := Lower(clauses[i].value);
        if v.Err? {
          return Err(v.error);
        }
        lowered := lowered + [Clause(c.value, v.value)];
        i := i + 1;
      }
      r := Ok(When(lowered));
    }

    method Build(e: Expression) returns (r: Result<RunnableExpr, CompileError>)
      requires Ready()
      modifies variables, variables.ids, variables.defs
      ensures Ready()
      ensures (r, variables.State()) == BuildF(Inputs(), old(variables.State()), e)
    {
      var x := Lower(e);
      if x.Err? {
        return Err(x.error);
      }
      var snapshot := variables.Clear();
      r := Ok(RunnableExpr(x.value, snapshot));
    }
  }
}
