/**
 * The older profile runtime (src/profile/runtime.rs): the same compile-then-
 * evaluate design as the canonical engine, with four block kinds, no
 * globals, no arity check, and a process abort (a panic) wherever the
 * canonical engine has a typed error. Every abort is modelled as an
 * explicit failure carrying the panic message.
 */
module LegacyRuntime {
  import opened Options
  import opened ProfileAst
  import opened PanamintScope
  import opened PanamintVariables
  import Ir = PanamintIr
  import Compiler = PanamintCompiler
  import Tags = PanamintEval

  datatype BlockTy = Any | All | None | Sum

  /** The block-name match of `lower`: anything but the four keywords aborts. */
  function BlockTyOf(name: string): (r: Option<BlockTy>)
    ensures r.Some? <==> name in {"any?", "all?", "none?", "sum"}
    ensures r == Some(Any) <==> name == "any?"
    ensures r == Some(All) <==> name == "all?"
    ensures r == Some(BlockTy.None) <==> name == "none?"
    ensures r == Some(Sum) <==> name == "sum"
  {
    match name
    case "any?" => Some(Any)
    case "all?" => Some(All)
    case "none?" => Some(BlockTy.None)
    case "sum" => Some(Sum)
    case _ => Option.None
  }

  datatype Expr =
    | Lit(value: Value)
    | LookupConstant(index: nat)
    | LookupOrCompute(slot: nat, def: Expr)
    | Block(ty: BlockTy, body: seq<Expr>)
    | When(clauses: seq<Clause>)
    | Patterns(patterns: seq<TagPattern<Ir.TagId>>)

  datatype Clause = Clause(cond: Expr, value: Expr)

  /** The variable mapping over this engine's expressions. */
  type VarState = Mapping<Expr>

  const Initial: VarState := EmptyMapping()

  /** The fixed inputs of a builder: constant indices and the tag dictionary. */
  datatype Env = Env(constants: map<string, nat>, tagDict: Ir.TagDict)

  /** `build_const_map`: 255 or more constants abort. */
  function BuildConstMap(defs: seq<Def>): (r: Result<map<string, nat>, string>)
    ensures r.Err? <==> |defs| >= 255
    ensures r.Ok? ==> r.value == Compiler.ConstIndices(DefNames(defs))
  {
    if |defs| >= 255 then Err("Too many constants defined")
    else Ok(Compiler.ConstIndices(DefNames(defs)))
  }

  /** The identifier case of `lower`: a visible local definition, else a constant, else an abort. */
  function LowerIdent(env: Env, st: VarState, name: string): (r: (Result<Expr, string>, VarState))
    requires Open(st)
    ensures Extends(st, r.1) && Balanced(st, r.1)
  {
    match Lookup(st.defs, name)
    case Some(def) =>
      var (id, st1) := IdOf(st, name);
      (Ok(LookupOrCompute(id, def)), st1)
    case None =>
      if name in env.constants then (Ok(LookupConstant(env.constants[name])), st)
      else (Err("undefined var or const"), st)
  }

  /** `Builder::lower` on a variable-mapping state; `Err` is the message of the abort. */
  function LowerF(env: Env, st: VarState, e: Expression): (r: (Result<Expr, string>, VarState))
    requires Open(st)
    ensures Extends(st, r.1)
    ensures r.0.Ok? ==> Balanced(st, r.1)
    decreases e, 2
  {
    match e
    case Literal(v) => (Ok(Lit(v)), st)
    case Ident(name) => LowerIdent(env, st, name)
    case Tags(ps) => (Ok(Patterns(Compiler.CompactPatterns(env.tagDict, ps))), st)
    case NamedBlock(_, _, _) => LowerBlock(env, st, e)
    case WhenBlock(_) => LowerClauses(env, st, e, 0, [])
  }

  /** A named block: push, definitions in order, the kind, the body, pop. */
  function LowerBlock(env: Env, st: VarState, e: Expression): (r: (Result<Expr, string>, VarState))
    requires Open(st) && e.NamedBlock?
    ensures Extends(st, r.1)
    ensures r.0.Ok? ==> Balanced(st, r.1)
    decreases e, 1
  {
    var (err, st2) := LowerDefs(env, PushVars(st), e, 0);
    if err.Some? then (Err(err.value), st2)
    else match BlockTyOf(e.name)
      case None => (Err("unknown block type"), st2)
      case Some(ty) =>
        var (rb, st3) := LowerBody(env, st2, e, 0, []);
        if rb.Err? then (Err(rb.error), st3) else (Ok(Block(ty, rb.value)), PopVars(st3))
  }

  function LowerDefs(env: Env, st: VarState, e: Expression, i: nat): (r: (Option<string>, VarState))
    requires Open(st) && e.NamedBlock? && i <= |e.defs|
    ensures Extends(st, r.1)
    ensures r.0.None? ==> Balanced(st, r.1)
    decreases e, 0, |e.defs| - i
  {
    if i == |e.defs| then (Option.None, st)
    else
      var d := e.defs[i];
      assert d.expr < d < e;
      var (x, st1) := LowerF(env, st, d.expr);
      if x.Err? then (Some(x.error), st1)
      else LowerDefs(env, WithDefinition(st1, d.ident, x.value), e, i + 1)
  }

  function LowerBody(env: Env, st: VarState, e: Expression, i: nat, acc: seq<Expr>): (r: (Result<seq<Expr>, string>, VarState))
    requires Open(st) && e.NamedBlock? && i <= |e.body|
    ensures Extends(st, r.1)
    ensures r.0.Ok? ==> Balanced(st, r.1) && |r.0.value| == |acc| + |e.body| - i
    decreases e, 0, |e.body| - i
  {
    if i == |e.body| then (Ok(acc), st)
    else
      var (x, st1) := LowerF(env, st, e.body[i]);
      if x.Err? then (Err(x.error), st1)
      else LowerBody(env, st1, e, i + 1, acc + [x.value])
  }

  function LowerClauses(env: Env, st: VarState, e: Expression, i: nat, acc: seq<Clause>): (r: (Result<Expr, string>, VarState))
    requires Open(st) && e.WhenBlock? && i <= |e.clauses|
    ensures Extends(st, r.1)
    ensures r.0.Ok? ==> Balanced(st, r.1)
    decreases e, 0, |e.clauses| - i
  {
    if i == |e.clauses| then (Ok(When(acc)), st)
    else
      var cl := e.clauses[i];
      assert cl < e;
      var (c, st1) := LowerF(env, st, cl.condition);
      if c.Err? then (Err(c.error), st1)
      else
        var (v, st2) := LowerF(env, st1, cl.value);
        if v.Err? then (Err(v.error), st2)
        else LowerClauses(env, st2, e, i + 1, acc + [Clause(c.value, v.value)])
  }

  datatype RunnableExpr = RunnableExpr(expr: Expr, variables: VarState)

  /** `Builder::build`: lower, then hand over the mapping and start afresh. */
  function BuildF(env: Env, st: VarState, e: Expression): (r: (Result<RunnableExpr, string>, VarState))
    requires Open(st)
    ensures r.0.Ok? ==> r.1 == Initial
  {
    var (x, st1) := LowerF(env, st, e);
    if x.Err? then (Err(x.error), st1) else (Ok(RunnableExpr(x.value, st1)), Initial)
  }

  class Builder {
    const constants: map<string, nat>
    const tagDict: Ir.TagDict
    const variables: VariableMapping<Expr>

    function Inputs(): Env
    {
      Env(constants, tagDict)
    }

    ghost predicate Ready()
      reads this, variables, variables.ids, variables.defs
    {
      variables.Separate() && Open(variables.State())
    }

    /** `Builder::new`, given the constant map already built by `BuildConstMap`. */
    constructor (constants: map<string, nat>, tagDict: Ir.TagDict)
      ensures Ready() && fresh(variables) && fresh(variables.ids) && fresh(variables.defs)
      ensures Inputs() == Env(constants, tagDict)
      ensures variables.State() == Initial
    {
      this.constants := constants;
      this.tagDict := tagDict;
      variables := new VariableMapping<Expr>();
    }

    method Lower(e: Expression) returns (r: Result<Expr, string>)
      requires Ready()
      modifies variables, variables.ids, variables.defs
      ensures Ready()
      ensures (r, variables.State()) == LowerF(Inputs(), old(variables.State()), e)
      decreases e, 2
    {
      match e {
        case Literal(v) =>
          r := Ok(Lit(v));
        case Ident(name) =>
          var def := variables.GetDefinition(name);
          if def.Some? {
            var id := variables.GetOrAssignId(name);
            r := Ok(LookupOrCompute(id, def.value));
          } else if name in constants {
            r := Ok(LookupConstant(constants[name]));
          } else {
            r := Err("undefined var or const");
          }
        case Tags(ps) =>
          r := Ok(Patterns(Compiler.CompactPatterns(tagDict, ps)));
        case NamedBlock(_, _, _) =>
          r := LowerBlock(e);
        case WhenBlock(_) =>
          r := LowerWhen(e);
      }
    }

    /** A named block: its definitions in a new scope, then its body, then the scope popped. */
    method LowerBlock(e: Expression) returns (r: Result<Expr, string>)
      requires e.NamedBlock?
      requires Ready()
      modifies variables, variables.ids, variables.defs
      ensures Ready()
      ensures (r, variables.State()) == LowerF(Inputs(), old(variables.State()), e)
      decreases e, 1
    {
      variables.Push();
      var err := LowerDefinitions(e);
      if err.Some? {
        return Err(err.value);
      }
      var ty;
      match BlockTyOf(e.name) {
        case None =>
          return Err("unknown block type");
        case Some(t) =>
          ty := t;
      }
      var lowered := LowerBodyItems(e);
      if lowered.Err? {
        return Err(lowered.error);
      }
      variables.Pop();
      r := Ok(Block(ty, lowered.value));
    }

    /** The definitions of a block, each lowered and then registered in the innermost scope. */
    method LowerDefinitions(e: Expression) returns (err: Option<string>)
      requires e.NamedBlock?
      requires Ready()
      modifies variables, variables.ids, variables.defs
      ensures Ready()
      ensures (err, variables.State()) == LowerDefs(Inputs(), old(variables.State()), e, 0)
      decreases e, 0
    {
      var defs := e.defs;
      var i := 0;
      while i < |defs|
        invariant 0 <= i <= |defs|
        invariant Ready()
        invariant LowerDefs(Inputs(), old(variables.State()), e, 0) == LowerDefs(Inputs(), variables.State(), e, i)
      {
        assert defs[i].expr < defs[i] < e;
        var x := Lower(defs[i].expr);
        if x.Err? {
          return Some(x.error);
        }
        variables.AddDefinition(defs[i].ident, x.value);
        i := i + 1;
      }
      err := Option.None;
    }

    /** The body of a block, each element lowered in order. */
    method LowerBodyItems(e: Expression) returns (r: Result<seq<Expr>, string>)
      requires e.NamedBlock?
      requires Ready()
      modifies variables, variables.ids, variables.defs
      ensures Ready()
      ensures (r, variables.State()) == LowerBody(Inputs(), old(variables.State()), e, 0, [])
      decreases e, 0
    {
      var body := e.body;
      var lowered := [];
      var i := 0;
      while i < |body|
        invariant 0 <= i <= |body|
        invariant Ready()
        invariant LowerBody(Inputs(), old(variables.State()), e, 0, []) == LowerBody(Inputs(), variables.State(), e, i, lowered)
      {
        var x := Lower(body[i]);
        if x.Err? {
          return Err(x.error);
        }
        lowered := lowered + [x.value];
        i := i + 1;
      }
      r := Ok(lowered);
    }

    /** A `when` block: each clause's condition and value, in order. */
    method LowerWhen(e: Expression) returns (r: Result<Expr, string>)
      requires e.WhenBlock?
      requires Ready()
      modifies variables, variables.ids, variables.defs
      ensures Ready()
      ensures (r, variables.State()) == LowerF(Inputs(), old(variables.State()), e)
      decreases e, 1
    {
      var clauses := e.clauses;
      var lowered := [];
      var i := 0;
      while i < |clauses|
        invariant 0 <= i <= |clauses|
        invariant Ready()
        invariant LowerClauses(Inputs(), old(variables.State()), e, 0, []) == LowerClauses(Inputs(), variables.State(), e, i, lowered)
      {
        assert clauses[i] < e;
        var c := Lower(clauses[i].condition);
        if c.Err? {
          return Err(c.error);
        }
        var v := Lower(clauses[i].value);
        if v.Err? {
          return Err(v.error);
        }
        lowered := lowered + [Clause(c.value, v.value)];
        i := i + 1;
      }
      r := Ok(When(lowered));
    }

    method Build(e: Expression) returns (r: Result<RunnableExpr, string>)
      requires Ready()
      modifies variables, variables.ids, variables.defs
      ensures Ready()
      ensures (r, variables.State()) == BuildF(Inputs(), old(variables.State()), e)
    {
      var x := Lower(e);
      if x.Err? {
        return Err(x.error);
      }
      var snapshot := variables.Clear();
      r := Ok(RunnableExpr(x.value, snapshot));
    }
  }

  /** How evaluation ends: a value, or a process abort with its message. */
  datatype Outcome = Done(value: Value) | Panicked(reason: string)

  /** The read-only part of an evaluation context. */
  datatype Context = Context(constants: seq<Value>, tags: Option<Tags.TagSource>)

  type Slots = seq<Option<Value>>

  /** `EvalContext::evaluate` on a context and the current memo slots. */
  function Eval(c: Context, s: Slots, e: Expr): (r: (Outcome, Slots))
    ensures Tags.StillFilled(s, r.1)
    decreases e, 2
  {
    match e
    case Lit(v) => (Done(v), s)
    case LookupConstant(i) =>
      if i < |c.constants| then (Done(c.constants[i]), s)
      else (Panicked("bug: bad const lookup"), s)
    case LookupOrCompute(id, def) =>
      if id >= |s| then (Panicked("index out of bounds"), s)
      else if s[id].Some? then (Done(s[id].value), s)
      else
        var (o, s1) := Eval(c, s, def);
        if o.Done? then (o, s1[id := Some(o.value)]) else (o, s1)
    case Block(_, _) => EvalBlock(c, s, e)
    case When(_) => WhenFrom(c, s, e, 0)
    case Patterns(ps) =>
      match c.tags
      case None => (Panicked("no tags supported here"), s)
      case Some(t) => (Done(Bool(Tags.MatchFrom(t, ps, 0))), s)
  }

  /** `evaluate_block`. */
  function EvalBlock(c: Context, s: Slots, e: Expr): (r: (Outcome, Slots))
    requires e.Block?
    ensures Tags.StillFilled(s, r.1)
    decreases e, 1
  {
    match e.ty
    case Any => Scan(c, s, e, 0, true, true)
    case All => Scan(c, s, e, 0, false, false)
    case None => Scan(c, s, e, 0, true, false)
    case Sum => SumFrom(c, s, e, 0, 0.0)
  }

  /**
   * The loops of `any?`, `all?` and `none?` from the `i`-th argument on: stop
   * with `stopValue` at the first argument whose truthiness is `stopOn`,
   * otherwise give `!stopValue`.
   */
  function Scan(c: Context, s: Slots, e: Expr, i: nat, stopOn: bool, stopValue: bool): (r: (Outcome, Slots))
    requires e.Block? && i <= |e.body|
    ensures Tags.StillFilled(s, r.1)
    decreases e, 0, |e.body| - i
  {
    if i == |e.body| then (Done(Bool(!stopValue)), s)
    else
      var (o, s1) := Eval(c, s, e.body[i]);
      if !o.Done? then (o, s1)
      else if IsTruthy(o.value) == stopOn then (Done(Bool(stopValue)), s1)
      else Scan(c, s1, e, i + 1, stopOn, stopValue)
  }

  /** The `sum` loop from the `i`-th argument on, with the running total `acc`. */
  function SumFrom(c: Context, s: Slots, e: Expr, i: nat, acc: real): (r: (Outcome, Slots))
    requires e.Block? && i <= |e.body|
    ensures Tags.StillFilled(s, r.1)
    decreases e, 0, |e.body| - i
  {
    if i == |e.body| then (Done(Number(acc)), s)
    else
      var (o, s1) := Eval(c, s, e.body[i]);
      if !o.Done? then (o, s1)
      else match o.value
        case Invalid => (Done(Invalid), s1)
        case Number(n) => SumFrom(c, s1, e, i + 1, acc + n)
        case _ => (Panicked("Unexpected type from sum block"), s1)
  }

  /** `evaluate_when` from the `i`-th clause on; running out of clauses aborts. */
  function WhenFrom(c: Context, s: Slots, e: Expr, i: nat): (r: (Outcome, Slots))
    requires e.When? && i <= |e.clauses|
    ensures Tags.StillFilled(s, r.1)
    decreases e, 0, |e.clauses| - i
  {
    if i == |e.clauses| then (Panicked("Fallthrough -> no else block for when"), s)
    else
      var cl := e.clauses[i];
      assert cl < e;
      var (o, s1) := Eval(c, s, cl.cond);
      if !o.Done? then (o, s1)
      else if IsTruthy(o.value) then Eval(c, s1, cl.value)
      else WhenFrom(c, s1, e, i + 1)
  }

  class EvalContext {
    const constants: seq<Value>
    const variables: array<Option<Value>>
    const tagSource: Option<Tags.TagSource>

    function Ctx(): Context
    {
      Context(constants, tagSource)
    }

    /** `EvalContext::constant`: no memo slots and no tag source. */
    constructor Constant(constants: seq<Value>)
      ensures Ctx() == Context(constants, Option.None)
      ensures fresh(variables) && variables.Length == 0
    {
      this.constants := constants;
      tagSource := Option.None;
      variables := new Option<Value>[0];
    }

    /** `EvalContext::with_tag_source`: `numVariables` empty memo slots and a tag source. */
    constructor WithTagSource(constants: seq<Value>, numVariables: nat, tags: Tags.TagSource)
      ensures Ctx() == Context(constants, Some(tags))
      ensures fresh(variables) && variables[..] == seq(numVariables, _ => Option.None)
    {
      this.constants := constants;
      tagSource := Some(tags);
      variables := new Option<Value>[numVariables](_ => Option.None);
    }

    method Evaluate(e: Expr) returns (r: Outcome)
      modifies variables
      ensures (r, variables[..]) == Eval(Ctx(), old(variables[..]), e)
      decreases e, 2
    {
      match e {
        case Lit(v) =>
          r := Done(v);
        case LookupConstant(i) =>
          if i < |constants| {
            r := Done(constants[i]);
          } else {
            r := Panicked("bug: bad const lookup");
          }
        case LookupOrCompute(id, def) =>
          if id >= variables.Length {
            return Panicked("index out of bounds");
          }
          match variables[id] {
            case Some(v) =>
              r := Done(v);
            case None =>
              r := Evaluate(def);
              if r.Done? {
                ghost var after := variables[..];
                variables[id] := Some(r.value);
                assert variables[..] == after[id := Some(r.value)];
              }
          }
        case Block(_, _) =>
          r := EvaluateBlock(e);
        case When(_) =>
          r := EvaluateWhen(e);
        case Patterns(ps) =>
          r := EvaluateTagPatterns(ps);
          if tagSource.Some? {
            assert Tags.MatchFrom(tagSource.value, ps, 0) <==>
              forall j :: 0 <= j < |ps| ==> Tags.PatternMatches(tagSource.value, ps[j]);
          }
      }
    }

    method EvaluateBlock(e: Expr) returns (r: Outcome)
      requires e.Block?
      modifies variables
      ensures (r, variables[..]) == EvalBlock(Ctx(), old(variables[..]), e)
      decreases e, 1
    {
      var body := e.body;
      match e.ty {
        case Any =>
          var i := 0;
          while i < |body|
            invariant 0 <= i <= |body|
            invariant Scan(Ctx(), old(variables[..]), e, 0, true, true) == Scan(Ctx(), variables[..], e, i, true, true)
          {
            var v := Evaluate(body[i]);
            if !v.Done? {
              return v;
            }
            if IsTruthy(v.value) {
              return Done(Bool(true));
            }
            i := i + 1;
          }
          r := Done(Bool(false));
        case All =>
          var i := 0;
          while i < |body|
            invariant 0 <= i <= |body|
            invariant Scan(Ctx(), old(variables[..]), e, 0, false, false) == Scan(Ctx(), variables[..], e, i, false, false)
          {
            var v := Evaluate(body[i]);
            if !v.Done? {
              return v;
            }
            if !IsTruthy(v.value) {
              return Done(Bool(false));
            }
            i := i + 1;
          }
          r := Done(Bool(true));
        case None =>
          var i := 0;
          while i < |body|
            invariant 0 <= i <= |body|
            invariant Scan(Ctx(), old(variables[..]), e, 0, true, false) == Scan(Ctx(), variables[..], e, i, true, false)
          {
            var v := Evaluate(body[i]);
            if !v.Done? {
              return v;
            }
            if IsTruthy(v.value) {
              return Done(Bool(false));
            }
            i := i + 1;
          }
          r := Done(Bool(true));
        case Sum =>
          var acc := 0.0;
          var i := 0;
          while i < |body|
            invariant 0 <= i <= |body|
            invariant SumFrom(Ctx(), old(variables[..]), e, 0, 0.0) == SumFrom(Ctx(), variables[..], e, i, acc)
          {
            var v := Evaluate(body[i]);
            if !v.Done? {
              return v;
            }
            match v.value {
              case Invalid =>
                return Done(Invalid);
              case Number(n) =>
                acc := acc + n;
              case _ =>
                return Panicked("Unexpected type from sum block");
            }
            i := i + 1;
          }
          r := Done(Number(acc));
      }
    }

    method EvaluateWhen(e: Expr) returns (r: Outcome)
      requires e.When?
      modifies variables
      ensures (r, variables[..]) == WhenFrom(Ctx(), old(variables[..]), e, 0)
      decreases e, 1
    {
      var clauses := e.clauses;
      var i := 0;
      while i < |clauses|
        invariant 0 <= i <= |clauses|
        invariant WhenFrom(Ctx(), old(variables[..]), e, 0) == WhenFrom(Ctx(), variables[..], e, i)
      {
        assert clauses[i] < e;
        var condition := Evaluate(clauses[i].cond);
        if !condition.Done? {
          return condition;
        }
        if IsTruthy(condition.value) {
          r := Evaluate(clauses[i].value);
          return;
        }
        i := i + 1;
      }
      r := Panicked("Fallthrough -> no else block for when");
    }

    /** `evaluate_tag_patterns`: true when every pattern matches; aborts without a tag source. */
    method EvaluateTagPatterns(ps: seq<TagPattern<Ir.TagId>>) returns (r: Outcome)
      ensures tagSource.None? ==> r == Panicked("no tags supported here")
      ensures tagSource.Some? ==>
        r == Done(Bool(forall j :: 0 <= j < |ps| ==> Tags.PatternMatches(tagSource.value, ps[j])))
    {
      if tagSource.None? {
        return Panicked("no tags supported here");
      }
      var t := tagSource.value;
      var i := 0;
      while i < |ps|
        invariant 0 <= i <= |ps|
        invariant forall j :: 0 <= j < i ==> Tags.PatternMatches(t, ps[j])
      {
        var matches;
        match ps[i] {
          case Exists(k) =>
            matches := k in t;
          case NotExists(k) =>
            matches := k !in t;
          case OneOf(k, vs) =>
            matches := k in t && t[k] in vs;
          case NoneOf(k, vs) =>
            matches := k in t && t[k] !in vs;
        }
        if !matches {
          return Done(Bool(false));
        }
        i := i + 1;
      }
      r := Done(Bool(true));
    }
  }

  /** The penalty standing in for an `invalid` way score. */
  const InvalidPenalty: real := 500000.0

  /**
   * `evaluate_constants` from the `i`-th definition on: each one is built
   * against the full constant map, then evaluated in a context that holds
   * only the values before it, no tags and no memo slots.
   */
  function ConstantsFrom(env: Env, st: VarState, defs: seq<Def>, i: nat, consts: seq<Value>): (r: (Result<seq<Value>, string>, VarState))
    requires Open(st) && i <= |defs|
    ensures Open(r.1)
    ensures r.0.Ok? ==> r.1 == st || r.1 == Initial
    ensures r.0.Ok? ==> |r.0.value| == |consts| + |defs| - i && r.0.value[..|consts|] == consts
    decreases |defs| - i
  {
    if i == |defs| then (Ok(consts), st)
    else
      var (b, st1) := BuildF(env, st, defs[i].expr);
      if b.Err? then (Err(b.error), st1)
      else match Eval(Context(consts, Option.None), [], b.value.expr).0
        case Done(v) =>
          var r := ConstantsFrom(env, st1, defs, i + 1, consts + [v]);
          assert r.0.Ok? ==> r.0.value[..|consts|] == (r.0.value[..|consts| + 1])[..|consts|];
          r
        case Panicked(why) => (Err(why), st1)
  }

  function BuildOptional(env: Env, st: VarState, x: Option<Expression>): (r: (Result<Option<RunnableExpr>, string>, VarState))
    requires Open(st)
    ensures Open(r.1)
    ensures r.0.Ok? ==> (r.0.value.Some? <==> x.Some?)
  {
    match x
    case None => (Ok(Option.None), st)
    case Some(e) =>
      var (b, st1) := BuildF(env, st, e);
      if b.Err? then (Err(b.error), st1) else (Ok(Some(b.value)), st1)
  }

  /** The parser's named block: its definitions, block name and body. */
  datatype ParsedBlock = ParsedBlock(defs: seq<Def>, name: string, body: seq<Expression>)

  /** What the parser hands to the runtime: constant definitions and the three optional named blocks. */
  datatype Profile = Profile(
    constantDefs: seq<Def>,
    wayPenalty: Option<ParsedBlock>,
    nodePenalty: Option<ParsedBlock>,
    costFactor: Option<ParsedBlock>)

  /** A named block as an expression, which is how the runtime builds it. */
  function AsExpression(b: ParsedBlock): (e: Expression)
    ensures e.NamedBlock? && e.defs == b.defs && e.name == b.name && e.body == b.body
  {
    NamedBlock(b.defs, b.name, b.body)
  }

  /** An optional named block, wrapped as an expression when present. */
  function Wrapped(b: Option<ParsedBlock>): (r: Option<Expression>)
    ensures r.Some? <==> b.Some?
    ensures r.Some? ==> r.value == AsExpression(b.value)
  {
    match b
    case None => Option.None
    case Some(block) => Some(AsExpression(block))
  }

  /**
   * `ProfileRuntime::from`: constants, then way penalty, node penalty and
   * cost factor, each present block wrapped as a named-block expression.
   */
  function FromF(p: Profile, dict: Ir.TagDict): (r: Result<ProfileRuntime, string>)
    ensures |p.constantDefs| >= 255 ==> r.Err?
    ensures r.Ok? ==> |r.value.constants| == |p.constantDefs|
    ensures r.Ok? ==> (r.value.wayPenalty.Some? <==> p.wayPenalty.Some?)
    ensures r.Ok? ==> (r.value.nodePenalty.Some? <==> p.nodePenalty.Some?)
    ensures r.Ok? ==> (r.value.costFactor.Some? <==> p.costFactor.Some?)
  {
    match BuildConstMap(p.constantDefs)
    case Err(e) => Err(e)
    case Ok(constMap) =>
      var env := Env(constMap, dict);
      var (cs, st1) := ConstantsFrom(env, Initial, p.constantDefs, 0, []);
      if cs.Err? then Err(cs.error)
      else
        var (way, st2) := BuildOptional(env, st1, Wrapped(p.wayPenalty));
        if way.Err? then Err(way.error)
        else
          var (node, st3) := BuildOptional(env, st2, Wrapped(p.nodePenalty));
          if node.Err? then Err(node.error)
          else
            var (cost, _) := BuildOptional(env, st3, Wrapped(p.costFactor));
            if cost.Err? then Err(cost.error)
            else Ok(ProfileRuntime(cs.value, way.value, node.value, cost.value))
  }

  datatype ProfileRuntime = ProfileRuntime(
    constants: seq<Value>,
    wayPenalty: Option<RunnableExpr>,
    nodePenalty: Option<RunnableExpr>,
    costFactor: Option<RunnableExpr>)
  {
    /** `score_way` on one tag source; `Err` is the message of the abort. */
    function ScoreWayF(tags: Tags.TagSource): Result<real, string>
    {
      match wayPenalty
      case None => Ok(0.0)
      case Some(unit) =>
        var slots: Slots := seq(unit.variables.nextId, _ => Option.None);
        match Eval(Context(constants, Some(tags)), slots, unit.expr).0
        case Panicked(why) => Err(why)
        case Done(Number(n)) => Ok(n)
        case Done(Invalid) => Ok(InvalidPenalty)
        case Done(_) => Err("score_way returned a non-number")
    }

    method ScoreWay(tags: Tags.TagSource) returns (r: Result<real, string>)
      ensures r == ScoreWayF(tags)
    {
      if wayPenalty.None? {
        return Ok(0.0);
      }
      var unit := wayPenalty.value;
      var context := new EvalContext.WithTagSource(constants, unit.variables.nextId, tags);
      var o := context.Evaluate(unit.expr);
      match o {
        case Panicked(why) =>
          r := Err(why);
        case Done(Number(n)) =>
          r := Ok(n);
        case Done(Invalid) =>
          r := Ok(InvalidPenalty);
        case Done(_) =>
          r := Err("score_way returned a non-number");
      }
    }
  }

  /** `evaluate_constants` on a builder whose mapping is fresh or just handed over. */
  method EvaluateConstants(builder: Builder, defs: seq<Def>) returns (r: Result<seq<Value>, string>)
    requires builder.Ready()
    modifies builder.variables, builder.variables.ids, builder.variables.defs
    ensures builder.Ready()
    ensures (r, builder.variables.State()) == ConstantsFrom(builder.Inputs(), old(builder.variables.State()), defs, 0, [])
  {
    var consts := [];
    var i := 0;
    while i < |defs|
      invariant 0 <= i <= |defs|
      invariant builder.Ready()
      invariant ConstantsFrom(builder.Inputs(), old(builder.variables.State()), defs, 0, []) ==
        ConstantsFrom(builder.Inputs(), builder.variables.State(), defs, i, consts)
    {
      var runnable := builder.Build(defs[i].expr);
      if runnable.Err? {
        return Err(runnable.error);
      }
      var context := new EvalContext.Constant(consts);
      var value := context.Evaluate(runnable.value.expr);
      match value {
        case Done(v) =>
          consts := consts + [v];
        case Panicked(why) =>
          return Err(why);
      }
      i := i + 1;
    }
    r := Ok(consts);
  }

  /** `ProfileRuntime::from`. */
  method From(p: Profile, dict: Ir.TagDict) returns (r: Result<ProfileRuntime, string>)
    ensures r == FromF(p, dict)
  {
    var constMap := BuildConstMap(p.constantDefs);
    if constMap.Err? {
      return Err(constMap.error);
    }
    var builder := new Builder(constMap.value, dict);
    var constants := EvaluateConstants(builder, p.constantDefs);
    if constants.Err? {
      return Err(constants.error);
    }
    var way: Option<RunnableExpr> := Option.None;
    if p.wayPenalty.Some? {
      var b := builder.Build(AsExpression(p.wayPenalty.value));
      if b.Err? {
        return Err(b.error);
      }
      way := Some(b.value);
    }
    var node: Option<RunnableExpr> := Option.None;
    if p.nodePenalty.Some? {
      var b := builder.Build(AsExpression(p.nodePenalty.value));
      if b.Err? {
        return Err(b.error);
      }
      node := Some(b.value);
    }
    var cost: Option<RunnableExpr> := Option.None;
    if p.costFactor.Some? {
      var b := builder.Build(AsExpression(p.costFactor.value));
      if b.Err? {
        return Err(b.error);
      }
      cost := Some(b.value);
    }
    r := Ok(ProfileRuntime(constants.value, way, node, cost));
  }
}
