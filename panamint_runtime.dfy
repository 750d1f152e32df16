/**
 * The canonical engine's runtime (projects/panamint/src/profile/runtime.rs:300-443):
 * compiling a parsed profile (constants first, evaluated in order, then the
 * three scoring expressions) and scoring an edge with it.
 */
module PanamintRuntime {
  import opened Options
  import opened ProfileAst
  import opened PanamintIr
  import opened PanamintVariables
  import opened PanamintCompiler
  import opened PanamintEval

  /** What the parser hands to the runtime: the constant definitions and the three optional expressions. */
  datatype ParsedProfile = ParsedProfile(
    constantDefs: seq<Def>,
    wayPenalty: Option<Expression>,
    nodePenalty: Option<Expression>,
    costFactor: Option<Expression>)

  /** The global whitelist fixed by `from_parsed`. */
  const Globals: seq<string> := ["way.popularity-self", "way.popularity-global", "way.length"]

  /** The score of an edge. */
  datatype EdgeScore = EdgeScore(penalty: real, costFactor: real)

  /** Why scoring produced no number: a `RuntimeError`, or a process abort. */
  datatype Fault = Error(error: RuntimeError) | Abort(reason: string)

  /** The penalty standing in for an `invalid` score. */
  const InvalidPenalty: real := 500000.0

  /**
   * `evaluate_constants` from the `i`-th definition on: each one is built,
   * then evaluated in a context that sees only the constants before it, no
   * globals, no tags and no memo slots.
   */
  function ConstantsFrom(env: Env, st: VarState, defs: seq<Def>, i: nat, consts: seq<Value>): (r: (Result<seq<Value>, CompileError>, VarState))
    requires Open(st) && i <= |defs|
    ensures Open(r.1)
    ensures r.0.Ok? ==> r.1 == st || r.1 == Initial
    ensures r.0.Ok? ==> |r.0.value| == |consts| + |defs| - i && r.0.value[..|consts|] == consts
    decreases |defs| - i
  {
    if i == |defs| then (Ok(consts), st)
    else
      var (b, st1) := BuildF(env, st, defs[i].expr);
      if b.Err? then (Err(b.error), st1)
      else match Eval(Context(consts, Option.None, map[]), [], b.value.expr).0
        case Done(v) =>
          var r := ConstantsFrom(env, st1, defs, i + 1, consts + [v]);
          assert r.0.Ok? ==> r.0.value[..|consts|] == (r.0.value[..|consts| + 1])[..|consts|];
          r
        case Raised(err) => (Err(ConstEval(err)), st1)
        case Panicked(why) => (Err(Panic(why)), st1)
  }

  /** Builds an optional scoring expression (`map(build).transpose()`). */
  function BuildOptional(env: Env, st: VarState, x: Option<Expression>): (r: (Result<Option<RunnableExpr>, CompileError>, VarState))
    requires Open(st)
    ensures Open(r.1)
    ensures r.0.Ok? ==> r.1 == st || r.1 == Initial
    ensures r.0.Ok? ==> (r.0.value.Some? <==> x.Some?)
  {
    match x
    case None => (Ok(Option.None), st)
    case Some(e) =>
      var (b, st1) := BuildF(env, st, e);
      if b.Err? then (Err(b.error), st1) else (Ok(Some(b.value)), st1)
  }

  /** `Runtime::from_parsed`: constants, then way penalty, node penalty and cost factor, in that order. */
  function FromParsedF(p: ParsedProfile, dict: TagDict): (r: Result<Runtime, CompileError>)
    ensures |p.constantDefs| >= 255 ==> r.Err?
    ensures r.Ok? ==> |r.value.constants| == |p.constantDefs|
    ensures r.Ok? ==> (r.value.wayPenalty.Some? <==> p.wayPenalty.Some?)
    ensures r.Ok? ==> (r.value.nodePenalty.Some? <==> p.nodePenalty.Some?)
    ensures r.Ok? ==> (r.value.costFactor.Some? <==> p.costFactor.Some?)
  {
    match BuildConstMap(p.constantDefs)
    case Err(e) => Err(e)
    case Ok(constMap) =>
      var env := Env(constMap, Globals, dict);
      var (cs, st1) := ConstantsFrom(env, Initial, p.constantDefs, 0, []);
      if cs.Err? then Err(cs.error)
      else
        var (way, st2) := BuildOptional(env, st1, p.wayPenalty);
        if way.Err? then Err(way.error)
        else
          var (node, st3) := BuildOptional(env, st2, p.nodePenalty);
          if node.Err? then Err(node.error)
          else
            var (cost, _) := BuildOptional(env, st3, p.costFactor);
            if cost.Err? then Err(cost.error)
            else Ok(Runtime(cs.value, way.value, node.value, cost.value))
  }

  /** The number a scoring expression's value stands for: `invalid` is a large penalty. */
  function ScoreValue(o: Outcome): (r: Result<real, Fault>)
  {
    match o
    case Done(v) => NumberOf(v)
    case Raised(EarlyReturn(v)) => NumberOf(v)
    case Raised(err) => Err(Error(err))
    case Panicked(why) => Err(Abort(why))
  }

  function NumberOf(v: Value): (r: Result<real, Fault>)
  {
    match v
    case Number(n) => Ok(n)
    case Invalid => Ok(InvalidPenalty)
    case _ => Err(Error(TypeError(v, "number|invalid")))
  }

  /** A fresh context for `unit`: one empty slot per slot the compiler handed out. */
  function FreshSlots(unit: RunnableExpr): (s: Slots)
    ensures |s| == unit.variables.nextId && forall i :: 0 <= i < |s| ==> s[i].None?
  {
    seq(unit.variables.nextId, _ => Option.None)
  }

  datatype Runtime = Runtime(
    constants: seq<Value>,
    wayPenalty: Option<RunnableExpr>,
    nodePenalty: Option<RunnableExpr>,
    costFactor: Option<RunnableExpr>)
  {
    /** `evaluate_expression` on one tag source. */
    function ExpressionValue(unit: RunnableExpr, tags: TagSource, globals: map<string, real>): Result<real, Fault>
    {
      ScoreValue(Eval(Context(constants, Some(tags), globals), FreshSlots(unit), unit.expr).0)
    }

    /** A missing expression adds nothing. */
    function Contribution(unit: Option<RunnableExpr>, tags: TagSource, globals: map<string, real>): Result<real, Fault>
    {
      if unit.None? then Ok(0.0) else ExpressionValue(unit.value, tags, globals)
    }

    /**
     * `Runtime::score`: the node penalty on source and target and the way
     * penalty add up to the penalty, the cost factor is added to one; the
     * first failure in that order is the result.
     */
    function ScoreF(source: TagSource, target: TagSource, way: TagSource, globals: map<string, real>): Result<EdgeScore, Fault>
    {
      var ns := Contribution(nodePenalty, source, globals);
      if ns.Err? then Err(ns.error)
      else
        var nt := Contribution(nodePenalty, target, globals);
        if nt.Err? then Err(nt.error)
        else
          var w := Contribution(wayPenalty, way, globals);
          if w.Err? then Err(w.error)
          else
            var cf := Contribution(costFactor, way, globals);
            if cf.Err? then Err(cf.error)
            else Ok(EdgeScore(0.0 + ns.value + nt.value + w.value, 1.0 + cf.value))
    }

    method EvaluateExpression(unit: RunnableExpr, tags: TagSource, globals: map<string, real>) returns (r: Result<real, Fault>)
      ensures r == ExpressionValue(unit, tags, globals)
    {
      var context := new EvalContext.Create(constants, unit.variables.nextId, tags, globals);
      var o := context.Evaluate(unit.expr);
      var v;
      match o {
        case Done(x) =>
          v := x;
        case Raised(EarlyReturn(x)) =>
          v := x;
        case Raised(err) =>
          return Err(Error(err));
        case Panicked(why) =>
          return Err(Abort(why));
      }
      match v {
        case Number(n) =>
          r := Ok(n);
        case Invalid =>
          r := Ok(InvalidPenalty);
        case _ =>
          r := Err(Error(TypeError(v, "number|invalid")));
      }
    }

    /** One optional expression of `Runtime::score`: evaluated when present, nothing otherwise. */
    method Contribute(unit: Option<RunnableExpr>, tags: TagSource, globals: map<string, real>) returns (r: Result<real, Fault>)
      ensures r == Contribution(unit, tags, globals)
    {
      r := Ok(0.0);
      if unit.Some? {
        r := EvaluateExpression(unit.value, tags, globals);
      }
    }

    method Score(source: TagSource, target: TagSource, way: TagSource, globals: map<string, real>) returns (r: Result<EdgeScore, Fault>)
      ensures r == ScoreF(source, target, way, globals)
    {
      var penalty := 0.0;
      var costFactor := 1.0;
      var x := Contribute(nodePenalty, source, globals);
      if x.Err? {
        return Err(x.error);
      }
      penalty := penalty + x.value;
      x := Contribute(nodePenalty, target, globals);
      if x.Err? {
        return Err(x.error);
      }
      penalty := penalty + x.value;
      x := Contribute(wayPenalty, way, globals);
      if x.Err? {
        return Err(x.error);
      }
      penalty := penalty + x.value;
      x := Contribute(this.costFactor, way, globals);
      if x.Err? {
        return Err(x.error);
      }
      costFactor := costFactor + x.value;
      r := Ok(EdgeScore(penalty, costFactor));
    }
  }

  /** `evaluate_constants` on a builder whose mapping is fresh or just handed over. */
  method EvaluateConstants(builder: Builder, defs: seq<Def>) returns (r: Result<seq<Value>, CompileError>)
    requires builder.Ready()
    modifies builder.variables, builder.variables.ids, builder.variables.defs
    ensures builder.Ready()
    ensures (r, builder.variables.State()) == ConstantsFrom(builder.Inputs(), old(builder.variables.State()), defs, 0, [])
  {
    var consts := [];
    var i := 0;
    while i < |defs|
      invariant 0 <= i <= |defs|
      invariant builder.Ready()
      invariant ConstantsFrom(builder.Inputs(), old(builder.variables.State()), defs, 0, []) ==
        ConstantsFrom(builder.Inputs(), builder.variables.State(), defs, i, consts)
    {
      var runnable := builder.Build(defs[i].expr);
      if runnable.Err? {
        return Err(runnable.error);
      }
      var context := new EvalContext.Constant(consts, map[]);
      var value := context.Evaluate(runnable.value.expr);
      match value {
        case Done(v) =>
          consts := consts + [v];
        case Raised(err) =>
          return Err(ConstEval(err));
        case Panicked(why) =>
          return Err(Panic(why));
      }
      i := i + 1;
    }
    r := Ok(consts);
  }

  /** `Runtime::from_parsed`. */
  method FromParsed(p: ParsedProfile, dict: TagDict) returns (r: Result<Runtime, CompileError>)
    ensures r == FromParsedF(p, dict)
  {
    var constMap := BuildConstMap(p.constantDefs);
    if constMap.Err? {
      return Err(constMap.error);
    }
    var builder := new Builder(constMap.value, Globals, dict);
    var constants := EvaluateConstants(builder, p.constantDefs);
    if constants.Err? {
      return Err(constants.error);
    }
    var way: Option<RunnableExpr> := Option.None;
    if p.wayPenalty.Some? {
      var b := builder.Build(p.wayPenalty.value);
      if b.Err? {
        return Err(b.error);
      }
      way := Some(b.value);
    }
    var node: Option<RunnableExpr> := Option.None;
    if p.nodePenalty.Some? {
      var b := builder.Build(p.nodePenalty.value);
      if b.Err? {
        return Err(b.error);
      }
      node := Some(b.value);
    }
    var cost: Option<RunnableExpr> := Option.None;
    if p.costFactor.Some? {
      var b := builder.Build(p.costFactor.value);
      if b.Err? {
        return Err(b.error);
      }
      cost := Some(b.value);
    }
    r := Ok(Runtime(constants.value, way, node, cost));
  }
}
