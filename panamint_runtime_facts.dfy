/**
 * Properties of the canonical engine's runtime
 * (projects/panamint/src/profile/runtime.rs:316-435, 673-706).
 */
module PanamintRuntimeFacts {
  import opened Options
  import opened ProfileAst
  import opened PanamintScope
  import opened PanamintIr
  import opened PanamintVariables
  import opened PanamintCompiler
  import opened PanamintCompilerFacts
  import opened PanamintEval
  import opened PanamintEvalFacts
  import opened PanamintRuntime

  /** With no scoring expressions every edge scores a zero penalty and a cost factor of one. */
  lemma ScoreDefaults(rt: Runtime, source: TagSource, target: TagSource, way: TagSource, globals: map<string, real>)
    requires rt.wayPenalty.None? && rt.nodePenalty.None? && rt.costFactor.None?
    ensures rt.ScoreF(source, target, way, globals) == Ok(EdgeScore(0.0, 1.0))
  {
  }

  /**
   * Scoring succeeds exactly when every present expression yields a number;
   * the penalty is then the node penalty at both ends plus the way penalty,
   * and the cost factor is one plus the cost-factor expression.
   */
  lemma ScoreAddsUp(rt: Runtime, source: TagSource, target: TagSource, way: TagSource, globals: map<string, real>)
    ensures var ns := rt.Contribution(rt.nodePenalty, source, globals);
      var nt := rt.Contribution(rt.nodePenalty, target, globals);
      var w := rt.Contribution(rt.wayPenalty, way, globals);
      var cf := rt.Contribution(rt.costFactor, way, globals);
      var r := rt.ScoreF(source, target, way, globals);
      && (r.Ok? <==> ns.Ok? && nt.Ok? && w.Ok? && cf.Ok?)
      && (r.Ok? ==> r.value.penalty == ns.value + nt.value + w.value && r.value.costFactor == 1.0 + cf.value)
      && (ns.Err? ==> r == Err(ns.error))
      && (ns.Ok? && nt.Err? ==> r == Err(nt.error))
      && (ns.Ok? && nt.Ok? && w.Err? ==> r == Err(w.error))
      && (ns.Ok? && nt.Ok? && w.Ok? && cf.Err? ==> r == Err(cf.error))
  {
  }

  /**
   * The value of a scoring expression: a number is itself, `invalid` is the
   * 500000 penalty, an early return counts as the expression's value, and
   * any other value is a type error.
   */
  lemma ScoreValueMeaning(v: Value)
    ensures ScoreValue(Done(v)) == ScoreValue(Raised(EarlyReturn(v)))
    ensures v.Number? ==> ScoreValue(Done(v)) == Ok(v.n)
    ensures v.Invalid? ==> ScoreValue(Done(v)) == Ok(500000.0)
    ensures v.Bool? || v.Str? ==> ScoreValue(Done(v)) == Err(Error(TypeError(v, "number|invalid")))
  {
  }

  lemma BuildOptionalRunnable(env: Env, x: Option<Expression>)
    ensures var r := BuildOptional(env, Initial, x).0;
      r.Ok? && r.value.Some? ==> Runnable(r.value.value.expr, r.value.value.variables.nextId)
    ensures BuildOptional(env, Initial, x).0.Ok? ==> BuildOptional(env, Initial, x).1 == Initial
  {
    if x.Some? {
      BuildRunnable(env, x.value);
    }
  }

  lemma ExpressionNeverAborts(rt: Runtime, unit: Option<RunnableExpr>, tags: TagSource, globals: map<string, real>)
    requires unit.Some? ==> Runnable(unit.value.expr, unit.value.variables.nextId)
    ensures !(rt.Contribution(unit, tags, globals).Err? && rt.Contribution(unit, tags, globals).error.Abort?)
  {
    if unit.Some? {
      RunnableNeverPanics(Context(rt.constants, Some(tags), globals), FreshSlots(unit.value), unit.value.expr);
    }
  }

  /**
   * Once a profile compiles, scoring an edge never aborts: it gives a score
   * or a `RuntimeError`.
   */
  lemma ScoringNeverAborts(p: ParsedProfile, dict: TagDict, source: TagSource, target: TagSource, way: TagSource, globals: map<string, real>)
    requires FromParsedF(p, dict).Ok?
    ensures var r := FromParsedF(p, dict).value.ScoreF(source, target, way, globals);
      r.Err? ==> r.error.Error?
  {
    var rt := FromParsedF(p, dict).value;
    CompiledUnitsRunnable(p, dict);
    ExpressionNeverAborts(rt, rt.nodePenalty, source, globals);
    ExpressionNeverAborts(rt, rt.nodePenalty, target, globals);
    ExpressionNeverAborts(rt, rt.wayPenalty, way, globals);
    ExpressionNeverAborts(rt, rt.costFactor, way, globals);
  }

  /** Every scoring expression of a compiled profile is runnable from fresh slots. */
  lemma CompiledUnitsRunnable(p: ParsedProfile, dict: TagDict)
    requires FromParsedF(p, dict).Ok?
    ensures var rt := FromParsedF(p, dict).value;
      && (rt.nodePenalty.Some? ==> Runnable(rt.nodePenalty.value.expr, rt.nodePenalty.value.variables.nextId))
      && (rt.wayPenalty.Some? ==> Runnable(rt.wayPenalty.value.expr, rt.wayPenalty.value.variables.nextId))
      && (rt.costFactor.Some? ==> Runnable(rt.costFactor.value.expr, rt.costFactor.value.variables.nextId))
  {
    var env := Env(BuildConstMap(p.constantDefs).value, Globals, dict);
    var (cs, st1) := ConstantsFrom(env, Initial, p.constantDefs, 0, []);
    assert st1 == Initial;
    BuildOptionalRunnable(env, p.wayPenalty);
    BuildOptionalRunnable(env, p.nodePenalty);
    BuildOptionalRunnable(env, p.costFactor);
  }

  /** The constant names of the test profile. */
  const ExampleNames: seq<string> := ["a", "b", "c", "d", "e", "f", "g"]

  /**
   * `a = 1; b = a; c = false; d = any? { c; false }; e = any? { c; false; b };
   * f = sum { a; 2 }; g = sum { invalid; a; 2 }`
   */
  const ExampleDefs: seq<Def> := [
    Def("a", Literal(Number(1.0))), Def("b", Ident("a")), Def("c", Literal(Bool(false))),
    Def("d", ExampleD), Def("e", ExampleE), Def("f", ExampleF), Def("g", ExampleG)]

  const ExampleD: Expression := NamedBlock([], "any?", [Ident("c"), Literal(Bool(false))])
  const ExampleE: Expression := NamedBlock([], "any?", [Ident("c"), Literal(Bool(false)), Ident("b")])
  const ExampleF: Expression := NamedBlock([], "sum", [Ident("a"), Literal(Number(2.0))])
  const ExampleG: Expression := NamedBlock([], "sum", [Literal(Invalid), Ident("a"), Literal(Number(2.0))])

  /** A body element that needs no scope: a literal or the name of a constant. */
  predicate Flat(env: Env, x: Expression)
  {
    x.Literal? || (x.Ident? && x.name in env.constants)
  }

  function FlatLower(env: Env, x: Expression): Expr
    requires Flat(env, x)
  {
    if x.Literal? then Lit(x.value) else LookupConstant(env.constants[x.name])
  }

  lemma {:induction false} FlatBodyLowers(env: Env, e: Expression, i: nat, acc: seq<Expr>)
    requires e.NamedBlock? && i <= |e.body|
    requires forall k :: i <= k < |e.body| ==> Flat(env, e.body[k])
    ensures var r := LowerBody(env, PushVars(Initial), e, i, acc);
      r.0.Ok? && r.1 == PushVars(Initial) && |r.0.value| == |acc| + |e.body| - i &&
      r.0.value[..|acc|] == acc &&
      forall k :: i <= k < |e.body| ==> r.0.value[|acc| + k - i] == FlatLower(env, e.body[k])
    decreases |e.body| - i
  {
    if i < |e.body| {
      var st := PushVars(Initial);
      var x := e.body[i];
      if x.Ident? {
        assert Lookup(st.defs, x.name) == Option.None by {
          assert st.defs[..1] == [map[]];
        }
      }
      assert LowerF(env, st, x) == (Ok(FlatLower(env, x)), st);
      FlatBodyLowers(env, e, i + 1, acc + [FlatLower(env, x)]);
      var r := LowerBody(env, st, e, i + 1, acc + [FlatLower(env, x)]);
      assert r.0.value[..|acc|] == r.0.value[..|acc| + 1][..|acc|];
    }
  }

  /** A definition-free block of literals and constant names compiles to the same arguments in place. */
  lemma FlatBlockLowers(env: Env, name: string, body: seq<Expression>)
    requires name in Keywords && Admits(ArityOf(BlockTyOf(name).value), |body|)
    requires forall k :: 0 <= k < |body| ==> Flat(env, body[k])
    ensures var r := LowerF(env, Initial, NamedBlock([], name, body));
      r.1 == Initial && r.0.Ok? && r.0.value.Block? && r.0.value.ty == BlockTyOf(name).value &&
      |r.0.value.body| == |body| && forall k :: 0 <= k < |body| ==> r.0.value.body[k] == FlatLower(env, body[k])
  {
    var e := NamedBlock([], name, body);
    assert LowerDefs(env, PushVars(Initial), e, 0) == (Option.None, PushVars(Initial));
    FlatBodyLowers(env, e, 0, []);
    assert LowerF(env, Initial, e) == LowerBlock(env, Initial, e);
  }

  function ExampleEnv(dict: TagDict): Env
  {
    Env(ConstIndices(ExampleNames), Globals, dict)
  }

  /** A name that occurs once gets its own position as index. */
  lemma UniqueConstIndex(names: seq<string>, k: nat)
    requires k < |names| && forall j :: 0 <= j < |names| && j != k ==> names[j] != names[k]
    ensures names[k] in ConstIndices(names) && ConstIndices(names)[names[k]] == k
  {
  }

  lemma ExampleNamesOfDefs()
    ensures DefNames(ExampleDefs) == ExampleNames
  {
    var d := DefNames(ExampleDefs);
    assert |d| == 7;
    assert d[0] == "a" && d[1] == "b" && d[2] == "c" && d[3] == "d" && d[4] == "e" && d[5] == "f" && d[6] == "g";
  }

  /** The example names are pairwise distinct: each is one letter, and the letters differ. */
  lemma ExampleNamesDistinct(k: nat)
    requires k < |ExampleNames|
    ensures forall j :: 0 <= j < |ExampleNames| && j != k ==> ExampleNames[j] != ExampleNames[k]
  {
    var n := ExampleNames;
    forall j | 0 <= j < |n|
      ensures |n[j]| == 1 && n[j][0] == "abcdefg"[j]
    {
    }
  }

  lemma ExampleIndices()
    ensures var m := ConstIndices(ExampleNames); "a" in m && "b" in m && "c" in m && m["a"] == 0 && m["b"] == 1 && m["c"] == 2
  {
    ExampleNamesDistinct(0);
    UniqueConstIndex(ExampleNames, 0);
    ExampleNamesDistinct(1);
    UniqueConstIndex(ExampleNames, 1);
    ExampleNamesDistinct(2);
    UniqueConstIndex(ExampleNames, 2);
  }

  lemma ConstStep(env: Env, defs: seq<Def>, i: nat, consts: seq<Value>, x: Expr, v: Value)
    requires i < |defs| && LowerF(env, Initial, defs[i].expr) == (Ok(x), Initial)
    requires Eval(Context(consts, Option.None, map[]), [], x).0 == Done(v)
    ensures ConstantsFrom(env, Initial, defs, i, consts) == ConstantsFrom(env, Initial, defs, i + 1, consts + [v])
  {
  }

  const One: Value := Number(1.0)

  /** The constant indices the test definitions refer to. */
  predicate ExampleIndexed(env: Env)
  {
    "a" in env.constants && "b" in env.constants && "c" in env.constants &&
    env.constants["a"] == 0 && env.constants["b"] == 1 && env.constants["c"] == 2
  }

  /** A definition-free test block of literals and constant names lowers to `expected`. */
  lemma ExampleBlockLowers(env: Env, d: Expression, ty: BlockTy, expected: seq<Expr>)
    requires d.NamedBlock? && d.defs == [] && BlockTyOf(d.name) == Some(ty) && ty != Return && |expected| == |d.body| >= 1
    requires forall i :: 0 <= i < |d.body| ==> Flat(env, d.body[i]) && expected[i] == FlatLower(env, d.body[i])
    ensures LowerF(env, Initial, d) == (Ok(Block(ty, expected)), Initial)
  {
    FlatBlockLowers(env, d.name, d.body);
    var r := LowerF(env, Initial, d).0.value;
    assert r.body == expected;
  }

  lemma ExampleLowersD(env: Env)
    requires ExampleIndexed(env)
    ensures LowerF(env, Initial, ExampleD) == (Ok(Block(Any, [LookupConstant(2), Lit(Bool(false))])), Initial)
  {
    ExampleBlockLowers(env, ExampleD, Any, [LookupConstant(2), Lit(Bool(false))]);
  }

  lemma ExampleLowersE(env: Env)
    requires ExampleIndexed(env)
    ensures LowerF(env, Initial, ExampleE) == (Ok(Block(Any, [LookupConstant(2), Lit(Bool(false)), LookupConstant(1)])), Initial)
  {
    ExampleBlockLowers(env, ExampleE, Any, [LookupConstant(2), Lit(Bool(false)), LookupConstant(1)]);
  }

  lemma ExampleLowersF(env: Env)
    requires ExampleIndexed(env)
    ensures LowerF(env, Initial, ExampleF) == (Ok(Block(Sum, [LookupConstant(0), Lit(Number(2.0))])), Initial)
  {
    ExampleBlockLowers(env, ExampleF, Sum, [LookupConstant(0), Lit(Number(2.0))]);
  }

  lemma ExampleLowersG(env: Env)
    requires ExampleIndexed(env)
    ensures LowerF(env, Initial, ExampleG) == (Ok(Block(Sum, [Lit(Invalid), LookupConstant(0), Lit(Number(2.0))])), Initial)
  {
    ExampleBlockLowers(env, ExampleG, Sum, [Lit(Invalid), LookupConstant(0), Lit(Number(2.0))]);
  }

  lemma ExampleLowersB(env: Env)
    requires ExampleIndexed(env)
    ensures LowerF(env, Initial, Ident("a")) == (Ok(LookupConstant(0)), Initial)
  {
    assert Lookup(Initial.defs, "a") == Option.None;
  }

  lemma ExampleEvaluation()
    ensures Eval(Context([One, One, Bool(false)], Option.None, map[]), [], Block(Any, [LookupConstant(2), Lit(Bool(false))])).0 == Done(Bool(false))
    ensures Eval(Context([One, One, Bool(false), Bool(false)], Option.None, map[]), [], Block(Any, [LookupConstant(2), Lit(Bool(false)), LookupConstant(1)])).0 == Done(Bool(true))
    ensures Eval(Context([One, One, Bool(false), Bool(false), Bool(true)], Option.None, map[]), [], Block(Sum, [LookupConstant(0), Lit(Number(2.0))])).0 == Done(Number(3.0))
    ensures Eval(Context([One, One, Bool(false), Bool(false), Bool(true), Number(3.0)], Option.None, map[]), [], Block(Sum, [Lit(Invalid), LookupConstant(0), Lit(Number(2.0))])).0 == Done(Invalid)
  {
    var e := Block(Any, [LookupConstant(2), Lit(Bool(false))]);
    var c := Context([One, One, Bool(false)], Option.None, map[]);
    assert Scan(c, [], e, 1, true, true) == (Done(Bool(false)), []);
    e := Block(Any, [LookupConstant(2), Lit(Bool(false)), LookupConstant(1)]);
    c := Context([One, One, Bool(false), Bool(false)], Option.None, map[]);
    assert Scan(c, [], e, 2, true, true) == (Done(Bool(true)), []);
    assert Scan(c, [], e, 0, true, true) == (Done(Bool(true)), []);
    e := Block(Sum, [LookupConstant(0), Lit(Number(2.0))]);
    c := Context([One, One, Bool(false), Bool(false), Bool(true)], Option.None, map[]);
    assert FoldFrom(c, [], e, 1, 1.0) == (Done(Number(3.0)), []);
    assert Eval(c, [], e) == Fold(c, [], e);
  }

  const ExampleValues: seq<Value> := [One, One, Bool(false), Bool(false), Bool(true), Number(3.0), Invalid]

  lemma ExampleFirstHalf(env: Env)
    requires ExampleIndexed(env)
    ensures ConstantsFrom(env, Initial, ExampleDefs, 0, []) == ConstantsFrom(env, Initial, ExampleDefs, 4, ExampleValues[..4])
  {
    ExampleFirstTwo(env);
    ExampleNextTwo(env);
  }

  lemma ExampleFirstTwo(env: Env)
    requires ExampleIndexed(env)
    ensures ConstantsFrom(env, Initial, ExampleDefs, 0, []) == ConstantsFrom(env, Initial, ExampleDefs, 2, [One, One])
  {
    var defs := ExampleDefs;
    ExampleLowersB(env);
    assert defs[0].expr == Literal(One) && defs[1].expr == Ident("a");
    assert [] + [One] == [One] && [One] + [One] == [One, One];
    ConstStep(env, defs, 0, [], Lit(One), One);
    ConstStep(env, defs, 1, [One], LookupConstant(0), One);
  }

  lemma ExampleNextTwo(env: Env)
    requires ExampleIndexed(env)
    ensures ConstantsFrom(env, Initial, ExampleDefs, 2, [One, One]) == ConstantsFrom(env, Initial, ExampleDefs, 4, ExampleValues[..4])
  {
    var defs := ExampleDefs;
    ExampleLowersD(env);
    ExampleEvaluation();
    var v2 := [One, One];
    var v3 := [One, One, Bool(false)];
    assert defs[2].expr == Literal(Bool(false)) && defs[3].expr == ExampleD;
    assert v2 + [Bool(false)] == v3 && v3 + [Bool(false)] == ExampleValues[..4];
    ConstStep(env, defs, 2, v2, Lit(Bool(false)), Bool(false));
    ConstStep(env, defs, 3, v3, Block(Any, [LookupConstant(2), Lit(Bool(false))]), Bool(false));
  }

  lemma ExampleSecondHalf(env: Env)
    requires ExampleIndexed(env)
    ensures ConstantsFrom(env, Initial, ExampleDefs, 4, ExampleValues[..4]) == (Ok(ExampleValues), Initial)
  {
    var defs := ExampleDefs;
    ExampleLowersE(env);
    ExampleEvaluation();
    var v4 := [One, One, Bool(false), Bool(false)];
    var v5 := [One, One, Bool(false), Bool(false), Bool(true)];
    assert v4 == ExampleValues[..4] && v4 + [Bool(true)] == v5;
    ExampleLastTwo(env);
    ConstStep(env, defs, 4, v4, Block(Any, [LookupConstant(2), Lit(Bool(false)), LookupConstant(1)]), Bool(true));
  }

  lemma ExampleLastTwo(env: Env)
    requires ExampleIndexed(env)
    ensures ConstantsFrom(env, Initial, ExampleDefs, 5, [One, One, Bool(false), Bool(false), Bool(true)]) == (Ok(ExampleValues), Initial)
  {
    var defs := ExampleDefs;
    ExampleLowersF(env);
    ExampleLowersG(env);
    ExampleEvaluation();
    var v5 := [One, One, Bool(false), Bool(false), Bool(true)];
    var v6 := [One, One, Bool(false), Bool(false), Bool(true), Number(3.0)];
    assert v5 + [Number(3.0)] == v6 && v6 + [Invalid] == ExampleValues;
    ConstStep(env, defs, 5, v5, Block(Sum, [LookupConstant(0), Lit(Number(2.0))]), Number(3.0));
    ConstStep(env, defs, 6, v6, Block(Sum, [Lit(Invalid), LookupConstant(0), Lit(Number(2.0))]), Invalid);
  }

  /**
   * The constants of the test profile evaluate, in order, to
   * `1, 1, false, false, true, 3, invalid`.
   */
  lemma ExampleConstants(dict: TagDict)
    ensures FromParsedF(ParsedProfile(ExampleDefs, Option.None, Option.None, Option.None), dict) ==
      Ok(Runtime(ExampleValues, Option.None, Option.None, Option.None))
  {
    var env := ExampleEnv(dict);
    ExampleNamesOfDefs();
    ExampleIndices();
    ExampleFirstHalf(env);
    ExampleSecondHalf(env);
  }

  /** A constant sees only the constants before it: a later one is a bad constant reference. */
  lemma ConstantSeesOnlyEarlier(env: Env)
    requires "b" in env.constants && env.constants["b"] == 1
    ensures ConstantsFrom(env, Initial, [Def("a", Ident("b")), Def("b", Literal(One))], 0, []).0 ==
      Err(ConstEval(Internal("bad constant reference")))
  {
    assert Lookup(Initial.defs, "b") == Option.None;
    assert LowerF(env, Initial, Ident("b")) == (Ok(LookupConstant(1)), Initial);
  }

  /** Constants are evaluated with a global lookup that knows no global. */
  lemma ConstantReadsNoGlobal(env: Env)
    requires "way.length" !in env.constants && "way.length" in env.globals
    ensures ConstantsFrom(env, Initial, [Def("l", Ident("way.length"))], 0, []).0 ==
      Err(ConstEval(Internal("bad global reference")))
  {
    assert Lookup(Initial.defs, "way.length") == Option.None;
    assert LowerF(env, Initial, Ident("way.length")) == (Ok(LookupGlobal("way.length")), Initial);
  }

  /** `return!` in a constant is not caught: it fails the compilation as a `ConstEval` error. */
  lemma ConstantEarlyReturnFails(env: Env)
    ensures ConstantsFrom(env, Initial, [Def("r", NamedBlock([], "return!", [Literal(One)]))], 0, []).0 ==
      Err(ConstEval(EarlyReturn(One)))
  {
    var e := NamedBlock([], "return!", [Literal(One)]);
    var p := PushVars(Initial);
    assert LowerDefs(env, p, e, 0) == (Option.None, p);
    assert LowerBody(env, p, e, 1, [Lit(One)]) == (Ok([Lit(One)]), p);
    assert [] + [Lit(One)] == [Lit(One)];
    assert LowerBody(env, p, e, 0, []) == (Ok([Lit(One)]), p);
    assert BlockTyOf("return!") == Some(Return);
    assert LowerF(env, Initial, e) == LowerBlock(env, Initial, e) == (Ok(Block(Return, [Lit(One)])), PopVars(p));
    var b := Block(Return, [Lit(One)]);
    assert BuildF(env, Initial, e).0 == Ok(RunnableExpr(b, PopVars(p)));
    assert Eval(Context([], Option.None, map[]), [], b) == EvalBlock(Context([], Option.None, map[]), [], b);
    assert Eval(Context([], Option.None, map[]), [], b).0 == Raised(EarlyReturn(One));
  }

  /**
   * A constant that uses a local definition aborts: the constant context has
   * no memo slots, so the slot lookup is out of range.
   */
  lemma ConstantLocalDefinitionPanics(env: Env)
    ensures ConstantsFrom(env, Initial, [Def("c", NamedBlock([Def("y", Literal(Bool(true)))], "any?", [Ident("y")]))], 0, []).0 ==
      Err(Panic("index out of bounds"))
  {
    var e := NamedBlock([Def("y", Literal(Bool(true)))], "any?", [Ident("y")]);
    var p := PushVars(Initial);
    var d := WithDefinition(p, "y", Lit(Bool(true)));
    assert LowerDefs(env, d, e, 1) == (Option.None, d);
    assert LowerDefs(env, p, e, 0) == (Option.None, d);
    assert Lookup(d.defs, "y") == Some(Lit(Bool(true)));
    assert Lookup(d.ids, "y") == Option.None by {
      assert d.ids[..1] == [map[]];
    }
    var d1 := IdOf(d, "y").1;
    var y := LookupOrCompute(0, Lit(Bool(true)));
    assert LowerF(env, d, Ident("y")) == (Ok(y), d1);
    assert LowerBody(env, d1, e, 1, [y]) == (Ok([y]), d1);
    assert [] + [y] == [y];
    assert LowerBody(env, d, e, 0, []) == (Ok([y]), d1);
    assert LowerF(env, Initial, e) == LowerBlock(env, Initial, e);
    assert LowerF(env, Initial, e).0 == Ok(Block(Any, [y]));
    var b := Block(Any, [y]);
    assert BuildF(env, Initial, e).0.value.expr == b;
    var c := Context([], Option.None, map[]);
    assert Eval(c, [], y) == (Panicked("index out of bounds"), []);
    assert Scan(c, [], b, 0, true, true).0 == Panicked("index out of bounds");
    assert Eval(c, [], b) == EvalBlock(c, [], b);
    assert Eval(c, [], b).0 == Panicked("index out of bounds");
  }

  /**
   * The shadowing example compiled with one slot sums the outer `x` twice:
   * the inner reference finds the slot the outer `x` filled and gives 2, not 3.
   */
  lemma ShadowingSumsOuterTwice(c: Context)
    ensures Eval(c, [Option.None],
      Block(Sum, [LookupOrCompute(0, Lit(Number(1.0))), Block(Sum, [LookupOrCompute(0, Lit(Number(2.0)))])])) ==
      (Done(Number(2.0)), [Some(Number(1.0))])
  {
    var inner := Block(Sum, [LookupOrCompute(0, Lit(Number(2.0)))]);
    var e := Block(Sum, [LookupOrCompute(0, Lit(Number(1.0))), inner]);
    var s := [Some(Number(1.0))];
    assert [Option.None][0 := Some(Number(1.0))] == s;
    assert Eval(c, s, inner) == Fold(c, s, inner) == (Done(Number(1.0)), s);
    assert FoldFrom(c, s, e, 1, 1.0) == (Done(Number(2.0)), s);
    assert Eval(c, [Option.None], e) == Fold(c, [Option.None], e);
  }
}
