/**
 * Properties of the older profile runtime (src/profile/runtime.rs): how
 * identifiers and block names lower, how the four block kinds, `when` and
 * tag patterns evaluate, what `score_way` gives, and the constants of the
 * source's own test profile.
 */
module LegacyRuntimeFacts {
  import opened Options
  import opened ProfileAst
  import opened PanamintScope
  import opened PanamintVariables
  import Ir = PanamintIr
  import Compiler = PanamintCompiler
  import Tags = PanamintEval
  import Examples = PanamintRuntimeFacts
  import opened LegacyRuntime

  /**
   * Identifier lowering: a visible local definition gives its memo slot, a
   * constant its declaration index, and anything else aborts.
   */
  lemma IdentResolution(env: Env, st: VarState, name: string)
    requires Open(st)
    ensures var (r, st1) := LowerF(env, st, Ident(name));
      && (Lookup(st.defs, name).Some? ==>
            r == Ok(LookupOrCompute(IdOf(st, name).0, Lookup(st.defs, name).value)) && st1 == IdOf(st, name).1)
      && (Lookup(st.defs, name).None? && name in env.constants ==> r == Ok(LookupConstant(env.constants[name])) && st1 == st)
      && (r.Err? <==> Lookup(st.defs, name).None? && name !in env.constants)
      && (r.Err? ==> r.error == "undefined var or const")
  {
  }

  /**
   * A block whose definitions lower but whose name is not one of the four
   * keywords aborts; a block that lowers has one of the four names.
   */
  lemma UnknownBlockAborts(env: Env, st: VarState, e: Expression)
    requires Open(st) && e.NamedBlock?
    ensures LowerDefs(env, PushVars(st), e, 0).0.None? && e.name !in {"any?", "all?", "none?", "sum"} ==>
      LowerF(env, st, e).0 == Err("unknown block type")
    ensures LowerF(env, st, e).0.Ok? ==>
      e.name in {"any?", "all?", "none?", "sum"} && LowerF(env, st, e).0.value.Block? &&
      LowerF(env, st, e).0.value.ty == BlockTyOf(e.name).value
  {
    assert LowerF(env, st, e) == LowerBlock(env, st, e);
  }

  /**
   * Tag patterns lower in place: same number, same order, each key and
   * value replaced by its dictionary id or the unknown id.
   */
  lemma TagsCompacted(env: Env, st: VarState, ps: seq<TagPattern<string>>)
    requires Open(st)
    ensures var (r, st1) := LowerF(env, st, Tags(ps));
      st1 == st && r.Ok? && r.value.Patterns? && |r.value.patterns| == |ps| &&
      forall i :: 0 <= i < |ps| ==> Compiler.CompactedFrom(env.tagDict, ps[i], r.value.patterns[i])
  {
  }

  /**
   * Tag patterns are a conjunction: the result is true exactly when every
   * pattern matches the tag source; without a tag source evaluation aborts.
   */
  lemma PatternsAreConjunction(c: Context, s: Slots, ps: seq<TagPattern<Ir.TagId>>)
    ensures c.tags.None? ==> Eval(c, s, Patterns(ps)) == (Panicked("no tags supported here"), s)
    ensures c.tags.Some? ==>
      Eval(c, s, Patterns(ps)) == (Done(Bool(forall j :: 0 <= j < |ps| ==> Tags.PatternMatches(c.tags.value, ps[j]))), s)
  {
  }

  /** Evaluating expressions in order: all values, or the abort that stopped it. */
  datatype Run = Ran(values: seq<Value>, slots: Slots) | Stopped(reason: string, slots: Slots)

  function RunSeq(c: Context, s: Slots, es: seq<Expr>): (r: Run)
    ensures r.Ran? ==> |r.values| == |es|
    decreases |es|
  {
    if es == [] then Ran([], s)
    else
      var (o, s1) := Eval(c, s, es[0]);
      if o.Panicked? then Stopped(o.reason, s1)
      else match RunSeq(c, s1, es[1..])
        case Ran(vs, s2) => Ran([o.value] + vs, s2)
        case Stopped(why, s2) => Stopped(why, s2)
  }

  lemma RunSeqCons(c: Context, s: Slots, es: seq<Expr>)
    requires es != [] && RunSeq(c, s, es).Ran?
    ensures var (o, s1) := Eval(c, s, es[0]);
      o.Done? && RunSeq(c, s1, es[1..]).Ran? &&
      RunSeq(c, s, es).values == [o.value] + RunSeq(c, s1, es[1..]).values &&
      RunSeq(c, s, es).slots == RunSeq(c, s1, es[1..]).slots
  {
  }

  predicate NoneStops(vs: seq<Value>, stopOn: bool)
  {
    forall k :: 0 <= k < |vs| ==> IsTruthy(vs[k]) != stopOn
  }

  lemma {:induction false} ScanSkips(c: Context, s: Slots, e: Expr, i: nat, j: nat, stopOn: bool, stopValue: bool)
    requires e.Block? && i <= j <= |e.body|
    requires RunSeq(c, s, e.body[i..j]).Ran? && NoneStops(RunSeq(c, s, e.body[i..j]).values, stopOn)
    ensures Scan(c, s, e, i, stopOn, stopValue) == Scan(c, RunSeq(c, s, e.body[i..j]).slots, e, j, stopOn, stopValue)
    decreases j - i
  {
    if i < j {
      var es := e.body[i..j];
      assert es[0] == e.body[i] && es[1..] == e.body[i + 1..j];
      var (o, s1) := Eval(c, s, e.body[i]);
      RunSeqCons(c, s, es);
      var tail := RunSeq(c, s1, e.body[i + 1..j]);
      var vs := RunSeq(c, s, es).values;
      assert vs == [o.value] + tail.values;
      assert IsTruthy(o.value) != stopOn by {
        assert vs[0] == o.value;
      }
      assert NoneStops(tail.values, stopOn) by {
        forall k | 0 <= k < |tail.values| ensures IsTruthy(tail.values[k]) != stopOn {
          assert tail.values[k] == vs[k + 1];
        }
      }
      ScanSkips(c, s1, e, i + 1, j, stopOn, stopValue);
      assert Scan(c, s, e, i, stopOn, stopValue) == Scan(c, s1, e, i + 1, stopOn, stopValue);
    }
  }

  lemma ScanAt(c: Context, s: Slots, e: Expr, j: nat, stopOn: bool, stopValue: bool)
    requires e.Block? && j <= |e.body|
    requires RunSeq(c, s, e.body[..j]).Ran? && NoneStops(RunSeq(c, s, e.body[..j]).values, stopOn)
    ensures var s1 := RunSeq(c, s, e.body[..j]).slots;
      && (j == |e.body| ==> Scan(c, s, e, 0, stopOn, stopValue) == (Done(Bool(!stopValue)), s1))
      && (j < |e.body| && Eval(c, s1, e.body[j]).0.Done? && IsTruthy(Eval(c, s1, e.body[j]).0.value) == stopOn ==>
            Scan(c, s, e, 0, stopOn, stopValue) == (Done(Bool(stopValue)), Eval(c, s1, e.body[j]).1))
      && (j < |e.body| && Eval(c, s1, e.body[j]).0.Panicked? ==>
            Scan(c, s, e, 0, stopOn, stopValue) == Eval(c, s1, e.body[j]))
  {
    assert e.body[0..j] == e.body[..j];
    ScanSkips(c, s, e, 0, j, stopOn, stopValue);
  }

  /**
   * `any?` is true at the first truthy argument and false when every
   * argument is falsy; later arguments are not evaluated.
   */
  lemma AnyIsFirstTruthy(c: Context, s: Slots, body: seq<Expr>, j: nat)
    requires j <= |body|
    requires RunSeq(c, s, body[..j]).Ran? && NoneStops(RunSeq(c, s, body[..j]).values, true)
    ensures var s1 := RunSeq(c, s, body[..j]).slots;
      && (j == |body| ==> Eval(c, s, Block(Any, body)) == (Done(Bool(false)), s1))
      && (j < |body| && Eval(c, s1, body[j]).0.Done? && IsTruthy(Eval(c, s1, body[j]).0.value) ==>
            Eval(c, s, Block(Any, body)) == (Done(Bool(true)), Eval(c, s1, body[j]).1))
      && (j < |body| && Eval(c, s1, body[j]).0.Panicked? ==> Eval(c, s, Block(Any, body)) == Eval(c, s1, body[j]))
  {
    ScanAt(c, s, Block(Any, body), j, true, true);
  }

  /** `all?` is false at the first falsy argument and true when every argument is truthy. */
  lemma AllIsFirstFalsy(c: Context, s: Slots, body: seq<Expr>, j: nat)
    requires j <= |body|
    requires RunSeq(c, s, body[..j]).Ran? && NoneStops(RunSeq(c, s, body[..j]).values, false)
    ensures var s1 := RunSeq(c, s, body[..j]).slots;
      && (j == |body| ==> Eval(c, s, Block(All, body)) == (Done(Bool(true)), s1))
      && (j < |body| && Eval(c, s1, body[j]).0.Done? && !IsTruthy(Eval(c, s1, body[j]).0.value) ==>
            Eval(c, s, Block(All, body)) == (Done(Bool(false)), Eval(c, s1, body[j]).1))
      && (j < |body| && Eval(c, s1, body[j]).0.Panicked? ==> Eval(c, s, Block(All, body)) == Eval(c, s1, body[j]))
  {
    ScanAt(c, s, Block(All, body), j, false, false);
  }

  lemma {:induction false} NoneNegatesAnyFrom(c: Context, s: Slots, body: seq<Expr>, i: nat)
    requires i <= |body|
    ensures var a := Scan(c, s, Block(Any, body), i, true, true);
      var n := Scan(c, s, Block(BlockTy.None, body), i, true, false);
      n.1 == a.1 && (a.0.Done? ==> a.0.value.Bool? && n.0 == Done(Bool(!a.0.value.b))) && (a.0.Panicked? ==> n.0 == a.0)
    decreases |body| - i
  {
    if i < |body| {
      var (o, s1) := Eval(c, s, body[i]);
      if o.Done? && !IsTruthy(o.value) {
        NoneNegatesAnyFrom(c, s1, body, i + 1);
      }
    }
  }

  /** `none?` evaluates exactly what `any?` evaluates and negates its answer. */
  lemma NoneIsNotAny(c: Context, s: Slots, body: seq<Expr>)
    ensures var a := Eval(c, s, Block(Any, body));
      var n := Eval(c, s, Block(BlockTy.None, body));
      n.1 == a.1 && (a.0.Done? ==> a.0.value.Bool? && n.0 == Done(Bool(!a.0.value.b))) && (a.0.Panicked? ==> n.0 == a.0)
  {
    NoneNegatesAnyFrom(c, s, body, 0);
  }

  predicate AllNumbers(vs: seq<Value>)
  {
    forall k :: 0 <= k < |vs| ==> vs[k].Number?
  }

  /** The sum of a sequence of numbers, left to right. */
  function Total(vs: seq<Value>): real
    requires AllNumbers(vs)
    decreases |vs|
  {
    if vs == [] then 0.0 else vs[0].n + Total(vs[1..])
  }

  lemma {:induction false} SumSkips(c: Context, s: Slots, e: Expr, i: nat, j: nat, acc: real)
    requires e.Block? && i <= j <= |e.body|
    requires RunSeq(c, s, e.body[i..j]).Ran? && AllNumbers(RunSeq(c, s, e.body[i..j]).values)
    ensures SumFrom(c, s, e, i, acc) ==
      SumFrom(c, RunSeq(c, s, e.body[i..j]).slots, e, j, acc + Total(RunSeq(c, s, e.body[i..j]).values))
    decreases j - i
  {
    var vs := RunSeq(c, s, e.body[i..j]).values;
    if i < j {
      var es := e.body[i..j];
      assert es[0] == e.body[i] && es[1..] == e.body[i + 1..j];
      var (o, s1) := Eval(c, s, e.body[i]);
      RunSeqCons(c, s, es);
      var tail := RunSeq(c, s1, e.body[i + 1..j]);
      assert vs == [o.value] + tail.values;
      assert o.value.Number? by {
        assert vs[0] == o.value;
      }
      assert AllNumbers(tail.values) by {
        forall k | 0 <= k < |tail.values| ensures tail.values[k].Number? {
          assert tail.values[k] == vs[k + 1];
        }
      }
      assert vs[1..] == tail.values;
      SumSkips(c, s1, e, i + 1, j, acc + o.value.n);
      assert Total(vs) == o.value.n + Total(tail.values);
    } else {
      assert vs == [];
    }
  }

  /** A `sum` whose arguments all give numbers is their total; an empty `sum` is 0. */
  lemma SumOfNumbers(c: Context, s: Slots, body: seq<Expr>)
    requires RunSeq(c, s, body).Ran? && AllNumbers(RunSeq(c, s, body).values)
    ensures var run := RunSeq(c, s, body);
      Eval(c, s, Block(Sum, body)) == (Done(Number(Total(run.values))), run.slots)
  {
    var e := Block(Sum, body);
    assert body[0..|body|] == body;
    SumSkips(c, s, e, 0, |body|, 0.0);
    assert Eval(c, s, e) == EvalBlock(c, s, e) == SumFrom(c, s, e, 0, 0.0);
  }

  /**
   * A `sum` stops at the first argument that is not a number: `invalid`
   * makes the block `invalid`, any other value aborts, and an abort passes
   * through.
   */
  lemma SumStops(c: Context, s: Slots, body: seq<Expr>, j: nat)
    requires j < |body|
    requires RunSeq(c, s, body[..j]).Ran? && AllNumbers(RunSeq(c, s, body[..j]).values)
    requires !Eval(c, RunSeq(c, s, body[..j]).slots, body[j]).0.Done? ||
             !Eval(c, RunSeq(c, s, body[..j]).slots, body[j]).0.value.Number?
    ensures var (o, s2) := Eval(c, RunSeq(c, s, body[..j]).slots, body[j]);
      && (o.Panicked? ==> Eval(c, s, Block(Sum, body)) == (o, s2))
      && (o == Done(Invalid) ==> Eval(c, s, Block(Sum, body)) == (Done(Invalid), s2))
      && (o.Done? && !o.value.Invalid? ==> Eval(c, s, Block(Sum, body)) == (Panicked("Unexpected type from sum block"), s2))
  {
    var e := Block(Sum, body);
    assert body[0..j] == body[..j];
    SumSkips(c, s, e, 0, j, 0.0);
    assert Eval(c, s, e) == EvalBlock(c, s, e) == SumFrom(c, s, e, 0, 0.0);
  }

  function Conds(clauses: seq<Clause>): (r: seq<Expr>)
    ensures |r| == |clauses|
    ensures forall k :: 0 <= k < |clauses| ==> r[k] == clauses[k].cond
  {
    seq(|clauses|, k requires 0 <= k < |clauses| => clauses[k].cond)
  }

  lemma {:induction false} WhenSkips(c: Context, s: Slots, e: Expr, i: nat, j: nat)
    requires e.When? && i <= j <= |e.clauses|
    requires RunSeq(c, s, Conds(e.clauses)[i..j]).Ran? && NoneStops(RunSeq(c, s, Conds(e.clauses)[i..j]).values, true)
    ensures WhenFrom(c, s, e, i) == WhenFrom(c, RunSeq(c, s, Conds(e.clauses)[i..j]).slots, e, j)
    decreases j - i
  {
    if i < j {
      var es := Conds(e.clauses)[i..j];
      assert es[0] == e.clauses[i].cond && es[1..] == Conds(e.clauses)[i + 1..j];
      var (o, s1) := Eval(c, s, e.clauses[i].cond);
      RunSeqCons(c, s, es);
      var tail := RunSeq(c, s1, Conds(e.clauses)[i + 1..j]);
      var vs := RunSeq(c, s, es).values;
      assert vs == [o.value] + tail.values;
      assert !IsTruthy(o.value) by {
        assert vs[0] == o.value;
      }
      assert NoneStops(tail.values, true) by {
        forall k | 0 <= k < |tail.values| ensures IsTruthy(tail.values[k]) != true {
          assert tail.values[k] == vs[k + 1];
        }
      }
      WhenSkips(c, s1, e, i + 1, j);
      assert WhenFrom(c, s, e, i) == WhenFrom(c, s1, e, i + 1);
    }
  }

  /**
   * A `when` gives the value of the first clause whose condition is truthy;
   * when no condition is truthy it aborts with the fallthrough message.
   */
  lemma WhenIsFirstTruthy(c: Context, s: Slots, clauses: seq<Clause>, j: nat)
    requires j <= |clauses|
    requires RunSeq(c, s, Conds(clauses)[..j]).Ran? && NoneStops(RunSeq(c, s, Conds(clauses)[..j]).values, true)
    ensures var s1 := RunSeq(c, s, Conds(clauses)[..j]).slots;
      && (j == |clauses| ==> Eval(c, s, When(clauses)) == (Panicked("Fallthrough -> no else block for when"), s1))
      && (j < |clauses| && Eval(c, s1, clauses[j].cond).0.Done? && IsTruthy(Eval(c, s1, clauses[j].cond).0.value) ==>
            Eval(c, s, When(clauses)) == Eval(c, Eval(c, s1, clauses[j].cond).1, clauses[j].value))
      && (j < |clauses| && Eval(c, s1, clauses[j].cond).0.Panicked? ==>
            Eval(c, s, When(clauses)) == Eval(c, s1, clauses[j].cond))
  {
    assert Conds(clauses)[0..j] == Conds(clauses)[..j];
    WhenSkips(c, s, When(clauses), 0, j);
  }

  /** A definition is evaluated at most once per context; later lookups reuse the stored value. */
  lemma LookupMemoizes(c: Context, s: Slots, id: nat, def: Expr, other: Expr)
    requires Eval(c, s, LookupOrCompute(id, def)).0.Done?
    ensures var (o, s1) := Eval(c, s, LookupOrCompute(id, def));
      id < |s1| && s1[id] == Some(o.value) && Eval(c, s1, LookupOrCompute(id, other)) == (o, s1)
  {
  }

  /**
   * `score_way`: no way penalty scores 0, a number is the score, `invalid`
   * is the large penalty, any other value or an abort during evaluation is
   * an abort.
   */
  lemma ScoreWayMeaning(rt: ProfileRuntime, tags: Tags.TagSource)
    ensures rt.wayPenalty.None? ==> rt.ScoreWayF(tags) == Ok(0.0)
    ensures rt.wayPenalty.Some? ==>
      var unit := rt.wayPenalty.value;
      var o := Eval(Context(rt.constants, Some(tags)), seq(unit.variables.nextId, _ => Option.None), unit.expr).0;
      && (o == Done(Invalid) <==> rt.ScoreWayF(tags) == Ok(InvalidPenalty) && !o.Panicked? && !o.value.Number?)
      && (o.Done? && o.value.Number? ==> rt.ScoreWayF(tags) == Ok(o.value.n))
      && (rt.ScoreWayF(tags).Err? <==> o.Panicked? || (!o.value.Number? && !o.value.Invalid?))
  {
  }

  /** The constant indices the test definitions refer to. */
  predicate Indexed(env: Env)
  {
    "a" in env.constants && "b" in env.constants && "c" in env.constants &&
    env.constants["a"] == 0 && env.constants["b"] == 1 && env.constants["c"] == 2
  }

  /** A body element that needs no scope: a literal or the name of a constant. */
  predicate Flat(env: Env, x: Expression)
  {
    x.Literal? || (x.Ident? && x.name in env.constants)
  }

  function FlatLower(env: Env, x: Expression): Expr
    requires Flat(env, x)
  {
    if x.Literal? then Lit(x.value) else LookupConstant(env.constants[x.name])
  }

  lemma {:induction false} FlatBodyLowers(env: Env, e: Expression, i: nat, acc: seq<Expr>)
    requires e.NamedBlock? && i <= |e.body|
    requires forall k :: i <= k < |e.body| ==> Flat(env, e.body[k])
    ensures var r := LowerBody(env, PushVars(Initial), e, i, acc);
      r.0.Ok? && r.1 == PushVars(Initial) && |r.0.value| == |acc| + |e.body| - i &&
      r.0.value[..|acc|] == acc &&
      forall k :: i <= k < |e.body| ==> r.0.value[|acc| + k - i] == FlatLower(env, e.body[k])
    decreases |e.body| - i
  {
    if i < |e.body| {
      var st := PushVars(Initial);
      var x := e.body[i];
      if x.Ident? {
        assert Lookup(st.defs, x.name) == Option.None by {
          assert st.defs[..1] == [map[]];
        }
      }
      assert LowerF(env, st, x) == (Ok(FlatLower(env, x)), st);
      FlatBodyLowers(env, e, i + 1, acc + [FlatLower(env, x)]);
      var r := LowerBody(env, st, e, i + 1, acc + [FlatLower(env, x)]);
      assert r.0.value[..|acc|] == r.0.value[..|acc| + 1][..|acc|];
    }
  }

  /** A definition-free test block of literals and constant names lowers to `expected`. */
  lemma FlatBlockLowers(env: Env, d: Expression, ty: BlockTy, expected: seq<Expr>)
    requires d.NamedBlock? && d.defs == [] && BlockTyOf(d.name) == Some(ty) && |expected| == |d.body|
    requires forall i :: 0 <= i < |d.body| ==> Flat(env, d.body[i]) && expected[i] == FlatLower(env, d.body[i])
    ensures LowerF(env, Initial, d) == (Ok(Block(ty, expected)), Initial)
  {
    assert LowerDefs(env, PushVars(Initial), d, 0) == (Option.None, PushVars(Initial));
    FlatBodyLowers(env, d, 0, []);
    assert LowerF(env, Initial, d) == LowerBlock(env, Initial, d);
    var r := LowerF(env, Initial, d).0.value;
    assert r.body == expected;
  }

  lemma ConstStep(env: Env, defs: seq<Def>, i: nat, consts: seq<Value>, x: Expr, v: Value)
    requires i < |defs| && LowerF(env, Initial, defs[i].expr) == (Ok(x), Initial)
    requires Eval(Context(consts, Option.None), [], x).0 == Done(v)
    ensures ConstantsFrom(env, Initial, defs, i, consts) == ConstantsFrom(env, Initial, defs, i + 1, consts + [v])
  {
  }

  lemma ExampleLowersA(env: Env)
    requires Indexed(env)
    ensures LowerF(env, Initial, Ident("a")) == (Ok(LookupConstant(0)), Initial)
  {
    assert Lookup(Initial.defs, "a") == Option.None;
  }

  lemma ExampleLowers(env: Env)
    requires Indexed(env)
    ensures LowerF(env, Initial, Ident("a")) == (Ok(LookupConstant(0)), Initial)
    ensures LowerF(env, Initial, Examples.ExampleD) == (Ok(Block(Any, [LookupConstant(2), Lit(Bool(false))])), Initial)
    ensures LowerF(env, Initial, Examples.ExampleE) == (Ok(Block(Any, [LookupConstant(2), Lit(Bool(false)), LookupConstant(1)])), Initial)
  {
    ExampleLowersA(env);
    FlatBlockLowers(env, Examples.ExampleD, Any, [LookupConstant(2), Lit(Bool(false))]);
    FlatBlockLowers(env, Examples.ExampleE, Any, [LookupConstant(2), Lit(Bool(false)), LookupConstant(1)]);
  }

  lemma ExampleSumsLower(env: Env)
    requires Indexed(env)
    ensures LowerF(env, Initial, Examples.ExampleF) == (Ok(Block(Sum, [LookupConstant(0), Lit(Number(2.0))])), Initial)
    ensures LowerF(env, Initial, Examples.ExampleG) == (Ok(Block(Sum, [Lit(Invalid), LookupConstant(0), Lit(Number(2.0))])), Initial)
  {
    FlatBlockLowers(env, Examples.ExampleF, Sum, [LookupConstant(0), Lit(Number(2.0))]);
    FlatBlockLowers(env, Examples.ExampleG, Sum, [Lit(Invalid), LookupConstant(0), Lit(Number(2.0))]);
  }

  lemma ExampleEvaluation()
    ensures Eval(Context([Examples.One, Examples.One, Bool(false)], Option.None), [], Block(Any, [LookupConstant(2), Lit(Bool(false))])).0 == Done(Bool(false))
    ensures Eval(Context([Examples.One, Examples.One, Bool(false), Bool(false)], Option.None), [], Block(Any, [LookupConstant(2), Lit(Bool(false)), LookupConstant(1)])).0 == Done(Bool(true))
    ensures Eval(Context([Examples.One, Examples.One, Bool(false), Bool(false), Bool(true)], Option.None), [], Block(Sum, [LookupConstant(0), Lit(Number(2.0))])).0 == Done(Number(3.0))
    ensures Eval(Context([Examples.One, Examples.One, Bool(false), Bool(false), Bool(true), Number(3.0)], Option.None), [], Block(Sum, [Lit(Invalid), LookupConstant(0), Lit(Number(2.0))])).0 == Done(Invalid)
  {
    var e := Block(Any, [LookupConstant(2), Lit(Bool(false))]);
    var c := Context([Examples.One, Examples.One, Bool(false)], Option.None);
    assert Scan(c, [], e, 1, true, true) == (Done(Bool(false)), []);
    e := Block(Any, [LookupConstant(2), Lit(Bool(false)), LookupConstant(1)]);
    c := Context([Examples.One, Examples.One, Bool(false), Bool(false)], Option.None);
    assert Scan(c, [], e, 2, true, true) == (Done(Bool(true)), []);
    assert Scan(c, [], e, 0, true, true) == (Done(Bool(true)), []);
    e := Block(Sum, [LookupConstant(0), Lit(Number(2.0))]);
    c := Context([Examples.One, Examples.One, Bool(false), Bool(false), Bool(true)], Option.None);
    assert SumFrom(c, [], e, 1, 1.0) == (Done(Number(3.0)), []);
    assert SumFrom(c, [], e, 0, 0.0) == SumFrom(c, [], e, 1, 0.0 + 1.0);
  }

  lemma ExampleFirstTwo(env: Env)
    requires Indexed(env)
    ensures ConstantsFrom(env, Initial, Examples.ExampleDefs, 0, []) ==
      ConstantsFrom(env, Initial, Examples.ExampleDefs, 2, [Examples.One, Examples.One])
  {
    var defs := Examples.ExampleDefs;
    var one := Examples.One;
    ExampleLowersA(env);
    var v1 := [one];
    assert defs[0].expr == Literal(one) && defs[1].expr == Ident("a");
    assert [] + [one] == v1 && v1 + [one] == [one, one];
    ConstStep(env, defs, 0, [], Lit(one), one);
    ConstStep(env, defs, 1, v1, LookupConstant(0), one);
  }

  lemma ExampleFirstHalf(env: Env)
    requires Indexed(env)
    ensures ConstantsFrom(env, Initial, Examples.ExampleDefs, 0, []) ==
      ConstantsFrom(env, Initial, Examples.ExampleDefs, 4, [Examples.One, Examples.One, Bool(false), Bool(false)])
  {
    var defs := Examples.ExampleDefs;
    var one := Examples.One;
    ExampleFirstTwo(env);
    ExampleLowers(env);
    ExampleEvaluation();
    var v2 := [one, one];
    var v3 := [one, one, Bool(false)];
    assert v2 + [Bool(false)] == v3 && v3 + [Bool(false)] == [one, one, Bool(false), Bool(false)];
    ConstStep(env, defs, 2, v2, Lit(Bool(false)), Bool(false));
    ConstStep(env, defs, 3, v3, Block(Any, [LookupConstant(2), Lit(Bool(false))]), Bool(false));
  }

  lemma ExampleSecondHalf(env: Env)
    requires Indexed(env)
    ensures ConstantsFrom(env, Initial, Examples.ExampleDefs, 4, [Examples.One, Examples.One, Bool(false), Bool(false)]) ==
      (Ok(Examples.ExampleValues), Initial)
  {
    var defs := Examples.ExampleDefs;
    var one := Examples.One;
    ExampleLowers(env);
    ExampleEvaluation();
    var v4 := [one, one, Bool(false), Bool(false)];
    var v5 := [one, one, Bool(false), Bool(false), Bool(true)];
    assert v4 + [Bool(true)] == v5;
    ExampleLastTwo(env);
    ConstStep(env, defs, 4, v4, Block(Any, [LookupConstant(2), Lit(Bool(false)), LookupConstant(1)]), Bool(true));
  }

  lemma ExampleLastTwo(env: Env)
    requires Indexed(env)
    ensures ConstantsFrom(env, Initial, Examples.ExampleDefs, 5, [Examples.One, Examples.One, Bool(false), Bool(false), Bool(true)]) ==
      (Ok(Examples.ExampleValues), Initial)
  {
    var defs := Examples.ExampleDefs;
    var one := Examples.One;
    ExampleSumsLower(env);
    ExampleEvaluation();
    var v5 := [one, one, Bool(false), Bool(false), Bool(true)];
    var v6 := [one, one, Bool(false), Bool(false), Bool(true), Number(3.0)];
    assert v5 + [Number(3.0)] == v6 && v6 + [Invalid] == Examples.ExampleValues;
    ConstStep(env, defs, 5, v5, Block(Sum, [LookupConstant(0), Lit(Number(2.0))]), Number(3.0));
    ConstStep(env, defs, 6, v6, Block(Sum, [Lit(Invalid), LookupConstant(0), Lit(Number(2.0))]), Invalid);
  }

  /**
   * The constants of the source's test profile evaluate, in order, to
   * `1, 1, false, false, true, 3, invalid`.
   */
  lemma ExampleConstants(dict: Ir.TagDict)
    ensures FromF(Profile(Examples.ExampleDefs, Option.None, Option.None, Option.None), dict) ==
      Ok(ProfileRuntime(Examples.ExampleValues, Option.None, Option.None, Option.None))
  {
    var env := Env(Compiler.ConstIndices(Examples.ExampleNames), dict);
    Examples.ExampleNamesOfDefs();
    Examples.ExampleIndices();
    ExampleFirstHalf(env);
    ExampleSecondHalf(env);
  }

  /**
   * A constant is compiled against every constant name but evaluated with
   * only the earlier values, so naming a later constant aborts.
   */
  lemma LaterConstantAborts(env: Env)
    requires "b" in env.constants && env.constants["b"] == 1
    ensures ConstantsFrom(env, Initial, [Def("a", Ident("b")), Def("b", Literal(Examples.One))], 0, []).0 ==
      Err("bug: bad const lookup")
  {
    assert Lookup(Initial.defs, "b") == Option.None;
    assert LowerF(env, Initial, Ident("b")) == (Ok(LookupConstant(1)), Initial);
  }
}
