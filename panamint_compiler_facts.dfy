/**
 * Properties of the canonical engine's compiler
 * (projects/panamint/src/profile/runtime.rs:84-275).
 */
module PanamintCompilerFacts {
  import opened Options
  import opened ProfileAst
  import opened PanamintScope
  import opened PanamintIr
  import opened PanamintVariables
  import opened PanamintCompiler

  /** Every slot bound in the id stack is below the slot counter. */
  predicate IdsBelow(st: VarState)
  {
    forall i, k :: 0 <= i < |st.ids| && k in st.ids[i] ==> st.ids[i][k] < st.nextId
  }

  /** Every registered definition is runnable with the slots handed out so far. */
  predicate DefsRunnable(st: VarState)
  {
    forall i, k :: 0 <= i < |st.defs| && k in st.defs[i] ==> Runnable(st.defs[i][k], st.nextId)
  }

  predicate Sound(st: VarState)
  {
    IdsBelow(st) && DefsRunnable(st)
  }

  lemma InitialSound()
    ensures Sound(Initial)
  {
  }

  lemma SoundPushPop(st: VarState)
    requires Sound(st)
    ensures Sound(PushVars(st))
    ensures Open(st) ==> Sound(PopVars(st))
  {
    if Open(st) {
      var p := PopVars(st);
      forall i, k | 0 <= i < |p.ids| && k in p.ids[i] ensures p.ids[i][k] < p.nextId {
        assert p.ids[i] == st.ids[i];
      }
      forall i, k | 0 <= i < |p.defs| && k in p.defs[i] ensures Runnable(p.defs[i][k], p.nextId) {
        assert p.defs[i] == st.defs[i];
      }
    }
  }

  /** Raising the slot counter keeps a state sound. */
  lemma SoundGrow(st: VarState, n: nat)
    requires Sound(st) && st.nextId <= n
    ensures Sound(st.(nextId := n))
  {
    forall i, k | 0 <= i < |st.defs| && k in st.defs[i] ensures Runnable(st.defs[i][k], n) {
      RunnableMonotone(st.defs[i][k], st.nextId, n);
    }
  }

  /**
   * `get_or_assign_id` returns a slot below the new counter and keeps the
   * state sound; a newly assigned slot is the old counter, which no bound
   * identifier holds, so fresh slots never collide.
   */
  lemma SoundIdOf(st: VarState, x: string)
    requires Open(st) && Sound(st)
    ensures Sound(IdOf(st, x).1)
    ensures IdOf(st, x).0 < IdOf(st, x).1.nextId
    ensures Lookup(st.ids, x).None? ==>
      IdOf(st, x).0 == st.nextId && IdOf(st, x).1.nextId == st.nextId + 1 &&
      forall i, k :: 0 <= i < |st.ids| && k in st.ids[i] ==> st.ids[i][k] != IdOf(st, x).0
    ensures Lookup(st.ids, x).Some? ==> IdOf(st, x) == (Lookup(st.ids, x).value, st)
  {
    if Lookup(st.ids, x).None? {
      var g := st.(nextId := st.nextId + 1);
      SoundGrow(st, st.nextId + 1);
      var r := IdOf(st, x).1;
      assert r == g.(ids := SetTop(st.ids, x, st.nextId));
      forall i, k | 0 <= i < |r.ids| && k in r.ids[i] ensures r.ids[i][k] < r.nextId {
        if i < |r.ids| - 1 {
          assert r.ids[i] == r.ids[..|r.ids| - 1][i] == st.ids[i];
        }
      }
    }
  }

  lemma SoundDefine(st: VarState, x: string, e: Expr)
    requires Open(st) && Sound(st) && Runnable(e, st.nextId)
    ensures Sound(WithDefinition(st, x, e))
  {
    var r := WithDefinition(st, x, e);
    forall i, k | 0 <= i < |r.defs| && k in r.defs[i] ensures Runnable(r.defs[i][k], r.nextId) {
      if i < |r.defs| - 1 {
        assert r.defs[i] == r.defs[..|r.defs| - 1][i] == st.defs[i];
      }
    }
  }

  /**
   * Lowering from a sound state leaves a sound state and, on success, an
   * expression runnable with the slots handed out: every slot it names was
   * assigned, and every block passed the arity check.
   */
  lemma {:induction false} LowerSound(env: Env, st: VarState, e: Expression)
    requires Open(st) && Sound(st)
    ensures Sound(LowerF(env, st, e).1)
    ensures LowerF(env, st, e).0.Ok? ==> Runnable(LowerF(env, st, e).0.value, LowerF(env, st, e).1.nextId)
    decreases e, 2
  {
    match e
    case Literal(_) =>
    case Ident(name) =>
      if Lookup(st.defs, name).Some? {
        SoundIdOf(st, name);
        RunnableMonotone(Lookup(st.defs, name).value, st.nextId, IdOf(st, name).1.nextId);
      }
    case Tags(_) =>
    case NamedBlock(_, _, _) => BlockSound(env, st, e);
    case WhenBlock(_) => ClausesSound(env, st, e, 0, []);
  }

  lemma {:induction false} BlockSound(env: Env, st: VarState, e: Expression)
    requires Open(st) && Sound(st) && e.NamedBlock?
    ensures Sound(LowerBlock(env, st, e).1)
    ensures LowerBlock(env, st, e).0.Ok? ==> Runnable(LowerBlock(env, st, e).0.value, LowerBlock(env, st, e).1.nextId)
    decreases e, 1
  {
    SoundPushPop(st);
    DefsSound(env, PushVars(st), e, 0);
    var (err, st2) := LowerDefs(env, PushVars(st), e, 0);
    if err.None? && BlockTyOf(e.name).Some? && Admits(ArityOf(BlockTyOf(e.name).value), |e.body|) {
      BodySound(env, st2, e, 0, []);
      var (rb, st3) := LowerBody(env, st2, e, 0, []);
      if rb.Ok? {
        SoundPushPop(st3);
      }
    }
  }

  lemma {:induction false} DefsSound(env: Env, st: VarState, e: Expression, i: nat)
    requires Open(st) && Sound(st) && e.NamedBlock? && i <= |e.defs|
    ensures Sound(LowerDefs(env, st, e, i).1)
    decreases e, 0, |e.defs| - i
  {
    if i < |e.defs| {
      var d := e.defs[i];
      assert d.expr < d < e;
      LowerSound(env, st, d.expr);
      var (x, st1) := LowerF(env, st, d.expr);
      if x.Ok? {
        SoundDefine(st1, d.ident, x.value);
        DefsSound(env, WithDefinition(st1, d.ident, x.value), e, i + 1);
      }
    }
  }

  lemma {:induction false} BodySound(env: Env, st: VarState, e: Expression, i: nat, acc: seq<Expr>)
    requires Open(st) && Sound(st) && e.NamedBlock? && i <= |e.body|
    requires forall j :: 0 <= j < |acc| ==> Runnable(acc[j], st.nextId)
    ensures Sound(LowerBody(env, st, e, i, acc).1)
    ensures LowerBody(env, st, e, i, acc).0.Ok? ==>
      forall j :: 0 <= j < |LowerBody(env, st, e, i, acc).0.value| ==>
        Runnable(LowerBody(env, st, e, i, acc).0.value[j], LowerBody(env, st, e, i, acc).1.nextId)
    decreases e, 0, |e.body| - i
  {
    if i < |e.body| {
      LowerSound(env, st, e.body[i]);
      var (x, st1) := LowerF(env, st, e.body[i]);
      if x.Ok? {
        var acc' := acc + [x.value];
        forall j | 0 <= j < |acc'| ensures Runnable(acc'[j], st1.nextId) {
          if j < |acc| {
            RunnableMonotone(acc[j], st.nextId, st1.nextId);
          }
        }
        BodySound(env, st1, e, i + 1, acc');
      }
    }
  }

  lemma {:induction false} ClausesSound(env: Env, st: VarState, e: Expression, i: nat, acc: seq<Clause>)
    requires Open(st) && Sound(st) && e.WhenBlock? && i <= |e.clauses|
    requires forall j :: 0 <= j < |acc| ==> Runnable(acc[j].cond, st.nextId) && Runnable(acc[j].value, st.nextId)
    ensures Sound(LowerClauses(env, st, e, i, acc).1)
    ensures LowerClauses(env, st, e, i, acc).0.Ok? ==>
      Runnable(LowerClauses(env, st, e, i, acc).0.value, LowerClauses(env, st, e, i, acc).1.nextId)
    decreases e, 0, |e.clauses| - i
  {
    if i < |e.clauses| {
      var cl := e.clauses[i];
      assert cl < e;
      LowerSound(env, st, cl.condition);
      var (c, st1) := LowerF(env, st, cl.condition);
      if c.Ok? {
        LowerSound(env, st1, cl.value);
        var (v, st2) := LowerF(env, st1, cl.value);
        if v.Ok? {
          var acc' := acc + [Clause(c.value, v.value)];
          forall j | 0 <= j < |acc'| ensures Runnable(acc'[j].cond, st2.nextId) && Runnable(acc'[j].value, st2.nextId) {
            if j < |acc| {
              RunnableMonotone(acc[j].cond, st.nextId, st2.nextId);
              RunnableMonotone(acc[j].value, st.nextId, st2.nextId);
            } else {
              RunnableMonotone(c.value, st1.nextId, st2.nextId);
            }
          }
          ClausesSound(env, st2, e, i + 1, acc');
        }
      }
    }
  }

  /**
   * `build` on a fresh mapping yields an expression whose slots all fit in
   * the `next_id` slots its evaluation context is given, with every block's
   * argument count admitted.
   */
  lemma BuildRunnable(env: Env, e: Expression)
    ensures var r := BuildF(env, Initial, e).0;
      r.Ok? ==> Runnable(r.value.expr, r.value.variables.nextId)
  {
    LowerSound(env, Initial, e);
  }

  /**
   * Name resolution order of `lower`: a visible local definition wins over a
   * constant, a constant over a global; a name that is none of these is an
   * `UnknownIdent` error. A local definition is reached through its visible
   * slot, or a new slot when none is visible.
   */
  lemma IdentResolution(env: Env, st: VarState, name: string)
    requires Open(st)
    ensures var r := LowerF(env, st, Ident(name)).0;
      && (Lookup(st.defs, name).Some? ==>
            r.Ok? && r.value.LookupOrCompute? && r.value.def == Lookup(st.defs, name).value &&
            r.value.slot == (if Lookup(st.ids, name).Some? then Lookup(st.ids, name).value else st.nextId))
      && (Lookup(st.defs, name).None? && name in env.constants ==> r == Ok(LookupConstant(env.constants[name])))
      && (Lookup(st.defs, name).None? && name !in env.constants && name in env.globals ==> r == Ok(LookupGlobal(name)))
      && (r.Err? <==> Lookup(st.defs, name).None? && name !in env.constants && name !in env.globals)
      && (r.Err? ==> r.error == UnknownIdent(name))
  {
  }

  /**
   * A definition is lowered before it is registered, so it cannot refer to
   * itself: the name is unknown inside its own expression unless something
   * further out defines it.
   */
  lemma SelfReferenceIsUnknown(env: Env, st: VarState, x: string, name: string, body: seq<Expression>)
    requires Open(st) && Lookup(st.defs, x).None? && x !in env.constants && x !in env.globals
    ensures LowerF(env, st, NamedBlock([Def(x, Ident(x))], name, body)).0 == Err(UnknownIdent(x))
  {
    var e := NamedBlock([Def(x, Ident(x))], name, body);
    LookupPush(st.defs, x);
    var pushed := PushVars(st);
    assert LowerF(env, pushed, Ident(x)) == (Err(UnknownIdent(x)), pushed);
    assert LowerDefs(env, pushed, e, 0) == (Some(UnknownIdent(x)), pushed);
    assert LowerF(env, st, e) == LowerBlock(env, st, e);
  }

  /**
   * The block name is checked after the definitions are lowered, and a
   * failing block leaves its scope pushed.
   */
  lemma UnknownBlockKeepsScope(env: Env, st: VarState, name: string, body: seq<Expression>)
    requires Open(st) && name !in Keywords
    ensures LowerF(env, st, NamedBlock([], name, body)) == (Err(UnknownBlockTy(name)), PushVars(st))
  {
    var e := NamedBlock([], name, body);
    assert LowerDefs(env, PushVars(st), e, 0) == (Option.None, PushVars(st));
    assert LowerF(env, st, e) == LowerBlock(env, st, e);
  }

  /** The argument count is checked before any body expression is lowered. */
  lemma ArityBeforeBody(env: Env, st: VarState, name: string, body: seq<Expression>)
    requires Open(st) && name in Keywords
    requires !Admits(ArityOf(BlockTyOf(name).value), |body|)
    ensures LowerF(env, st, NamedBlock([], name, body)) == (Err(Panic("invalid number of arguments given")), PushVars(st))
  {
    var e := NamedBlock([], name, body);
    assert LowerDefs(env, PushVars(st), e, 0) == (Option.None, PushVars(st));
    assert LowerF(env, st, e) == LowerBlock(env, st, e);
  }

  /** After a successful `build` the next one starts from a fresh mapping. */
  lemma BuildsAreIndependent(env: Env, st: VarState, e1: Expression, e2: Expression)
    requires Open(st) && BuildF(env, st, e1).0.Ok?
    ensures BuildF(env, BuildF(env, st, e1).1, e2) == BuildF(env, Initial, e2)
  {
  }

  /** `sum { define { x = 1 } x; sum { define { x = 2 } x } }` */
  const ShadowExample: Expression :=
    NamedBlock([Def("x", Literal(Number(1.0)))], "sum",
      [Ident("x"), NamedBlock([Def("x", Literal(Number(2.0)))], "sum", [Ident("x")])])

  /** The mapping once the outer `x` is defined, before and after it is referenced. */
  const OuterDefined: VarState := Mapping([map[], map[]], [map[], map["x" := Lit(Number(1.0))]], 0)
  const OuterReferenced: VarState := Mapping([map[], map["x" := 0]], [map[], map["x" := Lit(Number(1.0))]], 1)

  lemma ShadowOuterDefs(env: Env)
    ensures LowerDefs(env, PushVars(Initial), ShadowExample, 0) == (Option.None, OuterDefined)
  {
    var st1 := PushVars(Initial);
    assert WithDefinition(st1, "x", Lit(Number(1.0))) == OuterDefined;
    assert LowerDefs(env, OuterDefined, ShadowExample, 1) == (Option.None, OuterDefined);
  }

  lemma ShadowOuterReference(env: Env)
    ensures LowerF(env, OuterDefined, Ident("x")) == (Ok(LookupOrCompute(0, Lit(Number(1.0)))), OuterReferenced)
  {
    assert Lookup(OuterDefined.defs, "x") == Some(Lit(Number(1.0)));
    assert Lookup(OuterDefined.ids, "x") == Option.None by {
      assert OuterDefined.ids[..1] == [map[]];
    }
    assert SetTop(OuterDefined.ids, "x", 0) == OuterReferenced.ids;
  }

  lemma ShadowInnerBlock(env: Env)
    ensures LowerF(env, OuterReferenced, ShadowExample.body[1]) ==
      (Ok(Block(Sum, [LookupOrCompute(0, Lit(Number(2.0)))])), OuterReferenced)
  {
    var inner := ShadowExample.body[1];
    var two := LookupOrCompute(0, Lit(Number(2.0)));
    var pushed := PushVars(OuterReferenced);
    var st := WithDefinition(pushed, "x", Lit(Number(2.0)));
    assert LowerDefs(env, st, inner, 1) == (Option.None, st);
    assert LowerDefs(env, pushed, inner, 0) == (Option.None, st);
    assert Lookup(st.defs, "x") == Some(Lit(Number(2.0)));
    assert st.ids == OuterReferenced.ids + [map[]];
    LookupPush(OuterReferenced.ids, "x");
    assert Lookup(OuterReferenced.ids, "x") == Some(0);
    assert LowerF(env, st, Ident("x")) == (Ok(two), st);
    assert LowerBody(env, st, inner, 1, [two]) == (Ok([two]), st);
    assert [] + [two] == [two];
    assert LowerBody(env, st, inner, 0, []) == (Ok([two]), st);
    assert PopVars(st) == OuterReferenced;
    assert LowerF(env, OuterReferenced, inner) == LowerBlock(env, OuterReferenced, inner);
  }

  /**
   * Slots are looked up through the whole id stack, so an inner definition
   * that shadows an outer one reuses the outer definition's slot once the
   * outer one has been referenced.
   */
  lemma ShadowingReusesSlot(env: Env)
    ensures LowerF(env, Initial, ShadowExample).0 ==
      Ok(Block(Sum, [LookupOrCompute(0, Lit(Number(1.0))), Block(Sum, [LookupOrCompute(0, Lit(Number(2.0)))])]))
  {
    var e := ShadowExample;
    var one := LookupOrCompute(0, Lit(Number(1.0)));
    var inner := Block(Sum, [LookupOrCompute(0, Lit(Number(2.0)))]);
    ShadowOuterDefs(env);
    ShadowOuterReference(env);
    ShadowInnerBlock(env);
    assert LowerBody(env, OuterReferenced, e, 2, [one, inner]) == (Ok([one, inner]), OuterReferenced);
    assert [one] + [inner] == [one, inner];
    assert LowerBody(env, OuterReferenced, e, 1, [one]) == (Ok([one, inner]), OuterReferenced);
    assert [] + [one] == [one];
    assert LowerBody(env, OuterDefined, e, 0, []) == (Ok([one, inner]), OuterReferenced);
    assert LowerF(env, Initial, e) == LowerBlock(env, Initial, e);
  }
}
