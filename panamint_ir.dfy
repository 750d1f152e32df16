/**
 * The compiled form of a profile expression in the canonical engine
 * (projects/panamint/src/profile/runtime.rs:36-82, 283-299): block kinds and
 * their arity, the indexed intermediate expression, and the error kinds.
 */
module PanamintIr {
  import opened Options
  import opened ProfileAst

  /** The block kinds of the canonical engine. */
  datatype BlockTy = All | Any | Div | Mul | None | Return | Sub | Sum

  datatype Arity = Unary | Variadic

  /** `BlockTy::arity`: `return!` takes one argument, every other kind any positive number. */
  function ArityOf(ty: BlockTy): (a: Arity)
    ensures a == Unary <==> ty == Return
  {
    match ty
    case All => Variadic
    case Any => Variadic
    case Div => Variadic
    case Mul => Variadic
    case None => Variadic
    case Return => Unary
    case Sub => Variadic
    case Sum => Variadic
  }

  /** The argument counts an arity admits (`1..=1` and `1..=usize::MAX`). */
  predicate Admits(a: Arity, n: nat)
  {
    match a
    case Unary => n == 1
    case Variadic => n >= 1
  }

  /** The keyword that names each block kind. */
  function Keyword(ty: BlockTy): string
  {
    match ty
    case All => "all?"
    case Any => "any?"
    case Div => "div"
    case Mul => "mul"
    case None => "none?"
    case Return => "return!"
    case Sub => "sub"
    case Sum => "sum"
  }

  /** The eight keywords accepted as block names. */
  const Keywords: set<string> := {"all?", "any?", "div", "mul", "none?", "return!", "sub", "sum"}

  /** The block-name match of `Builder::lower`: a keyword gives its kind, anything else nothing. */
  function BlockTyOf(name: string): (r: Option<BlockTy>)
    ensures r.Some? <==> name in Keywords
    ensures r.Some? ==> Keyword(r.value) == name
  {
    match name
    case "all?" => Some(All)
    case "any?" => Some(Any)
    case "div" => Some(Div)
    case "mul" => Some(Mul)
    case "none?" => Some(BlockTy.None)
    case "return!" => Some(Return)
    case "sub" => Some(Sub)
    case "sum" => Some(Sum)
    case _ => Option.None
  }

  /** Keyword and block-name match are inverse to each other. */
  lemma KeywordRoundTrip(ty: BlockTy)
    ensures BlockTyOf(Keyword(ty)) == Some(ty)
    ensures Keyword(ty) in Keywords
  {
  }

  /** A compact tag id: a dictionary id, or the reserved id for text the dictionary lacks. */
  datatype TagId = Known(id: nat) | Unknown

  /** The tag dictionary, text to compact id. */
  type TagDict = map<string, nat>

  /** The intermediate expression. */
  datatype Expr =
    | Lit(value: Value)
    | LookupConstant(index: nat)
    | LookupOrCompute(slot: nat, def: Expr)
    | LookupGlobal(name: string)
    | Block(ty: BlockTy, body: seq<Expr>)
    | When(clauses: seq<Clause>)
    | Patterns(patterns: seq<TagPattern<TagId>>)

  /** `WhenBlockClause(condition, value)`. */
  datatype Clause = Clause(cond: Expr, value: Expr)

  datatype RuntimeError =
    | Internal(msg: string)
    | TypeError(have: Value, expected: string)
    | WhenFallthrough
    /** Not a failure: the payload of `return!`, carried on the error channel. */
    | EarlyReturn(value: Value)

  /**
   * Compile errors. `Panic` stands for the places where the source aborts the
   * process instead (a wrong argument count, too many constants, a panic while
   * evaluating a constant).
   */
  datatype CompileError =
    | UnknownBlockTy(name: string)
    | UnknownIdent(name: string)
    | ConstEval(error: RuntimeError)
    | Panic(reason: string)

  /** The outcome of evaluating one expression: a value, a `RuntimeError`, or a process abort. */
  datatype Outcome = Done(value: Value) | Raised(error: RuntimeError) | Panicked(reason: string)

  /**
   * What compiling guarantees about an expression run with `n` memo slots:
   * every slot it names is below `n`, and every block has an argument count
   * its kind admits.
   */
  predicate Runnable(e: Expr, n: nat)
  {
    match e
    case Lit(_) => true
    case LookupConstant(_) => true
    case LookupOrCompute(slot, def) => slot < n && Runnable(def, n)
    case LookupGlobal(_) => true
    case Block(ty, body) =>
      Admits(ArityOf(ty), |body|) && forall i :: 0 <= i < |body| ==> Runnable(body[i], n)
    case When(clauses) =>
      forall i :: 0 <= i < |clauses| ==> Runnable(clauses[i].cond, n) && Runnable(clauses[i].value, n)
    case Patterns(_) => true
  }

  /** More slots never hurt. */
  lemma {:induction false} RunnableMonotone(e: Expr, n: nat, m: nat)
    requires Runnable(e, n) && n <= m
    ensures Runnable(e, m)
  {
    match e
    case Lit(_) =>
    case LookupConstant(_) =>
    case LookupOrCompute(slot, def) => RunnableMonotone(def, n, m);
    case LookupGlobal(_) =>
    case Block(_, body) =>
      forall i | 0 <= i < |body| ensures Runnable(body[i], m) {
        RunnableMonotone(body[i], n, m);
      }
    case When(clauses) =>
      forall i | 0 <= i < |clauses| ensures Runnable(clauses[i].cond, m) && Runnable(clauses[i].value, m) {
        assert clauses[i] in clauses;
        RunnableMonotone(clauses[i].cond, n, m);
        RunnableMonotone(clauses[i].value, n, m);
      }
    case Patterns(_) =>
  }
}
