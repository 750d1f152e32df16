/**
 * The parsed profile language: values, tag patterns and the expression tree
 * handed to the engines (src/profile.rs:10-68). The textual grammar that
 * produces these trees is outside the model; every engine takes the tree as
 * its input.
 */
module ProfileAst {

  /** A value of the scoring language. Numbers are f32 in the source and real here. */
  datatype Value = Invalid | Bool(b: bool) | Number(n: real) | Str(s: string)

  /** Truthiness: only `Bool(false)` and `Invalid` are falsy. */
  predicate IsTruthy(v: Value)
  {
    !(v.Bool? && !v.b) && !v.Invalid?
  }

  /** A tag pattern, generic over the key representation (text, or compact id). */
  datatype TagPattern<K> =
    | Exists(key: K)
    | NotExists(key: K)
    | OneOf(key: K, values: seq<K>)
    | NoneOf(key: K, values: seq<K>)

  /** One `name = expression` definition of a define block. */
  datatype Def = Def(ident: string, expr: Expression)

  /** One `condition => value` clause of a when block. */
  datatype WhenClause = WhenClause(condition: Expression, value: Expression)

  /** The parsed expression tree. */
  datatype Expression =
    | Literal(value: Value)
    | Ident(name: string)
    | Tags(patterns: seq<TagPattern<string>>)
    | NamedBlock(defs: seq<Def>, name: string, body: seq<Expression>)
    | WhenBlock(clauses: seq<WhenClause>)

  /** The names defined by a definition list, in declaration order. */
  function DefNames(defs: seq<Def>): (names: seq<string>)
    ensures |names| == |defs|
    ensures forall i :: 0 <= i < |defs| ==> names[i] == defs[i].ident
  {
    seq(|defs|, i requires 0 <= i < |defs| => defs[i].ident)
  }

  lemma FalsyValues(v: Value)
    ensures !IsTruthy(v) <==> v == Bool(false) || v == Invalid
    ensures IsTruthy(Number(0.0)) && IsTruthy(Str(""))
  {
  }
}
