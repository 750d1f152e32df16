/**
 * The values of the time-travelling Lisp (projects/git-timewarp/lisp.py):
 * what the reader produces and the evaluator computes with.
 */
module LispValues {
  import opened Options

  /**
   * A Lisp value. `Sym(n)` stands for the interned symbol named `n`, so two
   * symbols are the same object exactly when their names are equal. The one
   * symbol the program builds without interning, the end-of-input marker, is
   * `Eof` below; it coincides here with the interned symbol `#<eof>`, which
   * the reader never yields, since a `#<eof>` token is the "unexpected EOF"
   * error. A float keeps its literal text.
   */
  datatype Val =
    | Nil
    | Bool(b: bool)
    | Int(i: int)
    | Float(text: string)
    | Str(s: string)
    | Sym(name: string)
    | List(items: seq<Val>)
    | Closure(params: Val, body: Val, scope: Scope)

  /** A dictionary of bindings keyed by strings, with the scope it was created in. */
  datatype Scope = Scope(vars: map<string, Val>, parent: Option<Scope>)

  /**
   * The marker the reader returns at the end of its input. In the program it
   * is a symbol that was never interned; by name it equals `Sym("#<eof>")`.
   */
  const Eof: Val := Sym("#<eof>")
}
