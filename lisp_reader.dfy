/**
 * The reader of the time-travelling Lisp (projects/git-timewarp/lisp.py):
 * symbol interning, the line-by-line tokenizer, atom classification and
 * the recursive-descent parser over a shared token stream.
 *
 * The input the tokenizer reads line by line is a string; a line is what
 * `readline` returns, up to and including a newline. String literals are
 * decoded with the host language's `string_escape` codec.
 */
module LispReader {
  import opened Options
  import opened LispValues

  // ---------------------------------------------------------------------
  // Symbol interning
  // ---------------------------------------------------------------------

  class Symbol {
    const name: string

    constructor (name: string)
      ensures this.name == name
    {
      this.name := name;
    }
  }

  /** The class-level table of interned symbols. */
  class SymbolTable {
    var interned: map<string, Symbol>

    predicate Valid()
      reads this
    {
      forall n :: n in interned ==> interned[n].name == n
    }

    constructor Empty()
      ensures interned == map[] && Valid()
    {
      interned := map[];
    }

    /** The symbol already interned under `name`, or a new one, which is recorded either way. */
    method Intern(name: string) returns (sym: Symbol)
      requires Valid()
      modifies this
      ensures Valid()
      ensures sym.name == name
      ensures name in old(interned) ==> sym == old(interned)[name]
      ensures name !in old(interned) ==> fresh(sym)
      ensures interned == old(interned)[name := sym]
    {
      if name in interned {
        sym := interned[name];
      } else {
        sym := new Symbol(name);
      }
      interned := interned[name := sym];
    }
  }

  // ---------------------------------------------------------------------
  // Character classes and scanning
  // ---------------------------------------------------------------------

  /** The characters the pattern `\s` matches on byte strings. */
  predicate IsSpace(c: char)
  {
    c == ' ' || '\t' <= c <= '\r'
  }

  /** The characters a bare atom is made of. */
  predicate IsAtomChar(c: char)
  {
    !IsSpace(c) && c != '(' && c != '\'' && c != '"' && c != '`' && c != ';' && c != ')'
  }

  predicate IsDigit(c: char)
  {
    '0' <= c <= '9'
  }

  /** The character classes the scanner runs over. */
  datatype CharClass = Space | NotNewline | NotQuote | AtomChar | Digit | NotExponent

  predicate In(c: char, cls: CharClass)
  {
    match cls
    case Space => IsSpace(c)
    case NotNewline => c != '\n'
    case NotQuote => c != '"'
    case AtomChar => IsAtomChar(c)
    case Digit => IsDigit(c)
    case NotExponent => c != 'e' && c != 'E'
  }

  /** The end of the longest run of characters of class `cls` starting at `i`. */
  function Skip(s: string, i: nat, cls: CharClass): (j: nat)
    requires i <= |s|
    ensures i <= j <= |s|
    decreases |s| - i
  {
    if i == |s| || !In(s[i], cls) then i else Skip(s, i + 1, cls)
  }

  /** The run found is all of class `cls`, and stops at the end or at a character outside it. */
  lemma {:induction false} SkipRun(s: string, i: nat, cls: CharClass)
    requires i <= |s|
    ensures forall k :: i <= k < Skip(s, i, cls) ==> In(s[k], cls)
    ensures Skip(s, i, cls) < |s| ==> !In(s[Skip(s, i, cls)], cls)
    decreases |s| - i
  {
    if i < |s| && In(s[i], cls) {
      SkipRun(s, i + 1, cls);
    }
  }

  predicate IsBlank(s: string)
  {
    Skip(s, 0, Space) == |s|
  }

  /** What `readline` returns and what it leaves: everything up to and including the first newline. */
  function ReadLine(s: string): (r: (string, string))
    ensures r.0 + r.1 == s
    ensures s != [] ==> r.0 != []
  {
    var j := Skip(s, 0, NotNewline);
    if j < |s| then (s[..j + 1], s[j + 1..]) else (s, [])
  }

  /** The text the group `(.*)` captures from `i`: the rest of the line, without its newline. */
  function RestOfLine(s: string, i: nat): (r: string)
    requires i <= |s|
    ensures |r| <= |s| - i
  {
    s[i..Skip(s, i, NotNewline)]
  }

  /**
   * One match of the tokenizer's pattern at the start of `line`: leading
   * whitespace, then a bracket or quote character, a double-quoted string,
   * a `;` comment or a bare atom, then the rest of the line as the new line.
   * No match when nothing but whitespace is left, at a backquote, or at a
   * string that is not closed on this line.
   */
  function ScanLine(line: string): (r: Option<(string, string)>)
    ensures r.Some? ==> r.value.0 != [] && |r.value.1| < |line|
  {
    SkipRun(line, 0, Space);
    var i := Skip(line, 0, Space);
    if i == |line| then Option.None
    else
      var c := line[i];
      if c == '(' || c == '\'' || c == ')' then Some(([c], RestOfLine(line, i + 1)))
      else if c == '"' then
        var j := Skip(line, i + 1, NotQuote);
        if j == |line| then Option.None else Some((line[i..j + 1], RestOfLine(line, j + 1)))
      else if c == ';' then
        var j := Skip(line, i, NotNewline);
        Some((line[i..j], RestOfLine(line, j)))
      else if c == '`' then Option.None
      else
        var j := Skip(line, i, AtomChar);
        Some((line[i..j], RestOfLine(line, j)))
  }

  /** The pattern fails exactly on a blank line, at a backquote, and at a string left open. */
  lemma ScanLineFails(line: string)
    ensures ScanLine(line).None? <==> (var i := Skip(line, 0, Space);
      i == |line| || line[i] == '`' ||
      (line[i] == '"' && Skip(line, i + 1, NotQuote) == |line|))
  {
  }

  /** Every token a match produces has one of the four shapes of the pattern. */
  lemma ScannedTokenShape(line: string)
    requires ScanLine(line).Some?
    ensures var t := ScanLine(line).value.0;
      t == "(" || t == "'" || t == ")" ||
      (|t| >= 2 && t[0] == '"' && t[|t| - 1] == '"' && '"' !in t[1..|t| - 1]) ||
      (t[0] == ';' && '\n' !in t) ||
      (forall k :: 0 <= k < |t| ==> IsAtomChar(t[k]))
  {
    var i := Skip(line, 0, Space);
    var c := line[i];
    if c == '"' {
      var j := Skip(line, i + 1, NotQuote);
      SkipRun(line, i + 1, NotQuote);
      QuotedShape(line, i, j);
    } else if c == ';' {
      var j := Skip(line, i, NotNewline);
      SkipRun(line, i, NotNewline);
      RunShape(line, i, j, NotNewline);
    } else if c != '(' && c != '\'' && c != ')' && c != '`' {
      var j := Skip(line, i, AtomChar);
      SkipRun(line, i, AtomChar);
      RunShape(line, i, j, AtomChar);
    }
  }

  /** A double quote, a run without one, then a closing double quote. */
  lemma QuotedShape(line: string, i: nat, j: nat)
    requires i < j < |line| && line[i] == '"' && line[j] == '"'
    requires forall k :: i + 1 <= k < j ==> line[k] != '"'
    ensures var t := line[i..j + 1]; |t| >= 2 && t[0] == '"' && t[|t| - 1] == '"' && '"' !in t[1..|t| - 1]
  {
    var t := line[i..j + 1];
    var mid := t[1..|t| - 1];
    assert forall k :: 0 <= k < |mid| ==> mid[k] == line[i + 1 + k];
  }

  /** A run of a class, taken out of the line, holds only that class. */
  lemma RunShape(line: string, i: nat, j: nat, cls: CharClass)
    requires i <= j <= |line|
    requires forall k :: i <= k < j ==> In(line[k], cls)
    ensures forall k :: 0 <= k < j - i ==> In(line[i..j][k], cls)
  {
  }

  // ---------------------------------------------------------------------
  // Tokens
  // ---------------------------------------------------------------------

  /** A token: the matched text, or the end-of-input marker. */
  datatype Token = Tok(text: string) | End

  /** What the tokenizer yields: non-empty texts that are not comments, ended by one or two end markers. */
  predicate WellFormedTokens(ts: seq<Token>)
  {
    && |ts| >= 1 && ts[|ts| - 1] == End
    && (forall k :: 0 <= k < |ts| - 2 ==> ts[k].Tok?)
    && (forall k :: 0 <= k < |ts| && ts[k].Tok? ==> ts[k].text != [] && ts[k].text[0] != ';')
  }

  /**
   * The tokens yielded from the current line `line` and the unread input
   * `rest`. At the end of the input the end marker is yielded twice: once
   * for the empty line, and once more when the pattern fails on it. A line
   * on which the pattern fails ends the stream, even when more input follows.
   */
  function Tokens(line: string, rest: string): seq<Token>
    decreases |rest|, |line|
  {
    if line == [] then
      if rest == [] then [End, End]
      else
        var (l, r) := ReadLine(rest);
        Tokens(l, r)
    else
      match ScanLine(line)
      case None => [End]
      case Some((t, rem)) =>
        (if t[0] == ';' then [] else [Tok(t)]) + Tokens(rem, rest)
  }

  lemma {:induction false} TokensWellFormed(line: string, rest: string)
    ensures WellFormedTokens(Tokens(line, rest))
    decreases |rest|, |line|
  {
    if line == [] {
      if rest != [] {
        var (l, r) := ReadLine(rest);
        TokensWellFormed(l, r);
      }
    } else if ScanLine(line).Some? {
      var (t, rem) := ScanLine(line).value;
      TokensWellFormed(rem, rest);
      PrependWellFormed(t, Tokens(rem, rest));
    }
  }

  /** Putting a scanned token (or a comment, which yields nothing) in front keeps the token stream well formed. */
  lemma PrependWellFormed(t: string, ts: seq<Token>)
    requires t != [] && WellFormedTokens(ts)
    ensures WellFormedTokens((if t[0] == ';' then [] else [Tok(t)]) + ts)
  {
    if t[0] == ';' {
      assert [] + ts == ts;
    } else {
      var r := [Tok(t)] + ts;
      assert forall k :: 1 <= k < |r| ==> r[k] == ts[k - 1];
    }
  }

  /** The tokens from a used-up line: the end markers, or those of the next line. */
  lemma TokensAtLineEnd(rest: string)
    ensures rest == [] ==> Tokens([], rest) == [End, End] && ScanLine([]).None?
    ensures rest != [] ==> Tokens([], rest) == Tokens(ReadLine(rest).0, ReadLine(rest).1) && ReadLine(rest).0 != []
  {
  }

  /** The tokens from a line with text left: the match's token unless it is a comment, then the rest. */
  lemma TokensOnLine(line: string, rest: string)
    requires line != []
    ensures ScanLine(line).None? ==> Tokens(line, rest) == [End]
    ensures ScanLine(line).Some? ==> (Tokens(line, rest) ==
      (if ScanLine(line).value.0[0] == ';' then [] else [Tok(ScanLine(line).value.0)]) + Tokens(ScanLine(line).value.1, rest))
  {
  }

  /**
   * One pass of the tokenizer's loop: read a line when the current one is
   * used up, then match once, yielding `out`; `done` when the loop breaks.
   */
  method TokenizeStep(line: string, rest: string) returns (out: seq<Token>, line': string, rest': string, done: bool)
    ensures Tokens(line, rest) == out + (if done then [] else Tokens(line', rest'))
    ensures !done ==> |rest'| < |rest| || (|rest'| == |rest| && |line'| < |line|)
  {
    out, line', rest' := [], line, rest;
    if line' == [] {
      TokensAtLineEnd(rest');
      var next := ReadLine(rest');
      line', rest' := next.0, next.1;
      if line' == [] {
        out := out + [End];
      }
    }
    if line' != [] {
      TokensOnLine(line', rest');
    }
    var m := ScanLine(line');
    if m.None? {
      out := out + [End];
      return out, line', rest', true;
    }
    var t, rem := m.value.0, m.value.1;
    if t[0] != ';' {
      out := out + [Tok(t)];
    }
    line', done := rem, false;
  }

  /** The tokenizer as written. */
  method Tokenize(input: string) returns (ts: seq<Token>)
    ensures ts == Tokens([], input)
  {
    ghost var expected := Tokens([], input);
    ts := [];
    var line: string, rest, done := [], input, false;
    while !done
      invariant expected == ts + (if done then [] else Tokens(line, rest))
      decreases !done, |rest|, |line|
    {
      var out, line', rest', done' := TokenizeStep(line, rest);
      ghost var later := if done' then [] else Tokens(line', rest');
      assert ts + (out + later) == (ts + out) + later;
      ts, line, rest, done := ts + out, line', rest', done';
    }
    assert ts + [] == ts;
  }



  /**
   * The tokenizer as intended: a line, or a rest of a line, holding only
   * whitespace is used up like an empty one.
   */
  function TokensSkippingBlanks(line: string, rest: string): seq<Token>
    decreases |rest|, |line|
  {
    if IsBlank(line) then
      if rest == [] then [End, End]
      else
        var (l, r) := ReadLine(rest);
        TokensSkippingBlanks(l, r)
    else
      match ScanLine(line)
      case None => [End]
      case Some((t, rem)) =>
        (if t[0] == ';' then [] else [Tok(t)]) + TokensSkippingBlanks(rem, rest)
  }

  lemma {:induction false} TokensSkippingBlanksWellFormed(line: string, rest: string)
    ensures WellFormedTokens(TokensSkippingBlanks(line, rest))
    decreases |rest|, |line|
  {
    if IsBlank(line) {
      if rest != [] {
        var (l, r) := ReadLine(rest);
        TokensSkippingBlanksWellFormed(l, r);
      }
    } else if ScanLine(line).Some? {
      var (t, rem) := ScanLine(line).value;
      TokensSkippingBlanksWellFormed(rem, rest);
      PrependWellFormed(t, TokensSkippingBlanks(rem, rest));
    }
  }

  /** A blank line ends the token stream of the tokenizer as written, whatever follows it. */
  lemma BlankLineEndsInput(blank: string, rest: string)
    requires blank != [] && IsBlank(blank) && blank[|blank| - 1] == '\n'
    requires forall k :: 0 <= k < |blank| - 1 ==> blank[k] != '\n'
    ensures Tokens([], blank + rest) == [End]
  {
    var s := blank + rest;
    assert Skip(s, 0, NotNewline) == |blank| - 1 by {
      assert !In(blank[|blank| - 1], NotNewline);
      SkipPrefix(blank, rest, 0, NotNewline);
      SkipStopsAt(blank, 0, |blank| - 1, NotNewline);
    }
    assert ReadLine(s) == (blank, rest);
  }

  /** The intended tokenizer reads past a blank line as if it were not there. */
  lemma BlankLineSkipped(blank: string, rest: string)
    requires blank != [] && IsBlank(blank) && blank[|blank| - 1] == '\n'
    requires forall k :: 0 <= k < |blank| - 1 ==> blank[k] != '\n'
    ensures TokensSkippingBlanks([], blank + rest) == TokensSkippingBlanks([], rest)
  {
    var s := blank + rest;
    assert Skip(s, 0, NotNewline) == |blank| - 1 by {
      assert !In(blank[|blank| - 1], NotNewline);
      SkipPrefix(blank, rest, 0, NotNewline);
      SkipStopsAt(blank, 0, |blank| - 1, NotNewline);
    }
    assert ReadLine(s) == (blank, rest);
    assert IsBlank([]);
  }

  /** A run of class `cls` from `i` to `j` that stops at `j` is the run `Skip` finds. */
  lemma {:induction false} SkipStopsAt(s: string, i: nat, j: nat, cls: CharClass)
    requires i <= j < |s| && !In(s[j], cls)
    requires forall k :: i <= k < j ==> In(s[k], cls)
    ensures Skip(s, i, cls) == j
    decreases j - i
  {
    if i < j {
      SkipStopsAt(s, i + 1, j, cls);
    }
  }

  /** Scanning inside a prefix that ends with a character outside the class does not see what follows. */
  lemma {:induction false} SkipPrefix(a: string, b: string, i: nat, cls: CharClass)
    requires i <= |a|
    requires exists k :: i <= k < |a| && !In(a[k], cls)
    ensures Skip(a + b, i, cls) == Skip(a, i, cls)
    decreases |a| - i
  {
    if In(a[i], cls) {
      SkipPrefix(a, b, i + 1, cls);
    }
  }

  /** Trailing whitespace on a line: the as-written tokenizer stops there, the intended one reads on. */
  lemma TrailingSpaceExample()
    ensures Tokens([], "a \nb\n") == [Tok("a"), End]
    ensures TokensSkippingBlanks([], "a \nb\n") == [Tok("a"), Tok("b"), End, End]
  {
    var s, l1, l2 := "a \nb\n", "a \n", "b\n";
    assert Skip(s, 0, NotNewline) == 2 by {
      assert In(s[0], NotNewline) && In(s[1], NotNewline) && !In(s[2], NotNewline);
    }
    assert s[..3] == l1 && s[3..] == l2;
    assert ReadLine(s) == (l1, l2);
    assert Skip(l1, 0, Space) == 0 && Skip(l1, 0, AtomChar) == 1 by {
      assert !IsSpace(l1[0]) && IsAtomChar(l1[0]) && !IsAtomChar(l1[1]);
    }
    assert Skip(l1, 1, NotNewline) == 2 by {
      assert In(l1[1], NotNewline) && !In(l1[2], NotNewline);
    }
    assert l1[0..1] == "a" && l1[1..2] == " ";
    assert ScanLine(l1) == Some(("a", " "));
    assert Skip(" ", 0, Space) == 1;
    assert ScanLine(" ").None?;
    assert Skip(l2, 0, NotNewline) == 1 by {
      assert In(l2[0], NotNewline) && !In(l2[1], NotNewline);
    }
    assert l2[..2] == l2 && l2[2..] == [];
    assert ReadLine(l2) == (l2, []);
    assert Skip(l2, 0, Space) == 0 && Skip(l2, 0, AtomChar) == 1 by {
      assert !IsSpace(l2[0]) && IsAtomChar(l2[0]) && !IsAtomChar(l2[1]);
    }
    assert Skip(l2, 1, NotNewline) == 1;
    assert l2[0..1] == "b" && l2[1..1] == [];
    assert ScanLine(l2) == Some(("b", []));
    assert IsBlank(" ") && IsBlank([]);
    assert !IsBlank(l1) && !IsBlank(l2);
  }

  // ---------------------------------------------------------------------
  // Atoms
  // ---------------------------------------------------------------------

  predicate AllDigits(s: string)
  {
    s == [] || (AllDigits(s[..|s| - 1]) && IsDigit(s[|s| - 1]))
  }

  /** `s` without a leading sign character. */
  function Unsigned(s: string): (r: string)
    ensures |r| <= |s|
  {
    if |s| > 0 && (s[0] == '+' || s[0] == '-') then s[1..] else s
  }

  /** Text that the integer conversion accepts: an optional sign and decimal digits. */
  predicate IsIntText(t: string)
  {
    Unsigned(t) != [] && AllDigits(Unsigned(t))
  }

  /** `int()` accepts exactly an optional sign followed by at least one decimal digit. */
  lemma IntTextDigits(t: string)
    ensures IsIntText(t) <==> |Unsigned(t)| > 0 && forall k :: 0 <= k < |Unsigned(t)| ==> IsDigit(Unsigned(t)[k])
  {
    AllDigitsEvery(Unsigned(t));
  }

  lemma {:induction false} AllDigitsEvery(s: string)
    ensures AllDigits(s) <==> forall k :: 0 <= k < |s| ==> IsDigit(s[k])
  {
    if s != [] {
      AllDigitsEvery(s[..|s| - 1]);
    }
  }

  /** A run of class `cls` to the end of the text is skipped whole. */
  lemma {:induction false} SkipWhole(s: string, i: nat, cls: CharClass)
    requires i <= |s| && forall k :: i <= k < |s| ==> In(s[k], cls)
    ensures Skip(s, i, cls) == |s|
    decreases |s| - i
  {
    if i < |s| {
      SkipWhole(s, i + 1, cls);
    }
  }

  function DigitsValue(s: string): nat
    requires AllDigits(s)
  {
    if s == [] then 0 else 10 * DigitsValue(s[..|s| - 1]) + (s[|s| - 1] as int - '0' as int)
  }

  function IntValue(t: string): int
    requires IsIntText(t)
  {
    var d: int := DigitsValue(Unsigned(t));
    if t[0] == '-' then -d else d
  }

  function Lower(c: char): char
  {
    if 'A' <= c <= 'Z' then (c as int + 32) as char else c
  }

  predicate SameIgnoringCase(s: string, t: string)
  {
    if s == [] || t == [] then s == t
    else Lower(s[0]) == Lower(t[0]) && SameIgnoringCase(s[1..], t[1..])
  }

  /** Digits with at most one decimal point, and at least one digit. */
  predicate IsMantissa(m: string)
  {
    var p := Skip(m, 0, Digit);
    if p == |m| then p > 0
    else m[p] == '.' && AllDigits(m[p + 1..]) && |m| > 1
  }

  /** Text that the float conversion accepts: a signed decimal with an optional exponent, or an infinity or not-a-number. */
  predicate IsFloatText(t: string)
  {
    var u := Unsigned(t);
    var k := Skip(u, 0, NotExponent);
    SameIgnoringCase(u, "inf") || SameIgnoringCase(u, "infinity") || SameIgnoringCase(u, "nan") ||
    (IsMantissa(u[..k]) && (k == |u| || IsIntText(u[k + 1..])))
  }

  /** Whatever `int()` accepts, `float()` accepts too. */
  lemma IntTextIsFloatText(t: string)
    requires IsIntText(t)
    ensures IsFloatText(t)
  {
    var u := Unsigned(t);
    AllDigitsEvery(u);
    SkipWhole(u, 0, NotExponent);
    SkipWhole(u, 0, Digit);
    assert u[..|u|] == u;
  }

  /** The character a one-letter escape stands for, when `c` names one. */
  function SimpleEscape(c: char): Option<char>
  {
    if c == '\\' || c == '\'' || c == '"' then Some(c)
    else if c == 'b' then Some(8 as char)
    else if c == 'f' then Some(12 as char)
    else if c == 't' then Some('\t')
    else if c == 'n' then Some('\n')
    else if c == 'r' then Some('\r')
    else if c == 'v' then Some(11 as char)
    else if c == 'a' then Some(7 as char)
    else Option.None
  }

  predicate IsOctDigit(c: char)
  {
    '0' <= c <= '7'
  }

  predicate IsHexDigit(c: char)
  {
    IsDigit(c) || 'a' <= c <= 'f' || 'A' <= c <= 'F'
  }

  function HexValue(c: char): (r: nat)
    requires IsHexDigit(c)
    ensures r < 16
  {
    if IsDigit(c) then c as int - '0' as int
    else if 'a' <= c <= 'f' then c as int - 'a' as int + 10
    else c as int - 'A' as int + 10
  }

  /** The length of the run of octal digits at `i`, at most three. */
  function OctalRun(s: string, i: nat): (n: nat)
    requires i <= |s|
    ensures n <= 3 && i + n <= |s|
    ensures forall k :: i <= k < i + n ==> IsOctDigit(s[k])
  {
    if i < |s| && IsOctDigit(s[i]) then
      if i + 1 < |s| && IsOctDigit(s[i + 1]) then
        if i + 2 < |s| && IsOctDigit(s[i + 2]) then 3 else 2
      else 1
    else 0
  }

  function OctalValue(d: string): nat
  {
    if d == [] then 0
    else
      var c := d[|d| - 1];
      8 * OctalValue(d[..|d| - 1]) + (if IsOctDigit(c) then c as int - '0' as int else 0)
  }

  /** `p` before a decoded text; an error stays as it is. */
  function Prepend(p: string, r: Result<string, ReadError>): Result<string, ReadError>
  {
    if r.Ok? then Ok(p + r.value) else r
  }

  /**
   * The `string_escape` decoding of the host language: a backslash starts an
   * escape. A backslash before a newline is dropped with it; the one-letter
   * escapes give their character; one to three octal digits give a byte,
   * truncated to eight bits; `\x` needs two hexadecimal digits. A backslash
   * before any other character is kept with it. A backslash at the end and
   * `\x` without two hexadecimal digits are value errors.
   *
   * One step of the decoder at the start of `s`: the text it decodes to and
   * the number of characters it takes, or the value error it raises.
   */
  function EscapeStep(s: string): (r: Result<(string, nat), ReadError>)
    requires s != []
    ensures r.Ok? ==> 1 <= r.value.1 <= |s|
    ensures r.Err? ==> r.error.ValueError?
  {
    if s[0] != '\\' then Ok(([s[0]], 1))
    else if |s| == 1 then Err(ValueError("Trailing \\ in string"))
    else
      var c := s[1];
      if c == '\n' then Ok(([], 2))
      else if SimpleEscape(c).Some? then Ok(([SimpleEscape(c).value], 2))
      else if IsOctDigit(c) then
        var n := OctalRun(s, 1);
        Ok(([(OctalValue(s[1..1 + n]) % 256) as char], 1 + n))
      else if c == 'x' then
        if |s| >= 4 && IsHexDigit(s[2]) && IsHexDigit(s[3]) then
          Ok(([(16 * HexValue(s[2]) + HexValue(s[3])) as char], 4))
        else Err(ValueError("invalid \\x escape"))
      else Ok((['\\', c], 2))
  }

  /**
   * The `string_escape` codec: the escapes decoded one after the other, the
   * first value error ending the decoding.
   */
  function StringEscape(s: string): (r: Result<string, ReadError>)
    ensures r.Err? ==> r.error.ValueError?
    decreases |s|
  {
    if s == [] then Ok([])
    else
      match EscapeStep(s)
      case Err(e) => Err(e)
      case Ok((d, n)) => Prepend(d, StringEscape(s[n..]))
  }

  /** The escaped form of one character: backslash doubled, the double quote and newline as escapes. */
  function EscapeChar(c: char): string
  {
    if c == '\\' then "\\\\"
    else if c == '"' then "\\x22"
    else if c == '\n' then "\\n"
    else [c]
  }

  /** The text a string is printed as between its quotes. */
  function Escape(s: string): string
  {
    if s == [] then [] else EscapeChar(s[0]) + Escape(s[1..])
  }

  /** One character's escaped form, followed by anything, decodes to the character followed by what that decodes to. */
  lemma EscapeCharDecodes(c: char, rest: string)
    ensures StringEscape(EscapeChar(c) + rest) == Prepend([c], StringEscape(rest))
  {
    if c == '\\' {
      BackslashDecodes(rest);
    } else if c == '"' {
      QuoteDecodes(rest);
    } else if c == '\n' {
      NewlineDecodes(rest);
    } else {
      var t := [c] + rest;
      assert t[0] == c && t[1..] == rest;
    }
  }

  lemma BackslashDecodes(rest: string)
    ensures StringEscape("\\\\" + rest) == Prepend(['\\'], StringEscape(rest))
  {
    var t := "\\\\" + rest;
    assert t[0] == '\\' && t[1] == '\\' && t[2..] == rest;
  }

  lemma QuoteDecodes(rest: string)
    ensures StringEscape("\\x22" + rest) == Prepend(['"'], StringEscape(rest))
  {
    var t := "\\x22" + rest;
    assert t[0] == '\\' && t[1] == 'x' && t[2] == '2' && t[3] == '2' && t[4..] == rest;
    assert HexValue('2') == 2;
  }

  lemma NewlineDecodes(rest: string)
    ensures StringEscape("\\n" + rest) == Prepend(['\n'], StringEscape(rest))
  {
    var t := "\\n" + rest;
    assert t[0] == '\\' && t[1] == 'n' && t[2..] == rest;
  }

  /** Decoding undoes printing: every string reads back from its escaped form. */
  lemma {:induction false} EscapeRoundTrip(s: string)
    ensures StringEscape(Escape(s)) == Ok(s)
  {
    if s != [] {
      EscapeRoundTrip(s[1..]);
      EscapeCharDecodes(s[0], Escape(s[1..]));
      assert [s[0]] + s[1..] == s;
    }
  }

  /** The escaped form has no double quote and no newline, so it fits in one string token. */
  lemma {:induction false} EscapeFitsToken(s: string)
    ensures '"' !in Escape(s) && '\n' !in Escape(s)
  {
    if s != [] {
      EscapeFitsToken(s[1..]);
    }
  }

  /** Text without a backslash decodes to itself. */
  lemma {:induction false} PlainTextDecodes(s: string)
    requires '\\' !in s
    ensures StringEscape(s) == Ok(s)
  {
    if s != [] {
      PlainTextDecodes(s[1..]);
      assert [s[0]] + s[1..] == s;
    }
  }

  /** `\n` decodes to a newline. */
  lemma NewlineEscapeExample()
    ensures StringEscape("a\\nb") == Ok("a\nb")
  {
    assert StringEscape("b") == Ok("b") by { assert "b"[1..] == [] && ['b'] + [] == "b"; }
    assert StringEscape("\\nb") == Ok("\nb") by {
      assert "\\nb"[2..] == "b" && SimpleEscape('n') == Some('\n') && ['\n'] + "b" == "\nb";
    }
    assert "a\\nb"[1..] == "\\nb" && "a" + "\nb" == "a\nb";
  }

  /** A backslash before a character that names no escape is kept. */
  lemma UnknownEscapeExample()
    ensures StringEscape("\\q") == Ok("\\q")
  {
    assert "\\q"[2..] == [] && ['\\', 'q'] + [] == "\\q";
  }

  /** `\x` and two hexadecimal digits give the byte they spell. */
  lemma HexEscapeExample()
    ensures StringEscape("\\x41") == Ok("A")
  {
    assert "\\x41"[4..] == [];
    assert IsHexDigit('4') && IsHexDigit('1') && HexValue('4') == 4 && HexValue('1') == 1;
    assert (16 * 4 + 1) as char == 'A' && "A" + [] == "A";
  }

  /** Octal escapes give a byte, truncated to eight bits. */
  lemma OctalEscapeExample()
    ensures StringEscape("\\101") == Ok("A")
    ensures StringEscape("\\501") == Ok("A")
  {
    OctalDigitsExample();
    assert "\\101"[1..4] == "101" && "\\101"[4..] == [];
    assert "\\501"[1..4] == "501" && "\\501"[4..] == [];
    assert 321 % 256 == 65 && 65 as char == 'A' && "A" + [] == "A";
  }

  lemma OctalDigitsExample()
    ensures OctalRun("\\101", 1) == 3 && OctalValue("101") == 65
    ensures OctalRun("\\501", 1) == 3 && OctalValue("501") == 321
  {
    assert "101"[..2] == "10" && "10"[..1] == "1" && "1"[..0] == [];
    assert "501"[..2] == "50" && "50"[..1] == "5" && "5"[..0] == [];
  }

  /** A backslash at the end and `\x` without two hexadecimal digits are value errors. */
  lemma BadEscapeExample()
    ensures StringEscape("a\\") == Err(ValueError("Trailing \\ in string"))
    ensures StringEscape("\\x4") == Err(ValueError("invalid \\x escape"))
  {
    assert "a\\"[1..] == "\\";
  }

  /**
   * The value of a token that is not a bracket or quote: the two booleans, a
   * string literal's inner text decoded, an integer, a float, and otherwise a
   * symbol. Decoding a string literal can fail with a value error.
   */
  function Atom(t: string): (r: Result<Val, ReadError>)
    requires t != []
    ensures t[0] != '"' ==> r.Ok?
    ensures r.Err? ==> r.error.ValueError?
    ensures r.Ok? ==> (r.value.Str? <==> t[0] == '"')
  {
    if t == "#t" then Ok(Bool(true))
    else if t == "#f" then Ok(Bool(false))
    else if t[0] == '"' then
      match StringEscape(if |t| >= 2 then t[1..|t| - 1] else [])
      case Ok(s) => Ok(Str(s))
      case Err(e) => Err(e)
    else if IsIntText(t) then Ok(Int(IntValue(t)))
    else if IsFloatText(t) then Ok(Float(t))
    else Ok(Sym(t))
  }

  /** The decimal text of a natural number. */
  function ShowNat(n: nat): (r: string)
    ensures r != [] && AllDigits(r) && IsDigit(r[0])
  {
    if n < 10 then
      var c := ('0' as int + n) as char;
      assert c as int == '0' as int + n;
      var r := [c];
      assert r[..0] == [];
      r
    else
      var r := ShowNat(n / 10) + [('0' as int + n % 10) as char];
      assert r[..|r| - 1] == ShowNat(n / 10);
      r
  }

  function ShowInt(i: int): string
  {
    if i < 0 then "-" + ShowNat(-i) else ShowNat(i)
  }

  lemma {:induction false} ShowNatValue(n: nat)
    ensures DigitsValue(ShowNat(n)) == n
  {
    if n >= 10 {
      var s := ShowNat(n);
      assert s[..|s| - 1] == ShowNat(n / 10);
      ShowNatValue(n / 10);
    }
  }

  /** Integers read back as the number they print as. */
  lemma AtomReadsInt(i: int)
    ensures IsIntText(ShowInt(i)) && Atom(ShowInt(i)) == Ok(Int(i))
  {
    var s := ShowInt(i);
    ShowNatValue(if i < 0 then -i else i);
    if i < 0 {
      assert Unsigned(s) == ShowNat(-i);
    } else {
      var d := ShowNat(i);
      assert Unsigned(s) == d;
    }
  }

  /** A string printed with its escapes between double quotes reads back as the string. */
  lemma AtomReadsString(s: string)
    ensures Atom("\"" + Escape(s) + "\"") == Ok(Str(s))
  {
    var t := "\"" + Escape(s) + "\"";
    assert t[1..|t| - 1] == Escape(s);
    EscapeRoundTrip(s);
  }

  /** A double-quoted token whose text fails to decode is a value error. */
  lemma AtomStringError(s: string)
    requires StringEscape(s).Err?
    ensures Atom("\"" + s + "\"") == Err(StringEscape(s).error)
  {
    var t := "\"" + s + "\"";
    assert t[1..|t| - 1] == s;
  }

  /**
   * Atom classification in the order the reader tries it: the two booleans,
   * then a string literal, then integer text, then float text, and a symbol
   * for everything else.
   */
  lemma AtomClassifies(t: string)
    requires t != []
    ensures t == "#t" ==> Atom(t) == Ok(Bool(true))
    ensures t == "#f" ==> Atom(t) == Ok(Bool(false))
    ensures t != "#t" && t != "#f" && t[0] != '"' ==>
      Atom(t).Ok? &&
      (Atom(t).value.Int? <==> IsIntText(t)) &&
      (Atom(t).value.Float? <==> !IsIntText(t) && IsFloatText(t)) &&
      (Atom(t).value.Sym? <==> !IsIntText(t) && !IsFloatText(t))
    ensures PlainSymbol(t) ==> Atom(t) == Ok(Sym(t))
  {
  }

  /** A name that reads as a symbol: bare atom characters, and not a boolean, a number or the end marker. */
  predicate PlainSymbol(n: string)
  {
    && n != [] && (forall k :: 0 <= k < |n| ==> IsAtomChar(n[k]))
    && n != "#t" && n != "#f" && n != "#<eof>"
    && !IsIntText(n) && !IsFloatText(n)
  }

  // ---------------------------------------------------------------------
  // Parsing
  // ---------------------------------------------------------------------

  datatype ReadError = SyntaxError(message: string) | IndexError | ValueError(message: string)

  /** The parser compares tokens with the end marker by text, so a token spelled like it counts as one. */
  predicate LikeEnd(t: Token)
  {
    t.End? || t.text == "#<eof>"
  }

  /**
   * The handling of token `t`, the tokens from `i` on still unread: the value
   * read and where reading stopped.
   */
  function HandleTokF(ts: seq<Token>, i: nat, t: Token): (r: Result<(Val, nat), ReadError>)
    requires i <= |ts|
    ensures r.Ok? ==> i <= r.value.1 <= |ts|
    decreases |ts| - i, 1
  {
    if t == Tok("(") then ReadListF(ts, i, [])
    else if t == Tok(")") then Err(SyntaxError("unmatched )"))
    else if t == Tok("'") then
      if i == |ts| then Err(SyntaxError("unexpected EOF"))
      else
        match HandleTokF(ts, i + 1, ts[i])
        case Err(e) => Err(e)
        case Ok((v, j)) => Ok((List([Sym("quote"), v]), j))
    else if LikeEnd(t) then Err(SyntaxError("unexpected EOF"))
    else if t.text == [] then Err(IndexError)
    else
      match Atom(t.text)
      case Ok(v) => Ok((v, i))
      case Err(e) => Err(e)
  }

  /**
   * The elements of a list whose `(` has been read, `acc` those read so far.
   * When the tokens run out without a `)` the list handler returns None.
   */
  function ReadListF(ts: seq<Token>, i: nat, acc: seq<Val>): (r: Result<(Val, nat), ReadError>)
    requires i <= |ts|
    ensures r.Ok? ==> i <= r.value.1 <= |ts|
    decreases |ts| - i, 0
  {
    if i == |ts| then Ok((Nil, i))
    else
      var t := ts[i];
      if t == Tok(")") then Ok((List(acc), i + 1))
      else if LikeEnd(t) then Err(SyntaxError("expected )"))
      else
        match HandleTokF(ts, i + 1, t)
        case Err(e) => Err(e)
        case Ok((v, j)) => ReadListF(ts, j, acc + [v])
  }

  /** One expression read from the tokens at `i`; the end marker itself is returned as `Eof`. */
  function ParseF(ts: seq<Token>, i: nat): (r: Result<(Val, nat), ReadError>)
    requires i <= |ts|
    ensures r.Ok? ==> i < r.value.1 <= |ts|
  {
    if i == |ts| then Err(SyntaxError("unexpected EOF"))
    else if ts[i] == End then Ok((Eof, i + 1))
    else HandleTokF(ts, i + 1, ts[i])
  }

  /** The `read` builtin on a string, with the tokenizer as written. */
  function Read(s: string): (r: Result<(Val, nat), ReadError>)
    ensures s == [] ==> r == Ok((Eof, 1))
    ensures r.Ok? ==> r.value.1 >= 1
  {
    ParseF(Tokens([], s), 0)
  }

  /** `read` with the intended tokenizer, which reads past whitespace-only rests of lines. */
  function ReadSkippingBlanks(s: string): (r: Result<(Val, nat), ReadError>)
    ensures s == [] ==> r == Ok((Eof, 1))
    ensures r.Ok? ==> r.value.1 >= 1
  {
    ParseF(TokensSkippingBlanks([], s), 0)
  }

  /** The first line `(a ` of the example below: an open bracket, an atom, then a whitespace rest. */
  lemma TrailingSpaceLine()
    ensures ScanLine("(a \n") == Some(("(", "a "))
    ensures ScanLine("a ") == Some(("a", " "))
    ensures ScanLine(" ").None?
  {
    var l1, r1 := "(a \n", "a ";
    assert Skip(l1, 0, Space) == 0 by { assert !IsSpace(l1[0]); }
    assert Skip(l1, 1, NotNewline) == 3 by {
      assert In(l1[1], NotNewline) && In(l1[2], NotNewline) && !In(l1[3], NotNewline);
    }
    assert l1[1..3] == "a ";
    assert Skip(r1, 0, Space) == 0 && Skip(r1, 0, AtomChar) == 1 by {
      assert !IsSpace(r1[0]) && IsAtomChar(r1[0]) && !IsAtomChar(r1[1]);
    }
    assert Skip(r1, 1, NotNewline) == 2;
    assert r1[0..1] == "a" && r1[1..2] == " ";
    assert Skip(" ", 0, Space) == 1;
  }

  /** The second line `b)` of the example below. */
  lemma ClosingLine()
    ensures ReadLine("b)\n") == ("b)\n", [])
    ensures ScanLine("b)\n") == Some(("b", ")"))
    ensures ScanLine(")") == Some((")", []))
  {
    var l2, r2 := "b)\n", ")";
    assert Skip(l2, 0, NotNewline) == 2 by {
      assert In(l2[0], NotNewline) && In(l2[1], NotNewline) && !In(l2[2], NotNewline);
    }
    assert l2[..3] == l2 && l2[3..] == [];
    assert Skip(l2, 0, Space) == 0 && Skip(l2, 0, AtomChar) == 1 by {
      assert !IsSpace(l2[0]) && IsAtomChar(l2[0]) && !IsAtomChar(l2[1]);
    }
    assert Skip(l2, 1, NotNewline) == 2;
    assert l2[0..1] == "b" && l2[1..2] == ")";
    assert Skip(r2, 0, Space) == 0 by { assert !IsSpace(r2[0]); }
  }

  /** The input of the example below splits into its two lines. */
  lemma TrailingSpaceListLines()
    ensures ReadLine("(a \nb)\n") == ("(a \n", "b)\n")
  {
    var s := "(a \nb)\n";
    assert Skip(s, 0, NotNewline) == 3 by {
      assert In(s[0], NotNewline) && In(s[1], NotNewline) && In(s[2], NotNewline) && !In(s[3], NotNewline);
    }
    assert s[..4] == "(a \n" && s[4..] == "b)\n";
  }

  /** The two tokenizers on a list continued after whitespace at the end of a line. */
  lemma TrailingSpaceListTokens()
    ensures Tokens([], "(a \nb)\n") == [Tok("("), Tok("a"), End]
    ensures TokensSkippingBlanks([], "(a \nb)\n") == [Tok("("), Tok("a"), Tok("b"), Tok(")"), End, End]
  {
    TrailingSpaceListLines();
    TrailingSpaceStops();
    TrailingSpaceReadsOn();
  }

  lemma TrailingSpaceStops()
    ensures Tokens("(a \n", "b)\n") == [Tok("("), Tok("a"), End]
  {
    TrailingSpaceLine();
    var l2 := "b)\n";
    assert Tokens(" ", l2) == [End];
    assert Tokens("a ", l2) == [Tok("a")] + [End];
  }

  lemma TrailingSpaceReadsOn()
    ensures TokensSkippingBlanks("(a \n", "b)\n") == [Tok("("), Tok("a"), Tok("b"), Tok(")"), End, End]
  {
    TrailingSpaceLine();
    ClosingLine();
    var l1, l2 := "(a \n", "b)\n";
    assert IsBlank([]);
    assert TokensSkippingBlanks([], []) == [End, End];
    assert !IsBlank(")") && TokensSkippingBlanks(")", []) == [Tok(")")] + [End, End];
    assert !IsBlank(l2) && TokensSkippingBlanks(l2, []) == [Tok("b")] + [Tok(")"), End, End];
    assert IsBlank(" ") && TokensSkippingBlanks(" ", l2) == TokensSkippingBlanks(l2, []);
    assert !IsBlank("a ") && TokensSkippingBlanks("a ", l2) == [Tok("a")] + [Tok("b"), Tok(")"), End, End];
    assert !IsBlank(l1);
  }

  /**
   * A list continued after whitespace at the end of a line: the tokenizer as
   * written stops at the whitespace, so `read` finds no `)`; the intended one
   * reads the list to its end.
   */
  lemma ReadTrailingSpaceExample()
    ensures Read("(a \nb)\n") == Err(SyntaxError("expected )"))
    ensures ReadSkippingBlanks("(a \nb)\n").Ok?
  {
    TrailingSpaceListTokens();
    ListStopsAtEnd();
    ListReadsToClose();
  }

  lemma ListStopsAtEnd()
    ensures ParseF([Tok("("), Tok("a"), End], 0) == Err(SyntaxError("expected )"))
  {
    var ts := [Tok("("), Tok("a"), End];
    AtomClassifies("a");
    assert HandleTokF(ts, 2, ts[1]) == Ok((Atom("a").value, 2));
    assert ReadListF(ts, 1, []) == Err(SyntaxError("expected )"));
  }

  lemma ListReadsToClose()
    ensures ParseF([Tok("("), Tok("a"), Tok("b"), Tok(")"), End, End], 0).Ok?
  {
    var us := [Tok("("), Tok("a"), Tok("b"), Tok(")"), End, End];
    AtomClassifies("a");
    AtomClassifies("b");
    assert HandleTokF(us, 2, us[1]) == Ok((Atom("a").value, 2));
    assert HandleTokF(us, 3, us[2]) == Ok((Atom("b").value, 3));
    assert ReadListF(us, 1, []).Ok?;
  }

  /** A parser consuming a shared token stream. */
  class Parser {
    const tokens: seq<Token>
    var pos: nat

    constructor (tokens: seq<Token>)
      ensures this.tokens == tokens && pos == 0
    {
      this.tokens := tokens;
      pos := 0;
    }

    method HandleTok(t: Token) returns (r: Result<Val, ReadError>)
      requires pos <= |tokens|
      modifies this
      ensures HandleTokF(tokens, old(pos), t).Ok? ==>
        r == Ok(HandleTokF(tokens, old(pos), t).value.0) && pos == HandleTokF(tokens, old(pos), t).value.1
      ensures HandleTokF(tokens, old(pos), t).Err? ==> r == Err(HandleTokF(tokens, old(pos), t).error)
      decreases |tokens| - pos, 1
    {
      if t == Tok("(") {
        r := ReadList();
      } else if t == Tok(")") {
        r := Err(SyntaxError("unmatched )"));
      } else if t == Tok("'") {
        if pos == |tokens| {
          return Err(SyntaxError("unexpected EOF"));
        }
        var next := tokens[pos];
        pos := pos + 1;
        var quoted := HandleTok(next);
        if quoted.Err? {
          return Err(quoted.error);
        }
        r := Ok(List([Sym("quote"), quoted.value]));
      } else if LikeEnd(t) {
        r := Err(SyntaxError("unexpected EOF"));
      } else if t.text == [] {
        r := Err(IndexError);
      } else {
        r := Atom(t.text);
      }
    }

    method ReadList() returns (r: Result<Val, ReadError>)
      requires pos <= |tokens|
      modifies this
      ensures ReadListF(tokens, old(pos), []).Ok? ==>
        r == Ok(ReadListF(tokens, old(pos), []).value.0) && pos == ReadListF(tokens, old(pos), []).value.1
      ensures ReadListF(tokens, old(pos), []).Err? ==> r == Err(ReadListF(tokens, old(pos), []).error)
      decreases |tokens| - pos, 0
    {
      var lst := [];
      while pos < |tokens|
        invariant old(pos) <= pos <= |tokens|
        invariant ReadListF(tokens, old(pos), []) == ReadListF(tokens, pos, lst)
        decreases |tokens| - pos
      {
        var t := tokens[pos];
        pos := pos + 1;
        if t == Tok(")") {
          return Ok(List(lst));
        } else if LikeEnd(t) {
          return Err(SyntaxError("expected )"));
        }
        var v := HandleTok(t);
        if v.Err? {
          return Err(v.error);
        }
        lst := lst + [v.value];
      }
      r := Ok(Nil);
    }

    method Parse() returns (r: Result<Val, ReadError>)
      requires pos <= |tokens|
      modifies this
      ensures ParseF(tokens, old(pos)).Ok? ==>
        r == Ok(ParseF(tokens, old(pos)).value.0) && pos == ParseF(tokens, old(pos)).value.1
      ensures ParseF(tokens, old(pos)).Err? ==> r == Err(ParseF(tokens, old(pos)).error)
    {
      if pos == |tokens| {
        return Err(SyntaxError("unexpected EOF"));
      }
      var t := tokens[pos];
      pos := pos + 1;
      if t == End {
        r := Ok(Eof);
      } else {
        r := HandleTok(t);
      }
    }
  }

  // ---------------------------------------------------------------------
  // Printing and reading back
  // ---------------------------------------------------------------------

  /** Values that have a printed form: booleans, integers, strings, plain symbols and lists of those. */
  predicate Datum(v: Val)
    decreases Size(v), 1
  {
    match v
    case Bool(_) => true
    case Int(_) => true
    case Str(_) => true
    case Sym(n) => PlainSymbol(n)
    case List(xs) => DatumSeq(xs)
    case _ => false
  }

  predicate DatumSeq(xs: seq<Val>)
    decreases SizeSeq(xs), 0
  {
    xs == [] || (Datum(xs[0]) && DatumSeq(xs[1..]))
  }

  function Size(v: Val): nat
  {
    match v
    case List(xs) => 1 + SizeSeq(xs)
    case _ => 1
  }

  function SizeSeq(xs: seq<Val>): nat
  {
    if xs == [] then 0 else Size(xs[0]) + SizeSeq(xs[1..]) + 1
  }

  /** The tokens of a datum's printed form. */
  function Unparse(v: Val): (r: seq<Token>)
    requires Datum(v)
    ensures |r| >= 1
    decreases Size(v), 1
  {
    match v
    case Bool(b) => [Tok(if b then "#t" else "#f")]
    case Int(i) => [Tok(ShowInt(i))]
    case Str(s) => [Tok("\"" + Escape(s) + "\"")]
    case Sym(n) => [Tok(n)]
    case List(xs) => [Tok("(")] + UnparseSeq(xs) + [Tok(")")]
  }

  function UnparseSeq(xs: seq<Val>): seq<Token>
    requires DatumSeq(xs)
    decreases SizeSeq(xs), 0
  {
    if xs == [] then [] else Unparse(xs[0]) + UnparseSeq(xs[1..])
  }

  /** The tokens from position `i` on start with `w`. */
  predicate At(ts: seq<Token>, i: nat, w: seq<Token>)
  {
    i + |w| <= |ts| && forall k :: 0 <= k < |w| ==> ts[i + k] == w[k]
  }

  /** Tokens that start with `a + b` at `i` start with `a` there and with `b` right after it. */
  lemma AtSplit(ts: seq<Token>, i: nat, a: seq<Token>, b: seq<Token>)
    requires At(ts, i, a + b)
    ensures At(ts, i, a) && At(ts, i + |a|, b)
  {
    forall k | 0 <= k < |a|
      ensures ts[i + k] == a[k]
    {
      assert (a + b)[k] == a[k];
    }
    forall k | 0 <= k < |b|
      ensures ts[i + |a| + k] == b[k]
    {
      assert (a + b)[|a| + k] == b[k];
    }
  }

  /** Tokens that start with a non-empty `w` at `i` hold its first token there. */
  lemma AtFirst(ts: seq<Token>, i: nat, w: seq<Token>)
    requires At(ts, i, w) && w != []
    ensures i < |ts| && ts[i] == w[0]
  {
    assert ts[i + 0] == w[0];
  }

  /** A token sequence built as `p + a + b` starts with `a` right after `p`. */
  lemma AtAfter(p: seq<Token>, a: seq<Token>, b: seq<Token>)
    ensures At(p + a + b, |p|, a)
  {
    forall k | 0 <= k < |a|
      ensures (p + a + b)[|p| + k] == a[k]
    {
    }
  }

  /** Reading a datum's tokens gives back the datum and stops right after them. */
  lemma {:induction false} ReadsUnparsed(v: Val, ts: seq<Token>, i: nat)
    requires Datum(v) && At(ts, i, Unparse(v))
    ensures HandleTokF(ts, i + 1, ts[i]) == Ok((v, i + |Unparse(v)|))
    decreases Size(v), 1
  {
    if v.List? {
      ReadsUnparsedParens(v.items, ts, i);
    } else {
      AtFirst(ts, i, Unparse(v));
      UnparseAtom(v);
      HandleAtomTok(ts, i + 1, Unparse(v)[0]);
    }
  }

  /** A datum other than a list prints as one ordinary token whose atom is the datum. */
  lemma UnparseAtom(v: Val)
    requires Datum(v) && !v.List?
    ensures |Unparse(v)| == 1 && Unparse(v)[0].Tok? && Unparse(v)[0].text != []
    ensures Unparse(v)[0] != Tok("(") && Unparse(v)[0] != Tok(")") && Unparse(v)[0] != Tok("'")
    ensures !LikeEnd(Unparse(v)[0]) && Atom(Unparse(v)[0].text) == Ok(v)
  {
    UnparseStart(v);
    match v
    case Bool(b) =>
    case Int(n) =>
      AtomReadsInt(n);
      assert ShowInt(n) != "#<eof>" && ShowInt(n) != "#t" && ShowInt(n) != "#f";
    case Str(s) =>
      AtomReadsString(s);
    case Sym(n) =>
  }

  /** An ordinary token is read as its atom, consuming nothing more. */
  lemma HandleAtomTok(ts: seq<Token>, i: nat, t: Token)
    requires i <= |ts| && t.Tok? && t.text != []
    requires t != Tok("(") && t != Tok(")") && t != Tok("'") && !LikeEnd(t)
    ensures Atom(t.text).Ok? ==> HandleTokF(ts, i, t) == Ok((Atom(t.text).value, i))
    ensures Atom(t.text).Err? ==> HandleTokF(ts, i, t) == Err(Atom(t.text).error)
  {
  }

  /** A parenthesised list reads back as its elements. */
  lemma {:induction false} ReadsUnparsedParens(xs: seq<Val>, ts: seq<Token>, i: nat)
    requires DatumSeq(xs) && At(ts, i, Unparse(List(xs)))
    ensures HandleTokF(ts, i + 1, ts[i]) == Ok((List(xs), i + |Unparse(List(xs))|))
    decreases 1 + SizeSeq(xs), 0
  {
    UnparseList(xs);
    AtSplit(ts, i, [Tok("(")], UnparseSeq(xs) + [Tok(")")]);
    AtFirst(ts, i, [Tok("(")]);
    HandleOpenParen(ts, i);
    ReadsUnparsedList(xs, ts, i + 1, []);
    assert [] + xs == xs;
  }

  /** A printed list is its elements' tokens between brackets. */
  lemma UnparseList(xs: seq<Val>)
    requires DatumSeq(xs)
    ensures Datum(List(xs)) && Unparse(List(xs)) == [Tok("(")] + (UnparseSeq(xs) + [Tok(")")])
  {
  }

  /** An opening bracket starts reading a list. */
  lemma HandleOpenParen(ts: seq<Token>, i: nat)
    requires i < |ts| && ts[i] == Tok("(")
    ensures HandleTokF(ts, i + 1, ts[i]) == ReadListF(ts, i + 1, [])
  {
  }

  lemma {:induction false} ReadsUnparsedList(xs: seq<Val>, ts: seq<Token>, i: nat, acc: seq<Val>)
    requires DatumSeq(xs) && At(ts, i, UnparseSeq(xs) + [Tok(")")])
    ensures ReadListF(ts, i, acc) == Ok((List(acc + xs), i + |UnparseSeq(xs)| + 1))
    decreases SizeSeq(xs), 1
  {
    if xs == [] {
      assert UnparseSeq(xs) + [Tok(")")] == [Tok(")")] && acc + xs == acc;
      ReadsCloseParen(ts, i, acc);
    } else {
      var j := i + |Unparse(xs[0])|;
      TailWindow(xs, ts, i, Tok(")"));
      ReadsUnparsedList(xs[1..], ts, j, acc + [xs[0]]);
      HeadStep(xs, ts, i, acc, Tok(")"));
      AppendHead(acc, xs);
    }
  }

  /** A closing bracket ends the list with the elements read so far. */
  lemma ReadsCloseParen(ts: seq<Token>, i: nat, acc: seq<Val>)
    requires At(ts, i, [Tok(")")])
    ensures ReadListF(ts, i, acc) == Ok((List(acc), i + 1))
  {
    AtFirst(ts, i, [Tok(")")]);
  }

  /** Appending a list's first element and then the rest appends the list. */
  lemma AppendHead(acc: seq<Val>, xs: seq<Val>)
    requires xs != []
    ensures acc + [xs[0]] + xs[1..] == acc + xs
  {
    assert xs == [xs[0]] + xs[1..];
  }

  /** Inside a list, the first element of a printed list is read and reading goes on after its tokens. */
  lemma HeadStep(xs: seq<Val>, ts: seq<Token>, i: nat, acc: seq<Val>, close: Token)
    requires xs != [] && DatumSeq(xs) && At(ts, i, UnparseSeq(xs) + [close])
    ensures |UnparseSeq(xs)| == |Unparse(xs[0])| + |UnparseSeq(xs[1..])|
    ensures ReadListF(ts, i, acc) == ReadListF(ts, i + |Unparse(xs[0])|, acc + [xs[0]])
    decreases SizeSeq(xs), 0, 1
  {
    HeadReads(xs, ts, i, close);
    ReadListStep(ts, i, acc, xs[0], i + |Unparse(xs[0])|);
  }

  /** The first element of a printed list is read back from its tokens. */
  lemma {:induction false} HeadReads(xs: seq<Val>, ts: seq<Token>, i: nat, close: Token)
    requires xs != [] && DatumSeq(xs) && At(ts, i, UnparseSeq(xs) + [close])
    ensures |UnparseSeq(xs)| == |Unparse(xs[0])| + |UnparseSeq(xs[1..])|
    ensures i < |ts| && ts[i] != Tok(")") && !LikeEnd(ts[i])
    ensures HandleTokF(ts, i + 1, ts[i]) == Ok((xs[0], i + |Unparse(xs[0])|))
    decreases SizeSeq(xs), 0, 0
  {
    HeadWindow(xs, ts, i, close);
    FirstToken(xs[0], ts, i);
    ReadsUnparsed(xs[0], ts, i);
  }

  /** A printed list's tokens start with those of its first element. */
  lemma HeadWindow(xs: seq<Val>, ts: seq<Token>, i: nat, close: Token)
    requires xs != [] && DatumSeq(xs) && At(ts, i, UnparseSeq(xs) + [close])
    ensures Datum(xs[0]) && At(ts, i, Unparse(xs[0]))
    ensures |UnparseSeq(xs)| == |Unparse(xs[0])| + |UnparseSeq(xs[1..])|
  {
    UnparseCons(xs, close);
    AtSplit(ts, i, Unparse(xs[0]), UnparseSeq(xs[1..]) + [close]);
  }

  /** After a printed list's first element come the tokens of the rest and the closing token. */
  lemma TailWindow(xs: seq<Val>, ts: seq<Token>, i: nat, close: Token)
    requires xs != [] && DatumSeq(xs) && At(ts, i, UnparseSeq(xs) + [close])
    ensures DatumSeq(xs[1..]) && SizeSeq(xs[1..]) < SizeSeq(xs)
    ensures At(ts, i + |Unparse(xs[0])|, UnparseSeq(xs[1..]) + [close])
  {
    UnparseCons(xs, close);
    AtSplit(ts, i, Unparse(xs[0]), UnparseSeq(xs[1..]) + [close]);
  }

  /** A printed list's tokens are its first element's, then the rest's. */
  lemma UnparseCons(xs: seq<Val>, close: Token)
    requires xs != [] && DatumSeq(xs)
    ensures Datum(xs[0]) && DatumSeq(xs[1..])
    ensures UnparseSeq(xs) + [close] == Unparse(xs[0]) + (UnparseSeq(xs[1..]) + [close])
    ensures |UnparseSeq(xs)| == |Unparse(xs[0])| + |UnparseSeq(xs[1..])|
  {
    assert UnparseSeq(xs) == Unparse(xs[0]) + UnparseSeq(xs[1..]);
  }

  /** The first token of a printed datum is neither a closing bracket nor the end marker. */
  lemma FirstToken(v: Val, ts: seq<Token>, i: nat)
    requires Datum(v) && At(ts, i, Unparse(v))
    ensures i < |ts| && ts[i] != Tok(")") && !LikeEnd(ts[i])
  {
    UnparseStart(v);
    AtFirst(ts, i, Unparse(v));
  }

  /** An element read inside a list is appended, and reading goes on after it. */
  lemma ReadListStep(ts: seq<Token>, i: nat, acc: seq<Val>, v: Val, j: nat)
    requires i < |ts| && ts[i] != Tok(")") && !LikeEnd(ts[i])
    requires HandleTokF(ts, i + 1, ts[i]) == Ok((v, j))
    ensures ReadListF(ts, i, acc) == ReadListF(ts, j, acc + [v])
  {
  }

  /** A printed datum starts with a token that is neither a closing bracket nor the end marker. */
  lemma UnparseStart(v: Val)
    requires Datum(v)
    ensures Unparse(v)[0].Tok? && Unparse(v)[0] != Tok(")") && !LikeEnd(Unparse(v)[0])
  {
    match v
    case Int(n) =>
      var s := ShowInt(n);
      assert s[0] == '-' || IsDigit(s[0]);
    case Str(s) =>
      assert ("\"" + Escape(s) + "\"")[0] == '"';
    case _ =>
  }

  /** Reading a printed datum from the start of a token stream. */
  lemma ParseUnparse(v: Val, rest: seq<Token>)
    requires Datum(v)
    ensures ParseF(Unparse(v) + rest, 0) == Ok((v, |Unparse(v)|))
  {
    var ts := Unparse(v) + rest;
    assert [] + Unparse(v) + rest == ts;
    AtAfter([], Unparse(v), rest);
    FirstToken(v, ts, 0);
    ReadsUnparsed(v, ts, 0);
  }

  /** `'x` reads as the list of the symbol `quote` and `x`. */
  lemma ParseQuoted(v: Val, rest: seq<Token>)
    requires Datum(v)
    ensures ParseF([Tok("'")] + Unparse(v) + rest, 0) == Ok((List([Sym("quote"), v]), 1 + |Unparse(v)|))
  {
    var ts := [Tok("'")] + Unparse(v) + rest;
    AtAfter([Tok("'")], Unparse(v), rest);
    ReadsUnparsed(v, ts, 1);
  }

  /** A list whose closing bracket never comes before the end marker is a syntax error. */
  lemma UnclosedList(xs: seq<Val>, rest: seq<Token>)
    requires DatumSeq(xs)
    ensures ParseF([Tok("(")] + UnparseSeq(xs) + [End] + rest, 0) == Err(SyntaxError("expected )"))
  {
    var ts := [Tok("(")] + UnparseSeq(xs) + [End] + rest;
    assert ts == [Tok("(")] + (UnparseSeq(xs) + [End]) + rest;
    AtAfter([Tok("(")], UnparseSeq(xs) + [End], rest);
    UnclosedFrom(xs, ts, 1, []);
  }

  lemma {:induction false} UnclosedFrom(xs: seq<Val>, ts: seq<Token>, i: nat, acc: seq<Val>)
    requires DatumSeq(xs) && At(ts, i, UnparseSeq(xs) + [End])
    ensures ReadListF(ts, i, acc) == Err(SyntaxError("expected )"))
    decreases |xs|
  {
    if xs == [] {
      assert UnparseSeq(xs) + [End] == [End];
      AtFirst(ts, i, [End]);
    } else {
      TailWindow(xs, ts, i, End);
      UnclosedFrom(xs[1..], ts, i + |Unparse(xs[0])|, acc + [xs[0]]);
      HeadStep(xs, ts, i, acc, End);
    }
  }

  /** A closing bracket where an expression should start is a syntax error; the end marker there is returned. */
  lemma ParseStrayTokens(rest: seq<Token>)
    ensures ParseF([Tok(")")] + rest, 0) == Err(SyntaxError("unmatched )"))
    ensures ParseF([End] + rest, 0) == Ok((Eof, 1))
    ensures ParseF([Tok("#<eof>")] + rest, 0) == Err(SyntaxError("unexpected EOF"))
  {
  }
}
