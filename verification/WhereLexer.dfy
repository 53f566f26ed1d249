/** The lexer of row filters (internal/output/row_filter.go), byte by byte, and its inverse. */
module WhereLexer {
  import opened Common
  import opened WhereGrammar
  import opened WherePrint

  // ----- character classes (a char is one byte) -----

  predicate IsSpace(c: char) { c in {'\t', '\n', '\U{0B}', '\U{0C}', '\r', ' ', '\U{85}', '\U{A0}'} }

  predicate IsDigit(c: char) { '0' <= c <= '9' }

  predicate IsLetter(c: char) {
    || 'a' <= c <= 'z' || 'A' <= c <= 'Z' || c in {'\U{AA}', '\U{B5}', '\U{BA}'}
    || '\U{C0}' <= c <= '\U{D6}' || '\U{D8}' <= c <= '\U{F6}' || '\U{F8}' <= c <= '\U{FF}'
  }

  datatype Class = Digits | NameChars | NotQuote

  predicate InClass(k: Class, c: char) {
    match k
    case Digits => IsDigit(c) || c == '.'
    case NameChars => IsLetter(c) || IsDigit(c) || c == '_' || c == '.'
    case NotQuote => c != '\''
  }

  /** How many leading characters are in the class. */
  function Count(s: string, k: Class): (n: nat)
    ensures n <= |s|
  {
    if s == "" || !InClass(k, s[0]) then 0 else 1 + Count(s[1..], k)
  }

  // ----- one token -----

  datatype Lexed = Bad | Lexed(t: Token, used: nat)

  predicate StartsNumber(s: string) {
    s != "" && (IsDigit(s[0]) || (s[0] == '-' && |s| > 1 && IsDigit(s[1])))
  }

  predicate StartsName(s: string) { s != "" && (IsLetter(s[0]) || s[0] == '_') }

  function LexSign(s: string): (r: Lexed)
    requires s != ""
  {
    var c, eq := s[0], |s| > 1 && s[1] == '=';
    if c == '(' then Lexed(LParen, 1)
    else if c == ')' then Lexed(RParen, 1)
    else if c == ',' then Lexed(Comma, 1)
    else if c == '!' && eq then Lexed(Op(NotEqual), 2)
    else if c == '>' && eq then Lexed(Op(GreaterOrEqual), 2)
    else if c == '<' && eq then Lexed(Op(LessOrEqual), 2)
    else if c == '>' then Lexed(Op(Greater), 1)
    else if c == '<' then Lexed(Op(Less), 1)
    else if c == '=' then Lexed(Op(Equal), 1)
    else Bad
  }

  function LexOne(s: string): (r: Lexed)
    requires s != ""
    ensures r.Lexed? ==> 0 < r.used <= |s|
  {
    if s[0] == '\'' then
      var n := Count(s[1..], NotQuote);
      if n + 1 == |s| then Bad else Lexed(Str(s[1..n + 1]), n + 2)
    else if LexSign(s).Lexed? then LexSign(s)
    else if StartsNumber(s) then
      var n := if s[0] == '-' then 1 + Count(s[1..], Digits) else Count(s, Digits);
      Lexed(Num(s[..n]), n)
    else if StartsName(s) then
      var n := Count(s, NameChars);
      Lexed(Ident(s[..n]), n)
    else Bad
  }

  function Lex(s: string): (r: Option<Tokens>)
    decreases |s|
  {
    if s == "" then Some([])
    else if IsSpace(s[0]) then Lex(s[1..])
    else
      var one := LexOne(s);
      if one.Bad? then None else After(one.t, Lex(s[one.used..]))
  }

  function After(t: Token, more: Option<Tokens>): (r: Option<Tokens>) {
    if more.None? then None else Some(Cons(t, more.value))
  }

  // ----- the lexer loop -----

  method CountFrom(s: string, i: nat, k: Class) returns (n: nat)
    requires i <= |s|
    ensures n == Count(s[i..], k)
  {
    n := 0;
    while i + n < |s| && InClass(k, s[i + n])
      invariant i + n <= |s| && Count(s[i..], k) == n + Count(s[i + n..], k)
    {
      assert s[i + n..][1..] == s[i + n + 1..];
      n := n + 1;
    }
  }

  method LexAt(s: string, i: nat) returns (r: Lexed)
    requires i < |s|
    ensures r == LexOne(s[i..])
  {
    ghost var rest := s[i..];
    assert rest[1..] == s[i + 1..];
    if s[i] == '\'' {
      var n := CountFrom(s, i + 1, NotQuote);
      assert rest[1..n + 1] == s[i + 1..i + 1 + n];
      r := if i + 1 + n >= |s| then Bad else Lexed(Str(s[i + 1..i + 1 + n]), n + 2);
      return;
    }
    r := LexSign(s[i..]);
    if r.Lexed? {
      return;
    }
    if IsDigit(s[i]) || (s[i] == '-' && i + 1 < |s| && IsDigit(s[i + 1])) {
      var j := if s[i] == '-' then i + 1 else i;
      var n := CountFrom(s, j, Digits);
      n := n + (j - i);
      assert rest[..n] == s[i..i + n];
      r := Lexed(Num(s[i..i + n]), n);
    } else if IsLetter(s[i]) || s[i] == '_' {
      var n := CountFrom(s, i, NameChars);
      assert rest[..n] == s[i..i + n];
      r := Lexed(Ident(s[i..i + n]), n);
    } else {
      r := Bad;
    }
  }

  method Tokenize(s: string) returns (r: Option<Tokens>)
    ensures r == Lex(s)
  {
    var tokens: Tokens, i := [], 0;
    assert s[0..] == s;
    PutNothing(Lex(s));
    while i < |s|
      invariant 0 <= i <= |s|
      invariant Lex(s) == Put(tokens, Lex(s[i..]))
    {
      ghost var rest := s[i..];
      if IsSpace(s[i]) {
        assert rest[1..] == s[i + 1..];
        i := i + 1;
      } else {
        var one := LexAt(s, i);
        if one.Bad? {
          return None;
        }
        assert rest[one.used..] == s[i + one.used..];
        PutOne(tokens, one.t, Lex(s[i + one.used..]));
        tokens := tokens + [one.t];
        i := i + one.used;
      }
    }
    assert tokens + [] == tokens;
    r := Some(tokens);
  }

  function Put(tokens: Tokens, more: Option<Tokens>): (r: Option<Tokens>) {
    if more.None? then None else Some(tokens + more.value)
  }

  lemma PutNothing(more: Option<Tokens>)
    ensures Put([], more) == more
  {
    assert more.Some? ==> [] + more.value == more.value;
  }

  lemma PutOne(tokens: Tokens, t: Token, more: Option<Tokens>)
    ensures Put(tokens, After(t, more)) == Put(tokens + [t], more)
  {
    assert more.Some? ==> tokens + Cons(t, more.value) == tokens + [t] + more.value;
  }

  // ----- spelling, the inverse -----

  /** A token some text lexes to. */
  predicate Spellable(t: Token) {
    match t
    case Ident(name) => StartsName(name) && forall i :: 0 <= i < |name| ==> InClass(NameChars, name[i])
    case Str(text) => forall i :: 0 <= i < |text| ==> text[i] != '\''
    case Num(d) =>
      StartsNumber(d) && forall i :: 0 <= i < |d| ==> InClass(Digits, d[i]) || (i == 0 && d[0] == '-')
    case _ => true
  }

  function SpellOp(op: Comparison): (s: string) {
    match op
    case Equal => "="
    case NotEqual => "!="
    case Greater => ">"
    case Less => "<"
    case GreaterOrEqual => ">="
    case LessOrEqual => "<="
  }

  function Spell(t: Token): (s: string) {
    match t
    case Ident(name) => name
    case Str(text) => "'" + text + "'"
    case Num(d) => d
    case Op(op) => SpellOp(op)
    case LParen => "("
    case RParen => ")"
    case Comma => ","
  }

  /** The tokens, a blank after each. */
  function SpellAll(ts: Tokens): (s: string) {
    if ts == [] then "" else Spell(ts[0]) + (" " + SpellAll(ts[1..]))
  }

  lemma {:induction false} CountStops(x: string, y: string, k: Class)
    requires forall i :: 0 <= i < |x| ==> InClass(k, x[i])
    requires y != "" && !InClass(k, y[0])
    ensures Count(x + y, k) == |x|
  {
    if x == "" {
      assert x + y == y;
    } else {
      assert (x + y)[1..] == x[1..] + y;
      CountStops(x[1..], y, k);
    }
  }

  lemma SpelledString(text: string, rest: string)
    requires Spellable(Str(text))
    ensures LexOne(Spell(Str(text)) + (" " + rest)) == Lexed(Str(text), |text| + 2)
  {
    var s := Spell(Str(text)) + (" " + rest);
    assert s[1..] == text + ("' " + rest);
    CountStops(text, "' " + rest, NotQuote);
    assert s[1..|text| + 1] == text;
  }

  lemma SpelledNumber(d: string, rest: string)
    requires Spellable(Num(d))
    ensures LexOne(d + (" " + rest)) == Lexed(Num(d), |d|)
  {
    var s, tail := d + (" " + rest), " " + rest;
    assert s[0] == d[0] && LexSign(s).Bad?;
    if d[0] == '-' {
      assert s[1..] == d[1..] + tail;
      CountStops(d[1..], tail, Digits);
    } else {
      CountStops(d, tail, Digits);
    }
    assert s[..|d|] == d;
  }

  lemma SpelledName(name: string, rest: string)
    requires Spellable(Ident(name))
    ensures LexOne(name + (" " + rest)) == Lexed(Ident(name), |name|)
  {
    var s := name + (" " + rest);
    assert s[0] == name[0] && LexSign(s).Bad?;
    CountStops(name, " " + rest, NameChars);
    assert s[..|name|] == name;
  }

  lemma SpelledSign(t: Token, rest: string)
    requires Spellable(t) && (t.Op? || t.LParen? || t.RParen? || t.Comma?)
    ensures LexOne(Spell(t) + (" " + rest)) == Lexed(t, |Spell(t)|)
  {
  }

  lemma SpelledOne(t: Token, rest: string)
    requires Spellable(t)
    ensures Spell(t) != "" && !IsSpace(Spell(t)[0])
    ensures LexOne(Spell(t) + (" " + rest)) == Lexed(t, |Spell(t)|)
  {
    match t
    case Ident(name) => SpelledName(name, rest);
    case Str(text) => SpelledString(text, rest);
    case Num(d) => SpelledNumber(d, rest);
    case Op(_) => SpelledSign(t, rest);
    case LParen => SpelledSign(t, rest);
    case RParen => SpelledSign(t, rest);
    case Comma => SpelledSign(t, rest);
  }

  /** Lexing inverts spelling. */
  lemma {:induction false} LexInvertsSpell(ts: Tokens)
    requires forall i :: 0 <= i < |ts| ==> Spellable(ts[i])
    ensures Lex(SpellAll(ts)) == Some(ts)
  {
    if ts != [] {
      var rest := SpellAll(ts[1..]);
      var s := SpellAll(ts);
      SpelledOne(ts[0], rest);
      LexInvertsSpell(ts[1..]);
      assert s[0] == Spell(ts[0])[0];
      assert s[|Spell(ts[0])|..] == " " + rest;
      assert (" " + rest)[1..] == rest;
      assert ts == Cons(ts[0], ts[1..]);
    }
  }

  /** A filter as text. */
  function ParseText(s: string): (r: Option<Expr>) {
    var ts := Lex(s);
    if ts.None? then None else Parse(ts.value)
  }

  // ----- filters as text -----

  predicate SpellableValue(v: Value) {
    match v
    case StrV(text) => Spellable(Str(text))
    case NumV(d) => Spellable(Num(d))
    case NullV => true
  }

  /** Names, operators and literals that can be written down. */
  predicate SpellableExpr(e: Expr) {
    match e
    case Or(l, r) => SpellableExpr(l) && SpellableExpr(r)
    case And(l, r) => SpellableExpr(l) && SpellableExpr(r)
    case Not(c) => SpellableExpr(c)
    case Compare(column, _, v) => Spellable(Ident(column)) && SpellableValue(v)
    case IsNull(column, _) => Spellable(Ident(column))
    case In(column, vs) => Spellable(Ident(column)) && forall i :: 0 <= i < |vs| ==> SpellableValue(vs[i])
  }

  predicate AllSpellable(ts: Tokens) { forall i :: 0 <= i < |ts| ==> Spellable(ts[i]) }

  lemma ConsSpellable(t: Token, ts: Tokens)
    requires Spellable(t) && AllSpellable(ts)
    ensures AllSpellable(Cons(t, ts))
  {
  }

  lemma KeywordsSpellable()
    ensures Spellable(Ident("OR")) && Spellable(Ident("AND")) && Spellable(Ident("NOT"))
    ensures Spellable(Ident("IS")) && Spellable(Ident("IN")) && Spellable(Ident("NULL"))
  {
  }

  lemma {:induction false} ValsSpellable(vs: seq<Value>, rest: Tokens)
    requires vs != [] && AllSpellable(rest) && forall i :: 0 <= i < |vs| ==> SpellableValue(vs[i])
    ensures AllSpellable(ValsYield(PrintVals(vs), rest))
  {
    if |vs| == 1 {
      ConsSpellable(ValYield(PrintVal(vs[0])), rest);
    } else {
      ValsSpellable(vs[1..], rest);
      var more := ValsYield(PrintVals(vs[1..]), rest);
      ConsSpellable(Comma, more);
      ConsSpellable(ValYield(PrintVal(vs[0])), Cons(Comma, more));
    }
  }

  lemma AtomSpellable(e: Expr, rest: Tokens)
    requires Writable(e) && SpellableExpr(e) && AllSpellable(rest) && (e.Compare? || e.IsNull? || e.In?)
    ensures AllSpellable(AtomYield(PrintPrim(e).rest, rest))
  {
    KeywordsSpellable();
    if e.Compare? {
      ConsSpellable(ValYield(PrintVal(e.value)), rest);
      ConsSpellable(Op(e.op), Cons(ValYield(PrintVal(e.value)), rest));
    } else if e.IsNull? {
      ConsSpellable(Ident("NULL"), rest);
      ConsSpellable(Ident("NOT"), Cons(Ident("NULL"), rest));
      ConsSpellable(Ident("IS"), Cons(Ident("NULL"), rest));
      ConsSpellable(Ident("IS"), Cons(Ident("NOT"), Cons(Ident("NULL"), rest)));
    } else {
      ConsSpellable(RParen, rest);
      ValsSpellable(e.values, Cons(RParen, rest));
      var vs := ValsYield(PrintVals(e.values), Cons(RParen, rest));
      ConsSpellable(LParen, vs);
      ConsSpellable(Ident("IN"), Cons(LParen, vs));
    }
  }

  lemma {:induction false} PrimSpellable(e: Expr, rest: Tokens)
    requires Writable(e) && SpellableExpr(e) && AllSpellable(rest)
    ensures AllSpellable(PrimYield(PrintPrim(e), rest))
    decreases e, Rank(e, 0)
  {
    if e.Compare? || e.IsNull? || e.In? {
      AtomSpellable(e, rest);
      ConsSpellable(Ident(e.column), AtomYield(PrintPrim(e).rest, rest));
    } else {
      ConsSpellable(RParen, rest);
      OrSpellable(e, Cons(RParen, rest));
      ConsSpellable(LParen, OrYield(PrintOr(e), Cons(RParen, rest)));
    }
  }

  lemma {:induction false} NotSpellable(e: Expr, rest: Tokens)
    requires Writable(e) && SpellableExpr(e) && AllSpellable(rest)
    ensures AllSpellable(NotYield(PrintNot(e), rest))
    decreases e, Rank(e, 1)
  {
    if e.Not? {
      KeywordsSpellable();
      NotSpellable(e.child, rest);
      ConsSpellable(Ident("NOT"), NotYield(PrintNot(e.child), rest));
    } else {
      PrimSpellable(e, rest);
    }
  }

  lemma {:induction false} AndSpellable(e: Expr, rest: Tokens)
    requires Writable(e) && SpellableExpr(e) && AllSpellable(rest)
    ensures AllSpellable(AndYield(PrintAnd(e), rest))
    decreases e, Rank(e, 2)
  {
    if e.And? {
      KeywordsSpellable();
      NotSpellable(e.right, rest);
      var more := NotYield(PrintNot(e.right), rest);
      ConsSpellable(Ident("AND"), more);
      AndSpellable(e.left, Cons(Ident("AND"), more));
    } else {
      NotSpellable(e, rest);
    }
  }

  lemma {:induction false} OrSpellable(e: Expr, rest: Tokens)
    requires Writable(e) && SpellableExpr(e) && AllSpellable(rest)
    ensures AllSpellable(OrYield(PrintOr(e), rest))
    decreases e, Rank(e, 3)
  {
    if e.Or? {
      KeywordsSpellable();
      AndSpellable(e.right, rest);
      var more := AndYield(PrintAnd(e.right), rest);
      ConsSpellable(Ident("OR"), more);
      OrSpellable(e.left, Cons(Ident("OR"), more));
    } else {
      AndSpellable(e, rest);
    }
  }

  /** A filter printed with the fewest parentheses and spelt out as text reads back as the
      same filter. */
  lemma PrintedTextReadsBack(e: Expr)
    requires Writable(e) && SpellableExpr(e)
    ensures ParseText(SpellAll(OrYield(PrintOr(e), []))) == Some(e)
  {
    OrSpellable(e, []);
    LexInvertsSpell(OrYield(PrintOr(e), []));
    PrintParsesBack(e);
  }
}
