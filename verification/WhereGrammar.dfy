/** The WHERE grammar of row filters (internal/output/row_filter.go): tokens, expressions,
    derivations, and a recursive-descent parse as functions on token lists. */
module WhereGrammar {
  import opened Common

  datatype Token =
    | Ident(name: string) | Str(text: string) | Num(digits: string) | Op(op: Comparison) | LParen | RParen | Comma

  datatype Comparison = Equal | NotEqual | Greater | Less | GreaterOrEqual | LessOrEqual

  datatype Value = StrV(text: string) | NumV(digits: string) | NullV

  datatype Expr =
    | Or(left: Expr, right: Expr)
    | And(left: Expr, right: Expr)
    | Not(child: Expr)
    | Compare(column: string, op: Comparison, value: Value)
    | IsNull(column: string, notNull: bool)
    | In(column: string, values: seq<Value>)

  type Tokens = seq<Token>

  // ----- words -----

  function Upper(s: string): (u: string)
    ensures |u| == |s|
  {
    seq(|s|, i requires 0 <= i < |s| => if 'a' <= s[i] <= 'z' then s[i] - 32 as char else s[i])
  }

  datatype Word = OR | AND | NOT | IS | IN | NULL

  /** The keyword a name is, in whatever case it is written. */
  function WordOf(s: string): (w: Option<Word>) {
    var u := Upper(s);
    if u == "OR" then Some(OR) else if u == "AND" then Some(AND) else if u == "NOT" then Some(NOT)
    else if u == "IS" then Some(IS) else if u == "IN" then Some(IN) else if u == "NULL" then Some(NULL) else None
  }

  predicate IsWord(s: string, word: Word) { WordOf(s) == Some(word) }

  predicate Reserved(s: string) {
    Upper(s) in {"BETWEEN", "LIKE", "ILIKE", "EXISTS", "CASE", "WHEN", "THEN", "ELSE", "END", "SELECT", "FROM", "WHERE",
      "GROUP", "ORDER", "HAVING", "LIMIT", "OFFSET", "JOIN", "INNER", "LEFT", "RIGHT", "OUTER", "CROSS",
      "UNION", "INTERSECT", "EXCEPT"}
  }

  predicate LegalColumn(s: string) { !IsWord(s, NOT) && !Reserved(s) }

  /** A digit string is a number unless it has a second point. */
  predicate LegalNumber(s: string) {
    forall i, j :: 0 <= i < j < |s| && s[i] == '.' ==> s[j] != '.'
  }

  predicate Next(ts: Tokens, t: Token) { ts != [] && ts[0] == t }

  predicate NextWord(ts: Tokens, word: Word) { ts != [] && ts[0].Ident? && IsWord(ts[0].name, word) }

  // ----- derivations -----

  /** One constructor per alternative of the grammar, lists left-nested; keywords as spelt. */
  datatype OrD = OrOne(only: AndD) | OrMore(init: OrD, word: string, last: AndD)
  datatype AndD = AndOne(only: NotD) | AndMore(init: AndD, word: string, last: NotD)
  datatype NotD = NotOf(word: string, of: NotD) | Primary(p: PrimD)
  datatype PrimD = Paren(inner: OrD) | Atom(column: string, rest: AtomD)
  datatype AtomD =
    | CompareD(op: Comparison, v: ValD)
    | IsNullD(word: string, nul: string)
    | IsNotNullD(word: string, no: string, nul: string)
    | InD(word: string, vs: ValsD)
  datatype ValD = StrD(text: string) | NumD(digits: string) | NullD(nul: string)
  datatype ValsD = OneVal(v: ValD) | MoreVals(v: ValD, more: ValsD)

  function Cons(t: Token, ts: Tokens): (r: Tokens)
    ensures r != [] && r[0] == t && r[1..] == ts
  {
    [t] + ts
  }

  /** The tokens a derivation derives, put before `rest`. */
  function OrYield(d: OrD, rest: Tokens): (ts: Tokens)
    decreases d
  {
    match d
    case OrOne(a) => AndYield(a, rest)
    case OrMore(init, word, last) => OrYield(init, Cons(Ident(word), AndYield(last, rest)))
  }

  function AndYield(d: AndD, rest: Tokens): (ts: Tokens)
    decreases d
  {
    match d
    case AndOne(n) => NotYield(n, rest)
    case AndMore(init, word, last) => AndYield(init, Cons(Ident(word), NotYield(last, rest)))
  }

  function NotYield(d: NotD, rest: Tokens): (ts: Tokens)
    decreases d
  {
    match d
    case NotOf(word, n) => Cons(Ident(word), NotYield(n, rest))
    case Primary(p) => PrimYield(p, rest)
  }

  function PrimYield(d: PrimD, rest: Tokens): (ts: Tokens)
    decreases d
  {
    match d
    case Paren(e) => Cons(LParen, OrYield(e, Cons(RParen, rest)))
    case Atom(column, a) => Cons(Ident(column), AtomYield(a, rest))
  }

  function AtomYield(d: AtomD, rest: Tokens): (ts: Tokens) {
    match d
    case CompareD(op, v) => Cons(Op(op), Cons(ValYield(v), rest))
    case IsNullD(word, nul) => Cons(Ident(word), Cons(Ident(nul), rest))
    case IsNotNullD(word, no, nul) => Cons(Ident(word), Cons(Ident(no), Cons(Ident(nul), rest)))
    case InD(word, vs) => Cons(Ident(word), Cons(LParen, ValsYield(vs, Cons(RParen, rest))))
  }

  function ValYield(d: ValD): (t: Token) {
    match d
    case StrD(text) => Str(text)
    case NumD(digits) => Num(digits)
    case NullD(nul) => Ident(nul)
  }

  function ValsYield(d: ValsD, rest: Tokens): (ts: Tokens)
    decreases d
  {
    match d
    case OneVal(v) => Cons(ValYield(v), rest)
    case MoreVals(v, more) => Cons(ValYield(v), Cons(Comma, ValsYield(more, rest)))
  }

  /** Keywords are the keywords, columns and numbers are legal. */
  predicate OrLegal(d: OrD) {
    match d
    case OrOne(a) => AndLegal(a)
    case OrMore(init, word, last) => OrLegal(init) && IsWord(word, OR) && AndLegal(last)
  }

  predicate AndLegal(d: AndD) {
    match d
    case AndOne(n) => NotLegal(n)
    case AndMore(init, word, last) => AndLegal(init) && IsWord(word, AND) && NotLegal(last)
  }

  predicate NotLegal(d: NotD) {
    match d
    case NotOf(word, n) => IsWord(word, NOT) && NotLegal(n)
    case Primary(p) => PrimLegal(p)
  }

  predicate PrimLegal(d: PrimD) {
    match d
    case Paren(e) => OrLegal(e)
    case Atom(column, rest) => LegalColumn(column) && AtomLegal(rest)
  }

  predicate AtomLegal(d: AtomD) {
    match d
    case CompareD(_, v) => ValLegal(v)
    case IsNullD(word, nul) => IsWord(word, IS) && IsWord(nul, NULL)
    case IsNotNullD(word, no, nul) => IsWord(word, IS) && IsWord(no, NOT) && IsWord(nul, NULL)
    case InD(word, vs) => IsWord(word, IN) && ValsLegal(vs)
  }

  predicate ValLegal(d: ValD) {
    match d
    case StrD(_) => true
    case NumD(digits) => LegalNumber(digits)
    case NullD(nul) => IsWord(nul, NULL)
  }

  predicate ValsLegal(d: ValsD) {
    ValLegal(d.v) && (d.MoreVals? ==> ValsLegal(d.more))
  }

  /** The expression a derivation means: NOT binds tightest, then AND, then OR; both associate
      to the left, and parentheses leave no trace. */
  function OrTree(d: OrD): (e: Expr) {
    match d
    case OrOne(a) => AndTree(a)
    case OrMore(init, _, last) => Or(OrTree(init), AndTree(last))
  }

  function AndTree(d: AndD): (e: Expr) {
    match d
    case AndOne(n) => NotTree(n)
    case AndMore(init, _, last) => And(AndTree(init), NotTree(last))
  }

  function NotTree(d: NotD): (e: Expr) {
    match d
    case NotOf(_, n) => Not(NotTree(n))
    case Primary(p) => PrimTree(p)
  }

  function PrimTree(d: PrimD): (e: Expr) {
    match d
    case Paren(inner) => OrTree(inner)
    case Atom(column, rest) => AtomTree(column, rest)
  }

  function AtomTree(column: string, d: AtomD): (e: Expr) {
    match d
    case CompareD(op, v) => Compare(column, op, ValTree(v))
    case IsNullD(_, _) => IsNull(column, false)
    case IsNotNullD(_, _, _) => IsNull(column, true)
    case InD(_, vs) => In(column, ValsTree(vs))
  }

  function ValTree(d: ValD): (v: Value) {
    match d
    case StrD(text) => StrV(text)
    case NumD(digits) => NumV(digits)
    case NullD(_) => NullV
  }

  function ValsTree(d: ValsD): (vs: seq<Value>) {
    match d
    case OneVal(v) => [ValTree(v)]
    case MoreVals(v, more) => [ValTree(v)] + ValsTree(more)
  }

  // ----- the parse -----

  /** What was parsed, and the tokens after it. */
  datatype Parsed<T> = Fail | Parsed(value: T, rest: Tokens)

  function ParseValue(ts: Tokens): (r: Parsed<Value>)
    ensures r.Parsed? ==> |r.rest| < |ts|
  {
    if ts == [] then Fail
    else match ts[0]
      case Str(text) => Parsed(StrV(text), ts[1..])
      case Num(digits) => if LegalNumber(digits) then Parsed(NumV(digits), ts[1..]) else Fail
      case Ident(name) => if IsWord(name, NULL) then Parsed(NullV, ts[1..]) else Fail
      case _ => Fail
  }

  function ParseValues(ts: Tokens): (r: Parsed<seq<Value>>)
    ensures r.Parsed? ==> |r.rest| < |ts|
  {
    var v := ParseValue(ts);
    if v.Fail? then Fail
    else if !Next(v.rest, Comma) then Parsed([v.value], v.rest)
    else
      var more := ParseValues(v.rest[1..]);
      if more.Fail? then Fail else Parsed([v.value] + more.value, more.rest)
  }

  /** After IS. */
  function ParseIs(column: string, ts: Tokens): (r: Parsed<Expr>)
    ensures r.Parsed? ==> |r.rest| < |ts|
  {
    var notNull := NextWord(ts, NOT);
    var after := if notNull then ts[1..] else ts;
    if NextWord(after, NULL) then Parsed(IsNull(column, notNull), after[1..]) else Fail
  }

  /** After IN. */
  function ParseIn(column: string, ts: Tokens): (r: Parsed<Expr>)
    ensures r.Parsed? ==> |r.rest| < |ts|
  {
    if !Next(ts, LParen) then Fail
    else
      var vs := ParseValues(ts[1..]);
      if vs.Parsed? && Next(vs.rest, RParen) then Parsed(In(column, vs.value), vs.rest[1..]) else Fail
  }

  /** What follows a column. */
  function ParseAtom(column: string, ts: Tokens): (r: Parsed<Expr>)
    ensures r.Parsed? ==> |r.rest| < |ts|
  {
    if NextWord(ts, IS) then ParseIs(column, ts[1..])
    else if NextWord(ts, IN) then ParseIn(column, ts[1..])
    else if ts != [] && ts[0].Op? then
      var v := ParseValue(ts[1..]);
      if v.Parsed? then Parsed(Compare(column, ts[0].op, v.value), v.rest) else Fail
    else Fail
  }

  function ParseOr(ts: Tokens): (r: Parsed<Expr>)
    ensures r.Parsed? ==> |r.rest| < |ts|
    decreases |ts|, 4
  {
    var a := ParseAnd(ts);
    if a.Fail? then Fail else OrTail(a.value, a.rest)
  }

  function OrTail(left: Expr, ts: Tokens): (r: Parsed<Expr>)
    ensures r.Parsed? ==> |r.rest| <= |ts|
    decreases |ts|, 0
  {
    if !NextWord(ts, OR) then Parsed(left, ts)
    else
      var a := ParseAnd(ts[1..]);
      if a.Fail? then Fail else OrTail(Or(left, a.value), a.rest)
  }

  function ParseAnd(ts: Tokens): (r: Parsed<Expr>)
    ensures r.Parsed? ==> |r.rest| < |ts|
    decreases |ts|, 3
  {
    var n := ParseNot(ts);
    if n.Fail? then Fail else AndTail(n.value, n.rest)
  }

  function AndTail(left: Expr, ts: Tokens): (r: Parsed<Expr>)
    ensures r.Parsed? ==> |r.rest| <= |ts|
    decreases |ts|, 0
  {
    if !NextWord(ts, AND) then Parsed(left, ts)
    else
      var n := ParseNot(ts[1..]);
      if n.Fail? then Fail else AndTail(And(left, n.value), n.rest)
  }

  function ParseNot(ts: Tokens): (r: Parsed<Expr>)
    ensures r.Parsed? ==> |r.rest| < |ts|
    decreases |ts|, 2
  {
    if !NextWord(ts, NOT) then ParsePrimary(ts)
    else
      var n := ParseNot(ts[1..]);
      if n.Fail? then Fail else Parsed(Not(n.value), n.rest)
  }

  function ParsePrimary(ts: Tokens): (r: Parsed<Expr>)
    ensures r.Parsed? ==> |r.rest| < |ts|
    decreases |ts|, 1
  {
    if Next(ts, LParen) then
      var e := ParseOr(ts[1..]);
      if e.Parsed? && Next(e.rest, RParen) then Parsed(e.value, e.rest[1..]) else Fail
    else if ts == [] || !ts[0].Ident? || Reserved(ts[0].name) then Fail
    else ParseAtom(ts[0].name, ts[1..])
  }

  /** Everything must be consumed. */
  function Whole(e: Parsed<Expr>): (r: Option<Expr>) {
    if e.Parsed? && e.rest == [] then Some(e.value) else None
  }

  /** A whole filter. */
  function Parse(ts: Tokens): (r: Option<Expr>) { Whole(ParseOr(ts)) }
}
