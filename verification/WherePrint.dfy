/** Printing a filter with as few parentheses as the grammar allows. */
module WherePrint {
  import opened Common
  import opened WhereGrammar
  import opened WhereSafety

  /** Columns and numbers that can be written, and no empty IN list. */
  predicate Writable(e: Expr) {
    match e
    case Or(l, r) => Writable(l) && Writable(r)
    case And(l, r) => Writable(l) && Writable(r)
    case Not(c) => Writable(c)
    case Compare(column, _, v) => LegalColumn(column) && WritableValue(v)
    case IsNull(column, _) => LegalColumn(column)
    case In(column, vs) => LegalColumn(column) && vs != [] && forall i :: 0 <= i < |vs| ==> WritableValue(vs[i])
  }

  predicate WritableValue(v: Value) { v.NumV? ==> LegalNumber(v.digits) }

  function PrintVal(v: Value): (d: ValD) {
    match v
    case StrV(text) => StrD(text)
    case NumV(digits) => NumD(digits)
    case NullV => NullD("NULL")
  }

  function PrintVals(vs: seq<Value>): (d: ValsD)
    requires vs != []
  {
    if |vs| == 1 then OneVal(PrintVal(vs[0])) else MoreVals(PrintVal(vs[0]), PrintVals(vs[1..]))
  }

  /** Among mutually recursive printers, who may call whom on the same expression. */
  function Rank(e: Expr, level: nat): (r: nat) {
    if e.Or? then (level + 1) % 4 else if e.And? then (level + 2) % 4 else if e.Not? then (level + 3) % 4 else level
  }

  /** Parentheses only where the grammar level forbids the expression. */
  function PrintOr(e: Expr): (d: OrD)
    requires Writable(e)
    decreases e, Rank(e, 3)
  {
    if e.Or? then OrMore(PrintOr(e.left), "OR", PrintAnd(e.right)) else OrOne(PrintAnd(e))
  }

  function PrintAnd(e: Expr): (d: AndD)
    requires Writable(e)
    decreases e, Rank(e, 2)
  {
    if e.And? then AndMore(PrintAnd(e.left), "AND", PrintNot(e.right)) else AndOne(PrintNot(e))
  }

  function PrintNot(e: Expr): (d: NotD)
    requires Writable(e)
    decreases e, Rank(e, 1)
  {
    if e.Not? then NotOf("NOT", PrintNot(e.child)) else Primary(PrintPrim(e))
  }

  function PrintPrim(e: Expr): (d: PrimD)
    requires Writable(e)
    decreases e, Rank(e, 0)
  {
    if e.Compare? then Atom(e.column, CompareD(e.op, PrintVal(e.value)))
    else if e.IsNull? then Atom(e.column, if e.notNull then IsNotNullD("IS", "NOT", "NULL") else IsNullD("IS", "NULL"))
    else if e.In? then Atom(e.column, InD("IN", PrintVals(e.values)))
    else Paren(PrintOr(e))
  }

  lemma Keywords()
    ensures IsWord("OR", OR) && IsWord("AND", AND) && IsWord("NOT", NOT)
    ensures IsWord("IS", IS) && IsWord("IN", IN) && IsWord("NULL", NULL)
  {
    assert Upper("OR") == "OR" && Upper("AND") == "AND" && Upper("NOT") == "NOT";
    assert Upper("IS") == "IS" && Upper("IN") == "IN" && Upper("NULL") == "NULL";
  }

  lemma {:induction false} ValsMeaning(vs: seq<Value>)
    requires vs != [] && forall i :: 0 <= i < |vs| ==> WritableValue(vs[i])
    ensures ValsLegal(PrintVals(vs)) && ValsTree(PrintVals(vs)) == vs
  {
    Keywords();
    if |vs| > 1 {
      ValsMeaning(vs[1..]);
    }
  }

  lemma {:induction false} PrimMeaning(e: Expr)
    requires Writable(e)
    ensures PrimLegal(PrintPrim(e)) && PrimTree(PrintPrim(e)) == e
    decreases e, Rank(e, 0)
  {
    Keywords();
    if e.In? {
      ValsMeaning(e.values);
    } else if e.Or? || e.And? || e.Not? {
      OrMeaning(e);
    }
  }

  lemma {:induction false} NotMeaning(e: Expr)
    requires Writable(e)
    ensures NotLegal(PrintNot(e)) && NotTree(PrintNot(e)) == e
    decreases e, Rank(e, 1)
  {
    Keywords();
    if e.Not? {
      NotMeaning(e.child);
    } else {
      PrimMeaning(e);
    }
  }

  lemma {:induction false} AndMeaning(e: Expr)
    requires Writable(e)
    ensures AndLegal(PrintAnd(e)) && AndTree(PrintAnd(e)) == e
    decreases e, Rank(e, 2)
  {
    Keywords();
    if e.And? {
      AndMeaning(e.left);
      NotMeaning(e.right);
    } else {
      NotMeaning(e);
    }
  }

  lemma {:induction false} OrMeaning(e: Expr)
    requires Writable(e)
    ensures OrLegal(PrintOr(e)) && OrTree(PrintOr(e)) == e
    decreases e, Rank(e, 3)
  {
    Keywords();
    if e.Or? {
      OrMeaning(e.left);
      AndMeaning(e.right);
    } else {
      AndMeaning(e);
    }
  }

  /** What is printed parses back to the same tree. */
  lemma PrintParsesBack(e: Expr)
    requires Writable(e)
    ensures Parse(OrYield(PrintOr(e), [])) == Some(e)
  {
    OrMeaning(e);
    AcceptsExactlyTheGrammar(OrYield(PrintOr(e), []), e);
  }

  // ----- minimality -----

  /** How many tokens a derivation derives. */
  function OrSize(d: OrD): (n: nat) {
    match d
    case OrOne(a) => AndSize(a)
    case OrMore(init, _, last) => OrSize(init) + 1 + AndSize(last)
  }

  function AndSize(d: AndD): (n: nat) {
    match d
    case AndOne(a) => NotSize(a)
    case AndMore(init, _, last) => AndSize(init) + 1 + NotSize(last)
  }

  function NotSize(d: NotD): (n: nat) {
    match d
    case NotOf(_, n) => 1 + NotSize(n)
    case Primary(p) => PrimSize(p)
  }

  function PrimSize(d: PrimD): (n: nat) {
    match d
    case Paren(e) => OrSize(e) + 2
    case Atom(_, rest) => 1 + AtomSize(rest)
  }

  function AtomSize(d: AtomD): (n: nat) {
    match d
    case CompareD(_, _) => 2
    case IsNullD(_, _) => 2
    case IsNotNullD(_, _, _) => 3
    case InD(_, vs) => 3 + ValsSize(vs)
  }

  function ValsSize(d: ValsD): (n: nat) {
    if d.MoreVals? then 2 + ValsSize(d.more) else 1
  }

  lemma {:induction false} ValsLength(d: ValsD, rest: Tokens)
    ensures |ValsYield(d, rest)| == ValsSize(d) + |rest|
  {
    if d.MoreVals? {
      ValsLength(d.more, rest);
    }
  }

  lemma {:induction false} PrimLength(d: PrimD, rest: Tokens)
    ensures |PrimYield(d, rest)| == PrimSize(d) + |rest|
    decreases d
  {
    match d
    case Paren(e) => OrLength(e, Cons(RParen, rest));
    case Atom(_, a) =>
      if a.InD? {
        ValsLength(a.vs, Cons(RParen, rest));
      }
  }

  lemma {:induction false} NotLength(d: NotD, rest: Tokens)
    ensures |NotYield(d, rest)| == NotSize(d) + |rest|
    decreases d
  {
    match d
    case NotOf(_, n) => NotLength(n, rest);
    case Primary(p) => PrimLength(p, rest);
  }

  lemma {:induction false} AndLength(d: AndD, rest: Tokens)
    ensures |AndYield(d, rest)| == AndSize(d) + |rest|
    decreases d
  {
    match d
    case AndOne(n) => NotLength(n, rest);
    case AndMore(init, word, last) =>
      AndLength(init, Cons(Ident(word), NotYield(last, rest)));
      NotLength(last, rest);
  }

  lemma {:induction false} OrLength(d: OrD, rest: Tokens)
    ensures |OrYield(d, rest)| == OrSize(d) + |rest|
    decreases d
  {
    match d
    case OrOne(a) => AndLength(a, rest);
    case OrMore(init, word, last) =>
      OrLength(init, Cons(Ident(word), AndYield(last, rest)));
      AndLength(last, rest);
  }

  /** A level that must parenthesise costs the two parentheses, any other nothing. */
  lemma {:induction false} Sizes(e: Expr)
    requires Writable(e)
    ensures OrSize(PrintOr(e)) <= AndSize(PrintAnd(e)) <= NotSize(PrintNot(e)) <= PrimSize(PrintPrim(e)) <=
        OrSize(PrintOr(e)) + 2
  {
    var o, a, n, p := PrintOr(e), PrintAnd(e), PrintNot(e), PrintPrim(e);
    assert OrSize(OrOne(a)) == AndSize(a) && AndSize(AndOne(n)) == NotSize(n);
    assert NotSize(Primary(p)) == PrimSize(p) && PrimSize(Paren(o)) == OrSize(o) + 2;
    assert !e.Or? ==> o == OrOne(a);
    assert !e.And? ==> a == AndOne(n);
    assert !e.Not? ==> n == Primary(p);
    assert e.Or? || e.And? || e.Not? ==> p == Paren(o);
  }

  lemma {:induction false} ValsCount(d: ValsD)
    requires ValsLegal(d)
    ensures ValsTree(d) != [] && ValsSize(d) == 2 * |ValsTree(d)| - 1
    ensures forall i :: 0 <= i < |ValsTree(d)| ==> WritableValue(ValsTree(d)[i])
  {
    if d.MoreVals? {
      ValsCount(d.more);
    }
  }

  lemma {:induction false} PrimIsLeast(d: PrimD)
    requires PrimLegal(d)
    ensures Writable(PrimTree(d)) && PrimSize(PrintPrim(PrimTree(d))) <= PrimSize(d)
    decreases d
  {
    match d
    case Paren(e) =>
      OrIsLeast(e);
      Sizes(OrTree(e));
    case Atom(column, rest) =>
      if rest.InD? {
        ValsCount(rest.vs);
        ValsMeaning(ValsTree(rest.vs));
        ValsCount(PrintVals(ValsTree(rest.vs)));
      }
  }

  lemma {:induction false} NotIsLeast(d: NotD)
    requires NotLegal(d)
    ensures Writable(NotTree(d)) && NotSize(PrintNot(NotTree(d))) <= NotSize(d)
    decreases d
  {
    match d
    case NotOf(_, n) => NotIsLeast(n);
    case Primary(p) =>
      PrimIsLeast(p);
      Sizes(PrimTree(p));
  }

  lemma {:induction false} AndIsLeast(d: AndD)
    requires AndLegal(d)
    ensures Writable(AndTree(d)) && AndSize(PrintAnd(AndTree(d))) <= AndSize(d)
    decreases d
  {
    match d
    case AndOne(n) =>
      NotIsLeast(n);
      Sizes(NotTree(n));
    case AndMore(init, _, last) =>
      AndIsLeast(init);
      NotIsLeast(last);
  }

  /** No derivation of the same tree is shorter than the print. */
  lemma {:induction false} OrIsLeast(d: OrD)
    requires OrLegal(d)
    ensures Writable(OrTree(d)) && OrSize(PrintOr(OrTree(d))) <= OrSize(d)
    decreases d
  {
    match d
    case OrOne(a) =>
      AndIsLeast(a);
      Sizes(AndTree(a));
    case OrMore(init, _, last) =>
      OrIsLeast(init);
      AndIsLeast(last);
  }

  /** Among all token lists that parse to a tree, the print is one of the shortest. */
  lemma PrintIsMinimal(ts: Tokens, e: Expr)
    requires Parse(ts) == Some(e)
    ensures Writable(e) && |OrYield(PrintOr(e), [])| <= |ts|
  {
    var d := OrSound(ts);
    OrIsLeast(d);
    OrLength(d, []);
    OrLength(PrintOr(e), []);
  }
}
