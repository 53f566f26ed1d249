/** The WHERE parse accepts exactly the derivable token lists, and builds the one tree they
    have. */
module WhereSafety {
  import opened Common
  import opened WhereGrammar

  // ----- completeness: what is derivable is parsed -----

  lemma {:induction false} ValuesComplete(d: ValsD, rest: Tokens)
    requires ValsLegal(d) && !Next(rest, Comma)
    ensures ParseValues(ValsYield(d, rest)) == Parsed(ValsTree(d), rest)
  {
    if d.MoreVals? {
      ValuesComplete(d.more, rest);
    }
  }

  lemma AtomComplete(column: string, d: AtomD, rest: Tokens)
    requires AtomLegal(d)
    ensures ParseAtom(column, AtomYield(d, rest)) == Parsed(AtomTree(column, d), rest)
  {
    if d.InD? {
      ValuesComplete(d.vs, Cons(RParen, rest));
    }
  }

  lemma {:induction false} PrimComplete(d: PrimD, rest: Tokens)
    requires PrimLegal(d)
    ensures ParseNot(PrimYield(d, rest)) == Parsed(PrimTree(d), rest)
    decreases d
  {
    match d
    case Paren(e) =>
      OrComplete(e, Cons(RParen, rest));
      assert OrTail(OrTree(e), Cons(RParen, rest)) == Parsed(OrTree(e), Cons(RParen, rest));
    case Atom(column, a) => AtomComplete(column, a, rest);
  }

  lemma {:induction false} NotComplete(d: NotD, rest: Tokens)
    requires NotLegal(d)
    ensures ParseNot(NotYield(d, rest)) == Parsed(NotTree(d), rest)
    decreases d
  {
    match d
    case NotOf(_, n) => NotComplete(n, rest);
    case Primary(p) => PrimComplete(p, rest);
  }

  lemma {:induction false} AndComplete(d: AndD, rest: Tokens)
    requires AndLegal(d)
    ensures ParseAnd(AndYield(d, rest)) == AndTail(AndTree(d), rest)
    decreases d
  {
    match d
    case AndOne(n) => NotComplete(n, rest);
    case AndMore(init, word, last) =>
      AndComplete(init, Cons(Ident(word), NotYield(last, rest)));
      NotComplete(last, rest);
  }

  lemma {:induction false} OrComplete(d: OrD, rest: Tokens)
    requires OrLegal(d) && !NextWord(rest, AND)
    ensures ParseOr(OrYield(d, rest)) == OrTail(OrTree(d), rest)
    decreases d
  {
    match d
    case OrOne(a) => AndComplete(a, rest);
    case OrMore(init, word, last) =>
      OrComplete(init, Cons(Ident(word), AndYield(last, rest)));
      AndComplete(last, rest);
  }

  // ----- soundness: what is parsed is derivable -----

  lemma Uncons(ts: Tokens)
    requires ts != []
    ensures ts == Cons(ts[0], ts[1..])
  {
  }

  lemma ValueSound(ts: Tokens) returns (d: ValD)
    requires ParseValue(ts).Parsed?
    ensures ValLegal(d) && ValTree(d) == ParseValue(ts).value && ts == Cons(ValYield(d), ParseValue(ts).rest)
  {
    Uncons(ts);
    if ts[0].Str? {
      d := StrD(ts[0].text);
    } else if ts[0].Num? {
      d := NumD(ts[0].digits);
    } else {
      d := NullD(ts[0].name);
    }
  }

  lemma {:induction false} ValuesSound(ts: Tokens) returns (d: ValsD)
    requires ParseValues(ts).Parsed?
    ensures ValsLegal(d) && ValsTree(d) == ParseValues(ts).value && ts == ValsYield(d, ParseValues(ts).rest)
    decreases |ts|
  {
    var v := ValueSound(ts);
    var rest := ParseValue(ts).rest;
    if Next(rest, Comma) {
      Uncons(rest);
      var more := ValuesSound(rest[1..]);
      d := MoreVals(v, more);
    } else {
      d := OneVal(v);
    }
  }

  lemma IsSound(column: string, word: string, ts: Tokens) returns (d: AtomD)
    requires IsWord(word, IS) && ParseIs(column, ts).Parsed?
    ensures AtomLegal(d) && AtomTree(column, d) == ParseIs(column, ts).value
    ensures Cons(Ident(word), ts) == AtomYield(d, ParseIs(column, ts).rest)
  {
    Uncons(ts);
    if NextWord(ts, NOT) {
      Uncons(ts[1..]);
      d := IsNotNullD(word, ts[0].name, ts[1].name);
    } else {
      d := IsNullD(word, ts[0].name);
    }
  }

  lemma InSound(column: string, word: string, ts: Tokens) returns (d: AtomD)
    requires IsWord(word, IN) && ParseIn(column, ts).Parsed?
    ensures AtomLegal(d) && AtomTree(column, d) == ParseIn(column, ts).value
    ensures Cons(Ident(word), ts) == AtomYield(d, ParseIn(column, ts).rest)
  {
    var vs := ValuesSound(ts[1..]);
    d := InD(word, vs);
    Uncons(ts);
    Uncons(ParseValues(ts[1..]).rest);
  }

  lemma AtomSound(column: string, ts: Tokens) returns (d: AtomD)
    requires ParseAtom(column, ts).Parsed?
    ensures AtomLegal(d) && AtomTree(column, d) == ParseAtom(column, ts).value
    ensures ts == AtomYield(d, ParseAtom(column, ts).rest)
  {
    Uncons(ts);
    if NextWord(ts, IS) {
      d := IsSound(column, ts[0].name, ts[1..]);
    } else if NextWord(ts, IN) {
      d := InSound(column, ts[0].name, ts[1..]);
    } else {
      var v := ValueSound(ts[1..]);
      d := CompareD(ts[0].op, v);
    }
  }

  lemma {:induction false} PrimarySound(ts: Tokens) returns (d: PrimD)
    requires ParsePrimary(ts).Parsed? && !NextWord(ts, NOT)
    ensures PrimLegal(d) && PrimTree(d) == ParsePrimary(ts).value && ts == PrimYield(d, ParsePrimary(ts).rest)
    decreases |ts|, 1
  {
    Uncons(ts);
    if Next(ts, LParen) {
      var e := OrSound(ts[1..]);
      d := Paren(e);
      Uncons(ParseOr(ts[1..]).rest);
    } else {
      var a := AtomSound(ts[0].name, ts[1..]);
      d := Atom(ts[0].name, a);
    }
  }

  lemma {:induction false} NotSound(ts: Tokens) returns (d: NotD)
    requires ParseNot(ts).Parsed?
    ensures NotLegal(d) && NotTree(d) == ParseNot(ts).value && ts == NotYield(d, ParseNot(ts).rest)
    decreases |ts|, 2
  {
    if NextWord(ts, NOT) {
      Uncons(ts);
      var n := NotSound(ts[1..]);
      d := NotOf(ts[0].name, n);
    } else {
      var p := PrimarySound(ts);
      d := Primary(p);
    }
  }

  lemma {:induction false} AndTailSound(left: AndD, ts: Tokens) returns (d: AndD)
    requires AndLegal(left) && AndTail(AndTree(left), ts).Parsed?
    ensures AndLegal(d) && AndTree(d) == AndTail(AndTree(left), ts).value
    ensures AndYield(left, ts) == AndYield(d, AndTail(AndTree(left), ts).rest)
    decreases |ts|, 0
  {
    if NextWord(ts, AND) {
      Uncons(ts);
      var n := NotSound(ts[1..]);
      d := AndTailSound(AndMore(left, ts[0].name, n), ParseNot(ts[1..]).rest);
    } else {
      d := left;
    }
  }

  lemma {:induction false} AndSound(ts: Tokens) returns (d: AndD)
    requires ParseAnd(ts).Parsed?
    ensures AndLegal(d) && AndTree(d) == ParseAnd(ts).value && ts == AndYield(d, ParseAnd(ts).rest)
    decreases |ts|, 3
  {
    var n := NotSound(ts);
    d := AndTailSound(AndOne(n), ParseNot(ts).rest);
  }

  lemma {:induction false} OrTailSound(left: OrD, ts: Tokens) returns (d: OrD)
    requires OrLegal(left) && OrTail(OrTree(left), ts).Parsed?
    ensures OrLegal(d) && OrTree(d) == OrTail(OrTree(left), ts).value
    ensures OrYield(left, ts) == OrYield(d, OrTail(OrTree(left), ts).rest)
    decreases |ts|, 0
  {
    if NextWord(ts, OR) {
      Uncons(ts);
      var a := AndSound(ts[1..]);
      d := OrTailSound(OrMore(left, ts[0].name, a), ParseAnd(ts[1..]).rest);
    } else {
      d := left;
    }
  }

  lemma {:induction false} OrSound(ts: Tokens) returns (d: OrD)
    requires ParseOr(ts).Parsed?
    ensures OrLegal(d) && OrTree(d) == ParseOr(ts).value && ts == OrYield(d, ParseOr(ts).rest)
    decreases |ts|, 4
  {
    var a := AndSound(ts);
    d := OrTailSound(OrOne(a), ParseAnd(ts).rest);
  }

  // ----- the language -----

  /** A token list is accepted with tree `e` exactly when the grammar derives it with that
      tree. */
  lemma AcceptsExactlyTheGrammar(ts: Tokens, e: Expr)
    ensures Parse(ts) == Some(e) <==> exists d :: OrLegal(d) && OrYield(d, []) == ts && OrTree(d) == e
  {
    if Parse(ts) == Some(e) {
      var d := OrSound(ts);
    }
    if d :| OrLegal(d) && OrYield(d, []) == ts && OrTree(d) == e {
      OrComplete(d, []);
    }
  }

  /** No list has two trees. */
  lemma TreeIsUnique(c: OrD, d: OrD)
    requires OrLegal(c) && OrLegal(d) && OrYield(c, []) == OrYield(d, [])
    ensures OrTree(c) == OrTree(d)
  {
    AcceptsExactlyTheGrammar(OrYield(c, []), OrTree(c));
    AcceptsExactlyTheGrammar(OrYield(d, []), OrTree(d));
  }
}
