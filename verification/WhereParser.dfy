/** The recursive-descent parser with its position field (internal/output/row_filter.go): each
    method is the parse function of the tokens still ahead. */
module WhereParser {
  import opened Common
  import opened WhereGrammar

  class Parser {
    const tokens: Tokens
    var pos: nat

    ghost predicate Valid() reads this { pos <= |tokens| }

    function Ahead(): (ts: Tokens)
      requires pos <= |tokens|
      reads this
    {
      tokens[pos..]
    }

    constructor (tokens: Tokens)
      ensures Valid() && this.tokens == tokens && Ahead() == tokens
    {
      this.tokens, pos := tokens, 0;
    }

    predicate At(t: Token)
      requires pos <= |tokens|
      reads this
    {
      pos < |tokens| && tokens[pos] == t
    }

    predicate IsKeyword(word: Word)
      requires pos <= |tokens|
      reads this
    {
      pos < |tokens| && tokens[pos].Ident? && IsWord(tokens[pos].name, word)
    }

    method Consume() returns (t: Token)
      requires Valid() && pos < |tokens|
      modifies this
      ensures Valid() && old(Ahead()) == [t] + Ahead() && pos == old(pos) + 1
    {
      t := tokens[pos];
      pos := pos + 1;
    }

    /** `r` is what `f` parsed, and the parser stands right after it. */
    ghost predicate Did<T>(r: Option<T>, f: Parsed<T>)
      reads this
    {
      && (r.Some? <==> f.Parsed?)
      && (r.Some? ==> Valid() && f == Parsed(r.value, Ahead()))
    }

    method ParseValueAt() returns (r: Option<Value>)
      requires Valid()
      modifies this
      ensures Did(r, ParseValue(old(Ahead()))) && pos >= old(pos)
    {
      if pos == |tokens| {
        return None;
      }
      var t := tokens[pos];
      if t.Str? {
        var _ := Consume();
        r := Some(StrV(t.text));
      } else if t.Num? {
        var _ := Consume();
        r := if LegalNumber(t.digits) then Some(NumV(t.digits)) else None;
      } else if t.Ident? && IsWord(t.name, NULL) {
        var _ := Consume();
        r := Some(NullV);
      } else {
        r := None;
      }
    }

    /** The value list of IN. */
    method ParseValueList() returns (r: Option<seq<Value>>)
      requires Valid()
      modifies this
      ensures Did(r, ParseValues(old(Ahead()))) && pos >= old(pos)
    {
      var vs: seq<Value> := [];
      AfterNothing(ParseValues(Ahead()));
      while true
        invariant Valid() && pos >= old(pos)
        invariant ParseValues(old(Ahead())) == After(vs, ParseValues(Ahead()))
        decreases |tokens| - pos
      {
        ghost var here := Ahead();
        var v := ParseValueAt();
        if v.None? {
          return None;
        }
        ListStep(vs, v.value, here, Ahead());
        vs := vs + [v.value];
        if !At(Comma) {
          return Some(vs);
        }
        var _ := Consume();
      }
    }

    method ParseAfterIs(column: string) returns (r: Option<Expr>)
      requires Valid()
      modifies this
      ensures Did(r, ParseIs(column, old(Ahead()))) && pos >= old(pos)
    {
      var notNull := IsKeyword(NOT);
      if notNull {
        var _ := Consume();
      }
      r := None;
      if IsKeyword(NULL) {
        var _ := Consume();
        r := Some(IsNull(column, notNull));
      }
    }

    method ParseAfterIn(column: string) returns (r: Option<Expr>)
      requires Valid()
      modifies this
      ensures Did(r, ParseIn(column, old(Ahead()))) && pos >= old(pos)
    {
      r := None;
      if At(LParen) {
        var _ := Consume();
        var vs := ParseValueList();
        if vs.Some? && At(RParen) {
          var _ := Consume();
          r := Some(In(column, vs.value));
        }
      }
    }

    /** A comparison, after its column. */
    method ParseAfterColumn(column: string) returns (r: Option<Expr>)
      requires Valid()
      modifies this
      ensures Did(r, ParseAtom(column, old(Ahead()))) && pos >= old(pos)
    {
      r := None;
      if IsKeyword(IS) {
        var _ := Consume();
        r := ParseAfterIs(column);
      } else if IsKeyword(IN) {
        var _ := Consume();
        r := ParseAfterIn(column);
      } else if pos < |tokens| && tokens[pos].Op? {
        var op := Consume();
        var v := ParseValueAt();
        if v.Some? {
          r := Some(Compare(column, op.op, v.value));
        }
      }
    }

    method ParsePrimaryExpr() returns (r: Option<Expr>)
      requires Valid()
      modifies this
      ensures Did(r, ParsePrimary(old(Ahead()))) && pos >= old(pos)
      decreases |tokens| - pos, 1
    {
      r := None;
      if At(LParen) {
        var _ := Consume();
        var inner := ParseOrExpr();
        if inner.Some? && At(RParen) {
          var _ := Consume();
          r := inner;
        }
      } else if pos < |tokens| && tokens[pos].Ident? && !Reserved(tokens[pos].name) {
        var column := Consume();
        r := ParseAfterColumn(column.name);
      }
    }

    method ParseNotExpr() returns (r: Option<Expr>)
      requires Valid()
      modifies this
      ensures Did(r, ParseNot(old(Ahead()))) && pos >= old(pos)
      decreases |tokens| - pos, 2
    {
      if IsKeyword(NOT) {
        var _ := Consume();
        var child := ParseNotExpr();
        r := if child.Some? then Some(Not(child.value)) else None;
      } else {
        r := ParsePrimaryExpr();
      }
    }

    method ParseAndExpr() returns (r: Option<Expr>)
      requires Valid()
      modifies this
      ensures Did(r, ParseAnd(old(Ahead()))) && pos >= old(pos)
      decreases |tokens| - pos, 3
    {
      r := ParseNotExpr();
      if r.None? {
        return;
      }
      var left := r.value;
      while IsKeyword(AND)
        invariant Valid() && pos > old(pos)
        invariant ParseAnd(old(Ahead())) == AndTail(left, Ahead())
        decreases |tokens| - pos
      {
        var _ := Consume();
        var right := ParseNotExpr();
        if right.None? {
          return None;
        }
        left := And(left, right.value);
      }
      r := Some(left);
    }

    method ParseOrExpr() returns (r: Option<Expr>)
      requires Valid()
      modifies this
      ensures Did(r, ParseOr(old(Ahead()))) && pos >= old(pos)
      decreases |tokens| - pos, 4
    {
      r := ParseAndExpr();
      if r.None? {
        return;
      }
      var left := r.value;
      while IsKeyword(OR)
        invariant Valid() && pos > old(pos)
        invariant ParseOr(old(Ahead())) == OrTail(left, Ahead())
        decreases |tokens| - pos
      {
        var _ := Consume();
        var right := ParseAndExpr();
        if right.None? {
          return None;
        }
        left := Or(left, right.value);
      }
      r := Some(left);
    }

    method ParseToEnd() returns (r: Option<Expr>)
      requires Valid()
      modifies this
      ensures r == Whole(ParseOr(old(Ahead())))
    {
      r := ParseOrExpr();
      if r.Some? && pos < |tokens| {
        r := None;
      }
    }
  }

  /** The whole filter. */
  method ParseFilter(tokens: Tokens) returns (r: Option<Expr>)
    ensures r == Parse(tokens)
  {
    var p := new Parser(tokens);
    r := p.ParseToEnd();
  }

  /** Values already read, put before the values still to come. */
  function After(vs: seq<Value>, r: Parsed<seq<Value>>): (r': Parsed<seq<Value>>) {
    if r.Fail? then Fail else Parsed(vs + r.value, r.rest)
  }

  lemma AfterNothing(r: Parsed<seq<Value>>)
    ensures After([], r) == r
  {
    assert r.Parsed? ==> [] + r.value == r.value;
  }

  lemma ListStep(vs: seq<Value>, v: Value, here: Tokens, ahead: Tokens)
    requires ParseValue(here) == Parsed(v, ahead)
    ensures After(vs, ParseValues(here)) ==
            if Next(ahead, Comma) then After(vs + [v], ParseValues(ahead[1..])) else Parsed(vs + [v], ahead)
  {
    if Next(ahead, Comma) {
      var more := ParseValues(ahead[1..]);
      assert more.Parsed? ==> vs + ([v] + more.value) == vs + [v] + more.value;
    }
  }
}
