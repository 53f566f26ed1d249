/** Which texts the lexer of row filters takes apart, and into which tokens
    (internal/output/row_filter.go): spelt tokens, each as long as it can be, with or without
    blanks between them. */
module WhereTexts {
  import opened Common
  import opened WhereGrammar
  import opened WhereLexer

  predicate Stops(k: Class, rest: string) { rest == "" || !InClass(k, rest[0]) }

  /** The token cannot go on into `rest`. */
  predicate Ends(t: Token, rest: string) {
    match t
    case Ident(_) => Stops(NameChars, rest)
    case Num(_) => Stops(Digits, rest)
    case Op(op) => op in {Greater, Less} ==> rest == "" || rest[0] != '='
    case _ => true
  }

  predicate Blank(s: string) { forall i :: 0 <= i < |s| ==> IsSpace(s[i]) }

  /** `s` is these tokens, spelt. */
  ghost predicate Reads(s: string, ts: Tokens)
    decreases |ts|
  {
    if ts == [] then Blank(s)
    else exists b, rest :: s == b + (Spell(ts[0]) + rest) && Blank(b) && Spellable(ts[0]) && Ends(ts[0], rest)
                           && Reads(rest, ts[1..])
  }

  // ----- one token, forwards -----

  lemma {:induction false} Counts(x: string, rest: string, k: Class)
    requires (forall i :: 0 <= i < |x| ==> InClass(k, x[i])) && Stops(k, rest)
    ensures Count(x + rest, k) == |x|
  {
    if x == "" {
      assert x + rest == rest;
    } else {
      assert (x + rest)[1..] == x[1..] + rest;
      Counts(x[1..], rest, k);
    }
  }

  lemma ReadsString(text: string, rest: string)
    requires Spellable(Str(text))
    ensures Spell(Str(text)) + rest != "" && LexOne(Spell(Str(text)) + rest) == Lexed(Str(text), |text| + 2)
  {
    var s, tail := Spell(Str(text)) + rest, "'" + rest;
    assert s[1..] == text + tail;
    Counts(text, tail, NotQuote);
    assert s[1..|text| + 1] == text;
  }

  lemma ReadsNumber(d: string, rest: string)
    requires Spellable(Num(d)) && Stops(Digits, rest)
    ensures d + rest != "" && LexOne(d + rest) == Lexed(Num(d), |d|)
  {
    var s := d + rest;
    assert s[0] == d[0] && LexSign(s).Bad?;
    if d[0] == '-' {
      assert s[1..] == d[1..] + rest;
      Counts(d[1..], rest, Digits);
    } else {
      Counts(d, rest, Digits);
    }
    assert s[..|d|] == d;
  }

  lemma ReadsName(name: string, rest: string)
    requires Spellable(Ident(name)) && Stops(NameChars, rest)
    ensures name + rest != "" && LexOne(name + rest) == Lexed(Ident(name), |name|)
  {
    var s := name + rest;
    assert s[0] == name[0] && LexSign(s).Bad?;
    Counts(name, rest, NameChars);
    assert s[..|name|] == name;
  }

  lemma ReadsSign(t: Token, rest: string)
    requires (t.Op? || t.LParen? || t.RParen? || t.Comma?) && Ends(t, rest)
    ensures Spell(t) + rest != "" && LexOne(Spell(t) + rest) == Lexed(t, |Spell(t)|)
  {
    var s := Spell(t) + rest;
    assert s[0] == Spell(t)[0] && (|Spell(t)| > 1 ==> s[1] == Spell(t)[1]);
    assert |Spell(t)| == 1 && rest != "" ==> s[1] == rest[0];
  }

  lemma ReadsOne(t: Token, rest: string)
    requires Spellable(t) && Ends(t, rest)
    ensures Spell(t) != "" && !IsSpace(Spell(t)[0])
    ensures LexOne(Spell(t) + rest) == Lexed(t, |Spell(t)|)
  {
    match t
    case Ident(name) => ReadsName(name, rest);
    case Str(text) => ReadsString(text, rest);
    case Num(d) => ReadsNumber(d, rest);
    case _ => ReadsSign(t, rest);
  }

  // ----- one token, backwards -----

  lemma {:induction false} CountIs(s: string, k: Class)
    ensures var n := Count(s, k); (forall i :: 0 <= i < n ==> InClass(k, s[i])) && Stops(k, s[n..])
  {
    if s != "" && InClass(k, s[0]) {
      CountIs(s[1..], k);
      var n := Count(s[1..], k);
      assert s[1..][n..] == s[n + 1..];
      forall i | 0 <= i < n + 1 ensures InClass(k, s[i]) {
        assert i > 0 ==> s[i] == s[1..][i - 1];
      }
    }
  }

  lemma OneIsSpelt(s: string)
    requires s != "" && LexOne(s).Lexed?
    ensures var one := LexOne(s);
            Spellable(one.t) && s == Spell(one.t) + s[one.used..] && Ends(one.t, s[one.used..])
  {
    if s[0] == '\'' {
      StringIsSpelt(s);
    } else if LexSign(s).Lexed? {
      SignIsSpelt(s);
    } else if StartsNumber(s) {
      NumberIsSpelt(s);
    } else {
      CountIs(s, NameChars);
    }
  }

  lemma SignIsSpelt(s: string)
    requires s != "" && LexSign(s).Lexed?
    ensures var one := LexSign(s);
            && one.used <= |s| && Spellable(one.t) && Spell(one.t) == s[..one.used] && Ends(one.t, s[one.used..])
  {
    var one := LexSign(s);
    assert s[..one.used] == if one.used == 1 then [s[0]] else [s[0], s[1]];
  }

  lemma StringIsSpelt(s: string)
    requires s != "" && s[0] == '\'' && LexOne(s).Lexed?
    ensures var one := LexOne(s); Spellable(one.t) && one.t.Str? && s == Spell(one.t) + s[one.used..]
  {
    var n := Count(s[1..], NotQuote);
    CountIs(s[1..], NotQuote);
    assert s[1..][n..] == s[n + 1..] && s[n + 1] == '\'';
    var text := s[1..n + 1];
    forall i | 0 <= i < n ensures text[i] != '\'' {
      assert text[i] == s[1..][i];
    }
    assert s == ['\''] + s[1..n + 1] + ['\''] + s[n + 2..];
  }

  lemma NumberIsSpelt(s: string)
    requires StartsNumber(s)
    ensures var n := if s[0] == '-' then 1 + Count(s[1..], Digits) else Count(s, Digits);
            Spellable(Num(s[..n])) && Stops(Digits, s[n..])
  {
    if s[0] == '-' {
      var m := Count(s[1..], Digits);
      CountIs(s[1..], Digits);
      assert s[1..][m..] == s[m + 1..];
      assert m > 0 by {
        assert s[1..][0] == s[1];
      }
      var d := s[..m + 1];
      forall i | 0 < i < m + 1 ensures InClass(Digits, d[i]) {
        assert d[i] == s[1..][i - 1];
      }
    } else {
      CountIs(s, Digits);
    }
  }

  // ----- all of them -----

  lemma {:induction false} SkipsBlanks(b: string, s: string)
    requires Blank(b)
    ensures Lex(b + s) == Lex(s)
  {
    if b == "" {
      assert b + s == s;
    } else {
      assert (b + s)[1..] == b[1..] + s;
      SkipsBlanks(b[1..], s);
    }
  }

  lemma {:induction false} LexComplete(s: string, ts: Tokens)
    requires Reads(s, ts)
    ensures Lex(s) == Some(ts)
    decreases |ts|
  {
    if ts == [] {
      assert s + "" == s;
      SkipsBlanks(s, "");
    } else {
      var b, rest :| s == b + (Spell(ts[0]) + rest) && Blank(b) && Spellable(ts[0]) && Ends(ts[0], rest)
                     && Reads(rest, ts[1..]);
      SkipsBlanks(b, Spell(ts[0]) + rest);
      LexComplete(rest, ts[1..]);
      LexFirst(ts[0], rest);
      assert ts == Cons(ts[0], ts[1..]);
    }
  }

  lemma LexFirst(t: Token, rest: string)
    requires Spellable(t) && Ends(t, rest)
    ensures Lex(Spell(t) + rest) == After(t, Lex(rest))
  {
    var s := Spell(t) + rest;
    ReadsOne(t, rest);
    assert s[0] == Spell(t)[0] && s[|Spell(t)|..] == rest;
  }

  lemma {:induction false} LexSound(s: string)
    requires Lex(s).Some?
    ensures Reads(s, Lex(s).value)
    decreases |s|
  {
    if s != "" && IsSpace(s[0]) {
      LexSound(s[1..]);
      BlankFirst(s, Lex(s).value);
    } else if s != "" {
      var one := LexOne(s);
      var rest, ts := s[one.used..], Lex(s).value;
      OneIsSpelt(s);
      LexSound(rest);
      assert ts[0] == one.t && ts[1..] == Lex(rest).value;
      TokenFirst(s, one.t, rest, ts);
    }
  }

  lemma TokenFirst(s: string, t: Token, rest: string, ts: Tokens)
    requires ts != [] && ts[0] == t && Spellable(t) && Ends(t, rest) && s == Spell(t) + rest && Reads(rest, ts[1..])
    ensures Reads(s, ts)
  {
    var b := "";
    assert s == b + (Spell(ts[0]) + rest) && Blank(b);
  }

  lemma BlankFirst(s: string, ts: Tokens)
    requires s != "" && IsSpace(s[0]) && Reads(s[1..], ts)
    ensures Reads(s, ts)
  {
    if ts == [] {
      forall i | 0 <= i < |s| ensures IsSpace(s[i]) {
        assert i > 0 ==> s[i] == s[1..][i - 1];
      }
    } else {
      var b, rest :| s[1..] == b + (Spell(ts[0]) + rest) && Blank(b) && Spellable(ts[0]) && Ends(ts[0], rest)
                     && Reads(rest, ts[1..]);
      var b' := [s[0]] + b;
      assert s == b' + (Spell(ts[0]) + rest) && Blank(b');
    }
  }

  /** A text is taken apart into these tokens if and only if it is them, spelt. */
  lemma LexesExactly(s: string, ts: Tokens)
    ensures Lex(s) == Some(ts) <==> Reads(s, ts)
  {
    if Lex(s) == Some(ts) {
      LexSound(s);
    } else if Reads(s, ts) {
      LexComplete(s, ts);
    }
  }
}
