/** Which texts are table references, and to what (internal/pgident/ident.go): the parser against
    the forms a reference may be written in. */
module IdentForms {
  import opened Common
  import opened Ident

  // ----- the forms -----

  /** An unquoted name: taken literally, without quotes or dots. */
  predicate IsPlain(s: string) { s != "" && '"' !in s && '.' !in s }

  /** `n` between quotes, its own quotes doubled. */
  function InQuotes(n: string): (s: string) { ['"'] + Doubled(n, ['"']) }

  predicate Spells(p: string, n: string) { (IsPlain(p) && n == p) || p == InQuotes(n) }

  /** `s` is spelt names with dots between them. */
  ghost predicate Dotted(s: string, names: seq<string>)
    decreases |names|
  {
    names != [] &&
    (if |names| == 1 then Spells(s, names[0])
     else exists p, t :: s == p + ['.'] + t && Spells(p, names[0]) && Dotted(t, names[1..]))
  }

  /** Doubling goes letter by letter and touches quotes only. */
  lemma {:induction false} DoublesEach(a: string, b: string, rest: string)
    ensures Doubled(a + b, rest) == Doubled(a, Doubled(b, rest))
  {
    if a == [] {
      assert a + b == b;
    } else {
      DoublesEach(a[1..], b, rest);
      assert (a + b)[1..] == a[1..] + b && (a + b)[0] == a[0];
    }
  }

  lemma DoublesAQuote(rest: string)
    ensures Doubled(['"'], rest) == ['"', '"'] + rest
  {
    assert ['"'][1..] == [];
    assert Doubled([], rest) == rest;
  }

  lemma {:induction false} DoublesNothingElse(a: string, rest: string)
    requires '"' !in a
    ensures Doubled(a, rest) == a + rest
  {
    if a != [] {
      DoublesNothingElse(a[1..], rest);
      assert a[0] in a && a + rest == [a[0]] + (a[1..] + rest);
    }
  }

  lemma {:induction false} DoubledSplits(s: string, rest: string)
    ensures Doubled(s, rest) == Doubled(s, "") + rest
  {
    if s == "" {
      assert "" + rest == rest;
    } else {
      var c := s[0];
      DoubledSplits(s[1..], rest);
      assert [c] + (Doubled(s[1..], "") + rest) == [c] + Doubled(s[1..], "") + rest;
      assert [c] + ([c] + (Doubled(s[1..], "") + rest)) == [c] + ([c] + Doubled(s[1..], "")) + rest;
    }
  }

  lemma InQuotesSplits(n: string, rest: string)
    ensures InQuotes(n) + rest == ['"'] + Doubled(n, Cons('"', rest))
  {
    DoubledSplits(n, Cons('"', rest));
    DoubledSplits(n, ['"']);
    var d := Doubled(n, "");
    assert ['"'] + (d + ['"']) + rest == ['"'] + (d + (['"'] + rest));
  }

  // ----- one name -----

  predicate EndsName(rest: string) { rest == "" || rest[0] == '.' }

  lemma {:induction false} PlainReads(p: string, rest: string)
    requires '"' !in p && '.' !in p && EndsName(rest)
    ensures PlainName(p + rest) == Read(p, rest)
  {
    if p == "" {
      assert p + rest == rest;
    } else {
      PlainReads(p[1..], rest);
      assert (p + rest)[1..] == p[1..] + rest && p == [p[0]] + p[1..];
    }
  }

  lemma SpeltNameReads(p: string, n: string, rest: string)
    requires Spells(p, n) && EndsName(rest)
    ensures p + rest != "" && Name(p + rest) == Read(n, rest)
  {
    if IsPlain(p) && n == p {
      PlainNameReads(p, rest);
    } else {
      QuotedNameReads(n, rest);
    }
  }

  lemma PlainNameReads(p: string, rest: string)
    requires IsPlain(p) && EndsName(rest)
    ensures p + rest != "" && Name(p + rest) == Read(p, rest)
  {
    PlainReads(p, rest);
    assert (p + rest)[0] == p[0] && p[0] in p;
  }

  lemma QuotedNameReads(n: string, rest: string)
    requires EndsName(rest)
    ensures InQuotes(n) + rest != "" && Name(InQuotes(n) + rest) == Read(n, rest)
  {
    var s := InQuotes(n) + rest;
    QuotedReadsBack(n, rest);
    InQuotesSplits(n, rest);
    assert s[0] == '"' && s[1..] == Doubled(n, Cons('"', rest));
  }

  lemma {:induction false} PlainIsSpelt(s: string)
    requires PlainName(s).Read?
    ensures var r := PlainName(s); s == r.name + r.rest && EndsName(r.rest) && '"' !in r.name && '.' !in r.name
  {
    if s == "" || s[0] == '.' {
      assert s == "" + s;
    } else {
      PlainIsSpelt(s[1..]);
      PutBack(s, PlainName(s[1..]).name, PlainName(s[1..]).rest);
    }
  }

  lemma PutBack(s: string, name: string, rest: string)
    requires s != "" && s[1..] == name + rest
    ensures s == [s[0]] + name + rest
    ensures forall c :: c in [s[0]] + name <==> c == s[0] || c in name
  {
    assert s == [s[0]] + s[1..];
  }

  lemma {:induction false} QuotedIsSpelt(s: string)
    requires QuotedName(s).Read?
    ensures var r := QuotedName(s); s == Doubled(r.name, Cons('"', r.rest))
    decreases |s|
  {
    assert s == [s[0]] + s[1..];
    if s[0] != '"' {
      QuotedIsSpelt(s[1..]);
    } else if s[1..] != "" && s[1..][0] == '"' {
      QuotedIsSpelt(s[1..][1..]);
      assert s[1..] == ['"'] + s[1..][1..];
    }
  }

  lemma ReadNameIsSpelt(s: string) returns (p: string)
    requires s != "" && Name(s).Read?
    ensures s == p + Name(s).rest && Spells(p, Name(s).name)
  {
    var r := Name(s);
    if s[0] == '"' {
      QuotedIsSpelt(s[1..]);
      InQuotesSplits(r.name, r.rest);
      p := InQuotes(r.name);
      assert s == ['"'] + s[1..];
    } else {
      PlainIsSpelt(s);
      p := r.name;
    }
  }

  // ----- dotted names -----

  lemma {:induction false} SplitComplete(s: string, names: seq<string>)
    requires Dotted(s, names)
    ensures Split(s) == Some(names)
    decreases |names|
  {
    DottedIsText(s, names);
    if |names| == 1 {
      assert s + "" == s && names == [names[0]];
      SpeltNameReads(s, names[0], "");
    } else {
      var p, t :| s == p + ['.'] + t && Spells(p, names[0]) && Dotted(t, names[1..]);
      SplitComplete(t, names[1..]);
      DottedIsText(t, names[1..]);
      SplitFirst(s, p, names[0], t);
      assert names == [names[0]] + names[1..];
    }
  }

  /** A spelt name and a dot come off the front. */
  lemma SplitFirst(s: string, p: string, n: string, t: string)
    requires s == p + ['.'] + t && Spells(p, n) && t != ""
    ensures s != "" && Split(s) == if Split(t).None? then None else Some([n] + Split(t).value)
  {
    var rest := ['.'] + t;
    assert s == p + rest && rest[1..] == t && |rest| > 1;
    SpeltNameReads(p, n, rest);
  }

  lemma DottedIsText(s: string, names: seq<string>)
    requires Dotted(s, names)
    ensures s != "" && s[0] != '.' && s[|s| - 1] != '.'
    decreases |names|
  {
    if |names| == 1 {
      SpeltEnds(s, names[0]);
    } else {
      var p, t :| s == p + ['.'] + t && Spells(p, names[0]) && Dotted(t, names[1..]);
      SpeltEnds(p, names[0]);
      DottedIsText(t, names[1..]);
      assert s[|s| - 1] == t[|t| - 1] && s[0] == p[0];
    }
  }

  lemma SpeltEnds(p: string, n: string)
    requires Spells(p, n)
    ensures p != "" && p[0] != '.' && p[|p| - 1] != '.'
  {
    if !IsPlain(p) {
      DoubledSplits(n, ['"']);
    } else {
      assert p[0] in p && p[|p| - 1] in p;
    }
  }

  lemma {:induction false} SplitSound(s: string)
    requires s != "" && Split(s).Some?
    ensures Dotted(s, Split(s).value)
    decreases |s|
  {
    var r := Name(s);
    var p := ReadNameIsSpelt(s);
    if r.rest == "" {
      assert s == p + "" == p;
    } else {
      var t := r.rest[1..];
      Rejoins(s, p, r.rest);
      SplitSound(t);
      DottedFirst(s, p, r.name, t, Split(t).value);
    }
  }

  lemma Rejoins(s: string, p: string, rest: string)
    requires s == p + rest && rest != "" && rest[0] == '.'
    ensures s == p + ['.'] + rest[1..]
  {
  }

  lemma DottedFirst(s: string, p: string, n: string, t: string, names: seq<string>)
    requires s == p + ['.'] + t && Spells(p, n) && Dotted(t, names)
    ensures Dotted(s, [n] + names)
  {
    assert ([n] + names)[1..] == names;
  }

  /** A text splits into these names if and only if it is these names, spelt, with dots between
      them. */
  lemma SplitsExactly(s: string, names: seq<string>)
    requires s != ""
    ensures Split(s) == Some(names) <==> Dotted(s, names)
  {
    if Split(s) == Some(names) {
      SplitSound(s);
    } else if Dotted(s, names) {
      SplitComplete(s, names);
    }
  }

  // ----- blanks -----

  predicate Blank(s: string) { forall i :: 0 <= i < |s| ==> IsSpace(s[i]) }

  predicate Tight(s: string) { s == "" || (!IsSpace(s[0]) && !IsSpace(s[|s| - 1])) }

  function Trim(s: string): (t: string) { TrimRight(TrimLeft(s)) }

  lemma {:induction false} TrimsLeft(l: string, t: string)
    requires Blank(l) && (t == "" || !IsSpace(t[0]))
    ensures TrimLeft(l + t) == t
  {
    if l == "" {
      assert l + t == t;
    } else {
      assert (l + t)[1..] == l[1..] + t;
      TrimsLeft(l[1..], t);
    }
  }

  lemma {:induction false} TrimsRight(t: string, r: string)
    requires Blank(r) && (t == "" || !IsSpace(t[|t| - 1]))
    ensures TrimRight(t + r) == t
  {
    if r == "" {
      assert t + r == t;
    } else {
      var n := |r| - 1;
      assert (t + r)[..|t + r| - 1] == t + r[..n];
      TrimsRight(t, r[..n]);
    }
  }

  lemma TrimsExactly(l: string, t: string, r: string)
    requires Blank(l) && Blank(r) && Tight(t)
    ensures Trim(l + t + r) == t
  {
    if t == "" {
      assert l + t + r == (l + r) + "";
      TrimsLeft(l + r, "");
    } else {
      assert l + t + r == l + (t + r);
      TrimsLeft(l, t + r);
      TrimsRight(t, r);
    }
  }

  // ----- references -----

  /** A reference means this schema and table if and only if, blanks around it aside, it is the
      spelt table, or the spelt schema, a dot and the spelt table. */
  lemma ParsesExactly(ref: string, schema: string, table: string)
    ensures Parsed(ref) == Ref(schema, table) <==>
            table != "" && Dotted(Trim(ref), if schema == "" then [table] else [schema, table])
  {
    var t, names := Trim(ref), if schema == "" then [table] else [schema, table];
    if t == "" {
      assert Split(t) == Some([]);
      if Dotted(t, names) {
        DottedIsText(t, names);
      }
    } else {
      SplitsExactly(t, names);
      if Parsed(ref) == Ref(schema, table) {
        var parts := Split(t).value;
        assert parts == if |parts| == 1 then [parts[0]] else [parts[0], parts[1]];
      }
    }
  }

  /** The usual forms, with blanks around them. */
  lemma ReferencesParse(l: string, p: string, a: string, q: string, b: string, r: string)
    requires Blank(l) && Blank(r) && Spells(p, a) && Spells(q, b) && a != "" && b != ""
    requires Tight(p) && Tight(p + ['.'] + q)
    ensures Parsed(l + p + r) == Ref("", a)
    ensures Parsed(l + (p + ['.'] + q) + r) == Ref(a, b)
  {
    TrimsExactly(l, p, r);
    TrimsExactly(l, p + ['.'] + q, r);
    ParsesExactly(l + p + r, "", a);
    assert Dotted(p, [a]);
    assert [a, b][1..] == [b] && Dotted(q, [b]);
    assert Dotted(p + ['.'] + q, [a, b]);
    ParsesExactly(l + (p + ['.'] + q) + r, a, b);
  }

  /** Unquoted references: the table, or the schema and the table. */
  lemma UnquotedParse(a: string, b: string)
    requires IsPlain(a) && IsPlain(b) && Tight(a) && Tight(b)
    ensures Parsed(a) == Ref("", a) && Parsed(a + ['.'] + b) == Ref(a, b)
  {
    assert "" + a + "" == a && "" + (a + ['.'] + b) + "" == a + ['.'] + b;
    assert Tight(a + ['.'] + b) by {
      var s := a + ['.'] + b;
      assert s[0] == a[0] && s[|s| - 1] == b[|b| - 1];
    }
    ReferencesParse("", a, a, b, b, "");
  }

  /** A third name makes a reference invalid. */
  lemma ThirdNameIsInvalid(ref: string, names: seq<string>)
    requires Dotted(Trim(ref), names) && |names| > 2
    ensures Parsed(ref) == Invalid
  {
    SplitComplete(Trim(ref), names);
  }

  /** So does a dot at either end. */
  lemma OuterDotIsInvalid(ref: string)
    requires var t := Trim(ref); t != "" && (t[0] == '.' || t[|t| - 1] == '.')
    ensures Parsed(ref) == Invalid
  {
    if Parsed(ref).Ref? {
      var x := Parsed(ref);
      ParsesExactly(ref, x.schema, x.table);
      DottedIsText(Trim(ref), if x.schema == "" then [x.table] else [x.schema, x.table]);
    }
  }

  /** A quote that is not closed. */
  lemma {:induction false} UnclosedIsBad(s: string)
    requires '"' !in s
    ensures QuotedName(s).Bad?
  {
    if s != "" {
      UnclosedIsBad(s[1..]);
    }
  }

  /** A quote inside a plain name. */
  lemma {:induction false} QuoteInsideIsBad(p: string, s: string)
    requires '"' !in p && '.' !in p && s != "" && s[0] == '"'
    ensures PlainName(p + s).Bad?
  {
    if p == "" {
      assert p + s == s;
    } else {
      assert (p + s)[1..] == p[1..] + s;
      QuoteInsideIsBad(p[1..], s);
    }
  }

  /** And a quote that is not closed, or stands inside a plain name. */
  lemma StrayQuoteIsInvalid(ref: string, p: string, s: string)
    requires Trim(ref) == p + ['"'] + s && '"' !in p && '.' !in p && (p == "" ==> '"' !in s)
    ensures Parsed(ref) == Invalid
  {
    if p == "" {
      assert (p + ['"'] + s)[1..] == s;
      UnclosedIsBad(s);
    } else {
      assert p + ['"'] + s == p + (['"'] + s) && p[0] in p;
      QuoteInsideIsBad(p, ['"'] + s);
    }
  }
}
