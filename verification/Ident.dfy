/** PostgreSQL table references (internal/pgident/ident.go): parsing dotted, possibly quoted
    names, and quoting raw names. */
module Ident {
  import opened Common

  /** A name read, and the text after it. */
  datatype Read = Bad | Read(name: string, rest: string)

  datatype Ref = Invalid | Ref(schema: string, table: string)

  // ----- reading -----

  /** After the opening quote: up to the closing one, a doubled quote standing for itself. */
  function QuotedName(s: string): (r: Read)
    ensures r.Read? ==> |r.rest| < |s|
  {
    if s == "" then Bad
    else if s[0] != '"' then Prepend(s[0], QuotedName(s[1..]))
    else if s[1..] != "" && s[1..][0] == '"' then Prepend('"', QuotedName(s[1..][1..]))
    else Read("", s[1..])
  }

  function Prepend(c: char, r: Read): (r': Read) {
    if r.Bad? then Bad else Read([c] + r.name, r.rest)
  }

  /** Up to the next dot; no quote, and not empty. */
  function PlainName(s: string): (r: Read)
    ensures r.Read? ==> |r.name| + |r.rest| == |s|
  {
    if s == "" || s[0] == '.' then Read("", s)
    else if s[0] == '"' then Bad
    else Prepend(s[0], PlainName(s[1..]))
  }

  function Name(s: string): (r: Read)
    requires s != ""
    ensures r.Read? ==> |r.rest| < |s|
  {
    if s[0] == '"' then QuotedName(s[1..])
    else
      var r := PlainName(s);
      if r.Read? && r.name == "" then Bad else r
  }

  function Split(s: string): (parts: Option<seq<string>>)
    decreases |s|
  {
    if s == "" then Some([])
    else
      var r := Name(s);
      if r.Bad? then None
      else if r.rest == "" then Some([r.name])
      else if r.rest[0] != '.' || |r.rest| == 1 then None
      else
        var more := Split(r.rest[1..]);
        if more.None? then None else Some([r.name] + more.value)
  }

  predicate IsSpace(c: char) {
    c in {'\t', '\n', '\U{0B}', '\U{0C}', '\r', ' ', '\U{85}', '\U{A0}', '\U{1680}', '\U{2028}', '\U{2029}',
        '\U{202F}', '\U{205F}', '\U{3000}'}
    || '\U{2000}' <= c <= '\U{200A}'
  }

  function TrimLeft(s: string): (r: string)
  {
    if s != "" && IsSpace(s[0]) then TrimLeft(s[1..]) else s
  }

  function TrimRight(s: string): (r: string)
  {
    if s != "" && IsSpace(s[|s| - 1]) then TrimRight(s[..|s| - 1]) else s
  }

  function RefOf(parts: Option<seq<string>>): (r: Ref) {
    if parts.None? then Invalid
    else if |parts.value| == 1 && parts.value[0] != "" then Ref("", parts.value[0])
    else if |parts.value| == 2 && parts.value[0] != "" && parts.value[1] != "" then Ref(parts.value[0], parts.value[1])
    else Invalid
  }

  function Parsed(ref: string): (r: Ref) {
    RefOf(Split(TrimRight(TrimLeft(ref))))
  }

  // ----- the parser -----

  /** Both loops keep an index into the reference; `r.rest` is what follows it. */
  ghost predicate ReadTo(r: Read, ref: string, name: Option<string>, next: nat) {
    && next <= |ref|
    && r == if name.None? then Bad else Read(name.value, ref[next..])
  }

  method ReadQuoted(ref: string, start: nat) returns (name: Option<string>, next: nat)
    requires start < |ref| && ref[start] == '"'
    ensures ReadTo(QuotedName(ref[start + 1..]), ref, name, next)
    ensures name.Some? ==> next > start
  {
    var i, b := start + 1, "";
    QuotedWith("", ref[i..]);
    while i < |ref|
      invariant start < i <= |ref|
      invariant QuotedName(ref[start + 1..]) == With(b, QuotedName(ref[i..]))
    {
      QuotedAt(b, ref, i);
      if ref[i] != '"' {
        b := b + [ref[i]];
        i := i + 1;
      } else if i + 1 < |ref| && ref[i + 1] == '"' {
        b := b + ['"'];
        i := i + 2;
      } else {
        return Some(b), i + 1;
      }
    }
    name, next := None, 0;
  }

  method ReadIdent(ref: string, start: nat) returns (name: Option<string>, next: nat)
    requires start < |ref|
    ensures ReadTo(Name(ref[start..]), ref, name, next)
    ensures name.Some? ==> next > start
  {
    if ref[start] == '"' {
      name, next := ReadQuoted(ref, start);
      assert ref[start..][1..] == ref[start + 1..];
      return;
    }
    var i := start;
    QuotedWith("", ref[start..]);
    while i < |ref| && ref[i] != '.'
      invariant start <= i <= |ref|
      invariant PlainName(ref[start..]) == With(ref[start..i], PlainName(ref[i..]))
    {
      if ref[i] == '"' {
        return None, 0;
      }
      WithStep(ref[start..i], ref[i], PlainName(ref[i..][1..]));
      assert ref[i..][1..] == ref[i + 1..];
      assert ref[start..i] + [ref[i]] == ref[start..i + 1];
      i := i + 1;
    }
    name, next := if i == start then None else Some(ref[start..i]), i;
    assert ref[start..i] + "" == ref[start..i];
  }

  method SplitQualified(ref: string) returns (parts: Option<seq<string>>)
    ensures parts == Split(ref)
  {
    var ps: seq<string>, i := [], 0;
    assert ref[0..] == ref;
    JoinNothing(Split(ref));
    while i < |ref|
      invariant 0 <= i <= |ref|
      invariant Split(ref) == Join(ps, Split(ref[i..]))
    {
      var part, next := ReadIdent(ref, i);
      if part.None? {
        return None;
      }
      SplitStep(ps, ref[i..], part.value, ref[next..]);
      ps := ps + [part.value];
      i := next;
      if i >= |ref| {
        return Some(ps);
      }
      if ref[i] != '.' {
        return None;
      }
      i := i + 1;
      if i >= |ref| {
        return None;
      }
    }
    assert ps + [] == ps;
    parts := Some(ps);
  }

  method Parse(ref: string) returns (r: Ref)
    ensures r == Parsed(ref)
  {
    var trimmed := TrimRight(TrimLeft(ref));
    if trimmed == "" {
      return Invalid;
    }
    var parts := SplitQualified(trimmed);
    r := RefOf(parts);
  }

  /** A name already begun, put before the rest of it. */
  function With(b: string, r: Read): (r': Read) {
    if r.Bad? then Bad else Read(b + r.name, r.rest)
  }

  lemma QuotedWith(b: string, s: string)
    requires b == ""
    ensures With(b, QuotedName(s)) == QuotedName(s) && With(b, PlainName(s)) == PlainName(s)
  {
  }

  lemma WithStep(b: string, c: char, r: Read)
    ensures With(b, Prepend(c, r)) == With(b + [c], r)
  {
  }

  lemma QuotedStep(b: string, s: string)
    requires s != ""
    ensures With(b, QuotedName(s)) ==
            if s[0] != '"' then With(b + [s[0]], QuotedName(s[1..]))
            else if s[1..] != "" && s[1..][0] == '"' then With(b + ['"'], QuotedName(s[1..][1..]))
            else Read(b, s[1..])
  {
    if s[0] != '"' {
      WithStep(b, s[0], QuotedName(s[1..]));
    } else if s[1..] != "" && s[1..][0] == '"' {
      WithStep(b, '"', QuotedName(s[1..][1..]));
    }
  }

  /** The same at an index of the reference. */
  lemma QuotedAt(b: string, ref: string, i: nat)
    requires i < |ref|
    ensures With(b, QuotedName(ref[i..])) ==
            if ref[i] != '"' then With(b + [ref[i]], QuotedName(ref[i + 1..]))
            else if i + 1 < |ref| && ref[i + 1] == '"' then With(b + ['"'], QuotedName(ref[i + 2..]))
            else Read(b, ref[i + 1..])
  {
    QuotedStep(b, ref[i..]);
    assert ref[i..][1..] == ref[i + 1..];
    if i + 1 < |ref| {
      assert ref[i + 1..][1..] == ref[i + 2..];
    }
  }

  function Join(ps: seq<string>, more: Option<seq<string>>): (r: Option<seq<string>>) {
    if more.None? then None else Some(ps + more.value)
  }

  lemma JoinNothing(more: Option<seq<string>>)
    ensures Join([], more) == more
  {
    assert more.Some? ==> [] + more.value == more.value;
  }

  lemma SplitStep(ps: seq<string>, s: string, name: string, rest: string)
    requires s != "" && Name(s) == Read(name, rest)
    ensures Join(ps, Split(s)) ==
            if rest == "" then Some(ps + [name])
            else if rest[0] != '.' || |rest| == 1 then None
            else Join(ps + [name], Split(rest[1..]))
  {
    if rest != "" && rest[0] == '.' && |rest| > 1 {
      var more := Split(rest[1..]);
      assert more.Some? ==> ps + ([name] + more.value) == ps + [name] + more.value;
    }
  }

  // ----- quoting -----

  const NUL: char := '\0'

  function WithoutNul(s: string): (r: string) {
    if s == "" then "" else (if s[0] == NUL then "" else [s[0]]) + WithoutNul(s[1..])
  }

  function Cons(c: char, s: string): (r: string)
    ensures r != "" && r[0] == c && r[1..] == s
  {
    [c] + s
  }

  /** `s` with its quotes doubled, put before `rest`. */
  function Doubled(s: string, rest: string): (r: string)
  {
    if s == "" then rest
    else if s[0] == '"' then Cons('"', Cons('"', Doubled(s[1..], rest)))
    else Cons(s[0], Doubled(s[1..], rest))
  }

  function Sanitized(s: string, rest: string): (r: string)
    ensures r != "" && r[0] == '"'
  {
    Cons('"', Doubled(WithoutNul(s), Cons('"', rest)))
  }

  function Qualify(schema: string, table: string): (r: string) {
    if schema != "" then Sanitized(schema, Cons('.', Sanitized(table, ""))) else Sanitized(table, "")
  }

  // ----- the round trip -----

  lemma {:induction false} QuotedReadsBack(s: string, rest: string)
    requires rest == "" || rest[0] != '"'
    ensures QuotedName(Doubled(s, Cons('"', rest))) == Read(s, rest)
  {
    if s != "" {
      QuotedReadsBack(s[1..], rest);
      assert s == [s[0]] + s[1..];
    }
  }

  lemma SanitizedReadsBack(s: string, rest: string)
    requires rest == "" || rest[0] != '"'
    ensures Name(Sanitized(s, rest)) == Read(WithoutNul(s), rest)
  {
    QuotedReadsBack(WithoutNul(s), rest);
  }

  /** What quoting hands back: the names without their NULs. */
  lemma QualifySplits(schema: string, table: string)
    ensures Split(Qualify(schema, table)) ==
            Some(if schema != "" then [WithoutNul(schema), WithoutNul(table)] else [WithoutNul(table)])
  {
    var t := Sanitized(table, "");
    SanitizedReadsBack(table, "");
    assert Split(t) == Some([WithoutNul(table)]);
    if schema != "" {
      SanitizedReadsBack(schema, Cons('.', t));
      assert [WithoutNul(schema)] + [WithoutNul(table)] == [WithoutNul(schema), WithoutNul(table)];
    }
  }

  predicate Quoted(s: string) { s != "" && s[|s| - 1] == '"' }

  lemma {:induction false} DoubledEnds(s: string, rest: string)
    requires Quoted(rest)
    ensures Quoted(Doubled(s, rest))
  {
    if s != "" {
      DoubledEnds(s[1..], rest);
    }
  }

  lemma SanitizedEnds(s: string, rest: string)
    requires rest == "" || Quoted(rest)
    ensures Quoted(Sanitized(s, rest))
  {
    assert Quoted(Cons('"', rest));
    DoubledEnds(WithoutNul(s), Cons('"', rest));
  }

  lemma QualifyIsTrimmed(schema: string, table: string)
    ensures TrimRight(TrimLeft(Qualify(schema, table))) == Qualify(schema, table)
  {
    SanitizedEnds(table, "");
    if schema != "" {
      SanitizedEnds(schema, Cons('.', Sanitized(table, "")));
    }
    QuotesStay(Qualify(schema, table));
  }

  lemma QuotesStay(s: string)
    requires Quoted(s) && s[0] == '"'
    ensures TrimLeft(s) == s && TrimRight(s) == s
  {
  }

  lemma {:induction false} WithoutNulIsSame(s: string)
    ensures |WithoutNul(s)| <= |s|
    ensures WithoutNul(s) == s <==> NUL !in s
  {
    if s != "" {
      WithoutNulIsSame(s[1..]);
      assert s == [s[0]] + s[1..];
      if s[0] == NUL {
        assert |WithoutNul(s)| < |s|;
      } else {
        assert WithoutNul(s)[1..] == WithoutNul(s[1..]);
        assert NUL in s <==> NUL in s[1..];
      }
    }
  }

  /** Quoting then parsing gives the names back, embedded quotes and dots included, exactly
      when the table has a name and neither name holds a NUL. */
  lemma RoundTripExactlyWhen(schema: string, table: string)
    ensures Parsed(Qualify(schema, table)) == Ref(schema, table) <==> table != "" && NUL !in schema && NUL !in table
  {
    QualifySplits(schema, table);
    QualifyIsTrimmed(schema, table);
    WithoutNulIsSame(schema);
    WithoutNulIsSame(table);
  }

  // ----- normalisation -----

  lemma {:induction false} QuotedHasNoNul(s: string)
    requires NUL !in s && QuotedName(s).Read?
    ensures NUL !in QuotedName(s).name && NUL !in QuotedName(s).rest
  {
    if s[0] != '"' {
      QuotedHasNoNul(s[1..]);
    } else if s[1..] != "" && s[1..][0] == '"' {
      QuotedHasNoNul(s[1..][1..]);
    }
  }

  lemma {:induction false} PlainHasNoNul(s: string)
    requires NUL !in s && PlainName(s).Read?
    ensures NUL !in PlainName(s).name && NUL !in PlainName(s).rest
  {
    if s != "" && s[0] != '.' {
      PlainHasNoNul(s[1..]);
    }
  }

  lemma NameHasNoNul(s: string)
    requires s != "" && NUL !in s && Name(s).Read?
    ensures NUL !in Name(s).name && NUL !in Name(s).rest
  {
    if s[0] == '"' {
      QuotedHasNoNul(s[1..]);
    } else {
      PlainHasNoNul(s);
    }
  }

  lemma {:induction false} TrimHasNoNul(s: string)
    requires NUL !in s
    ensures NUL !in TrimLeft(s) && NUL !in TrimRight(s)
    decreases |s|
  {
    if s != "" {
      TrimHasNoNul(s[1..]);
      TrimHasNoNul(s[..|s| - 1]);
    }
  }

  lemma {:induction false} PartsHaveNoNul(s: string)
    requires NUL !in s && Split(s).Some?
    ensures forall i :: 0 <= i < |Split(s).value| ==> NUL !in Split(s).value[i]
    decreases |s|
  {
    if s != "" {
      NameHasNoNul(s);
      var r := Name(s);
      if r.rest != "" {
        PartsHaveNoNul(r.rest[1..]);
      }
    }
  }

  /** Whatever form a reference is written in, requoting what it parses to changes nothing. */
  lemma RequotingIsStable(ref: string)
    requires NUL !in ref && Parsed(ref).Ref?
    ensures Parsed(Qualify(Parsed(ref).schema, Parsed(ref).table)) == Parsed(ref)
  {
    var trimmed := TrimRight(TrimLeft(ref));
    TrimHasNoNul(ref);
    TrimHasNoNul(TrimLeft(ref));
    PartsHaveNoNul(trimmed);
    RoundTripExactlyWhen(Parsed(ref).schema, Parsed(ref).table);
  }
}
