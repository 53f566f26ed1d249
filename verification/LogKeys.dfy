/** Keys of the log's byte-ordered store (internal/eventlog/keys.go): fixed-width big-endian
    components, so that byte order is numeric order. */
module LogKeys {
  import opened Common

  type Byte = x: nat | x < 256
  type Bytes = seq<Byte>

  const PREFIX_PART: Byte := 0x50
  const SEP_SEQ: Byte := 0x53
  const PREFIX_DEDUP: Byte := 0x44
  const PREFIX_DEDUP_HASH: Byte := 0x48
  const MAX_KEY_LEN: nat := 65000

  // ----- byte order -----

  /** Lexicographic order, as the store compares keys. */
  predicate Less(a: Bytes, b: Bytes) {
    b != [] && (a == [] || a[0] < b[0] || (a[0] == b[0] && Less(a[1..], b[1..])))
  }

  lemma {:induction false} LessIrreflexive(a: Bytes)
    ensures !Less(a, a)
  {
    if a != [] { LessIrreflexive(a[1..]); }
  }

  lemma {:induction false} LessTransitive(a: Bytes, b: Bytes, c: Bytes)
    requires Less(a, b) && Less(b, c)
    ensures Less(a, c)
  {
    if a != [] && a[0] == b[0] == c[0] { LessTransitive(a[1..], b[1..], c[1..]); }
  }

  lemma {:induction false} LessAsymmetric(a: Bytes, b: Bytes)
    ensures !Less(a, b) || !Less(b, a)
  {
    if a != [] && b != [] && a[0] == b[0] { LessAsymmetric(a[1..], b[1..]); }
  }

  lemma {:induction false} LessTotal(a: Bytes, b: Bytes)
    ensures Less(a, b) || a == b || Less(b, a)
  {
    if a != [] && b != [] && a[0] == b[0] {
      LessTotal(a[1..], b[1..]);
      assert a == [a[0]] + a[1..] && b == [b[0]] + b[1..];
    }
  }

  /** Keys of equal length compare by their first parts, then by their second parts. */
  lemma {:induction false} LessConcat(a: Bytes, b: Bytes, x: Bytes, y: Bytes)
    requires |a| == |b|
    ensures Less(a + x, b + y) <==> Less(a, b) || (a == b && Less(x, y))
  {
    if a == [] {
      assert a + x == x && b + y == y;
    } else {
      LessConcat(a[1..], b[1..], x, y);
      assert (a + x)[1..] == a[1..] + x && (b + y)[1..] == b[1..] + y;
      assert a == [a[0]] + a[1..] && b == [b[0]] + b[1..];
    }
  }

  predicate HasPrefix(k: Bytes, p: Bytes) {
    |p| <= |k| && k[..|p|] == p
  }

  /** A key between two keys with a prefix has that prefix. */
  lemma {:induction false} PrefixIsAnInterval(p: Bytes, a: Bytes, k: Bytes, b: Bytes)
    requires HasPrefix(a, p) && HasPrefix(b, p) && !Less(k, a) && !Less(b, k)
    ensures HasPrefix(k, p)
  {
    if p != [] {
      assert a[0] == p[0] == b[0];
      assert k != [] && k[0] == p[0];
      assert a[1..][..|p| - 1] == a[..|p|][1..] && b[1..][..|p| - 1] == b[..|p|][1..];
      PrefixIsAnInterval(p[1..], a[1..], k[1..], b[1..]);
      assert k[..|p|] == [k[0]] + k[1..][..|p| - 1];
    }
  }

  // ----- big-endian integers -----

  function Pow256(w: nat): (r: nat)
    ensures r > 0
  {
    if w == 0 then 1 else 256 * Pow256(w - 1)
  }

  function BigEndian(n: nat, w: nat): (b: Bytes)
    ensures |b| == w
  {
    if w == 0 then [] else BigEndian(n / 256, w - 1) + [n % 256]
  }

  function Value(b: Bytes): (n: nat) {
    if b == [] then 0 else 256 * Value(b[..|b| - 1]) + b[|b| - 1]
  }

  lemma {:induction false} ValueOfBigEndian(n: nat, w: nat)
    requires n < Pow256(w)
    ensures Value(BigEndian(n, w)) == n
  {
    if w > 0 {
      ValueOfBigEndian(n / 256, w - 1);
      assert BigEndian(n, w)[..w - 1] == BigEndian(n / 256, w - 1);
    }
  }

  lemma {:induction false} BigEndianOfValue(b: Bytes)
    ensures Value(b) < Pow256(|b|) && BigEndian(Value(b), |b|) == b
  {
    if b != [] {
      BigEndianOfValue(b[..|b| - 1]);
      assert Value(b) / 256 == Value(b[..|b| - 1]) && Value(b) % 256 == b[|b| - 1];
      assert b == b[..|b| - 1] + [b[|b| - 1]];
    }
  }

  /** Byte order of fixed-width big-endian integers is numeric order. */
  lemma {:induction false} BigEndianOrder(m: nat, n: nat, w: nat)
    requires m < Pow256(w) && n < Pow256(w)
    ensures Less(BigEndian(m, w), BigEndian(n, w)) <==> m < n
    ensures BigEndian(m, w) == BigEndian(n, w) <==> m == n
  {
    ValueOfBigEndian(m, w);
    ValueOfBigEndian(n, w);
    if w > 0 {
      BigEndianOrder(m / 256, n / 256, w - 1);
      LessConcat(BigEndian(m / 256, w - 1), BigEndian(n / 256, w - 1), [m % 256], [n % 256]);
    }
  }

  // ----- the keys -----

  predicate Fits(p: nat, s: nat) {
    p < Pow256(4) && s < Pow256(8)
  }

  function PartPrefix(p: nat): (k: Bytes)
    ensures |k| == 5
  {
    [PREFIX_PART] + BigEndian(p, 4)
  }

  function PartKey(p: nat, s: nat): (k: Bytes)
    ensures |k| == 14
  {
    PartPrefix(p) + [SEP_SEQ] + BigEndian(s, 8)
  }

  function DecodePartKey(k: Bytes): (r: (nat, nat))
    requires |k| == 14
  {
    (Value(k[1..5]), Value(k[6..14]))
  }

  /** The shape of a partition-entry key. */
  predicate IsPartKey(k: Bytes) {
    |k| == 14 && k[0] == PREFIX_PART && k[5] == SEP_SEQ
  }

  lemma DecodeInvertsEncode(p: nat, s: nat)
    requires Fits(p, s)
    ensures IsPartKey(PartKey(p, s)) && DecodePartKey(PartKey(p, s)) == (p, s)
  {
    var k := PartKey(p, s);
    assert k[1..5] == BigEndian(p, 4) && k[6..14] == BigEndian(s, 8);
    ValueOfBigEndian(p, 4);
    ValueOfBigEndian(s, 8);
  }

  lemma EncodeInvertsDecode(k: Bytes)
    requires IsPartKey(k)
    ensures var (p, s) := DecodePartKey(k); Fits(p, s) && PartKey(p, s) == k
  {
    BigEndianOfValue(k[1..5]);
    BigEndianOfValue(k[6..14]);
    assert k == [k[0]] + k[1..5] + [k[5]] + k[6..14];
  }

  /** Part keys compare as (partition, sequence number) pairs compare. */
  lemma PartKeyOrder(p: nat, s: nat, q: nat, t: nat)
    requires Fits(p, s) && Fits(q, t)
    ensures Less(PartKey(p, s), PartKey(q, t)) <==> p < q || (p == q && s < t)
    ensures PartKey(p, s) == PartKey(q, t) <==> p == q && s == t
  {
    BigEndianOrder(p, q, 4);
    BigEndianOrder(s, t, 8);
    var a, b, x, y := BigEndian(p, 4), BigEndian(q, 4), BigEndian(s, 8), BigEndian(t, 8);
    assert PartKey(p, s) == [PREFIX_PART] + (a + ([SEP_SEQ] + x));
    assert PartKey(q, t) == [PREFIX_PART] + (b + ([SEP_SEQ] + y));
    LessConcat([PREFIX_PART], [PREFIX_PART], a + ([SEP_SEQ] + x), b + ([SEP_SEQ] + y));
    LessConcat(a, b, [SEP_SEQ] + x, [SEP_SEQ] + y);
    LessConcat([SEP_SEQ], [SEP_SEQ], x, y);
    LessIrreflexive([PREFIX_PART]);
    LessIrreflexive([SEP_SEQ]);
    DecodeInvertsEncode(p, s);
    DecodeInvertsEncode(q, t);
  }

  /** A partition's prefix selects exactly its own part keys. */
  lemma PrefixSelectsPartition(p: nat, q: nat, t: nat)
    requires Fits(p, 0) && Fits(q, t)
    ensures HasPrefix(PartKey(q, t), PartPrefix(p)) <==> p == q
  {
    BigEndianOrder(p, q, 4);
    assert PartKey(q, t)[..5] == PartPrefix(q);
    assert PartPrefix(p)[1..] == BigEndian(p, 4) && PartPrefix(q)[1..] == BigEndian(q, 4);
  }

  /** The dedup index key: the raw idempotency key, or its hash when it would not fit. */
  function DedupKey(id: Bytes, sha: Bytes -> Bytes): (k: Bytes)
    ensures k != [] && k[0] in {PREFIX_DEDUP, PREFIX_DEDUP_HASH}
    ensures |sha(id)| == 32 ==> |k| <= MAX_KEY_LEN
  {
    if |id| < MAX_KEY_LEN then [PREFIX_DEDUP] + id else [PREFIX_DEDUP_HASH] + sha(id)
  }

  /** Distinct idempotency keys have distinct index keys, and no index key is a part key. */
  lemma DedupKeysAreDistinct(a: Bytes, b: Bytes, sha: Bytes -> Bytes, p: nat, s: nat)
    requires forall x, y :: sha(x) == sha(y) ==> x == y
    ensures DedupKey(a, sha) == DedupKey(b, sha) ==> a == b
    ensures DedupKey(a, sha) != PartKey(p, s)
  {
    assert DedupKey(a, sha)[1..] == if |a| < MAX_KEY_LEN then a else sha(a);
    assert DedupKey(b, sha)[1..] == if |b| < MAX_KEY_LEN then b else sha(b);
    assert PartKey(p, s)[0] == PREFIX_PART;
  }

  // ----- the encoders fill a fresh buffer -----

  method PutBigEndian(buf: array<Byte>, at: nat, w: nat, n: nat)
    requires at + w <= buf.Length
    modifies buf
    ensures buf[at..at + w] == BigEndian(n, w)
    ensures buf[..at] == old(buf[..at]) && buf[at + w..] == old(buf[at + w..])
  {
    var i, m := w, n;
    while i > 0
      invariant 0 <= i <= w
      invariant BigEndian(n, w) == BigEndian(m, i) + buf[at + i..at + w]
      invariant buf[..at] == old(buf[..at]) && buf[at + w..] == old(buf[at + w..])
    {
      ghost var tail := buf[at + i..at + w];
      i := i - 1;
      buf[at + i] := m % 256;
      assert buf[at + i..at + w] == [m % 256] + tail;
      assert BigEndian(m, i + 1) + tail == BigEndian(m / 256, i) + buf[at + i..at + w];
      m := m / 256;
    }
    assert buf[at..at + w] == BigEndian(n, w);
  }

  method EncodePartKey(p: nat, s: nat) returns (key: array<Byte>)
    ensures fresh(key) && key[..] == PartKey(p, s)
  {
    key := new Byte[14](_ => 0);
    key[0] := PREFIX_PART;
    PutBigEndian(key, 1, 4, p);
    key[5] := SEP_SEQ;
    assert key[1..5] == BigEndian(p, 4);
    PutBigEndian(key, 6, 8, s);
    assert key[..6] == [PREFIX_PART] + BigEndian(p, 4) + [SEP_SEQ] by {
      assert key[0] == key[..6][0] && key[5] == key[..6][5];
    }
    assert key[..] == key[..6] + key[6..14];
  }

  // ----- reading a partition -----

  /** Every key under the part prefix is a part key; the rest of the store is elsewhere. */
  ghost predicate KeysOk<V>(kv: map<Bytes, V>) {
    forall k :: k in kv ==> k != [] && (k[0] == PREFIX_PART ==> IsPartKey(k))
  }

  /** `out` lists the entries of `p` from `from` on, ascending, up to `limit`, leaving none out. */
  ghost predicate IsRead<V>(kv: map<Bytes, V>, p: nat, from: nat, limit: nat, out: seq<(nat, V)>) {
    && |out| <= limit
    && (forall i, j :: 0 <= i < j < |out| ==> out[i].0 < out[j].0)
    && (forall i :: 0 <= i < |out| ==> Listed(kv, p, from, out[i]))
    && (forall t :: from <= t && Fits(p, t) && PartKey(p, t) in kv ==>
          (exists i :: 0 <= i < |out| && out[i].0 == t) ||
              (|out| == limit && forall i :: 0 <= i < |out| ==> out[i].0 < t))
  }

  predicate Listed<V(==)>(kv: map<Bytes, V>, p: nat, from: nat, x: (nat, V)) {
    from <= x.0 && Fits(p, x.0) && PartKey(p, x.0) in kv && kv[PartKey(p, x.0)] == x.1
  }

  /** The next entry of one read is not left out by the other, nor preceded by anything it lists. */
  lemma NotAhead<V>(kv: map<Bytes, V>, p: nat, from: nat, limit: nat, a: seq<(nat, V)>, b: seq<(nat, V)>, n: nat)
    requires IsRead(kv, p, from, limit, a) && IsRead(kv, p, from, limit, b)
    requires n < |a| && n <= |b| && forall i :: 0 <= i < n ==> a[i] == b[i]
    ensures n < |b| && b[n].0 <= a[n].0
  {
  }

  ghost predicate Agree<V>(a: seq<(nat, V)>, b: seq<(nat, V)>, n: nat) {
    n <= |a| && n <= |b| && forall i :: 0 <= i < n ==> a[i] == b[i]
  }

  lemma NextAgrees<V>(kv: map<Bytes, V>, p: nat, from: nat, limit: nat, a: seq<(nat, V)>, b: seq<(nat, V)>, n: nat)
    requires IsRead(kv, p, from, limit, a) && IsRead(kv, p, from, limit, b)
    requires n < |a| && Agree(a, b, n)
    ensures Agree(a, b, n + 1)
  {
    NotAhead(kv, p, from, limit, a, b, n);
    NotAhead(kv, p, from, limit, b, a, n);
  }

  /** Two reads of the same store agree: the specification leaves no freedom. */
  lemma ReadIsUnique<V>(kv: map<Bytes, V>, p: nat, from: nat, limit: nat, a: seq<(nat, V)>, b: seq<(nat, V)>)
    requires IsRead(kv, p, from, limit, a) && IsRead(kv, p, from, limit, b)
    ensures a == b
  {
    ReadsAgreeTo(kv, p, from, limit, a, b, |a|);
    ReadsAgreeTo(kv, p, from, limit, b, a, |b|);
  }

  lemma {:induction false} ReadsAgreeTo<V>(kv: map<Bytes, V>, p: nat, from: nat, limit: nat, a: seq<(nat, V)>,
                                           b: seq<(nat, V)>, n: nat)
    requires IsRead(kv, p, from, limit, a) && IsRead(kv, p, from, limit, b) && n <= |a|
    ensures Agree(a, b, n)
  {
    if n > 0 {
      ReadsAgreeTo(kv, p, from, limit, a, b, n - 1);
      NextAgrees(kv, p, from, limit, a, b, n - 1);
    }
  }

  /** The iterator: the least key at (or, when `strict`, after) `from`. */
  method Seek(keys: set<Bytes>, from: Bytes, strict: bool) returns (r: Option<Bytes>)
    ensures r.None? ==> forall k :: k in keys ==> Less(k, from) || (strict && k == from)
    ensures r.Some? ==> r.value in keys && !Less(r.value, from) && (strict ==> r.value != from)
    ensures r.Some? ==> forall k :: k in keys ==> Less(k, from) || (strict && k == from) || !Less(k, r.value)
  {
    r := None;
    var rest := keys;
    while rest != {}
      invariant rest <= keys
      invariant r.None? ==> forall k :: k in keys && k !in rest ==> Less(k, from) || (strict && k == from)
      invariant r.Some? ==> r.value in keys && !Less(r.value, from) && (strict ==> r.value != from)
      invariant r.Some? ==> forall k :: k in keys && k !in rest ==>
          Less(k, from) || (strict && k == from) || !Less(k, r.value)
    {
      var x :| x in rest;
      rest := rest - {x};
      if !Less(x, from) && !(strict && x == from) && (r.None? || Less(x, r.value)) {
        forall k | k in keys && k !in rest ensures Less(k, from) || (strict && k == from) || !Less(k, x) {
          LessIrreflexive(x);
          if r.Some? && Less(k, x) { LessTransitive(k, x, r.value); }
        }
        r := Some(x);
      }
    }
  }

  /** Seek-and-iterate over the byte order returns exactly the first `limit` entries of the
      partition with sequence number at least `from`, ascending. */
  method ReadPartition<V(==)>(kv: map<Bytes, V>, p: nat, from: nat, limit: nat) returns (out: seq<(nat, V)>)
    requires KeysOk(kv) && Fits(p, from)
    ensures IsRead(kv, p, from, limit, out)
  {
    var prefix, start := PartPrefix(p), PartKey(p, from);
    out := [];
    var cur := Seek(kv.Keys, start, false);
    FirstPending(kv, p, from, cur);
    while cur.Some? && HasPrefix(cur.value, prefix) && |out| < limit
      invariant |out| <= limit
      invariant forall i, j :: 0 <= i < j < |out| ==> out[i].0 < out[j].0
      invariant forall i :: 0 <= i < |out| ==> Listed(kv, p, from, out[i])
      invariant cur.Some? ==> cur.value in kv && !Less(cur.value, start)
      invariant Pending(kv, p, from, out, cur)
      decreases limit - |out|
    {
      var k := cur.value;
      assert k[0] == k[..5][0] == PREFIX_PART;
      EncodeInvertsDecode(k);
      var (q, s) := DecodePartKey(k);
      PrefixSelectsPartition(p, q, s);
      PartKeyOrder(p, s, p, from);
      ReadAdvances(kv, p, from, out, k, s);
      out := out + [(s, kv[k])];
      cur := Seek(kv.Keys, k, true);
      if cur.Some? { AfterIsPast(start, k, cur.value); }
      NextPending(kv, p, from, out, s, cur);
    }
    ReadStops(kv, p, from, limit, out, cur);
  }

  /** What is still to come: every matching key not yet listed is at or after the iterator,
      and everything listed is before it. */
  ghost predicate Pending<V>(kv: map<Bytes, V>, p: nat, from: nat, out: seq<(nat, V)>, cur: Option<Bytes>) {
    forall t :: from <= t && Fits(p, t) && PartKey(p, t) in kv ==>
      if exists i :: 0 <= i < |out| && out[i].0 == t then cur.Some? ==> Less(PartKey(p, t), cur.value)
      else cur.Some? && !Less(PartKey(p, t), cur.value)
  }

  lemma FirstPending<V>(kv: map<Bytes, V>, p: nat, from: nat, cur: Option<Bytes>)
    requires Fits(p, from)
    requires cur.None? ==> forall k :: k in kv.Keys ==> Less(k, PartKey(p, from))
    requires cur.Some? ==> forall k :: k in kv.Keys ==> Less(k, PartKey(p, from)) || !Less(k, cur.value)
    ensures Pending(kv, p, from, [], cur)
  {
    forall t | from <= t && Fits(p, t) && PartKey(p, t) in kv
      ensures cur.Some? && !Less(PartKey(p, t), cur.value)
    {
      PartKeyOrder(p, t, p, from);
      assert PartKey(p, t) in kv.Keys;
    }
  }

  lemma AfterIsPast(start: Bytes, k: Bytes, next: Bytes)
    requires !Less(k, start) && !Less(next, k) && next != k
    ensures !Less(next, start)
  {
  }

  lemma ReadAdvances<V>(kv: map<Bytes, V>, p: nat, from: nat, out: seq<(nat, V)>, k: Bytes, s: nat)
    requires Pending(kv, p, from, out, Some(k)) && Fits(p, s) && k == PartKey(p, s) && k in kv && from <= s
    requires forall i :: 0 <= i < |out| ==> Listed(kv, p, from, out[i])
    ensures forall i :: 0 <= i < |out| ==> out[i].0 < s
  {
    forall i | 0 <= i < |out| ensures out[i].0 < s {
      assert Listed(kv, p, from, out[i]);
      PartKeyOrder(p, out[i].0, p, s);
    }
  }

  lemma NextPending<V>(kv: map<Bytes, V>, p: nat, from: nat, out: seq<(nat, V)>, s: nat, cur: Option<Bytes>)
    requires out != [] && out[|out| - 1].0 == s && Fits(p, s)
    requires Pending(kv, p, from, out[..|out| - 1], Some(PartKey(p, s)))
    requires cur.None? ==> forall k :: k in kv.Keys ==> Less(k, PartKey(p, s)) || k == PartKey(p, s)
    requires cur.Some? ==> !Less(cur.value, PartKey(p, s)) && cur.value != PartKey(p, s)
    requires cur.Some? ==> forall k :: k in kv.Keys ==>
        Less(k, PartKey(p, s)) || k == PartKey(p, s) || !Less(k, cur.value)
    ensures Pending(kv, p, from, out, cur)
  {
    var was, key := out[..|out| - 1], PartKey(p, s);
    forall t | from <= t && Fits(p, t) && PartKey(p, t) in kv
      ensures if exists i :: 0 <= i < |out| && out[i].0 == t then cur.Some? ==> Less(PartKey(p, t), cur.value)
              else cur.Some? && !Less(PartKey(p, t), cur.value)
    {
      PartKeyOrder(p, t, p, s);
      if i :| 0 <= i < |out| && out[i].0 == t {
        if i < |was| { assert was[i].0 == t; }
        if cur.Some? {
          LessTotal(key, cur.value);
          if t != s { LessTransitive(PartKey(p, t), key, cur.value); }
        }
      } else {
        assert forall i :: 0 <= i < |was| ==> was[i].0 == out[i].0;
        assert out[|out| - 1].0 != t;
      }
    }
  }

  lemma ReadStops<V>(kv: map<Bytes, V>, p: nat, from: nat, limit: nat, out: seq<(nat, V)>, cur: Option<Bytes>)
    requires Fits(p, from) && |out| <= limit
    requires forall i, j :: 0 <= i < j < |out| ==> out[i].0 < out[j].0
    requires forall i :: 0 <= i < |out| ==> Listed(kv, p, from, out[i])
    requires cur.Some? ==> !Less(cur.value, PartKey(p, from))
    requires Pending(kv, p, from, out, cur)
    requires !(cur.Some? && HasPrefix(cur.value, PartPrefix(p)) && |out| < limit)
    ensures IsRead(kv, p, from, limit, out)
  {
    forall t | from <= t && Fits(p, t) && PartKey(p, t) in kv
      ensures (exists i :: 0 <= i < |out| && out[i].0 == t) ||
          (|out| == limit && forall i :: 0 <= i < |out| ==> out[i].0 < t)
    {
      if !exists i :: 0 <= i < |out| && out[i].0 == t {
        PrefixSelectsPartition(p, p, t);
        PrefixSelectsPartition(p, p, from);
        LessTotal(cur.value, PartKey(p, t));
        LessAsymmetric(cur.value, PartKey(p, t));
        PrefixIsAnInterval(PartPrefix(p), PartKey(p, from), cur.value, PartKey(p, t));
        forall i | 0 <= i < |out| ensures out[i].0 < t {
          assert Listed(kv, p, from, out[i]);
          PartKeyOrder(p, out[i].0, p, t);
          var a, b, c := PartKey(p, out[i].0), cur.value, PartKey(p, t);
          assert Less(a, b);
          LessTotal(b, c);
          if Less(b, c) { LessTransitive(a, b, c); }
        }
      }
    }
  }
}
