/** Keyset pagination of a table that keeps changing between pages
    (internal/backfill/cursor.go, internal/backfill/optimizer.go). */
module Keyset {
  import opened Common

  /** A primary key is the tuple of its columns. */
  type PK = seq<int>
  type Table = map<PK, string>

  // ----- row-value order -----

  /** `(a1, a2, ...) < (b1, b2, ...)`, column by column. */
  predicate Before(a: PK, b: PK) {
    b != [] && (a == [] || a[0] < b[0] || (a[0] == b[0] && Before(a[1..], b[1..])))
  }

  lemma {:induction false} BeforeTransitive(a: PK, b: PK, c: PK)
    requires Before(a, b) && Before(b, c)
    ensures Before(a, c)
  {
    if a != [] && a[0] == b[0] == c[0] {
      BeforeTransitive(a[1..], b[1..], c[1..]);
    }
  }

  lemma {:induction false} BeforeTotal(a: PK, b: PK)
    ensures Before(a, b) || a == b || Before(b, a)
    ensures !(Before(a, b) && Before(b, a)) && !Before(a, a)
  {
    if a != [] && b != [] && a[0] == b[0] {
      BeforeTotal(a[1..], b[1..]);
      assert a == [a[0]] + a[1..] && b == [b[0]] + b[1..];
    }
    if a != [] {
      BeforeTotal(a[1..], a[1..]);
    }
  }

  /** The WHERE clause: no bound on the first page, strictly after the last key afterwards. */
  predicate Beyond(after: Option<PK>, pk: PK) {
    after.Some? ==> Before(after.value, pk)
  }

  // ----- pages -----

  ghost predicate Ascending(page: seq<PK>) {
    forall i, j :: 0 <= i < j < |page| ==> Before(page[i], page[j])
  }

  /** What `WHERE pk > last ORDER BY pk ASC LIMIT n` returns: rows of the table beyond the
      bound, ascending; rows left out come after all of them, and only when the page is full. */
  ghost predicate IsPage(table: Table, after: Option<PK>, limit: nat, page: seq<PK>) {
    && |page| <= limit && Ascending(page)
    && (forall i :: 0 <= i < |page| ==> page[i] in table && Beyond(after, page[i]))
    && (forall pk :: pk in table && Beyond(after, pk) && pk !in page ==>
          |page| == limit && forall i :: 0 <= i < |page| ==> Before(page[i], pk))
  }

  method Least(keys: set<PK>) returns (least: PK)
    requires keys != {}
    ensures least in keys && forall k :: k in keys && k != least ==> Before(least, k)
  {
    least :| least in keys;
    var rest := keys - {least};
    while rest != {}
      invariant rest <= keys && least in keys && least !in rest
      invariant forall k :: k in keys && k !in rest && k != least ==> Before(least, k)
    {
      var k :| k in rest;
      rest := rest - {k};
      BeforeTotal(least, k);
      if Before(k, least) {
        forall x | x in keys && x !in rest && x != k && x != least ensures Before(k, x) {
          BeforeTransitive(k, least, x);
        }
        least := k;
      }
    }
  }

  /** The rows of the table a page must choose from. */
  function Rest(table: Table, after: Option<PK>): (keys: set<PK>) {
    set pk | pk in table && Beyond(after, pk)
  }

  method SelectPage(table: Table, after: Option<PK>, limit: nat) returns (page: seq<PK>)
    ensures IsPage(table, after, limit, page)
  {
    page := [];
    var rest := Rest(table, after);
    while |page| < limit && rest != {}
      invariant |page| <= limit && Ascending(page)
      invariant forall i :: 0 <= i < |page| ==> page[i] in table && Beyond(after, page[i])
      invariant forall pk :: pk in table && Beyond(after, pk) ==> pk in page || pk in rest
      invariant forall pk, i :: pk in rest && 0 <= i < |page| ==> Before(page[i], pk)
      invariant rest <= Rest(table, after)
      decreases |rest|
    {
      var least := Least(rest);
      page := page + [least];
      rest := rest - {least};
    }
  }

  // ----- coverage across pages -----

  /** Present whenever a page was read. */
  ghost predicate Stable(seen: seq<Table>, pk: PK) {
    forall t :: t in seen ==> pk in t
  }

  /** No stable row at or before the cursor is left uncovered. */
  ghost predicate CoveredUpTo(seen: seq<Table>, cursor: Option<PK>, covered: set<PK>) {
    cursor.Some? ==> forall pk :: Stable(seen, pk) && !Before(cursor.value, pk) ==> pk in covered
  }

  ghost predicate AllCovered(seen: seq<Table>, covered: set<PK>) {
    forall pk :: Stable(seen, pk) ==> pk in covered
  }

  /** A page whose rows are all covered moves the cursor to its last row, whatever was inserted
      or deleted since the page before. */
  lemma PageCovers(seen: seq<Table>, cursor: Option<PK>, covered: set<PK>, table: Table, limit: nat, page: seq<PK>)
    requires CoveredUpTo(seen, cursor, covered) && IsPage(table, cursor, limit, page) && page != []
    requires forall pk :: pk in page ==> pk in covered
    ensures CoveredUpTo(seen + [table], Some(page[|page| - 1]), covered)
  {
  }

  /** A page that is not full is the last one. */
  lemma LastPageCovers(seen: seq<Table>, cursor: Option<PK>, covered: set<PK>, table: Table, limit: nat, page: seq<PK>)
    requires CoveredUpTo(seen, cursor, covered) && IsPage(table, cursor, limit, page) && |page| < limit
    requires forall pk :: pk in page ==> pk in covered
    ensures AllCovered(seen + [table], covered)
  {
  }

  /** A full page of an unchanged table leaves that many fewer rows to read. */
  lemma FullPageShrinks(table: Table, after: Option<PK>, limit: nat, page: seq<PK>)
    requires IsPage(table, after, limit, page) && page != []
    ensures |Rest(table, Some(page[|page| - 1]))| + |page| <= |Rest(table, after)|
  {
    var last := page[|page| - 1];
    var left := Rest(table, Some(last));
    var taken := set pk | pk in page;
    DistinctSize(page);
    forall pk | pk in left ensures pk in Rest(table, after) && pk !in taken {
      if after.Some? {
        BeforeTransitive(after.value, last, pk);
      }
      if pk in page {
        var i :| 0 <= i < |page| && page[i] == pk;
        BeforeTotal(pk, last);
      }
    }
    SubsetSize(left + taken, Rest(table, after));
    assert left !! taken;
  }

  lemma {:induction false} DistinctSize(page: seq<PK>)
    requires Ascending(page)
    ensures |set pk | pk in page| == |page|
  {
    if page != [] {
      var n := |page| - 1;
      DistinctSize(page[..n]);
      assert page == page[..n] + [page[n]];
      assert (set pk | pk in page) == (set pk | pk in page[..n]) + {page[n]};
      BeforeTotal(page[n], page[n]);
    }
  }

  // ----- the adaptive page size -----

  const DEFAULT_BATCH: nat := 5000
  const MIN_BATCH: nat := 100
  const MAX_BATCH: nat := 50000

  class BatchOptimizer {
    var current: nat

    ghost predicate Valid() reads this { MIN_BATCH <= current <= MAX_BATCH }

    constructor ()
      ensures Valid() && current == DEFAULT_BATCH
    {
      current := DEFAULT_BATCH;
    }

    /** Pages grow by a quarter under a second and halve above three, within their bounds. */
    method Adjust(ms: nat)
      requires Valid()
      modifies this
      ensures Valid()
      ensures ms < 1000 && 5 * old(current) < 4 * MAX_BATCH ==>
        old(current) < current && 4 * current <= 5 * old(current) < 4 * current + 4
      ensures ms < 1000 && 5 * old(current) >= 4 * MAX_BATCH ==> current == MAX_BATCH
      ensures ms > 3000 && old(current) >= 2 * MIN_BATCH ==> 2 * current <= old(current) <= 2 * current + 1
      ensures ms > 3000 && old(current) < 2 * MIN_BATCH ==> current == MIN_BATCH
      ensures 1000 <= ms <= 3000 ==> current == old(current)
    {
      if ms < 1000 {
        var grown := current * 5 / 4;
        current := if grown < MAX_BATCH then grown else MAX_BATCH;
      } else if ms > 3000 {
        current := if current / 2 > MIN_BATCH then current / 2 else MIN_BATCH;
      }
    }
  }
}
