/** Daily uploads column by column: what each number of a row counts, told from the events alone. */
module DailyColumns {
  import opened Wrappers
  import opened JoinedKeys
  import opened UsageSums
  import opened TeamModel
  import opened Redaction
  import opened DailyRedaction

  /** The events of a list that a row is about. */
  function Picked(es: seq<UsageEvent>, about: UsageEvent -> bool): seq<UsageEvent>
    decreases |es|
  {
    if es == [] then []
    else Picked(es[..|es| - 1], about) + if about(es[|es| - 1]) then [es[|es| - 1]] else []
  }

  function SumOf(es: seq<UsageEvent>, field: UsageEvent -> int): int
    decreases |es|
  {
    if es == [] then 0 else SumOf(es[..|es| - 1], field) + field(es[|es| - 1])
  }

  function Input(e: UsageEvent): int { e.tokens.input }
  function Output(e: UsageEvent): int { e.tokens.output }
  function CacheRead(e: UsageEvent): int { e.tokens.cacheRead }
  function Cache5m(e: UsageEvent): int { e.tokens.cache5m }
  function Cache1h(e: UsageEvent): int { e.tokens.cache1h }
  function Reasoning(e: UsageEvent): int { if e.tokens.reasoning.Some? then e.tokens.reasoning.value else 0 }
  function Cost(e: UsageEvent): int { e.cost }

  /** Each column is the sum of its own field over the events, the count is their number. */
  predicate Columns(u: Usage, es: seq<UsageEvent>) {
    && u.count == |es|
    && u.input == SumOf(es, Input) && u.output == SumOf(es, Output)
    && u.cacheRead == SumOf(es, CacheRead) && u.cache5m == SumOf(es, Cache5m) && u.cache1h == SumOf(es, Cache1h)
    && u.reasoning == SumOf(es, Reasoning) && u.cost == SumOf(es, Cost)
  }

  /** The pricing version of one of the events, and no event has a greater one. */
  ghost predicate GreatestPricing(pricing: string, es: seq<UsageEvent>) {
    && (exists e :: e in es && e.pricing == pricing)
    && (forall e <- es :: e.pricing == pricing || Below(e.pricing, pricing))
  }

  /** `a < b` on strings: at the first place where they differ the character of `a` is smaller, or `a` ends there. */
  ghost predicate Below(a: string, b: string) {
    exists n: nat :: n <= |a| && n < |b| && a[..n] == b[..n] && (n == |a| || a[n] < b[n])
  }

  /** A bucket of key `k` counts the events of this key. */
  predicate Counts(b: Option<Bucket>, es: seq<UsageEvent>) {
    if es == [] then b == None else b.Some? && Columns(b.value.usage, es)
  }

  function OfKey(es: seq<UsageEvent>, k: string): seq<UsageEvent> { Picked(es, e => DailyRedaction.DailyKey(e) == k) }

  lemma SumMore(es: seq<UsageEvent>, e: UsageEvent, field: UsageEvent -> int)
    ensures SumOf(es + [e], field) == SumOf(es, field) + field(e)
  {
    assert (es + [e])[..|es + [e]| - 1] == es;
  }

  lemma ColumnsOfOne(e: UsageEvent)
    ensures Columns(LocalUsage(e), [e])
  {
    assert [e][..0] == [];
  }

  lemma ColumnsMore(u: Usage, es: seq<UsageEvent>, e: UsageEvent)
    requires Columns(u, es)
    ensures Columns(u.Plus(LocalUsage(e)), es + [e])
  {
    SumMore(es, e, Input);
    SumMore(es, e, Output);
    SumMore(es, e, CacheRead);
    SumMore(es, e, Cache5m);
    SumMore(es, e, Cache1h);
    SumMore(es, e, Reasoning);
    SumMore(es, e, Cost);
    hide SumOf;
  }

  lemma {:induction false} BucketCounts(es: seq<UsageEvent>, k: string)
    ensures Counts(BucketOf(es, k), OfKey(es, k))
    decreases |es|
  {
    if es == [] {
    } else {
      var before, e := es[..|es| - 1], es[|es| - 1];
      BucketCounts(before, k);
      if DailyRedaction.DailyKey(e) == k {
        assert OfKey(es, k) == OfKey(before, k) + [e];
        hide Columns, LocalUsage, DailyRedaction.DailyKey, Picked;
        if BucketOf(before, k).None? {
          assert OfKey(before, k) + [e] == [e];
          ColumnsOfOne(e);
        } else {
          ColumnsMore(BucketOf(before, k).value.usage, OfKey(before, k), e);
        }
      } else {
        assert OfKey(es, k) == OfKey(before, k);
      }
    }
  }

  // ---- the pricing version -------------------------------------------------

  lemma {:induction false} AfterIsBelow(a: string, b: string)
    requires After(a, b)
    ensures Below(b, a)
    decreases |a|
  {
    if b == [] || a[0] != b[0] {
      assert b[..0] == a[..0];
    } else {
      AfterIsBelow(a[1..], b[1..]);
      var n: nat :| n <= |b[1..]| && n < |a[1..]| && b[1..][..n] == a[1..][..n] && (n == |b[1..]| || b[1..][n] < a[1..][n]);
      assert b[..n + 1] == [b[0]] + b[1..][..n] && a[..n + 1] == [a[0]] + a[1..][..n];
    }
  }

  lemma BelowTransitive(a: string, b: string, c: string)
    requires Below(a, b) && Below(b, c)
    ensures Below(a, c)
  {
    var m: nat :| m <= |a| && m < |b| && a[..m] == b[..m] && (m == |a| || a[m] < b[m]);
    var n: nat :| n <= |b| && n < |c| && b[..n] == c[..n] && (n == |b| || b[n] < c[n]);
    if m <= n {
      assert a[..m] == b[..m] == b[..n][..m] == c[..n][..m] == c[..m];
      if m < n { assert b[m] == b[..n][m] == c[..n][m] == c[m]; }
    } else {
      assert a[..n] == a[..m][..n] == b[..m][..n] == b[..n] == c[..n];
      assert a[n] == a[..m][n] == b[..m][n] == b[n];
    }
  }

  lemma GreatestMore(pricing: string, es: seq<UsageEvent>, e: UsageEvent)
    requires GreatestPricing(pricing, es)
    ensures GreatestPricing(Later(pricing, e.pricing), es + [e])
  {
    var all, next := es + [e], Later(pricing, e.pricing);
    AfterTotal(pricing, e.pricing);
    var x :| x in es && x.pricing == pricing;
    assert x in all && e in all;
    forall y <- all ensures y.pricing == next || Below(y.pricing, next) {
      if next == pricing && e.pricing != pricing {
        AfterIsBelow(pricing, e.pricing);
      } else if next != pricing {
        AfterIsBelow(e.pricing, pricing);
        if y in es && y.pricing != pricing {
          BelowTransitive(y.pricing, pricing, e.pricing);
        }
      }
    }
  }

  lemma {:induction false} BucketPricing(es: seq<UsageEvent>, k: string)
    requires BucketOf(es, k).Some?
    ensures GreatestPricing(BucketOf(es, k).value.pricing, OfKey(es, k))
    decreases |es|
  {
    var before, e := es[..|es| - 1], es[|es| - 1];
    BucketCounts(before, k);
    if DailyRedaction.DailyKey(e) != k {
      BucketPricing(before, k);
      assert OfKey(es, k) == OfKey(before, k);
    } else {
      assert OfKey(es, k) == OfKey(before, k) + [e];
      hide Columns, LocalUsage, DailyRedaction.DailyKey, Picked;
      if BucketOf(before, k).None? {
        assert OfKey(before, k) + [e] == [e];
        assert e in OfKey(es, k);
      } else {
        BucketPricing(before, k);
        GreatestMore(BucketOf(before, k).value.pricing, OfKey(before, k), e);
      }
    }
  }

  // ---- the rows ------------------------------------------------------------

  /** Names for which a key text has only one reading. */
  predicate BarFreeNames(es: seq<UsageEvent>) { forall e <- es :: NoBar(e.provider) && NoBar(e.model) }

  /** The event is of the row's UTC day, provider and model. */
  predicate About(d: SyncedDaily, e: UsageEvent) {
    d.day * 86400000 <= e.timestamp < (d.day + 1) * 86400000 && e.provider == d.provider && e.model == d.model
  }

  function OfRow(es: seq<UsageEvent>, d: SyncedDaily): seq<UsageEvent> { Picked(es, e => About(d, e)) }

  /** The daily upload of a list of events, row by row and column by column: no two rows for one day, provider and
      model, a row for every event, sums of the events' own fields, and the greatest pricing version. */
  ghost predicate DailyUploadOf(rows: seq<SyncedDaily>, es: seq<UsageEvent>, c: Context) {
    && (forall d <- rows :: d.teamId == c.teamId && d.userId == c.userId && d.nodeId == c.nodeId)
    && (BarFreeNames(es) ==>
          && (forall i, j :: 0 <= i < j < |rows| ==> Triple(rows[i]) != Triple(rows[j]))
          && (forall e <- es :: exists i :: 0 <= i < |rows| && About(rows[i], e))
          && (forall d <- rows :: Columns(d.usage, OfRow(es, d)) && GreatestPricing(d.pricing, OfRow(es, d))))
  }

  lemma AboutIff(d: SyncedDaily, e: UsageEvent)
    ensures About(d, e) <==> Triple(d) == EventTriple(e)
  {}

  lemma {:induction false} PickedSame(es: seq<UsageEvent>, p: UsageEvent -> bool, q: UsageEvent -> bool)
    requires forall e <- es :: p(e) == q(e)
    ensures Picked(es, p) == Picked(es, q)
    decreases |es|
  {
    if es == [] {
    } else {
      assert es[|es| - 1] in es && forall e <- es[..|es| - 1] :: e in es;
      PickedSame(es[..|es| - 1], p, q);
    }
  }

  lemma KeyEvents(rows: seq<SyncedDaily>, keys: seq<string>, es: seq<UsageEvent>, c: Context, i: nat)
    requires RowsOf(rows, keys, es, c) && i < |rows| && BarFreeNames(es)
    ensures OfRow(es, rows[i]) == OfKey(es, keys[i])
  {
    var x := RowOfEvent(rows, keys, es, c, i);
    forall e <- es ensures About(rows[i], e) == (DailyRedaction.DailyKey(e) == keys[i]) {
      AboutIff(rows[i], e);
      KeyOfTriple(e, x);
    }
    PickedSame(es, e => About(rows[i], e), e => DailyRedaction.DailyKey(e) == keys[i]);
  }

  /** Whatever the names are, each row counts the events of its key text. */
  lemma RowColumns(rows: seq<SyncedDaily>, keys: seq<string>, es: seq<UsageEvent>, c: Context, i: nat)
    requires RowsOf(rows, keys, es, c) && i < |rows|
    ensures Columns(rows[i].usage, OfKey(es, keys[i])) && GreatestPricing(rows[i].pricing, OfKey(es, keys[i]))
    ensures rows[i].teamId == c.teamId && rows[i].userId == c.userId && rows[i].nodeId == c.nodeId
  {
    BucketCounts(es, keys[i]);
    BucketPricing(es, keys[i]);
  }

  /** The names in a row are those of the account. */
  lemma RowsNamed(rows: seq<SyncedDaily>, keys: seq<string>, es: seq<UsageEvent>, c: Context)
    requires RowsOf(rows, keys, es, c)
    ensures forall d <- rows :: d.teamId == c.teamId && d.userId == c.userId && d.nodeId == c.nodeId
  {
    forall d <- rows ensures d.teamId == c.teamId && d.userId == c.userId && d.nodeId == c.nodeId {
      var i: nat :| i < |rows| && rows[i] == d;
      RowColumns(rows, keys, es, c, i);
    }
  }

  lemma RowForEach(rows: seq<SyncedDaily>, keys: seq<string>, es: seq<UsageEvent>, c: Context, e: UsageEvent)
    requires RowsOf(rows, keys, es, c) && BarFreeNames(es) && e in es
    ensures exists i :: 0 <= i < |rows| && About(rows[i], e)
  {
    OneRowEach(rows, keys, es, c);
    hide RowsOf, About;
    var i :| 0 <= i < |rows| && Triple(rows[i]) == EventTriple(e);
    AboutIff(rows[i], e);
  }

  lemma RowsUpload(rows: seq<SyncedDaily>, keys: seq<string>, es: seq<UsageEvent>, c: Context)
    requires RowsOf(rows, keys, es, c)
    ensures DailyUploadOf(rows, es, c)
  {
    RowsNamed(rows, keys, es, c);
    if BarFreeNames(es) {
      OneRowEach(rows, keys, es, c);
      hide Columns, GreatestPricing, OfRow, OfKey, RowsOf, About, Occurs, Triple, EventTriple;
      forall e <- es ensures exists i :: 0 <= i < |rows| && About(rows[i], e) {
        RowForEach(rows, keys, es, c, e);
      }
      forall d <- rows ensures Columns(d.usage, OfRow(es, d)) && GreatestPricing(d.pricing, OfRow(es, d)) {
        var i: nat :| i < |rows| && rows[i] == d;
        RowColumns(rows, keys, es, c, i);
        KeyEvents(rows, keys, es, c, i);
      }
    }
  }
}
