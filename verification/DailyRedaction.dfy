/** Client-side daily buckets, the only thing `aggregateOnly` uploads. */
module DailyRedaction {
  import opened Wrappers
  import opened JoinedKeys
  import opened UsageSums
  import opened TeamModel
  import opened Redaction

  // ---- order of version strings --------------------------------------------

  /** `a > b` on strings. */
  predicate After(a: string, b: string)
    decreases |a|
  {
    if a == [] then false
    else if b == [] then true
    else if a[0] != b[0] then a[0] > b[0]
    else After(a[1..], b[1..])
  }

  lemma {:induction false} AfterTotal(a: string, b: string)
    ensures After(a, b) || After(b, a) || a == b
    ensures !(After(a, b) && After(b, a)) && !After(a, a)
    decreases |a|
  {
    if a == [] {
    } else {
      AfterTotal(a[1..], a[1..]);
      if b != [] && a[0] == b[0] {
        AfterTotal(a[1..], b[1..]);
        assert a == [a[0]] + a[1..] && b == [b[0]] + b[1..];
      }
    }
  }

  lemma {:induction false} AfterTransitive(a: string, b: string, c: string)
    requires After(a, b) && After(b, c)
    ensures After(a, c)
    decreases |a|
  {
    if c == [] || a[0] != b[0] || b[0] != c[0] {
    } else {
      AfterTransitive(a[1..], b[1..], c[1..]);
    }
  }

  function Later(a: string, b: string): string { if After(b, a) then b else a }

  lemma LaterLaws(a: string, b: string, c: string)
    ensures Later(a, b) == Later(b, a)
    ensures Later(Later(a, b), c) == Later(a, Later(b, c))
  {
    AfterTotal(a, b);
    AfterTotal(b, c);
    AfterTotal(a, c);
    if After(a, b) && After(b, c) { AfterTransitive(a, b, c); }
    if After(c, b) && After(b, a) { AfterTransitive(c, b, a); }
    if After(b, a) && After(a, c) { AfterTransitive(b, a, c); }
    if After(c, a) && After(a, b) { AfterTransitive(c, a, b); }
    if After(a, c) && After(c, b) { AfterTransitive(a, c, b); }
    if After(b, c) && After(c, a) { AfterTransitive(b, c, a); }
  }

  // ---- keys ----------------------------------------------------------------

  function DailyKey(e: UsageEvent): string { Join([IntText(DayOf(e.timestamp)), e.provider, e.model]) }

  lemma {:induction false} PartsNoBar(s: string)
    ensures forall p <- Split(s) :: NoBar(p)
  {
    if s == [] {
    } else {
      PartsNoBar(s[1..]);
      var rest := Split(s[1..]);
      assert rest[0] in rest && forall p <- rest[1..] :: p in rest;
    }
  }

  lemma {:induction false} SplitCounts(x: string, r: string)
    ensures |Split(x + ['|'] + r)| >= 1 + |Split(r)|
  {
    var s := x + ['|'] + r;
    if x == [] {
      assert s[1..] == r;
    } else {
      assert s[1..] == x[1..] + ['|'] + r;
      SplitCounts(x[1..], r);
    }
  }

  lemma KeyShape(e: UsageEvent)
    ensures DailyKey(e) == IntText(DayOf(e.timestamp)) + ['|'] + (e.provider + ['|'] + e.model)
  {
    var parts := [IntText(DayOf(e.timestamp)), e.provider, e.model];
    assert parts[1..] == [e.provider, e.model] && [e.provider, e.model][1..] == [e.model] && Join([e.model]) == e.model;
    assert Join(parts[1..]) == e.provider + ['|'] + e.model;
  }

  /** The key always splits into at least three parts, the first of which is the day. */
  lemma KeyParts(e: UsageEvent)
    ensures |Split(DailyKey(e))| >= 3 && Split(DailyKey(e))[0] == IntText(DayOf(e.timestamp))
  {
    KeyShape(e);
    SplitAtBar(IntText(DayOf(e.timestamp)), e.provider + ['|'] + e.model);
    SplitCounts(e.provider, e.model);
  }

  /** Splitting gives provider and model back if and only if neither contains a bar. */
  lemma SplitUndoesKeyIff(e: UsageEvent)
    ensures |Split(DailyKey(e))| >= 3
    ensures Split(DailyKey(e))[1] == e.provider && Split(DailyKey(e))[2] == e.model
            <==> NoBar(e.provider) && NoBar(e.model)
  {
    KeyParts(e);
    PartsNoBar(DailyKey(e));
    var parts := Split(DailyKey(e));
    assert parts[1] in parts && parts[2] in parts;
    if NoBar(e.provider) && NoBar(e.model) {
      SplitUndoesJoin([IntText(DayOf(e.timestamp)), e.provider, e.model]);
    }
  }

  // ---- buckets -------------------------------------------------------------

  function LocalUsage(e: UsageEvent): Usage {
    Usage(1, e.tokens.input, e.tokens.output, e.tokens.cacheRead, e.tokens.cache5m, e.tokens.cache1h,
          OrElse(e.tokens.reasoning, 0), e.cost)
  }

  datatype Bucket = Bucket(day: int, provider: string, model: string, usage: Usage, pricing: string)

  function FirstBucket(e: UsageEvent): Bucket {
    KeyParts(e);
    var parts := Split(DailyKey(e));
    Bucket(DayOf(e.timestamp), parts[1], parts[2], LocalUsage(e), e.pricing)
  }

  function AddEvent(b: Bucket, e: UsageEvent): Bucket {
    b.(usage := b.usage.Plus(LocalUsage(e)), pricing := Later(b.pricing, e.pricing))
  }

  function Upload(b: Bucket, c: Context): SyncedDaily {
    SyncedDaily(c.teamId, c.userId, c.nodeId, b.day, b.provider, b.model, b.usage, b.pricing)
  }

  /** The bucket of key `k` after a list of events, wherever those events stand in it. */
  function BucketOf(es: seq<UsageEvent>, k: string): Option<Bucket>
    decreases |es|
  {
    if es == [] then None
    else
      var before, e := BucketOf(es[..|es| - 1], k), es[|es| - 1];
      if DailyKey(e) != k then before
      else if before.None? then Some(FirstBucket(e))
      else Some(AddEvent(before.value, e))
  }

  lemma {:induction false} HasBucket(es: seq<UsageEvent>, e: UsageEvent)
    requires e in es
    ensures BucketOf(es, DailyKey(e)).Some?
    decreases |es|
  {
    if es[|es| - 1] == e {
    } else {
      HasBucket(es[..|es| - 1], e);
    }
  }

  /** One row per bucket. */
  ghost predicate RowsOf(rows: seq<SyncedDaily>, keys: seq<string>, es: seq<UsageEvent>, c: Context) {
    && |rows| == |keys|
    && (forall i, j :: 0 <= i < j < |keys| ==> keys[i] != keys[j])
    && (forall i :: 0 <= i < |keys| ==> BucketOf(es, keys[i]).Some? && rows[i] == Upload(BucketOf(es, keys[i]).value, c))
    && (forall e <- es :: DailyKey(e) in keys)
  }

  /** `Array.from(buckets.values()).map(…)`. */
  function Uploads(buckets: map<string, Bucket>, keys: seq<string>, c: Context): (rows: seq<SyncedDaily>)
    requires forall k <- keys :: k in buckets
  {
    seq(|keys|, i requires 0 <= i < |keys| => Upload(buckets[keys[i]], c))
  }

  /** The bucketing loop: a map of buckets in insertion order. */
  method RedactToDaily(es: seq<UsageEvent>, c: Context) returns (rows: seq<SyncedDaily>, keys: seq<string>)
    ensures RowsOf(rows, keys, es, c)
  {
    var buckets: map<string, Bucket> := map[];
    keys := [];
    var i := 0;
    while i < |es|
      invariant 0 <= i <= |es|
      invariant forall k :: k in buckets <==> k in keys
      invariant forall k :: BucketOf(es[..i], k) == if k in buckets then Some(buckets[k]) else None
      invariant forall x, y :: 0 <= x < y < |keys| ==> keys[x] != keys[y]
    {
      var e := es[i];
      var key := DailyKey(e);
      assert es[..i + 1][..i] == es[..i];
      if key !in buckets {
        buckets := buckets[key := FirstBucket(e)];
        keys := keys + [key];
      } else {
        buckets := buckets[key := AddEvent(buckets[key], e)];
      }
      i := i + 1;
    }
    assert es[..i] == es;
    forall e <- es ensures DailyKey(e) in keys {
      HasBucket(es, e);
    }
    rows := Uploads(buckets, keys, c);
  }

  // ---- conservation --------------------------------------------------------

  function Total(us: seq<Usage>): Usage
    decreases |us|
  {
    if us == [] then ZERO else Total(us[..|us| - 1]).Plus(us[|us| - 1])
  }

  function Usages(es: seq<UsageEvent>): seq<Usage> { seq(|es|, i requires 0 <= i < |es| => LocalUsage(es[i])) }

  function RowUsages(rows: seq<SyncedDaily>): seq<Usage> { seq(|rows|, i requires 0 <= i < |rows| => rows[i].usage) }

  function UsageIn(es: seq<UsageEvent>, k: string): Usage {
    var b := BucketOf(es, k);
    if b.None? then ZERO else b.value.usage
  }

  /** The totals of a list of keys. */
  function UsageOfKeys(es: seq<UsageEvent>, keys: seq<string>): Usage
    decreases |keys|
  {
    if keys == [] then ZERO else UsageOfKeys(es, keys[..|keys| - 1]).Plus(UsageIn(es, keys[|keys| - 1]))
  }

  lemma UsageInMore(es: seq<UsageEvent>, e: UsageEvent, k: string)
    ensures UsageIn(es + [e], k) == if DailyKey(e) == k then UsageIn(es, k).Plus(LocalUsage(e)) else UsageIn(es, k)
  {
    assert (es + [e])[..|es|] == es;
  }

  lemma {:induction false} OneMoreEvent(es: seq<UsageEvent>, e: UsageEvent, keys: seq<string>)
    requires forall i, j :: 0 <= i < j < |keys| ==> keys[i] != keys[j]
    ensures UsageOfKeys(es + [e], keys)
            == if DailyKey(e) in keys then UsageOfKeys(es, keys).Plus(LocalUsage(e)) else UsageOfKeys(es, keys)
    decreases |keys|
  {
    if keys == [] {
    } else {
      var rest, k := keys[..|keys| - 1], keys[|keys| - 1];
      assert keys == rest + [k] && k !in rest;
      OneMoreEvent(es, e, rest);
      UsageInMore(es, e, k);
      if DailyKey(e) == k {
        PlusLaws(UsageOfKeys(es, rest), UsageIn(es, k), LocalUsage(e));
      } else {
        PlusLaws(UsageIn(es, k), UsageOfKeys(es, rest), LocalUsage(e));
        PlusSwaps(UsageOfKeys(es, rest), LocalUsage(e), UsageIn(es, k));
      }
    }
  }

  lemma PlusSwaps(a: Usage, b: Usage, c: Usage)
    ensures a.Plus(b).Plus(c) == a.Plus(c).Plus(b)
  {}

  lemma TotalOfMore(es: seq<UsageEvent>, e: UsageEvent)
    ensures Total(Usages(es + [e])) == Total(Usages(es)).Plus(LocalUsage(e))
  {
    var us := Usages(es + [e]);
    assert us[..|us| - 1] == Usages(es) && us[|us| - 1] == LocalUsage(e);
  }

  lemma {:induction false} AllKeysConserve(es: seq<UsageEvent>, keys: seq<string>)
    requires forall i, j :: 0 <= i < j < |keys| ==> keys[i] != keys[j]
    requires forall e <- es :: DailyKey(e) in keys
    ensures UsageOfKeys(es, keys) == Total(Usages(es))
    decreases |es|
  {
    if es == [] {
      NoEvents(keys);
    } else {
      var before, e := es[..|es| - 1], es[|es| - 1];
      assert es == before + [e] && e in es && forall x <- before :: x in es;
      AllKeysConserve(before, keys);
      OneMoreEvent(before, e, keys);
      TotalOfMore(before, e);
    }
  }

  lemma {:induction false} NoEvents(keys: seq<string>)
    ensures UsageOfKeys([], keys) == ZERO
    decreases |keys|
  {
    if keys == [] {
    } else {
      NoEvents(keys[..|keys| - 1]);
    }
  }

  lemma {:induction false} RowsTotal(rows: seq<SyncedDaily>, keys: seq<string>, es: seq<UsageEvent>, c: Context)
    requires |rows| == |keys|
    requires forall i :: 0 <= i < |keys| ==> BucketOf(es, keys[i]).Some? && rows[i] == Upload(BucketOf(es, keys[i]).value, c)
    ensures Total(RowUsages(rows)) == UsageOfKeys(es, keys)
    decreases |keys|
  {
    if keys == [] {
    } else {
      var n := |keys| - 1;
      RowsTotal(rows[..n], keys[..n], es, c);
      assert RowUsages(rows)[..n] == RowUsages(rows[..n]);
    }
  }

  /** No event, token or micro-dollar is lost or counted twice, bars or not. */
  lemma Conserves(rows: seq<SyncedDaily>, keys: seq<string>, es: seq<UsageEvent>, c: Context)
    requires RowsOf(rows, keys, es, c)
    ensures Total(RowUsages(rows)) == Total(Usages(es))
  {
    RowsTotal(rows, keys, es, c);
    AllKeysConserve(es, keys);
  }

  // ---- one row per day, provider and model ---------------------------------

  function Triple(d: SyncedDaily): (int, string, string) { (d.day, d.provider, d.model) }

  function EventTriple(e: UsageEvent): (int, string, string) { (DayOf(e.timestamp), e.provider, e.model) }

  ghost predicate Occurs(es: seq<UsageEvent>, t: (int, string, string)) { exists e :: e in es && EventTriple(e) == t }

  lemma {:induction false} BucketFromEvent(es: seq<UsageEvent>, k: string) returns (e: UsageEvent)
    requires BucketOf(es, k).Some?
    ensures e in es && DailyKey(e) == k
    ensures var b := BucketOf(es, k).value; b == FirstBucket(e).(usage := b.usage, pricing := b.pricing)
    decreases |es|
  {
    var last := es[|es| - 1];
    if BucketOf(es[..|es| - 1], k).None? {
      e := last;
    } else {
      e := BucketFromEvent(es[..|es| - 1], k);
    }
  }

  lemma KeyOfTriple(e: UsageEvent, f: UsageEvent)
    requires NoBar(e.provider) && NoBar(f.provider)
    ensures DailyKey(e) == DailyKey(f) <==> EventTriple(e) == EventTriple(f)
  {
    if DailyKey(e) == DailyKey(f) {
      var p, q := [IntText(DayOf(e.timestamp)), e.provider, e.model], [IntText(DayOf(f.timestamp)), f.provider, f.model];
      JoinInjective(p, q);
      assert p[0] == q[0] && p[1] == q[1] && p[2] == q[2];
      IntTextInjective(DayOf(e.timestamp), DayOf(f.timestamp));
    }
  }

  lemma RowOfEvent(rows: seq<SyncedDaily>, keys: seq<string>, es: seq<UsageEvent>, c: Context, i: nat) returns (e: UsageEvent)
    requires RowsOf(rows, keys, es, c) && i < |rows|
    requires forall x <- es :: NoBar(x.provider) && NoBar(x.model)
    ensures e in es && DailyKey(e) == keys[i] && Triple(rows[i]) == EventTriple(e)
  {
    e := BucketFromEvent(es, keys[i]);
    SplitUndoesKeyIff(e);
  }

  /** With bar-free names there is exactly one row for each day, provider and model that occurs. */
  lemma OneRowEach(rows: seq<SyncedDaily>, keys: seq<string>, es: seq<UsageEvent>, c: Context)
    requires RowsOf(rows, keys, es, c)
    requires forall x <- es :: NoBar(x.provider) && NoBar(x.model)
    ensures forall i, j :: 0 <= i < j < |rows| ==> Triple(rows[i]) != Triple(rows[j])
    ensures forall i :: 0 <= i < |rows| ==> Occurs(es, Triple(rows[i]))
    ensures forall e <- es :: exists i :: 0 <= i < |rows| && Triple(rows[i]) == EventTriple(e)
  {
    forall i, j | 0 <= i < j < |rows| ensures Triple(rows[i]) != Triple(rows[j]) {
      var e := RowOfEvent(rows, keys, es, c, i);
      var f := RowOfEvent(rows, keys, es, c, j);
      KeyOfTriple(e, f);
    }
    forall i | 0 <= i < |rows| ensures Occurs(es, Triple(rows[i])) {
      var e := RowOfEvent(rows, keys, es, c, i);
      assert e in es && EventTriple(e) == Triple(rows[i]);
    }
    forall e <- es ensures exists i :: 0 <= i < |rows| && Triple(rows[i]) == EventTriple(e) {
      var i :| 0 <= i < |keys| && keys[i] == DailyKey(e);
      var f := RowOfEvent(rows, keys, es, c, i);
      KeyOfTriple(e, f);
    }
  }

  // ---- the order of events does not matter ---------------------------------

  /** Two buckets of the same key, joined. */
  function Both(a: Option<Bucket>, b: Option<Bucket>): Option<Bucket> {
    if a.None? then b else if b.None? then a
    else Some(a.value.(usage := a.value.usage.Plus(b.value.usage), pricing := Later(a.value.pricing, b.value.pricing)))
  }

  lemma {:induction false} BucketOfConcat(x: seq<UsageEvent>, y: seq<UsageEvent>, k: string)
    ensures BucketOf(x + y, k) == Both(BucketOf(x, k), BucketOf(y, k))
    decreases |y|
  {
    if y == [] {
      assert x + y == x;
    } else {
      var y', e := y[..|y| - 1], y[|y| - 1];
      assert (x + y)[..|x + y| - 1] == x + y';
      BucketOfConcat(x, y', k);
      if DailyKey(e) == k && BucketOf(x, k).Some? && BucketOf(y', k).Some? {
        var a, b := BucketOf(x, k).value, BucketOf(y', k).value;
        PlusLaws(a.usage, b.usage, LocalUsage(e));
        LaterLaws(a.pricing, b.pricing, e.pricing);
      }
    }
  }

  lemma BucketFields(es: seq<UsageEvent>, fs: seq<UsageEvent>, k: string)
    requires BucketOf(es, k).Some? && BucketOf(fs, k).Some?
    ensures var a, b := BucketOf(es, k).value, BucketOf(fs, k).value;
            a.day == b.day && a.provider == b.provider && a.model == b.model
  {
    var e := BucketFromEvent(es, k);
    var f := BucketFromEvent(fs, k);
    KeyParts(e);
    KeyParts(f);
    IntTextInjective(DayOf(e.timestamp), DayOf(f.timestamp));
  }

  lemma BothCommutes(x: seq<UsageEvent>, y: seq<UsageEvent>, k: string)
    ensures BucketOf(x + y, k) == BucketOf(y + x, k)
  {
    BucketOfConcat(x, y, k);
    BucketOfConcat(y, x, k);
    if BucketOf(x, k).Some? && BucketOf(y, k).Some? {
      BucketFields(x, y, k);
      LaterLaws(BucketOf(x, k).value.pricing, BucketOf(y, k).value.pricing, "");
    }
  }

  /** Moving one event to the end changes no bucket. */
  lemma MoveToEnd(x: seq<UsageEvent>, e: UsageEvent, y: seq<UsageEvent>, k: string)
    ensures BucketOf(x + [e] + y, k) == BucketOf(x + y + [e], k)
  {
    assert x + [e] + y == x + ([e] + y) && x + y + [e] == x + (y + [e]);
    BucketOfConcat(x, [e] + y, k);
    BucketOfConcat(x, y + [e], k);
    BothCommutes([e], y, k);
  }

  lemma Cancel<T>(a: multiset<T>, b: multiset<T>, e: T)
    requires a + multiset{e} == b + multiset{e}
    ensures a == b
  {
    assert a == a + multiset{e} - multiset{e};
    assert b == b + multiset{e} - multiset{e};
  }

  /** Buckets depend on the events, not on their order. */
  lemma {:induction false} OrderIrrelevant(es: seq<UsageEvent>, fs: seq<UsageEvent>, k: string)
    requires multiset(es) == multiset(fs)
    ensures BucketOf(es, k) == BucketOf(fs, k)
    decreases |es|
  {
    if es == [] {
      assert |multiset(es)| == |multiset(fs)| == |fs|;
    } else {
      var before, e := es[..|es| - 1], es[|es| - 1];
      assert es == before + [e];
      assert e in multiset(fs);
      var i :| 0 <= i < |fs| && fs[i] == e;
      var x, y := fs[..i], fs[i + 1..];
      assert fs == x + [e] + y;
      assert multiset(fs) == multiset(x + y) + multiset{e};
      assert multiset(es) == multiset(before) + multiset{e};
      Cancel(multiset(before), multiset(x + y), e);
      OrderIrrelevant(before, x + y, k);
      MoveToEnd(x, e, y, k);
      assert (x + y + [e])[..|x + y|] == x + y;
    }
  }

  /** The rows of a permuted list are the same rows. */
  lemma RowsPermute(rows: seq<SyncedDaily>, keys: seq<string>, es: seq<UsageEvent>,
                    rows': seq<SyncedDaily>, keys': seq<string>, fs: seq<UsageEvent>, c: Context)
    requires RowsOf(rows, keys, es, c) && RowsOf(rows', keys', fs, c) && multiset(es) == multiset(fs)
    ensures forall d <- rows :: d in rows'
  {
    forall d <- rows ensures d in rows' {
      var i :| 0 <= i < |rows| && rows[i] == d;
      var e := BucketFromEvent(es, keys[i]);
      assert e in multiset(fs);
      var j :| 0 <= j < |keys'| && keys'[j] == DailyKey(e);
      OrderIrrelevant(es, fs, keys[i]);
      assert rows'[j] == d;
    }
  }
}
