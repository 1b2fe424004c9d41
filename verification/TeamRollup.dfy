/** The daily rollup agrees with the raw events it stands for. */
module TeamRollup {
  import opened Wrappers
  import opened JoinedKeys
  import opened UsageSums
  import opened TeamModel
  import opened TeamBatch

  /** The stored events counted in rollup row `k`. */
  function EventsOf(events: map<string, EventRow>, k: RollupKey): map<string, Usage> {
    map id | id in events && KeyOf(events[id].e) == k :: UsageOf(events[id].e)
  }

  ghost predicate CountedIn(rollup: map<RollupKey, DayRow>, row: EventRow) { KeyOf(row.e) in rollup }

  /** The rollup is `SELECT … SUM(…), COUNT(*) FROM usage_events GROUP BY …`: no row is missing, none is
      extra, and every total is right. */
  ghost predicate Agrees(events: map<string, EventRow>, rollup: map<RollupKey, DayRow>) {
    && (forall id {:trigger CountedIn(rollup, events[id])} | id in events :: CountedIn(rollup, events[id]))
    && (forall k <- rollup :: rollup[k].usage.count >= 1 && rollup[k].usage == Sum(EventsOf(events, k)))
  }

  lemma EventsOfInsert(events: map<string, EventRow>, e: SyncedEvent, now: int, k: RollupKey)
    requires e.syncEventId !in events
    ensures EventsOf(events[e.syncEventId := RowOf(e, now)], k)
            == if k == KeyOf(e) then EventsOf(events, k)[e.syncEventId := UsageOf(e)] else EventsOf(events, k)
  {
    assert KeyOf(RowOf(e, now).e) == KeyOf(e) && UsageOf(RowOf(e, now).e) == UsageOf(e);
  }

  /** Storing one event together with its rollup increment keeps the agreement. */
  lemma AgreesInsert(events: map<string, EventRow>, rollup: map<RollupKey, DayRow>, e: SyncedEvent, now: int)
    requires Agrees(events, rollup) && e.syncEventId !in events
    ensures Agrees(events[e.syncEventId := RowOf(e, now)], Accumulate(rollup, KeyOf(e), UsageOf(e), e.pricing, now))
  {
    var events' := events[e.syncEventId := RowOf(e, now)];
    var rollup' := Accumulate(rollup, KeyOf(e), UsageOf(e), e.pricing, now);
    forall id | id in events' ensures CountedIn(rollup', events'[id]) {
      if id in events {
        assert CountedIn(rollup, events[id]);
      }
      assert KeyOf(RowOf(e, now).e) == KeyOf(e);
    }
    forall k <- rollup' ensures rollup'[k].usage.count >= 1 && rollup'[k].usage == Sum(EventsOf(events', k)) {
      EventsOfInsert(events, e, now, k);
      if k == KeyOf(e) {
        AddedRow(events, rollup, e);
      }
    }
  }

  lemma AddedRow(events: map<string, EventRow>, rollup: map<RollupKey, DayRow>, e: SyncedEvent)
    requires Agrees(events, rollup) && e.syncEventId !in events
    ensures Sum(EventsOf(events, KeyOf(e))[e.syncEventId := UsageOf(e)])
            == if KeyOf(e) in rollup then rollup[KeyOf(e)].usage.Plus(UsageOf(e)) else UsageOf(e)
  {
    var mine := EventsOf(events, KeyOf(e));
    SumInsert(mine, e.syncEventId, UsageOf(e));
    PlusLaws(UsageOf(e), ZERO, ZERO);
    if KeyOf(e) !in rollup {
      assert forall id <- mine :: CountedIn(rollup, events[id]);
      assert mine == map[];
    }
  }

  // ---- what a scan has inserted --------------------------------------------

  /** Two inserted events whose bucket text is the same belong to the same rollup row. */
  predicate NoCollisions(inserted: seq<SyncedEvent>) {
    forall i, j | 0 <= i < |inserted| && 0 <= j < |inserted|
      && KeyText(KeyOf(inserted[i])) == KeyText(KeyOf(inserted[j])) :: KeyOf(inserted[i]) == KeyOf(inserted[j])
  }

  /** Every inserted event has its text among the buckets. */
  ghost predicate Bucketed(c: Scan) {
    forall e <- c.inserted :: KeyText(KeyOf(e)) in c.buckets
  }

  /** Every bucket is filed for the row of some inserted event. */
  ghost predicate Sourced(c: Scan) {
    forall text <- c.buckets :: exists e :: e in c.inserted && KeyOf(e) == c.buckets[text].key
  }

  /** The event table is the table `before` plus the inserted events. */
  ghost predicate Stored(c: Scan, before: map<string, EventRow>) {
    && (forall e <- c.inserted :: e.syncEventId !in before && e.syncEventId in c.t.events)
    && (forall e <- c.inserted :: c.t.events[e.syncEventId].e == RowOf(e, 0).e)
    && (forall id <- before :: id in c.t.events && c.t.events[id] == before[id])
  }

  /** Step `d` of scan `c` inserts event `e`. */
  ghost predicate Inserts(c: Scan, d: Scan, e: SyncedEvent, now: int) {
    && d.inserted == c.inserted + [e] && e.syncEventId !in c.t.events
    && d.t.events == c.t.events[e.syncEventId := RowOf(e, now)]
    && d.buckets == AddToBucket(c.buckets, e)
  }

  ghost predicate InsertsNothing(c: Scan, d: Scan) {
    d.inserted == c.inserted && d.t.events == c.t.events && d.buckets == c.buckets
  }

  /** The two ways a step can treat the event tables. */
  lemma NextInserts(c: Scan, teamId: string, p: Payload, now: int, cap: int)
    ensures var d := Next(c, teamId, p, now, cap);
            && d.t.rollup == c.t.rollup
            && (|| InsertsNothing(c, d)
                || (p.Event? && p.e.teamId == teamId && Inserts(c, d, p.e, now)))
  {
    if Refusal(c.t.members, teamId, p).None? && !OverCap(c, p, cap) {
      var t := Touch(c, teamId, p, now);
      assert InsertsNothing(c, t) && t.t.rollup == c.t.rollup;
      if p.Event? {
        WriteInserts(t, p, now);
      }
    }
  }

  lemma WriteInserts(c: Scan, p: Payload, now: int)
    requires p.Event?
    ensures var d := WriteEvent(c, p, now);
            d.t.rollup == c.t.rollup && (InsertsNothing(c, d) || Inserts(c, d, p.e, now))
  {}

  lemma StoredInsert(c: Scan, d: Scan, before: map<string, EventRow>, e: SyncedEvent, now: int)
    requires Stored(c, before) && Inserts(c, d, e, now)
    ensures Stored(d, before)
  {}

  lemma BucketedInsert(c: Scan, d: Scan, e: SyncedEvent, now: int)
    requires Bucketed(c) && Inserts(c, d, e, now)
    ensures Bucketed(d)
  {}

  lemma SourcedInsert(c: Scan, d: Scan, e: SyncedEvent, now: int)
    requires Sourced(c) && Inserts(c, d, e, now)
    ensures Sourced(d)
  {
    assert e in d.inserted;
    forall text <- d.buckets ensures exists x :: x in d.inserted && KeyOf(x) == d.buckets[text].key {
      if text in c.buckets {
        var x :| x in c.inserted && KeyOf(x) == c.buckets[text].key;
        assert x in d.inserted;
      }
    }
  }

  lemma {:induction false} ScanStored(s: Tables, teamId: string, ps: seq<Payload>, now: int, cap: int)
    ensures Stored(Scanned(s, teamId, ps, now, cap), s.events)
    ensures Scanned(s, teamId, ps, now, cap).t.rollup == s.rollup
    decreases |ps|
  {
    if ps == [] {
    } else {
      var c := Scanned(s, teamId, ps[..|ps| - 1], now, cap);
      var p := ps[|ps| - 1];
      ScanStored(s, teamId, ps[..|ps| - 1], now, cap);
      NextInserts(c, teamId, p, now, cap);
      var d := Next(c, teamId, p, now, cap);
      if !InsertsNothing(c, d) {
        StoredInsert(c, d, s.events, p.e, now);
      }
    }
  }

  lemma {:induction false} ScanBucketed(s: Tables, teamId: string, ps: seq<Payload>, now: int, cap: int)
    ensures Bucketed(Scanned(s, teamId, ps, now, cap))
    decreases |ps|
  {
    if ps == [] {
    } else {
      var c := Scanned(s, teamId, ps[..|ps| - 1], now, cap);
      var p := ps[|ps| - 1];
      ScanBucketed(s, teamId, ps[..|ps| - 1], now, cap);
      NextInserts(c, teamId, p, now, cap);
      var d := Next(c, teamId, p, now, cap);
      if !InsertsNothing(c, d) {
        BucketedInsert(c, d, p.e, now);
      }
    }
  }

  lemma {:induction false} ScanSourced(s: Tables, teamId: string, ps: seq<Payload>, now: int, cap: int)
    ensures Sourced(Scanned(s, teamId, ps, now, cap))
    decreases |ps|
  {
    if ps == [] {
    } else {
      var c := Scanned(s, teamId, ps[..|ps| - 1], now, cap);
      var p := ps[|ps| - 1];
      ScanSourced(s, teamId, ps[..|ps| - 1], now, cap);
      NextInserts(c, teamId, p, now, cap);
      var d := Next(c, teamId, p, now, cap);
      if !InsertsNothing(c, d) {
        SourcedInsert(c, d, p.e, now);
      }
    }
  }

  /** What is inserted comes from the batch and belongs to its team. */
  lemma {:induction false} InsertedFrom(s: Tables, teamId: string, ps: seq<Payload>, now: int, cap: int)
    ensures forall e <- Scanned(s, teamId, ps, now, cap).inserted :: e.teamId == teamId && Event(e) in ps
    decreases |ps|
  {
    if ps == [] {
    } else {
      var c := Scanned(s, teamId, ps[..|ps| - 1], now, cap);
      InsertedFrom(s, teamId, ps[..|ps| - 1], now, cap);
      NextInserts(c, teamId, ps[|ps| - 1], now, cap);
      assert ps == ps[..|ps| - 1] + [ps[|ps| - 1]];
    }
  }

  // ---- the agreement is kept exactly when buckets do not collide -----------

  lemma {:induction false} ScanAgrees(s: Tables, teamId: string, ps: seq<Payload>, now: int, cap: int)
    requires Agrees(s.events, s.rollup)
    requires NoCollisions(Scanned(s, teamId, ps, now, cap).inserted)
    ensures var c := Scanned(s, teamId, ps, now, cap); Agrees(c.t.events, Flush(s.rollup, c.buckets, now))
    decreases |ps|
  {
    if ps == [] {
      FlushNothing(s.rollup, now);
    } else {
      var c := Scanned(s, teamId, ps[..|ps| - 1], now, cap);
      var p := ps[|ps| - 1];
      var d := Next(c, teamId, p, now, cap);
      NextInserts(c, teamId, p, now, cap);
      PrefixNoCollisions(c.inserted, d.inserted);
      ScanAgrees(s, teamId, ps[..|ps| - 1], now, cap);
      if !InsertsNothing(c, d) {
        ScanSourced(s, teamId, ps[..|ps| - 1], now, cap);
        ScansFiled(Begin(s, teamId), teamId, ps[..|ps| - 1], now, cap);
        NoCollisionNow(c, p.e);
        FlushAdds(s.rollup, c.buckets, p.e, now);
        AgreesInsert(c.t.events, Flush(s.rollup, c.buckets, now), p.e, now);
      }
    }
  }

  lemma PrefixNoCollisions(a: seq<SyncedEvent>, b: seq<SyncedEvent>)
    requires a <= b && NoCollisions(b)
    ensures NoCollisions(a)
  {
    assert forall i :: 0 <= i < |a| ==> a[i] == b[i];
  }

  lemma NoCollisionNow(c: Scan, e: SyncedEvent)
    requires Sourced(c) && Filed(c.buckets) && NoCollisions(c.inserted + [e])
    ensures !Collides(c.buckets, e)
  {
    var text := KeyText(KeyOf(e));
    if text in c.buckets {
      var x :| x in c.inserted && KeyOf(x) == c.buckets[text].key;
      var all := c.inserted + [e];
      var i :| 0 <= i < |c.inserted| && c.inserted[i] == x;
      assert all[i] == x && all[|c.inserted|] == e;
    }
  }

  /** An inserted event that has no bucket of its own is missing from the rollup. */
  lemma MissedEvent(c: Scan, before: map<string, EventRow>, e: SyncedEvent, now: int)
    requires Stored(c, before) && Filed(c.buckets) && Agrees(before, c.t.rollup)
    requires e in c.inserted && Collides(c.buckets, e)
    ensures !Agrees(c.t.events, Flush(c.t.rollup, c.buckets, now))
  {
    var k := KeyOf(e);
    var after := Flush(c.t.rollup, c.buckets, now);
    assert k !in Targets(c.buckets);
    if k in after {
      assert after[k] == c.t.rollup[k];
      MoreEvents(c, before, e);
    } else {
      assert !CountedIn(after, c.t.events[e.syncEventId]);
    }
  }

  lemma MoreEvents(c: Scan, before: map<string, EventRow>, e: SyncedEvent)
    requires Stored(c, before) && e in c.inserted
    ensures Sum(EventsOf(before, KeyOf(e))).count < Sum(EventsOf(c.t.events, KeyOf(e))).count
  {
    var old_, new_ := EventsOf(before, KeyOf(e)), EventsOf(c.t.events, KeyOf(e));
    CountIsSize(old_);
    CountIsSize(new_);
    assert KeyOf(c.t.events[e.syncEventId].e) == KeyOf(e);
    assert e.syncEventId in new_ && e.syncEventId !in old_;
    assert old_.Keys + {e.syncEventId} <= new_.Keys;
    SubsetSize(old_.Keys + {e.syncEventId}, new_.Keys);
  }

  /** A committed batch keeps the rollup in agreement if and only if no two events its scan inserts share a
      bucket text without sharing a rollup row. TeamAdmission says which events those are. */
  lemma ScanAgreesIff(s: Tables, teamId: string, ps: seq<Payload>, now: int, cap: int)
    requires Agrees(s.events, s.rollup)
    ensures var t := Batch(s, teamId, ps, now, cap);
            Agrees(t.events, t.rollup) <==> NoCollisions(Scanned(s, teamId, ps, now, cap).inserted)
  {
    var c := Scanned(s, teamId, ps, now, cap);
    ScanStored(s, teamId, ps, now, cap);
    ScansFiled(Begin(s, teamId), teamId, ps, now, cap);
    if NoCollisions(c.inserted) {
      ScanAgrees(s, teamId, ps, now, cap);
    } else {
      ScanBucketed(s, teamId, ps, now, cap);
      var e := Unbucketed(c);
      MissedEvent(c, s.events, e, now);
    }
  }

  /** A collision leaves some inserted event without a bucket of its own. */
  lemma Unbucketed(c: Scan) returns (e: SyncedEvent)
    requires Bucketed(c) && !NoCollisions(c.inserted)
    ensures e in c.inserted && Collides(c.buckets, e)
  {
    var i, j :| 0 <= i < |c.inserted| && 0 <= j < |c.inserted|
        && KeyText(KeyOf(c.inserted[i])) == KeyText(KeyOf(c.inserted[j])) && KeyOf(c.inserted[i]) != KeyOf(c.inserted[j]);
    e := if Collides(c.buckets, c.inserted[i]) then c.inserted[i] else c.inserted[j];
  }

  /** User, node, provider and model carry no bar. */
  predicate BarFree(p: Payload) {
    && NoBar(p.User()) && NoBar(p.Node())
    && (p.Event? ==> NoBar(p.e.provider) && NoBar(p.e.model))
  }

  /** Bar-free payloads never collide. */
  lemma BarFreeAgrees(s: Tables, teamId: string, ps: seq<Payload>, now: int, cap: int)
    requires Agrees(s.events, s.rollup)
    requires forall p <- ps :: BarFree(p)
    ensures var t := Batch(s, teamId, ps, now, cap); Agrees(t.events, t.rollup)
  {
    var c := Scanned(s, teamId, ps, now, cap);
    InsertedFrom(s, teamId, ps, now, cap);
    forall i, j | 0 <= i < |c.inserted| && 0 <= j < |c.inserted|
      && KeyText(KeyOf(c.inserted[i])) == KeyText(KeyOf(c.inserted[j]))
      ensures KeyOf(c.inserted[i]) == KeyOf(c.inserted[j])
    {
      var x, y := c.inserted[i], c.inserted[j];
      assert x in c.inserted && y in c.inserted;
      assert BarFree(Event(x)) && BarFree(Event(y));
      KeyTextInjective(KeyOf(x), KeyOf(y));
    }
    ScanAgreesIff(s, teamId, ps, now, cap);
  }
}
