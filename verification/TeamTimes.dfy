/** The clock never decides anything: erasing every time stamp commutes with a batch. */
module TeamTimes {
  import opened Wrappers
  import opened UsageSums
  import opened TeamModel
  import opened TeamBatch
  import opened TeamRollup
  import opened TeamCap
  import opened TeamBatching
  import opened TeamAdmission

  function EraseNode(n: NodeRow): NodeRow { n.(enrolledAt := 0, lastSeenAt := 0) }

  function EraseNodes(m: map<string, NodeRow>): map<string, NodeRow> { map k | k in m :: EraseNode(m[k]) }

  function EraseEvents(m: map<string, EventRow>): map<string, EventRow> { map k | k in m :: m[k].(uploadedAt := 0) }

  function EraseConflicts(q: seq<Conflict>): seq<Conflict> {
    seq(|q|, i requires 0 <= i < |q| => q[i].(occurredAt := 0))
  }

  function EraseDays<K>(m: map<K, DayRow>): map<K, DayRow> { map k | k in m :: m[k].(uploadedAt := 0) }

  /** Tables without upload, sighting, enrolment and conflict times. */
  function Erase(t: Tables): Tables {
    Tables(t.members, EraseNodes(t.nodes), EraseEvents(t.events), EraseConflicts(t.conflicts), EraseDays(t.daily), EraseDays(t.rollup))
  }

  function EraseScan(c: Scan): Scan { c.(t := Erase(c.t)) }

  lemma EraseTouchNode(m: map<string, NodeRow>, id: string, userId: string, teamId: string, now: int)
    ensures EraseNodes(TouchNode(m, id, userId, teamId, now)) == TouchNode(EraseNodes(m), id, userId, teamId, 0)
  {}

  lemma ErasePairs(m: map<string, NodeRow>, teamId: string)
    ensures KnownPairs(EraseNodes(m), teamId) == KnownPairs(m, teamId)
  {
    forall n | n in m && m[n].teamId == teamId ensures (m[n].userId, n) in KnownPairs(EraseNodes(m), teamId) {
      assert EraseNodes(m)[n].userId == m[n].userId;
    }
  }

  lemma EraseTouch(c: Scan, teamId: string, p: Payload, now: int)
    ensures EraseScan(Touch(c, teamId, p, now)) == Touch(EraseScan(c), teamId, p, 0)
  {
    EraseTouchNode(c.t.nodes, p.Node(), p.User(), teamId, now);
  }

  lemma EraseConflict(q: seq<Conflict>, x: Conflict)
    ensures EraseConflicts(q + [x]) == EraseConflicts(q) + [x.(occurredAt := 0)]
  {}

  lemma EraseEventInsert(m: map<string, EventRow>, e: SyncedEvent, now: int)
    ensures EraseEvents(m[e.syncEventId := RowOf(e, now)]) == EraseEvents(m)[e.syncEventId := RowOf(e, 0)]
  {}

  lemma EraseDayWrite<K>(m: map<K, DayRow>, k: K, d: DayRow)
    ensures EraseDays(m[k := d]) == EraseDays(m)[k := d.(uploadedAt := 0)]
  {}

  lemma EraseWrite(c: Scan, p: Payload, now: int)
    ensures EraseScan(Write(c, p, now)) == Write(EraseScan(c), p, 0)
  {
    match p
    case Daily(d) =>
      EraseDayWrite(c.t.daily, DailyKeyOf(d), DayRow(d.usage, d.pricing, now));
    case Event(e) =>
      if e.syncEventId in c.t.events {
        EraseConflict(c.t.conflicts, Conflict(e.syncEventId, c.t.events[e.syncEventId].e.payloadHash, e.payloadHash, now));
      } else {
        EraseEventInsert(c.t.events, e, now);
      }
  }

  lemma EraseNext(c: Scan, teamId: string, p: Payload, now: int, cap: int)
    ensures EraseScan(Next(c, teamId, p, now, cap)) == Next(EraseScan(c), teamId, p, 0, cap)
  {
    if Admitted(c, teamId, p, cap) {
      EraseTouch(c, teamId, p, now);
      EraseWrite(Touch(c, teamId, p, now), p, now);
    }
  }

  lemma {:induction false} EraseScanned(s: Tables, teamId: string, ps: seq<Payload>, now: int, cap: int)
    ensures EraseScan(Scanned(s, teamId, ps, now, cap)) == Scanned(Erase(s), teamId, ps, 0, cap)
    decreases |ps|
  {
    if ps == [] {
      ErasePairs(s.nodes, teamId);
    } else {
      EraseScanned(s, teamId, ps[..|ps| - 1], now, cap);
      EraseNext(Scanned(s, teamId, ps[..|ps| - 1], now, cap), teamId, ps[|ps| - 1], now, cap);
    }
  }

  lemma EraseFlush(rollup: map<RollupKey, DayRow>, b: map<string, Bucket>, now: int)
    ensures EraseDays(Flush(rollup, b, now)) == Flush(EraseDays(rollup), b, 0)
  {}

  /** Batches read the clock only to write it down. */
  lemma EraseBatch(s: Tables, teamId: string, ps: seq<Payload>, now: int, cap: int)
    ensures Erase(Batch(s, teamId, ps, now, cap)) == Batch(Erase(s), teamId, ps, 0, cap)
    ensures Reply(s, teamId, ps, now, cap) == Reply(Erase(s), teamId, ps, 0, cap)
  {
    EraseScanned(s, teamId, ps, now, cap);
    var c := Scanned(s, teamId, ps, now, cap);
    EraseFlush(c.t.rollup, c.buckets, now);
  }

  /** One upload of `a + b` against two uploads at two other moments: the same tables up to times. */
  lemma CutAtAnyTime(s: Tables, teamId: string, a: seq<Payload>, b: seq<Payload>, now: int, first: int, second: int, cap: int)
    requires OwnNodes(s.nodes, teamId, Passed(s, teamId, a, cap))
    requires (forall p <- a :: BarFree(p)) && (forall p <- b :: BarFree(p))
    ensures Erase(Batch(s, teamId, a + b, now, cap)) == Erase(Batch(Batch(s, teamId, a, first, cap), teamId, b, second, cap))
  {
    OwnNodesAttached(s, teamId, a, now, cap);
    AttachedSplits(s, teamId, a, b, now, cap);
    EraseBatch(s, teamId, a, now, cap);
    EraseBatch(s, teamId, a, first, cap);
    EraseBatch(Batch(s, teamId, a, now, cap), teamId, b, now, cap);
    EraseBatch(Batch(s, teamId, a, first, cap), teamId, b, second, cap);
  }
}
