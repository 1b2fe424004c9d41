/** The desktop tables of the sync path: events, outbox and cursors, and the statements that change them. */
module LocalDb {
  import opened Wrappers
  import opened Redaction

  datatype OutboxRow = OutboxRow(eventId: string, enqueuedAt: int, sentAt: Option<int>)

  /** `sync_outbox`, with the next value of its sequence. */
  datatype Outbox = Outbox(rows: map<nat, OutboxRow>, nextSeq: nat)

  datatype Cursor = Cursor(ackedMs: int, sentSeq: nat, syncedAt: Option<int>, error: Option<string>)

  /** Team and user. */
  type Account = (string, string)

  type Cursors = map<Account, Cursor>

  /** `INSERT … ON CONFLICT (event_id) DO NOTHING`. A suppressed insert uses up its sequence value. */
  function Enqueue(o: Outbox, eventId: string, now: int): Outbox {
    Outbox(if exists s :: s in o.rows && o.rows[s].eventId == eventId then o.rows
           else o.rows[o.nextSeq := OutboxRow(eventId, now, None)],
           o.nextSeq + 1)
  }

  datatype Store = Store(events: map<string, UsageEvent>, outbox: Outbox)

  const EMPTY_STORE := Store(map[], Outbox(map[], 1))

  /** Event upsert and outbox insert of one event. */
  function Put(s: Store, e: UsageEvent, now: int): Store {
    Store(s.events[e.id := e], Enqueue(s.outbox, e.id, now))
  }

  /** The event takes the place of one with its id, and gets an unsent outbox row of this moment after all others
      unless it has one; no other event or row changes. */
  ghost predicate Upserted(s: Store, t: Store, e: UsageEvent, now: int) {
    var rows := s.outbox.rows;
    && t.events.Keys == s.events.Keys + {e.id} && t.events[e.id] == e
    && (forall id <- s.events | id != e.id :: t.events[id] == s.events[id])
    && t.outbox.nextSeq == s.outbox.nextSeq + 1
    && if exists q :: q in rows && rows[q].eventId == e.id then t.outbox.rows == rows
       else t.outbox.rows == rows[s.outbox.nextSeq := OutboxRow(e.id, now, None)]
  }

  lemma PutUpserts(s: Store, e: UsageEvent, now: int)
    ensures Upserted(s, Put(s, e, now), e, now)
  {}

  function PutAll(s: Store, es: seq<UsageEvent>, now: int): Store
    decreases |es|
  {
    if es == [] then s else Put(PutAll(s, es[..|es| - 1], now), es[|es| - 1], now)
  }

  /** Events are filed under their own id, sequence values stay below the next one, every row has its event,
      and no event has two rows. */
  ghost predicate Sane(s: Store) {
    && (forall id <- s.events :: s.events[id].id == id)
    && (forall q <- s.outbox.rows :: q < s.outbox.nextSeq && s.outbox.rows[q].eventId in s.events)
    && (forall q, r | q in s.outbox.rows && r in s.outbox.rows && s.outbox.rows[q].eventId == s.outbox.rows[r].eventId :: q == r)
  }

  lemma PutSane(s: Store, e: UsageEvent, now: int)
    requires Sane(s)
    ensures Sane(Put(s, e, now))
  {}

  lemma {:induction false} PutAllSane(s: Store, es: seq<UsageEvent>, now: int)
    requires Sane(s)
    ensures Sane(PutAll(s, es, now))
    decreases |es|
  {
    if es == [] {
    } else {
      PutAllSane(s, es[..|es| - 1], now);
      PutSane(PutAll(s, es[..|es| - 1], now), es[|es| - 1], now);
    }
  }

  /** Upserts never change or remove an outbox row; new rows are unsent and come after all old ones. */
  ghost predicate Appends(o: Outbox, p: Outbox) {
    && o.nextSeq <= p.nextSeq
    && (forall q <- o.rows :: q in p.rows && p.rows[q] == o.rows[q])
    && (forall q <- p.rows | q !in o.rows :: q >= o.nextSeq && p.rows[q].sentAt.None?)
  }

  lemma {:induction false} PutAllAppends(s: Store, es: seq<UsageEvent>, now: int)
    requires Sane(s)
    ensures Appends(s.outbox, PutAll(s, es, now).outbox) && s.events.Keys <= PutAll(s, es, now).events.Keys
    decreases |es|
  {
    if es == [] {
    } else {
      PutAllSane(s, es[..|es| - 1], now);
      PutAllAppends(s, es[..|es| - 1], now);
    }
  }

  /** Sequence values of unsent rows strictly between `after` and `end`, oldest first. */
  function Unsent(rows: map<nat, OutboxRow>, after: nat, end: nat): seq<nat> {
    if end <= after + 1 then []
    else Unsent(rows, after, end - 1) + if end - 1 in rows && rows[end - 1].sentAt.None? then [end - 1] else []
  }

  predicate Ascending(q: seq<nat>) { forall i, j :: 0 <= i < j < |q| ==> q[i] < q[j] }

  lemma {:induction false} UnsentIs(rows: map<nat, OutboxRow>, after: nat, end: nat)
    ensures forall s :: s in Unsent(rows, after, end) <==> after < s < end && s in rows && rows[s].sentAt.None?
    ensures Ascending(Unsent(rows, after, end))
  {
    if end <= after + 1 {
    } else {
      UnsentIs(rows, after, end - 1);
      var q := Unsent(rows, after, end - 1);
      assert forall i :: 0 <= i < |q| ==> q[i] in q;
    }
  }

  function Take<T>(q: seq<T>, n: nat): seq<T> { if |q| <= n then q else q[..n] }

  /** `… WHERE o.seq > after AND o.sent_at IS NULL ORDER BY o.seq ASC LIMIT limit`. */
  function Pending(o: Outbox, after: nat, limit: nat): seq<nat> {
    Take(Unsent(o.rows, after, o.nextSeq), limit)
  }

  function PendingCount(o: Outbox, after: nat): nat { |Unsent(o.rows, after, o.nextSeq)| }

  /** A pulled batch: ascending unsent rows, and nothing unsent below its last row is left out. */
  lemma PendingIs(o: Outbox, after: nat, limit: nat)
    ensures var b := Pending(o, after, limit);
            && Ascending(b)
            && (forall s <- b :: after < s < o.nextSeq && s in o.rows && o.rows[s].sentAt.None?)
            && (b != [] ==> forall s <- o.rows | after < s <= b[|b| - 1] && s < o.nextSeq :: s in b || o.rows[s].sentAt.Some?)
  {
    UnsentIs(o.rows, after, o.nextSeq);
    var all, b := Unsent(o.rows, after, o.nextSeq), Pending(o, after, limit);
    if b != [] {
      forall s <- o.rows | after < s <= b[|b| - 1] && s < o.nextSeq ensures s in b || o.rows[s].sentAt.Some? {
        if o.rows[s].sentAt.None? {
          var i :| 0 <= i < |all| && all[i] == s;
          assert i < |b| && b[i] == s;
        }
      }
    }
  }

  /** `UPDATE sync_outbox SET sent_at = ts WHERE seq <= maxSeq AND sent_at IS NULL`. */
  function MarkSent(rows: map<nat, OutboxRow>, maxSeq: nat, at: int): map<nat, OutboxRow> {
    map s | s in rows :: if s <= maxSeq && rows[s].sentAt.None? then rows[s].(sentAt := Some(at)) else rows[s]
  }

  /** Success moves the cursor forward only (GREATEST) and clears the error. */
  function Advance(cursors: Cursors, a: Account, newSeq: nat, newMs: int, at: int): Cursors {
    cursors[a := if a in cursors then Cursor(Max(cursors[a].ackedMs, newMs), Max(cursors[a].sentSeq, newSeq), Some(at), None)
                 else Cursor(newMs, newSeq, Some(at), None)]
  }

  /** An error leaves the watermarks alone. */
  function RecordError(cursors: Cursors, a: Account, message: string): Cursors {
    cursors[a := if a in cursors then cursors[a].(error := Some(message)) else Cursor(0, 0, None, Some(message))]
  }

  /** Who is marked: exactly the unsent rows up to the maximum. Nobody else changes, and nobody is stamped twice. */
  lemma MarkSentIs(rows: map<nat, OutboxRow>, maxSeq: nat, at: int)
    ensures var after := MarkSent(rows, maxSeq, at);
            && after.Keys == rows.Keys
            && (forall q <- rows :: after[q] != rows[q] <==> q <= maxSeq && rows[q].sentAt.None?)
            && (forall q <- rows | q <= maxSeq && rows[q].sentAt.None? :: after[q] == rows[q].(sentAt := Some(at)))
  {}

  lemma {:induction false} UnsentSize(rows: map<nat, OutboxRow>, after: nat, end: nat)
    ensures |Unsent(rows, after, end)| == |set q | q in rows && after < q < end && rows[q].sentAt.None?|
    decreases end
  {
    var all := set q | q in rows && after < q < end && rows[q].sentAt.None?;
    if end <= after + 1 {
      assert all == {};
    } else {
      UnsentSize(rows, after, end - 1);
      var before := set q | q in rows && after < q < end - 1 && rows[q].sentAt.None?;
      assert all == before + if end - 1 in rows && rows[end - 1].sentAt.None? then {end - 1} else {};
    }
  }

  function SentSeq(cursors: Cursors, a: Account): nat { if a in cursors then cursors[a].sentSeq else 0 }

  function AckedMs(cursors: Cursors, a: Account): int { if a in cursors then cursors[a].ackedMs else 0 }

  lemma MarkSentSane(s: Store, maxSeq: nat, at: int)
    requires Sane(s)
    ensures Sane(s.(outbox := s.outbox.(rows := MarkSent(s.outbox.rows, maxSeq, at))))
  {}

  /** The events of a pulled batch, by the join with the events table. */
  function EventsAt(s: Store, batch: seq<nat>): (es: seq<UsageEvent>)
    requires Sane(s) && forall q <- batch :: q in s.outbox.rows
    ensures |es| == |batch|
    ensures forall i :: 0 <= i < |es| ==> es[i] == s.events[s.outbox.rows[batch[i]].eventId] && es[i].id == s.outbox.rows[batch[i]].eventId
  {
    seq(|batch|, i requires 0 <= i < |batch| => s.events[s.outbox.rows[batch[i]].eventId])
  }
}
