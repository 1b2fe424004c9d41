/** What repeated upserts leave in the event store, and which parts of a growing log a parser reads. */
module Ingestion {
  import opened Wrappers
  import opened Redaction
  import opened LocalDb
  import opened Jsonl

  /** A `timestamp` field: absent, not a date, or a date. */
  datatype Stamp = Missing | Unreadable | At(ms: int)

  /** What `Date.parse` or, for a row without one, the clock makes of it. */
  function TimeOf(s: Stamp, clock: int): Option<int> {
    match s
    case Missing => Some(clock)
    case Unreadable => None
    case At(ms) => Some(ms)
  }

  /** A clock that stands still. */
  function Noon(line: nat): int { 0 }

  /** Later than every time that is written down. */
  function LaterThan(stamps: seq<Stamp>): int
    decreases |stamps|
  {
    if stamps == [] then 0
    else
      var last, before := stamps[|stamps| - 1], LaterThan(stamps[..|stamps| - 1]);
      if last.At? then Max(before, last.ms + 1) else before
  }

  lemma {:induction false} LaterThanAll(stamps: seq<Stamp>)
    ensures forall s <- stamps | s.At? :: s.ms < LaterThan(stamps)
    decreases |stamps|
  {
    if stamps == [] {
    } else {
      LaterThanAll(stamps[..|stamps| - 1]);
    }
  }

  /** A log file and the labels its path stands for. */
  datatype LogFile = LogFile(path: string, project: string, rawSlug: string, sessionId: string)

  datatype Pricing = Pricing(version: string, cost: UsageEvent -> int)

  /** A token field that is not a finite number counts as zero. */
  function ReadNumber(v: Option<int>): int { OrElse(v, 0) }

  // ---- the store, as an ingesting parser sees it ---------------------------

  /** The event table, and the ids in the outbox in sequence order. */
  datatype View = View(events: map<string, UsageEvent>, queue: seq<string>)

  function QueueTo(rows: map<nat, OutboxRow>, end: nat): seq<string> {
    if end == 0 then [] else QueueTo(rows, end - 1) + if end - 1 in rows then [rows[end - 1].eventId] else []
  }

  function ViewOf(s: Store): View { View(s.events, QueueTo(s.outbox.rows, s.outbox.nextSeq)) }

  function AddNew(q: seq<string>, id: string): seq<string> { if id in q then q else q + [id] }

  /** One more upsert: the event is overwritten, its id queued at the first time only. */
  function Absorb(v: View, e: UsageEvent): View { View(v.events[e.id := e], AddNew(v.queue, e.id)) }

  function AbsorbAll(v: View, es: seq<UsageEvent>): View
    decreases |es|
  {
    if es == [] then v else Absorb(AbsorbAll(v, es[..|es| - 1]), es[|es| - 1])
  }

  lemma {:induction false} QueueIs(rows: map<nat, OutboxRow>, end: nat)
    ensures forall id :: id in QueueTo(rows, end) <==> exists q :: q in rows && q < end && rows[q].eventId == id
    decreases end
  {
    if end == 0 {
    } else {
      QueueIs(rows, end - 1);
    }
  }

  lemma {:induction false} QueueKeeps(rows: map<nat, OutboxRow>, end: nat, q: nat, row: OutboxRow)
    requires q >= end
    ensures QueueTo(rows[q := row], end) == QueueTo(rows, end)
    decreases end
  {
    if end == 0 {
    } else {
      QueueKeeps(rows, end - 1, q, row);
    }
  }

  lemma PutView(s: Store, e: UsageEvent, now: int)
    requires Sane(s)
    ensures ViewOf(Put(s, e, now)) == Absorb(ViewOf(s), e)
  {
    var o := s.outbox;
    QueueIs(o.rows, o.nextSeq);
    if !exists q :: q in o.rows && o.rows[q].eventId == e.id {
      QueueKeeps(o.rows, o.nextSeq, o.nextSeq, OutboxRow(e.id, now, None));
    }
  }

  lemma {:induction false} PutAllView(s: Store, es: seq<UsageEvent>, now: int)
    requires Sane(s)
    ensures ViewOf(PutAll(s, es, now)) == AbsorbAll(ViewOf(s), es)
    decreases |es|
  {
    if es == [] {
    } else {
      PutAllView(s, es[..|es| - 1], now);
      PutAllSane(s, es[..|es| - 1], now);
      PutView(PutAll(s, es[..|es| - 1], now), es[|es| - 1], now);
    }
  }

  /** No event is ever queued twice. */
  lemma {:induction false} QueuedOnce(s: Store)
    requires Sane(s)
    ensures forall i, j :: 0 <= i < j < |ViewOf(s).queue| ==> ViewOf(s).queue[i] != ViewOf(s).queue[j]
  {
    QueueDistinct(s, s.outbox.nextSeq);
  }

  lemma {:induction false} QueueDistinct(s: Store, end: nat)
    requires Sane(s)
    ensures forall i, j :: 0 <= i < j < |QueueTo(s.outbox.rows, end)| ==> QueueTo(s.outbox.rows, end)[i] != QueueTo(s.outbox.rows, end)[j]
    decreases end
  {
    if end == 0 {
    } else {
      QueueDistinct(s, end - 1);
      QueueIs(s.outbox.rows, end - 1);
      var q := QueueTo(s.outbox.rows, end - 1);
      assert forall i :: 0 <= i < |q| ==> q[i] in q;
    }
  }

  // ---- upserting the same again --------------------------------------------

  lemma {:induction false} AbsorbConcat(v: View, a: seq<UsageEvent>, b: seq<UsageEvent>)
    ensures AbsorbAll(v, a + b) == AbsorbAll(AbsorbAll(v, a), b)
    decreases |b|
  {
    if b == [] {
      assert a + b == a;
    } else {
      assert (a + b)[..|a + b| - 1] == a + b[..|b| - 1];
      AbsorbConcat(v, a, b[..|b| - 1]);
    }
  }

  /** The last event of a list with a given id. */
  function LastWith(es: seq<UsageEvent>, id: string): Option<UsageEvent>
    decreases |es|
  {
    if es == [] then None
    else if es[|es| - 1].id == id then Some(es[|es| - 1])
    else LastWith(es[..|es| - 1], id)
  }

  /** The table after a list of upserts holds the last one of each id, and otherwise what it held. */
  lemma {:induction false} AbsorbLast(v: View, es: seq<UsageEvent>)
    ensures forall id :: id in AbsorbAll(v, es).events <==> LastWith(es, id).Some? || id in v.events
    ensures forall id <- AbsorbAll(v, es).events ::
      AbsorbAll(v, es).events[id] == (if LastWith(es, id).Some? then LastWith(es, id).value else v.events[id])
    decreases |es|
  {
    if es == [] {
    } else {
      AbsorbLast(v, es[..|es| - 1]);
    }
  }

  lemma {:induction false} LastOfConcat(a: seq<UsageEvent>, b: seq<UsageEvent>, id: string)
    ensures LastWith(a + b, id) == if LastWith(b, id).Some? then LastWith(b, id) else LastWith(a, id)
    decreases |b|
  {
    if b == [] {
      assert a + b == a;
    } else {
      assert (a + b)[..|a + b| - 1] == a + b[..|b| - 1];
      LastOfConcat(a, b[..|b| - 1], id);
    }
  }

  lemma {:induction false} LastFound(es: seq<UsageEvent>, id: string)
    ensures LastWith(es, id).Some? <==> exists i :: 0 <= i < |es| && es[i].id == id
    ensures LastWith(es, id).Some? ==> LastWith(es, id).value in es && LastWith(es, id).value.id == id
    decreases |es|
  {
    if es == [] {
    } else {
      var init := es[..|es| - 1];
      LastFound(init, id);
      if i :| 0 <= i < |es| && es[i].id == id {
        assert i == |es| - 1 || init[i].id == id;
      }
    }
  }

  /** Queueing what is queued changes nothing. */
  lemma {:induction false} QueueAgain(v: View, es: seq<UsageEvent>)
    requires forall i :: 0 <= i < |es| ==> es[i].id in v.queue
    ensures AbsorbAll(v, es).queue == v.queue
    decreases |es|
  {
    if es == [] {
    } else {
      QueueAgain(v, es[..|es| - 1]);
    }
  }

  lemma {:induction false} Queued(v: View, es: seq<UsageEvent>)
    ensures forall id :: id in AbsorbAll(v, es).queue <==> id in v.queue || exists i :: 0 <= i < |es| && es[i].id == id
    decreases |es|
  {
    if es == [] {
    } else {
      var init := es[..|es| - 1];
      Queued(v, init);
      forall id | exists i :: 0 <= i < |es| && es[i].id == id ensures id in AbsorbAll(v, es).queue {
        var i :| 0 <= i < |es| && es[i].id == id;
        assert i == |es| - 1 || init[i].id == id;
      }
    }
  }

  /** Upserting the end of a list once more leaves everything as it is. */
  lemma AbsorbAgain(v: View, a: seq<UsageEvent>, b: seq<UsageEvent>)
    ensures AbsorbAll(AbsorbAll(v, a + b), b) == AbsorbAll(v, a + b)
  {
    var w := AbsorbAll(v, a + b);
    AbsorbLast(v, a + b);
    AbsorbLast(w, b);
    forall id ensures LastWith(b, id).Some? ==> LastWith(a + b, id) == LastWith(b, id) {
      LastOfConcat(a, b, id);
    }
    assert AbsorbAll(w, b).events == w.events;
    Queued(v, a + b);
    forall i | 0 <= i < |b| ensures b[i].id in w.queue {
      assert (a + b)[|a| + i] == b[i];
    }
    QueueAgain(w, b);
  }

  /** Reading on from inside what was already read comes to the same as reading straight through. */
  lemma AbsorbOverlap(v: View, a: seq<UsageEvent>, b: seq<UsageEvent>, c: seq<UsageEvent>)
    ensures AbsorbAll(AbsorbAll(v, a + b), b + c) == AbsorbAll(v, a + b + c)
  {
    AbsorbConcat(AbsorbAll(v, a + b), b, c);
    AbsorbAgain(v, a, b);
    AbsorbConcat(v, a + b, c);
  }

  // ---- what an upserted read changes ---------------------------------------

  ghost predicate SameAt(v: View, w: View, id: string) {
    && (id in v.events <==> id in w.events) && (id in v.events ==> v.events[id] == w.events[id])
    && (id in v.queue <==> id in w.queue)
  }

  predicate Holds(v: View, e: UsageEvent) { e.id in v.events && v.events[e.id] == e && e.id in v.queue }

  lemma AbsorbOne(v: View, es: seq<UsageEvent>, e: UsageEvent)
    requires e in es
    ensures e.id in AbsorbAll(v, es).events
  {
    AbsorbLast(v, es);
    LastFound(es, e.id);
  }

  lemma AbsorbNone(v: View, es: seq<UsageEvent>, id: string)
    requires forall e <- es :: e.id != id
    ensures SameAt(v, AbsorbAll(v, es), id)
  {
    AbsorbLast(v, es);
    LastFound(es, id);
    Queued(v, es);
    assert forall i :: 0 <= i < |es| ==> es[i] in es;
  }

  lemma AbsorbThe(v: View, es: seq<UsageEvent>, e: UsageEvent)
    requires e in es && forall x <- es | x.id == e.id :: x == e
    ensures Holds(AbsorbAll(v, es), e)
  {
    AbsorbLast(v, es);
    LastFound(es, e.id);
    Queued(v, es);
    var i :| 0 <= i < |es| && es[i] == e;
  }

  /** The same events, and the same ids queued. */
  ghost predicate Same(v: View, w: View) { v.events == w.events && forall id :: id in v.queue <==> id in w.queue }

  lemma SameEverywhere(v: View, w: View)
    requires forall id :: SameAt(v, w, id)
    ensures Same(v, w)
  {
    forall id ensures id in v.events ==> id in w.events && v.events[id] == w.events[id] { assert SameAt(v, w, id); }
    forall id ensures id in w.events ==> id in v.events { assert SameAt(v, w, id); }
    forall id ensures id in v.queue <==> id in w.queue { assert SameAt(v, w, id); }
  }
}
