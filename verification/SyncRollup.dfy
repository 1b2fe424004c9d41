/** The rollup in every run of the whole system, clients and server together. */
module SyncRollup {
  import opened Wrappers
  import opened JoinedKeys
  import opened UsageSums
  import opened TeamModel
  import opened TeamRollup
  import opened TeamAdmission
  import opened TeamBatch
  import opened Redaction
  import opened LocalDb
  import opened SyncProtocol
  import opened SyncSafety

  predicate BarFreeEvent(e: UsageEvent) { NoBar(e.provider) && NoBar(e.model) }

  ghost predicate BarFreeStore(events: map<string, UsageEvent>) { forall id <- events :: BarFreeEvent(events[id]) }

  ghost predicate BarFreePc(pc: Pc) {
    NoBar(pc.account.1) && (pc.Pulled? ==> forall p <- pc.payloads :: BarFree(p))
  }

  /** Names without bars everywhere, and a rollup that agrees with the raw events. */
  ghost predicate Clean(s: System) {
    && BarFreeStore(s.store.events)
    && (forall d <- s.drainers :: BarFreePc(s.drainers[d]))
    && (forall r <- s.requests :: forall p <- r.payloads :: BarFree(p))
    && Agrees(s.server.events, s.server.rollup)
  }

  predicate BarFreeAction(x: Action) {
    match x
    case Write(events, _) => forall e <- events :: BarFreeEvent(e)
    case Peek(_, account) => NoBar(account.1)
    case OtherUpload(_, payloads, _) => forall p <- payloads :: BarFree(p)
    case _ => true
  }

  lemma {:induction false} PutAllBarFree(s: Store, es: seq<UsageEvent>, now: int)
    requires BarFreeStore(s.events) && forall e <- es :: BarFreeEvent(e)
    ensures BarFreeStore(PutAll(s, es, now).events)
    decreases |es|
  {
    if es == [] {
    } else {
      var last, before := es[|es| - 1], es[..|es| - 1];
      assert last in es && forall e <- before :: e in es;
      PutAllBarFree(s, before, now);
      var r := PutAll(s, before, now).events;
      assert PutAll(s, es, now).events == r[last.id := last];
      assert BarFreeEvent(last);
    }
  }

  lemma UploadsBarFree(env: Env, s: Store, a: Account, batch: seq<nat>, level: Privacy)
    requires NoBar(env.nodeId) && NoBar(a.1) && level != AggregateOnly
    requires Sane(s) && (forall q <- batch :: q in s.outbox.rows) && BarFreeStore(s.events)
    ensures forall p <- Redacts(EventsAt(s, batch), level, ContextOf(env, a)) :: BarFree(p)
  {
    var es := EventsAt(s, batch);
    var ps := Redacts(es, level, ContextOf(env, a));
    forall p <- ps ensures BarFree(p) {
      var i :| 0 <= i < |ps| && ps[i] == p;
      assert batch[i] in batch;
      assert BarFreeEvent(es[i]);
      UploadBarFree(es[i], level, ContextOf(env, a));
    }
  }

  lemma UploadBarFree(e: UsageEvent, level: Privacy, c: Context)
    requires level != AggregateOnly && BarFreeEvent(e) && NoBar(c.userId) && NoBar(c.nodeId)
    ensures BarFree(Event(RedactEvent(e, level, c)))
  {}

  lemma ServedClean(env: Env, s: System, teamId: string, payloads: seq<Payload>, now: int)
    requires Clean(s) && forall p <- payloads :: BarFree(p)
    ensures Clean(Served(env, s, teamId, payloads, now))
  {
    BarFreeAgrees(s.server, teamId, payloads, now, env.cap);
  }

  lemma PullClean(env: Env, s: System, d: nat, level: Privacy)
    requires Sane(s.store) && Clean(s) && NoBar(env.nodeId)
    ensures Clean(Step(env, s, Pull(d, level)))
  {
    if d in s.drainers && s.drainers[d].Peeked? && level != AggregateOnly {
      var batch := Pending(s.store.outbox, s.drainers[d].after, MAX_BATCH_SIZE);
      PendingIs(s.store.outbox, s.drainers[d].after, MAX_BATCH_SIZE);
      assert BarFreePc(s.drainers[d]);
      UploadsBarFree(env, s.store, s.drainers[d].account, batch, level);
    }
  }

  lemma SendClean(env: Env, s: System, d: nat)
    requires Sane(s.store) && Clean(s)
    ensures Clean(Step(env, s, Send(d)))
  {
    if d in s.drainers {
      assert BarFreePc(s.drainers[d]);
    }
  }

  lemma StepClean(env: Env, s: System, x: Action)
    requires Sane(s.store) && Clean(s) && NoBar(env.nodeId) && BarFreeAction(x)
    ensures Clean(Step(env, s, x))
  {
    match x
    case Write(events, now) => PutAllBarFree(s.store, events, now);
    case Pull(d, level) => PullClean(env, s, d, level);
    case Send(d) => SendClean(env, s, d);
    case Commit(r, now) =>
      if r < |s.requests| {
        assert s.requests[r] in s.requests;
        ServedClean(env, s, s.requests[r].account.0, s.requests[r].payloads, now);
      }
    case OtherUpload(teamId, payloads, now) => ServedClean(env, s, teamId, payloads, now);
    case Receive(d) => if d in s.drainers { assert BarFreePc(s.drainers[d]); }
    case Fail(d) => if d in s.drainers { assert BarFreePc(s.drainers[d]); }
    case Mark(d, _) => if d in s.drainers { assert BarFreePc(s.drainers[d]); }
    case _ =>
  }

  lemma {:induction false} AlwaysClean(env: Env, actions: seq<Action>)
    requires NoBar(env.nodeId) && forall x <- actions :: BarFreeAction(x)
    ensures Clean(Exec(env, actions))
    decreases |actions|
  {
    if actions == [] {
    } else {
      var before, x := actions[..|actions| - 1], actions[|actions| - 1];
      assert x in actions && forall y <- before :: y in actions;
      AlwaysClean(env, before);
      StepClean(env, Exec(env, before), x);
    }
  }

  /** A stored event is in the total of its own rollup row once, and in no other row. */
  lemma CountedOnce(events: map<string, EventRow>, rollup: map<RollupKey, DayRow>, id: string, k: RollupKey)
    requires Agrees(events, rollup) && id in events && k in rollup
    ensures k == KeyOf(events[id].e) ==>
              rollup[k].usage == UsageOf(events[id].e).Plus(Sum(Drop(EventsOf(events, k), id)))
    ensures k != KeyOf(events[id].e) ==> id !in EventsOf(events, k)
  {
    if k == KeyOf(events[id].e) {
      SumDrop(EventsOf(events, k), id);
    }
  }

  // ---- whose row it is -----------------------------------------------------

  lemma StepSelfNamed(env: Env, s: System, x: Action)
    requires Sane(s.store) && SelfNamed(s.server.events)
    ensures SelfNamed(Step(env, s, x).server.events)
  {
    hide PutAll, EventsAt, Redacts, MarkSent, Advance, Batch, Reply, MaxTimestamp, Pending, SelfNamed;
    if x.Commit? && x.request < |s.requests| {
      SelfNamedStays(s.server, s.requests[x.request].account.0, s.requests[x.request].payloads, x.now, env.cap);
    }
    if x.OtherUpload? {
      SelfNamedStays(s.server, x.teamId, x.payloads, x.now, env.cap);
    }
  }

  /** In every run, bars or not, each stored row is filed under the hash of its own names. */
  lemma {:induction false} AlwaysSelfNamed(env: Env, actions: seq<Action>)
    ensures SelfNamed(Exec(env, actions).server.events)
    decreases |actions|
  {
    hide Step;
    if actions == [] {
    } else {
      AlwaysSelfNamed(env, actions[..|actions| - 1]);
      StepSelfNamed(env, Exec(env, actions[..|actions| - 1]), actions[|actions| - 1]);
    }
  }

  predicate BarFreeNames(p: Payload) { NoBar(p.User()) && NoBar(p.Node()) }

  /** Team, user and node names without bars; providers and models may be called anything. */
  predicate BarFreeNaming(x: Action) {
    match x
    case Peek(_, account) => NoBar(account.0) && NoBar(account.1)
    case OtherUpload(teamId, payloads, _) => NoBar(teamId) && forall p <- payloads :: BarFreeNames(p)
    case _ => true
  }

  predicate OwnNames(env: Env, a: Account, payloads: seq<Payload>) {
    forall p <- payloads :: p.User() == a.1 && p.Node() == env.nodeId
  }

  /** What a drainer holds or has sent bears its account's user and this device. */
  ghost predicate UploadsOwn(env: Env, s: System) {
    && (forall d <- s.drainers | s.drainers[d].Pulled? :: OwnNames(env, s.drainers[d].account, s.drainers[d].payloads))
    && (forall r <- s.requests :: OwnNames(env, r.account, r.payloads))
  }

  lemma PullOwn(env: Env, s: Store, a: Account, batch: seq<nat>, level: Privacy)
    requires level != AggregateOnly && Sane(s) && forall q <- batch :: q in s.outbox.rows
    ensures OwnNames(env, a, Redacts(EventsAt(s, batch), level, ContextOf(env, a)))
  {}

  lemma StepUploadsOwn(env: Env, s: System, x: Action)
    requires Sane(s.store) && UploadsOwn(env, s)
    ensures UploadsOwn(env, Step(env, s, x))
  {
    hide PutAll, EventsAt, Redacts, MarkSent, Advance, Batch, Reply, MaxTimestamp, Pending, OwnNames, Sane;
    if x.Pull? && x.d in s.drainers && s.drainers[x.d].Peeked? && x.level != AggregateOnly {
      var batch := Pending(s.store.outbox, s.drainers[x.d].after, MAX_BATCH_SIZE);
      PendingIs(s.store.outbox, s.drainers[x.d].after, MAX_BATCH_SIZE);
      PullOwn(env, s.store, s.drainers[x.d].account, batch, x.level);
    }
    if x.Send? && x.d in s.drainers && s.drainers[x.d].Pulled? {
      assert OwnNames(env, s.drainers[x.d].account, s.drainers[x.d].payloads);
    }
  }

  lemma {:induction false} AlwaysUploadsOwn(env: Env, actions: seq<Action>)
    ensures UploadsOwn(env, Exec(env, actions))
    decreases |actions|
  {
    hide Step;
    if actions == [] {
    } else {
      AlwaysUploadsOwn(env, actions[..|actions| - 1]);
      StepUploadsOwn(env, Exec(env, actions[..|actions| - 1]), actions[|actions| - 1]);
    }
  }

  /** No team, user or node name in a stored row has a bar. */
  ghost predicate Named(events: map<string, EventRow>) {
    forall id <- events :: NoBar(events[id].e.teamId) && NoBar(events[id].e.userId) && NoBar(events[id].e.nodeId)
  }

  lemma BatchNamed(s: Tables, teamId: string, ps: seq<Payload>, now: int, cap: int)
    requires Named(s.events) && NoBar(teamId) && forall p <- ps :: BarFreeNames(p)
    ensures Named(Batch(s, teamId, ps, now, cap).events)
  {
    ScanStored(s, teamId, ps, now, cap);
    var after := Batch(s, teamId, ps, now, cap).events;
    forall id <- after ensures NoBar(after[id].e.teamId) && NoBar(after[id].e.userId) && NoBar(after[id].e.nodeId) {
      if id !in s.events {
        var p := NewRow(s, teamId, ps, now, cap, id);
        assert BarFreeNames(p);
      }
    }
  }

  lemma StepNamed(env: Env, s: System, x: Action)
    requires Sane(s.store) && Named(s.server.events) && UploadsOwn(env, s) && NoBar(env.nodeId) && BarFreeNaming(x)
    requires forall r <- s.requests :: NoBar(r.account.0) && NoBar(r.account.1)
    ensures Named(Step(env, s, x).server.events)
  {
    hide PutAll, EventsAt, Redacts, MarkSent, Advance, Batch, Reply, MaxTimestamp, Pending, Named;
    if x.Commit? && x.request < |s.requests| {
      var r := s.requests[x.request];
      assert r in s.requests && OwnNames(env, r.account, r.payloads);
      BatchNamed(s.server, r.account.0, r.payloads, x.now, env.cap);
    }
    if x.OtherUpload? {
      BatchNamed(s.server, x.teamId, x.payloads, x.now, env.cap);
    }
  }

  function Peekers(actions: seq<Action>): set<Account> { set x | x in actions && x.Peek? :: x.account }

  lemma {:induction false} AlwaysNamed(env: Env, actions: seq<Action>)
    requires NoBar(env.nodeId) && forall x <- actions :: BarFreeNaming(x)
    ensures Named(Exec(env, actions).server.events)
    decreases |actions|
  {
    hide Step, Named, UploadsOwn;
    if actions == [] {
      assert Named(EMPTY.events) by { NothingNamed(); }
    } else {
      var before, x := actions[..|actions| - 1], actions[|actions| - 1];
      assert x in actions && forall y <- before :: y in actions;
      AlwaysNamed(env, before);
      AlwaysUploadsOwn(env, before);
      OnlyPeeked(env, before, Peekers(before));
      StepNamed(env, Exec(env, before), x);
    }
  }

  lemma NothingNamed()
    ensures Named(EMPTY.events)
  {}

  /** The row under the id that a client computes for its event is that event of that client. */
  lemma RowIsOwn(env: Env, events: map<string, EventRow>, a: Account, eventId: string)
    requires SelfNamed(events) && Named(events) && NoBar(a.0) && NoBar(a.1) && NoBar(env.nodeId) && IdFor(env, a, eventId) in events
    ensures var e := events[IdFor(env, a, eventId)].e;
            e.teamId == a.0 && e.userId == a.1 && e.nodeId == env.nodeId && e.localEventId == eventId
  {
    var e := events[IdFor(env, a, eventId)].e;
    SyncEventIdInjective((e.teamId, e.userId, e.nodeId, e.localEventId), (a.0, a.1, env.nodeId, eventId));
  }

  lemma SentRowIsOwn(env: Env, actions: seq<Action>, q: nat)
    requires NoBar(env.nodeId) && forall x <- actions :: BarFreeNaming(x)
    requires var s := Exec(env, actions); q in s.store.outbox.rows && q in s.via
    ensures var s := Exec(env, actions);
            var id := IdFor(env, s.via[q], s.store.outbox.rows[q].eventId);
            id in s.server.events ==>
              var e := s.server.events[id].e;
              (e.teamId, e.userId) == s.via[q] && e.nodeId == env.nodeId && e.localEventId == s.store.outbox.rows[q].eventId
  {
    AlwaysNamed(env, actions);
    AlwaysSelfNamed(env, actions);
    OnlyPeeked(env, actions, Peekers(actions));
    hide Exec, Named, SelfNamed;
    var s := Exec(env, actions);
    if IdFor(env, s.via[q], s.store.outbox.rows[q].eventId) in s.server.events {
      RowIsOwn(env, s.server.events, s.via[q], s.store.outbox.rows[q].eventId);
    }
  }

  /** The end-to-end claim: in every run, a row marked sent is settled, whatever was retried, repeated, lost or
      crashed. If its event is stored and no name has a bar, it has a rollup row in which it counts exactly once;
      and if no team, user or node name has a bar, what is stored is that event of this device, for the account it
      was sent for. */
  lemma SentCountsOnce(env: Env, actions: seq<Action>, q: nat)
    requires var s := Exec(env, actions); q in s.store.outbox.rows && s.store.outbox.rows[q].sentAt.Some?
    ensures var s := Exec(env, actions);
            && q in s.via
            && var eventId := s.store.outbox.rows[q].eventId; var id := IdFor(env, s.via[q], eventId);
               && Settled(s, s.via[q], id)
               && (id in s.server.events && NoBar(env.nodeId) ==>
                     var e := s.server.events[id].e;
                     && ((forall x <- actions :: BarFreeAction(x)) ==>
                           KeyOf(e) in s.server.rollup
                           && s.server.rollup[KeyOf(e)].usage == UsageOf(e).Plus(Sum(Drop(EventsOf(s.server.events, KeyOf(e)), id))))
                     && ((forall x <- actions :: BarFreeNaming(x)) ==>
                           (e.teamId, e.userId) == s.via[q] && e.nodeId == env.nodeId && e.localEventId == eventId))
  {
    SentMeansSettled(env, actions, q);
    var s := Exec(env, actions);
    var id := IdFor(env, s.via[q], s.store.outbox.rows[q].eventId);
    if id in s.server.events && NoBar(env.nodeId) {
      if forall x <- actions :: BarFreeAction(x) {
        StoredCounts(env, actions, id);
      }
      if forall x <- actions :: BarFreeNaming(x) {
        SentRowIsOwn(env, actions, q);
      }
    }
  }

  lemma StoredCounts(env: Env, actions: seq<Action>, id: string)
    requires NoBar(env.nodeId) && (forall x <- actions :: BarFreeAction(x)) && id in Exec(env, actions).server.events
    ensures var server := Exec(env, actions).server;
            var k := KeyOf(server.events[id].e);
            k in server.rollup
            && server.rollup[k].usage == UsageOf(server.events[id].e).Plus(Sum(Drop(EventsOf(server.events, k), id)))
  {
    AlwaysClean(env, actions);
    hide Exec;
    var server := Exec(env, actions).server;
    assert CountedIn(server.rollup, server.events[id]);
    CountedOnce(server.events, server.rollup, id, KeyOf(server.events[id].e));
  }
}
