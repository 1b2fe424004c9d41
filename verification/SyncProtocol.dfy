/** The sync protocol as a transition system: enqueues, any number of drainers at any of their await points,
    lost, delayed and repeated requests, server commits, failures and crashes, other clients and membership
    changes, interleaved at will. Event-level privacy only. */
module SyncProtocol {
  import opened Wrappers
  import opened JoinedKeys
  import opened TeamModel
  import opened Redaction
  import opened LocalDb
  import TeamBatch
  import TeamRollup
  import TeamReplay
  import TeamMembership

  const MAX_BATCH_SIZE := 500

  /** An upload of this client, sent for one of its accounts. */
  datatype Request = Request(account: Account, payloads: seq<Payload>)

  /** Where a drain stands between two awaits. A drainer that is not listed is idle. */
  datatype Pc =
    | Peeked(account: Account, after: nat, ms: int)
    | Pulled(account: Account, batch: seq<nat>, payloads: seq<Payload>, ms: int)
    | Waiting(account: Account, batch: seq<nat>, request: nat, ms: int)
    | Acknowledged(account: Account, batch: seq<nat>, ms: int)
    | Marked(account: Account, batch: seq<nat>, ms: int)
    | Failing(account: Account)

  datatype Env = Env(nodeId: string, cap: int)

  datatype System = System(
    store: Store, cursors: Cursors, drainers: map<nat, Pc>,
    requests: seq<Request>,       // every request ever sent
    committed: set<nat>,          // those the server has committed at least once
    server: Tables,
    rejected: set<(nat, string)>, // ids reported rejected in the answer to a request
    via: map<nat, Account>)       // for which account an outbox row was marked sent

  datatype Action =
    | Write(events: seq<UsageEvent>, now: int)
    | Peek(d: nat, account: Account)
    | Pull(d: nat, level: Privacy)
    | Send(d: nat)
    | Commit(request: nat, now: int)
    | Receive(d: nat)
    | Fail(d: nat)
    | Mark(d: nat, at: int)
    | Finish(d: nat, at: int)
    | Note(d: nat, message: string)
    | Crash(d: nat)
    | OtherUpload(teamId: string, payloads: seq<Payload>, now: int)
    | Membership(change: TeamMembership.Change)

  function Last(batch: seq<nat>): nat
    requires batch != []
  {
    batch[|batch| - 1]
  }

  function MaxTimestamp(es: seq<UsageEvent>, floor: int): int
    decreases |es|
  {
    if es == [] then floor else Max(es[|es| - 1].timestamp, MaxTimestamp(es[..|es| - 1], floor))
  }

  /** It bounds the batch and the old watermark, and is one of them. */
  lemma {:induction false} MaxTimestampIs(es: seq<UsageEvent>, floor: int)
    ensures var ms := MaxTimestamp(es, floor);
            && ms >= floor && (forall e <- es :: e.timestamp <= ms)
            && (ms == floor || exists e :: e in es && e.timestamp == ms)
    decreases |es|
  {
    if es == [] {
    } else {
      MaxTimestampIs(es[..|es| - 1], floor);
      assert es[|es| - 1] in es && forall e <- es[..|es| - 1] :: e in es;
    }
  }

  function ContextOf(env: Env, a: Account): Context { Context(a.0, a.1, env.nodeId) }

  function Redacts(es: seq<UsageEvent>, level: Privacy, c: Context): (ps: seq<Payload>)
    requires level != AggregateOnly
    ensures |ps| == |es| && forall i :: 0 <= i < |ps| ==> ps[i] == Event(RedactEvent(es[i], level, c))
  {
    seq(|es|, i requires 0 <= i < |es| => Event(RedactEvent(es[i], level, c)))
  }

  function RejectedIds(r: nat, reply: Response): set<(nat, string)> { set x | x in reply.rejected :: (r, x.id) }

  /** A committed batch, this client's or another one's. */
  ghost function Served(env: Env, s: System, teamId: string, payloads: seq<Payload>, now: int): System {
    s.(server := TeamBatch.Batch(s.server, teamId, payloads, now, env.cap))
  }

  function Idle(s: System, d: nat): System { s.(drainers := map e | e in s.drainers && e != d :: s.drainers[e]) }

  function At(s: System, d: nat, pc: Pc): System { s.(drainers := s.drainers[d := pc]) }

  /** `markSent` for a drainer's batch, remembering the account of the rows it marks. */
  function Marking(s: System, account: Account, batch: seq<nat>, at: int): System
    requires batch != []
  {
    var rows := s.store.outbox.rows;
    s.(store := s.store.(outbox := s.store.outbox.(rows := MarkSent(rows, Last(batch), at))),
       via := s.via + map q | q in rows && q <= Last(batch) && rows[q].sentAt.None? :: account)
  }

  // ---- the steps of a drain ------------------------------------------------

  function PeekTo(s: System, d: nat, account: Account): System {
    if d in s.drainers then s
    else At(s, d, Peeked(account, SentSeq(s.cursors, account), AckedMs(s.cursors, account)))
  }

  function PullTo(env: Env, s: System, d: nat, level: Privacy): (t: System)
    requires Sane(s.store)
    ensures t.store == s.store
  {
    if d !in s.drainers || !s.drainers[d].Peeked? || level == AggregateOnly then s
    else
      var pc := s.drainers[d];
      var batch := Pending(s.store.outbox, pc.after, MAX_BATCH_SIZE);
      PendingIs(s.store.outbox, pc.after, MAX_BATCH_SIZE);
      if batch == [] then Idle(s, d)
      else
        var es := EventsAt(s.store, batch);
        At(s, d, Pulled(pc.account, batch, Redacts(es, level, ContextOf(env, pc.account)), MaxTimestamp(es, pc.ms)))
  }

  function SendTo(s: System, d: nat): System {
    if d !in s.drainers || !s.drainers[d].Pulled? then s
    else
      var pc := s.drainers[d];
      At(s, d, Waiting(pc.account, pc.batch, |s.requests|, pc.ms)).(requests := s.requests + [Request(pc.account, pc.payloads)])
  }

  ghost function CommitTo(env: Env, s: System, r: nat, now: int): System {
    if r >= |s.requests| then s
    else
      var (team, payloads) := (s.requests[r].account.0, s.requests[r].payloads);
      Served(env, s, team, payloads, now).(
        committed := s.committed + {r},
        rejected := s.rejected + RejectedIds(r, TeamBatch.Reply(s.server, team, payloads, now, env.cap)))
  }

  function ReceiveTo(s: System, d: nat): System {
    if d !in s.drainers || !s.drainers[d].Waiting? || s.drainers[d].request !in s.committed then s
    else var pc := s.drainers[d]; At(s, d, Acknowledged(pc.account, pc.batch, pc.ms))
  }

  function MarkTo(s: System, d: nat, at: int): (t: System)
    requires Sane(s.store)
    ensures Sane(t.store)
  {
    if d !in s.drainers || !s.drainers[d].Acknowledged? || s.drainers[d].batch == [] then s
    else
      var pc := s.drainers[d];
      MarkSentSane(s.store, Last(pc.batch), at);
      At(Marking(s, pc.account, pc.batch, at), d, Marked(pc.account, pc.batch, pc.ms))
  }

  function FinishTo(s: System, d: nat, at: int): System {
    if d !in s.drainers || !s.drainers[d].Marked? || s.drainers[d].batch == [] then s
    else
      var pc := s.drainers[d];
      Idle(s, d).(cursors := Advance(s.cursors, pc.account, Last(pc.batch), pc.ms, at))
  }

  /** One atomic step. An action that is not possible changes nothing. */
  ghost function Step(env: Env, s: System, a: Action): (t: System)
    requires Sane(s.store)
    ensures Sane(t.store)
  {
    match a
    case Write(events, now) =>
      PutAllSane(s.store, events, now);
      s.(store := PutAll(s.store, events, now))
    case Peek(d, account) => PeekTo(s, d, account)
    case Pull(d, level) => PullTo(env, s, d, level)
    case Send(d) => SendTo(s, d)
    case Commit(r, now) => CommitTo(env, s, r, now)
    case Receive(d) => ReceiveTo(s, d)
    case Fail(d) =>
      if d in s.drainers && (s.drainers[d].Waiting? || s.drainers[d].Acknowledged? || s.drainers[d].Marked?)
      then At(s, d, Failing(s.drainers[d].account)) else s
    case Mark(d, at) => MarkTo(s, d, at)
    case Finish(d, at) => FinishTo(s, d, at)
    case Note(d, message) =>
      if d !in s.drainers || !s.drainers[d].Failing? then s
      else Idle(s, d).(cursors := RecordError(s.cursors, s.drainers[d].account, message))
    case Crash(d) => Idle(s, d)
    case OtherUpload(teamId, payloads, now) => Served(env, s, teamId, payloads, now)
    case Membership(change) => s.(server := s.server.(members := TeamMembership.Apply(s.server.members, change)))
  }

  const START := System(EMPTY_STORE, map[], map[], [], {}, EMPTY, {}, map[])

  ghost function Exec(env: Env, actions: seq<Action>): (t: System)
    ensures Sane(t.store)
    decreases |actions|
  {
    if actions == [] then START else Step(env, Exec(env, actions[..|actions| - 1]), actions[|actions| - 1])
  }

  // ---- what every reachable state satisfies --------------------------------

  /** The server id of a local event uploaded for an account. */
  function IdFor(env: Env, a: Account, eventId: string): string { SyncEventIdFor(ContextOf(env, a), eventId) }

  /** The answer to request `r`, an upload for account `a`, refused the id. */
  ghost predicate RefusedIn(s: System, r: nat, a: Account, id: string) {
    (r, id) in s.rejected && r < |s.requests| && s.requests[r].account == a
  }

  /** The server has stored the id, or has answered an upload of this client for the account that it refuses it. */
  ghost predicate Settled(s: System, a: Account, id: string) {
    id in s.server.events || exists r: nat :: RefusedIn(s, r, a, id)
  }

  /** Every row up to `n` is marked sent, and `n` has been given out. */
  ghost predicate SentUpTo(o: Outbox, n: nat) {
    n < o.nextSeq && forall q <- o.rows | q <= n :: o.rows[q].sentAt.Some?
  }

  /** A drainer holds all that is still unsent up to the last row of its batch. */
  ghost predicate Holds(o: Outbox, batch: seq<nat>) {
    && batch != [] && Last(batch) < o.nextSeq
    && (forall q <- batch :: q in o.rows)
    && (forall q <- o.rows | q <= Last(batch) :: o.rows[q].sentAt.Some? || q in batch)
  }

  /** The payloads are the uploads of the batch, row by row. */
  ghost predicate Matches(env: Env, a: Account, o: Outbox, batch: seq<nat>, payloads: seq<Payload>) {
    && |payloads| == |batch|
    && (forall i :: 0 <= i < |batch| ==> batch[i] in o.rows && payloads[i].Id() == IdFor(env, a, o.rows[batch[i]].eventId))
  }

  ghost predicate PcOk(env: Env, s: System, pc: Pc) {
    var o := s.store.outbox;
    match pc
    case Peeked(a, after, _) => SentUpTo(o, after)
    case Pulled(a, batch, payloads, _) => Holds(o, batch) && Matches(env, a, o, batch, payloads)
    case Waiting(a, batch, r, _) =>
      Holds(o, batch) && r < |s.requests| && s.requests[r].account == a && Matches(env, a, o, batch, s.requests[r].payloads)
    case Acknowledged(a, batch, _) => Holds(o, batch) && forall q <- batch :: Settled(s, a, IdFor(env, a, o.rows[q].eventId))
    case Marked(a, batch, _) => batch != [] && SentUpTo(o, Last(batch))
    case Failing(_) => true
  }

  ghost predicate DrainersOk(env: Env, s: System) { forall d <- s.drainers :: PcOk(env, s, s.drainers[d]) }

  /** No cursor is ahead of an unsent row. */
  ghost predicate CursorsOk(s: System) { forall a <- s.cursors :: SentUpTo(s.store.outbox, s.cursors[a].sentSeq) }

  /** Every row marked sent is settled for the account it was marked for. */
  ghost predicate SentIsSettled(env: Env, s: System) {
    forall q <- s.store.outbox.rows | s.store.outbox.rows[q].sentAt.Some? ::
      q in s.via && Settled(s, s.via[q], IdFor(env, s.via[q], s.store.outbox.rows[q].eventId))
  }

  /** Every payload of a committed request is settled. */
  ghost predicate CommittedIsSettled(s: System) {
    forall r <- s.committed :: r < |s.requests| && forall p <- s.requests[r].payloads | p.Event? :: Settled(s, s.requests[r].account, p.Id())
  }

  ghost predicate RequestsAreEvents(s: System) {
    && (forall r <- s.requests :: forall p <- r.payloads :: p.Event?)
    && (forall d <- s.drainers | s.drainers[d].Pulled? :: forall p <- s.drainers[d].payloads :: p.Event?)
  }

  ghost predicate Inv(env: Env, s: System) {
    && Sane(s.store) && s.store.outbox.nextSeq >= 1 && 0 !in s.store.outbox.rows
    && DrainersOk(env, s) && CursorsOk(s) && SentIsSettled(env, s) && CommittedIsSettled(s) && RequestsAreEvents(s)
  }

  // ---- steps only ever add -------------------------------------------------

  /** Rows keep their event and stay sent; new rows come after all old ones. */
  ghost predicate Progress(o: Outbox, p: Outbox) {
    && o.nextSeq <= p.nextSeq
    && (forall q <- o.rows :: q in p.rows && p.rows[q].eventId == o.rows[q].eventId && (o.rows[q].sentAt.Some? ==> p.rows[q].sentAt.Some?))
    && (forall q <- p.rows | q !in o.rows :: q >= o.nextSeq)
  }

  ghost predicate Grows(s: System, t: System) {
    && Progress(s.store.outbox, t.store.outbox)
    && s.requests <= t.requests
    && s.server.events.Keys <= t.server.events.Keys && s.rejected <= t.rejected
  }

  lemma SettledStays(s: System, t: System, a: Account, id: string)
    requires Settled(s, a, id) && Grows(s, t)
    ensures Settled(t, a, id)
  {
    if id !in s.server.events {
      var r: nat :| RefusedIn(s, r, a, id);
      assert RefusedIn(t, r, a, id);
    }
  }

  lemma SentUpToStays(o: Outbox, p: Outbox, n: nat)
    requires SentUpTo(o, n) && Progress(o, p)
    ensures SentUpTo(p, n)
  {}

  lemma HoldsStays(o: Outbox, p: Outbox, batch: seq<nat>)
    requires Holds(o, batch) && Progress(o, p)
    ensures Holds(p, batch)
  {}

  lemma PcStays(env: Env, s: System, t: System, pc: Pc)
    requires PcOk(env, s, pc) && Grows(s, t)
    ensures PcOk(env, t, pc)
  {
    var o, p := s.store.outbox, t.store.outbox;
    match pc
    case Peeked(a, after, _) => SentUpToStays(o, p, after);
    case Pulled(a, batch, payloads, _) => HoldsStays(o, p, batch);
    case Waiting(a, batch, r, _) => HoldsStays(o, p, batch);
    case Acknowledged(a, batch, _) =>
      HoldsStays(o, p, batch);
      forall q <- batch ensures Settled(t, a, IdFor(env, a, p.rows[q].eventId)) {
        SettledStays(s, t, a, IdFor(env, a, o.rows[q].eventId));
      }
    case Marked(a, batch, _) => SentUpToStays(o, p, Last(batch));
    case Failing(_) =>
  }

  lemma CursorsStay(s: System, t: System)
    requires CursorsOk(s) && Grows(s, t) && t.cursors == s.cursors
    ensures CursorsOk(t)
  {
    forall a <- t.cursors ensures SentUpTo(t.store.outbox, t.cursors[a].sentSeq) {
      SentUpToStays(s.store.outbox, t.store.outbox, s.cursors[a].sentSeq);
    }
  }
}
