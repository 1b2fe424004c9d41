/** The desktop side of the protocol as objects: repositories over one database, and the queue that drains. */
module SyncClient {
  import opened Wrappers
  import opened TeamModel
  import opened Redaction
  import opened LocalDb
  import opened SyncProtocol
  import opened SyncProgress
  import DailyRedaction
  import DailyColumns

  /** The tables behind a connection pool. */
  class Pool {
    var events: map<string, UsageEvent>
    var rows: map<nat, OutboxRow>
    var nextSeq: nat
    var cursors: Cursors

    constructor ()
      ensures Contents() == EMPTY_STORE && cursors == map[]
    {
      events, rows, nextSeq, cursors := map[], map[], 1, map[];
    }

    function Queue(): Outbox
      reads this
    {
      Outbox(rows, nextSeq)
    }

    function Contents(): Store
      reads this
    {
      Store(events, Queue())
    }
  }

  class EventRepository {
    const pool: Pool

    constructor (pool: Pool)
      ensures this.pool == pool
    {
      this.pool := pool;
    }

    /** One event and its outbox row in one transaction. */
    method Upsert(e: UsageEvent, now: int, fault: bool) returns (ok: bool)
      modifies pool`events, pool`rows, pool`nextSeq
      ensures ok <==> !fault
      ensures ok ==> pool.Contents() == Put(old(pool.Contents()), e, now) && Upserted(old(pool.Contents()), pool.Contents(), e, now)
      ensures !ok ==> pool.events == old(pool.events) && pool.rows == old(pool.rows) && pool.nextSeq >= old(pool.nextSeq)
    {
      PutUpserts(pool.Contents(), e, now);
      hide Upserted, Enqueue;
      var o := Enqueue(pool.Queue(), e.id, now);
      pool.nextSeq := o.nextSeq;
      if fault {
        return false;
      }
      pool.events, pool.rows := pool.events[e.id := e], o.rows;
      return true;
    }

    /** All events and their outbox rows in one transaction. `fault` is the event at which the database
        fails, the commit being the last step. */
    method UpsertMany(es: seq<UsageEvent>, now: int, fault: nat) returns (ok: bool)
      modifies pool`events, pool`rows, pool`nextSeq
      ensures ok <==> es == [] || fault > |es|
      ensures ok ==> pool.Contents() == PutAll(old(pool.Contents()), es, now)
      ensures !ok ==> pool.events == old(pool.events) && pool.rows == old(pool.rows) && pool.nextSeq >= old(pool.nextSeq)
    {
      if |es| == 0 {
        return true;
      }
      var events0, rows0 := pool.events, pool.rows;
      ghost var s := pool.Contents();
      var i := 0;
      while i < |es| && fault != i
        invariant 0 <= i <= |es| && i <= fault
        invariant pool.Contents() == PutAll(s, es[..i], now)
        invariant pool.nextSeq >= s.outbox.nextSeq
      {
        var e := es[i];
        assert es[..i + 1][..i] == es[..i];
        pool.events := pool.events[e.id := e];
        var o := Enqueue(pool.Queue(), e.id, now);
        pool.rows, pool.nextSeq := o.rows, o.nextSeq;
        i := i + 1;
      }
      if fault == i {
        // A rolled-back transaction leaves its sequence values used up.
        pool.events, pool.rows := events0, rows0;
        return false;
      }
      assert es[..i] == es;
      return true;
    }
  }

  class OutboxRepository {
    const pool: Pool

    constructor (pool: Pool)
      ensures this.pool == pool
    {
      this.pool := pool;
    }

    method Pending(after: nat, limit: nat) returns (batch: seq<nat>, events: seq<UsageEvent>)
      requires Sane(pool.Contents())
      ensures batch == LocalDb.Pending(pool.Queue(), after, limit)
      ensures forall q <- batch :: q in pool.rows
      ensures events == EventsAt(pool.Contents(), batch)
    {
      batch := LocalDb.Pending(pool.Queue(), after, limit);
      PendingIs(pool.Queue(), after, limit);
      events := EventsAt(pool.Contents(), batch);
    }

    /** Counts the unsent rows above a sequence value; no batch size limits it. */
    method PendingCount(after: nat) returns (n: nat)
      ensures n == |set q | q in pool.rows && after < q < pool.nextSeq && pool.rows[q].sentAt.None?|
      ensures n == LocalDb.PendingCount(pool.Queue(), after)
    {
      n := LocalDb.PendingCount(pool.Queue(), after);
      UnsentSize(pool.rows, after, pool.nextSeq);
    }

    /** Stamps the unsent rows up to a maximum, and no others. */
    method MarkSent(maxSeq: nat, at: int)
      modifies pool`rows
      ensures pool.rows == LocalDb.MarkSent(old(pool.rows), maxSeq, at)
      ensures pool.rows.Keys == old(pool.rows.Keys)
      ensures forall q <- pool.rows :: pool.rows[q] != old(pool.rows)[q] <==> q <= maxSeq && old(pool.rows)[q].sentAt.None?
      ensures forall q <- pool.rows | q <= maxSeq :: pool.rows[q].sentAt.Some?
      ensures forall q <- pool.rows :: pool.rows[q].eventId == old(pool.rows)[q].eventId
    {
      MarkSentIs(pool.rows, maxSeq, at);
      pool.rows := LocalDb.MarkSent(pool.rows, maxSeq, at);
    }
  }

  class CursorRepository {
    const pool: Pool

    constructor (pool: Pool)
      ensures this.pool == pool
    {
      this.pool := pool;
    }

    method Get(a: Account) returns (c: Option<Cursor>)
      ensures c.Some? <==> a in pool.cursors
      ensures c.Some? ==> c.value == pool.cursors[a]
      ensures SentSeq(pool.cursors, a) == if c.Some? then c.value.sentSeq else 0
      ensures AckedMs(pool.cursors, a) == if c.Some? then c.value.ackedMs else 0
    {
      c := if a in pool.cursors then Some(pool.cursors[a]) else None;
    }

    /** Success: both watermarks become maxima, the error is cleared, no other account is touched. */
    method Advance(a: Account, newSeq: nat, newMs: int, at: int)
      modifies pool`cursors
      ensures pool.cursors == LocalDb.Advance(old(pool.cursors), a, newSeq, newMs, at)
      ensures pool.cursors.Keys == old(pool.cursors.Keys) + {a}
      ensures pool.cursors[a].sentSeq == Max(SentSeq(old(pool.cursors), a), newSeq)
      ensures pool.cursors[a].ackedMs == if a in old(pool.cursors) then Max(old(pool.cursors)[a].ackedMs, newMs) else newMs
      ensures pool.cursors[a].syncedAt == Some(at) && pool.cursors[a].error == None
      ensures forall b <- old(pool.cursors) | b != a :: pool.cursors[b] == old(pool.cursors)[b]
    {
      pool.cursors := LocalDb.Advance(pool.cursors, a, newSeq, newMs, at);
    }

    /** Failure: the message is kept, no watermark and no time of success moves, of this account or any other. */
    method RecordError(a: Account, message: string)
      modifies pool`cursors
      ensures pool.cursors == LocalDb.RecordError(old(pool.cursors), a, message)
      ensures pool.cursors.Keys == old(pool.cursors.Keys) + {a} && pool.cursors[a].error == Some(message)
      ensures forall b :: SentSeq(pool.cursors, b) == SentSeq(old(pool.cursors), b) && AckedMs(pool.cursors, b) == AckedMs(old(pool.cursors), b)
      ensures pool.cursors[a].syncedAt == if a in old(pool.cursors) then old(pool.cursors)[a].syncedAt else None
      ensures forall b <- old(pool.cursors) | b != a :: pool.cursors[b] == old(pool.cursors)[b]
    {
      pool.cursors := LocalDb.RecordError(pool.cursors, a, message);
    }
  }

  datatype DrainConfig = DrainConfig(
    enabled: bool, teamId: Option<string>, userId: Option<string>, privacy: Privacy, intervalMs: Option<int>)

  const DEFAULT_SYNC_INTERVAL_MS := 86400000

  /** What comes back for a batch: no access token because obtaining one throws, an answer, or a transport error. */
  datatype Answer = NoToken | Answered(r: Response) | Failed(message: string)

  datatype DrainOutcome = DrainOutcome(
    initialPending: nat, uploaded: nat, accepted: nat, duplicates: nat, rejected: nat,
    newCursorMs: Option<int>, error: Option<string>, rateLimited: bool)

  const NO_DRAIN := DrainOutcome(0, 0, 0, 0, 0, None, None, false)

  datatype SyncStatus = SyncStatus(
    configured: bool, enabled: bool, lastSyncAt: Option<int>, nextSyncAt: Option<int>, pendingCount: nat, lastError: Option<string>,
    nodeId: string)

  predicate Configured(cfg: DrainConfig) { cfg.enabled && cfg.teamId.Some? && cfg.userId.Some? }

  function AccountOf(cfg: DrainConfig): Account
    requires Configured(cfg)
  {
    (cfg.teamId.value, cfg.userId.value)
  }

  /** The latest successful sync the cadence gate looks at: the cursor's, else the one in memory. */
  function LastSync(cursors: Cursors, a: Account, memory: Option<int>): Option<int> {
    if a in cursors && cursors[a].syncedAt.Some? then cursors[a].syncedAt else memory
  }

  function NextSync(cfg: DrainConfig, last: Option<int>): Option<int> {
    if last.None? then None else Some(last.value + OrElse(cfg.intervalMs, DEFAULT_SYNC_INTERVAL_MS))
  }

  function LastError(cursors: Cursors, a: Account, memory: Option<string>): Option<string> {
    if a in cursors && cursors[a].error.Some? then cursors[a].error else memory
  }

  predicate TooSoon(cfg: DrainConfig, force: bool, last: Option<int>, now: int) {
    !force && last.Some? && now - last.value < OrElse(cfg.intervalMs, DEFAULT_SYNC_INTERVAL_MS)
  }

  /** The cadence after a drain with something to send: once it is acknowledged at `at`, unforced drains are refused
      until a whole interval after, a day unless configured, which is the time the status announces; a failed
      one leaves the last successful sync, and so the gate, as they were. Forced drains are never refused. The status
      shows the message of a failed drain until one is acknowledged. */
  lemma Cadence(c: Client, a: Account, x: Attempt, cfg: DrainConfig, memory: Option<int>, force: bool, now: int)
    requires PendingOf(c, a) > 0
    ensures var last := LastSync(Drain(c, a, x).cursors, a, memory);
            && (x.Acked? ==>
                  var due := x.at + if cfg.intervalMs.Some? then cfg.intervalMs.value else 86400000;
                  && last == Some(x.at) && NextSync(cfg, last) == Some(due)
                  && (TooSoon(cfg, force, last, now) <==> !force && now < due))
            && (x.Lost? ==> last == LastSync(c.cursors, a, memory) && forall m :: LastError(Drain(c, a, x).cursors, a, m) == Some(x.message))
            && (x.Acked? ==> forall m :: LastError(Drain(c, a, x).cursors, a, m) == m)
            && (last == None ==> !TooSoon(cfg, force, last, now) && NextSync(cfg, last) == None)
  {}

  class SyncQueue {
    const outbox: OutboxRepository
    const cursors: CursorRepository
    const nodeId: string
    var lastError: Option<string>
    var lastSyncAt: Option<int>
    var inflight: bool

    constructor (outbox: OutboxRepository, cursors: CursorRepository, nodeId: string)
      ensures this.outbox == outbox && this.cursors == cursors && this.nodeId == nodeId
      ensures lastError == None && lastSyncAt == None && !inflight
    {
      this.outbox, this.cursors, this.nodeId := outbox, cursors, nodeId;
      lastError, lastSyncAt, inflight := None, None, false;
    }

    /** The two tables a drain changes. */
    function Tables(): Client
      reads this, outbox.pool, cursors.pool
    {
      Client(outbox.pool.Queue(), cursors.pool.cursors)
    }

    /** The queue would upload something now. */
    predicate Due(cfg: DrainConfig, force: bool, now: int)
      reads this, outbox.pool, cursors.pool
    {
      && Configured(cfg)
      && !TooSoon(cfg, force, LastSync(cursors.pool.cursors, AccountOf(cfg), lastSyncAt), now)
      && Pending(outbox.pool.Queue(), SentSeq(cursors.pool.cursors, AccountOf(cfg)), MAX_BATCH_SIZE) != []
    }

    method GetStatus(cfg: DrainConfig) returns (s: SyncStatus)
      ensures !cfg.enabled || cfg.teamId.None? || cfg.userId.None? ==> s.pendingCount == 0 && s.nextSyncAt == None
      ensures s.enabled == cfg.enabled && s.configured == (cfg.teamId.Some? && cfg.userId.Some?)
      ensures !Configured(cfg) ==>
        s == SyncStatus(cfg.teamId.Some? && cfg.userId.Some?, cfg.enabled, lastSyncAt, None, 0, lastError, nodeId)
      ensures Configured(cfg) ==>
        && s.configured && s.enabled && s.nodeId == nodeId
        && s.pendingCount == PendingCount(outbox.pool.Queue(), SentSeq(cursors.pool.cursors, AccountOf(cfg)))
        && s.lastSyncAt == LastSync(cursors.pool.cursors, AccountOf(cfg), lastSyncAt)
        && s.nextSyncAt == NextSync(cfg, s.lastSyncAt)
        && s.lastError == LastError(cursors.pool.cursors, AccountOf(cfg), lastError)
    {
      if !Configured(cfg) {
        return SyncStatus(cfg.teamId.Some? && cfg.userId.Some?, cfg.enabled, lastSyncAt, None, 0, lastError, nodeId);
      }
      var cursor := cursors.Get(AccountOf(cfg));
      var pending := outbox.PendingCount(if cursor.Some? then cursor.value.sentSeq else 0);
      var last := if cursor.Some? && cursor.value.syncedAt.Some? then cursor.value.syncedAt else lastSyncAt;
      var next := if last.None? then None else Some(last.value + OrElse(cfg.intervalMs, DEFAULT_SYNC_INTERVAL_MS));
      var error := if cursor.Some? && cursor.value.error.Some? then cursor.value.error else lastError;
      return SyncStatus(true, true, last, next, pending, error, nodeId);
    }

    /** How a drain ends once the transport has answered: the try and catch of the upload. */
    method Settle(a: Account, after: nat, watermark: int, batch: seq<nat>, es: seq<UsageEvent>, uploaded: nat, answer: Answer, sentAt: int)
      returns (o: DrainOutcome)
      requires outbox.pool == cursors.pool && batch != [] && !answer.NoToken?
      requires after == SentSeq(cursors.pool.cursors, a) && watermark == AckedMs(cursors.pool.cursors, a)
      requires batch == Pending(outbox.pool.Queue(), after, MAX_BATCH_SIZE)
      modifies this`lastError, this`lastSyncAt, outbox.pool`rows, cursors.pool`cursors
      ensures answer.Answered? ==>
        var ms := MaxTimestamp(es, watermark);
        && Tables() == Drain(old(Tables()), a, Acked(ms, sentAt))
        && lastError == None && lastSyncAt == Some(sentAt)
        && o == DrainOutcome(PendingCount(old(outbox.pool.Queue()), after), uploaded,
                             |answer.r.accepted|, |answer.r.duplicates|, |answer.r.rejected|, Some(ms), None, false)
      ensures answer.Failed? ==>
        && Tables() == Drain(old(Tables()), a, Lost(answer.message))
        && lastError == Some(answer.message) && lastSyncAt == old(lastSyncAt)
        && o == NO_DRAIN.(initialPending := PendingCount(old(outbox.pool.Queue()), after), error := Some(answer.message))
    {
      var initialPending := outbox.PendingCount(after);
      match answer {
        case Answered(r) =>
          var ms := LatestTimestamp(es, watermark);
          outbox.MarkSent(batch[|batch| - 1], sentAt);
          cursors.Advance(a, batch[|batch| - 1], ms, sentAt);
          lastSyncAt, lastError := Some(sentAt), None;
          o := DrainOutcome(initialPending, uploaded, |r.accepted|, |r.duplicates|, |r.rejected|, Some(ms), None, false);
        case Failed(message) =>
          lastError := Some(message);
          cursors.RecordError(a, message);
          o := NO_DRAIN.(initialPending := initialPending, error := Some(message));
      }
    }

    /** One drain with nothing else going on. `answer` is what token service and transport bring back, `now` and
        `sentAt` are the clock before and after the upload, `sent` is what went over the wire. Without a token the
        drain throws: there is no outcome, and not even the error is recorded. */
    method DrainImpl(cfg: DrainConfig, force: bool, now: int, answer: Answer, sentAt: int)
      returns (o: Option<DrainOutcome>, sent: seq<Payload>)
      requires outbox.pool == cursors.pool && Sane(outbox.pool.Contents())
      modifies this`lastError, this`lastSyncAt, outbox.pool`rows, cursors.pool`cursors
      ensures !cfg.enabled || cfg.teamId.None? || cfg.userId.None? ==> sent == [] && Tables() == old(Tables()) && o == Some(NO_DRAIN)
      ensures !old(Due(cfg, force, now)) ==>
        && sent == [] && Tables() == old(Tables())
        && lastError == old(lastError) && lastSyncAt == old(lastSyncAt)
        && o == Some(NO_DRAIN.(rateLimited := Configured(cfg)
             && TooSoon(cfg, force, old(LastSync(cursors.pool.cursors, AccountOf(cfg), lastSyncAt)), now)))
      ensures old(Due(cfg, force, now)) && answer.NoToken? ==>
        sent == [] && Tables() == old(Tables()) && lastError == old(lastError) && lastSyncAt == old(lastSyncAt) && o == None
      ensures old(Due(cfg, force, now)) && !answer.NoToken? ==>
        var a := AccountOf(cfg);
        var after := SentSeq(old(cursors.pool.cursors), a);
        var batch := Pending(old(outbox.pool.Queue()), after, MAX_BATCH_SIZE);
        && (forall q <- batch :: q in old(outbox.pool.rows))
        && var es := EventsAt(old(outbox.pool.Contents()), batch);
        && Tells(sent, es, cfg.privacy, Context(a.0, a.1, nodeId))
        && (answer.Answered? ==>
              var ms := MaxTimestamp(es, AckedMs(old(cursors.pool.cursors), a));
              && ms == BatchMs(old(outbox.pool.Contents()), old(cursors.pool.cursors), a)
              && Tables() == Drain(old(Tables()), a, Acked(ms, sentAt))
              && lastError == None && lastSyncAt == Some(sentAt)
              && o == Some(DrainOutcome(PendingCount(old(outbox.pool.Queue()), after), |sent|,
                                        |answer.r.accepted|, |answer.r.duplicates|, |answer.r.rejected|, Some(ms), None, false)))
        && (answer.Failed? ==>
              && Tables() == Drain(old(Tables()), a, Lost(answer.message))
              && lastError == Some(answer.message) && lastSyncAt == old(lastSyncAt)
              && o == Some(NO_DRAIN.(initialPending := PendingCount(old(outbox.pool.Queue()), after), error := Some(answer.message))))
    {
      o, sent := Some(NO_DRAIN), [];
      if !Configured(cfg) {
        return;
      }
      var a := AccountOf(cfg);
      var cursor := cursors.Get(a);
      var last := if cursor.Some? && cursor.value.syncedAt.Some? then cursor.value.syncedAt else lastSyncAt;
      if TooSoon(cfg, force, last, now) {
        o := Some(NO_DRAIN.(rateLimited := true));
        return;
      }
      var after, watermark := if cursor.Some? then cursor.value.sentSeq else 0, if cursor.Some? then cursor.value.ackedMs else 0;
      var batch, pending := outbox.Pending(after, MAX_BATCH_SIZE);
      if |batch| == 0 {
        return;
      }
      var payloads := MakeUpload(pending, cfg.privacy, Context(a.0, a.1, nodeId));
      if answer.NoToken? {
        return None, [];
      }
      sent := payloads;
      var outcome := Settle(a, after, watermark, batch, pending, |sent|, answer, sentAt);
      o := Some(outcome);
    }

    /** The gate in front of a drain: while one is in flight nothing is started, and the caller gets what that one
        comes to, `shared`; otherwise a drain is made, and afterwards the gate is open again, however it ended. */
    method DrainGated(cfg: DrainConfig, force: bool, now: int, answer: Answer, sentAt: int, shared: Option<DrainOutcome>)
      returns (joined: bool, o: Option<DrainOutcome>, sent: seq<Payload>)
      requires outbox.pool == cursors.pool && Sane(outbox.pool.Contents())
      modifies this`inflight, this`lastError, this`lastSyncAt, outbox.pool`rows, cursors.pool`cursors
      ensures joined == old(inflight)
      ensures inflight == old(inflight)
      ensures joined ==> o == shared && sent == [] && Tables() == old(Tables()) && lastError == old(lastError) && lastSyncAt == old(lastSyncAt)
      ensures !joined && !old(Due(cfg, force, now)) ==> sent == [] && Tables() == old(Tables())
      ensures !joined && old(Due(cfg, force, now)) ==>
        match answer
        case NoToken => sent == [] && Tables() == old(Tables()) && o == None
        case Failed(message) => Tables() == Drain(old(Tables()), AccountOf(cfg), Lost(message))
        case Answered(_) =>
          Tables() == Drain(old(Tables()), AccountOf(cfg),
                            Acked(BatchMs(old(outbox.pool.Contents()), old(cursors.pool.cursors), AccountOf(cfg)), sentAt))
    {
      joined, o, sent := inflight, shared, [];
      if joined {
        return;
      }
      inflight := true;
      o, sent := DrainImpl(cfg, force, now, answer, sentAt);
      inflight := false;
    }
  }

  /** What a batch becomes on the wire: one payload per event, or one per daily bucket. */
  ghost predicate IsUpload(sent: seq<Payload>, es: seq<UsageEvent>, level: Privacy, c: Context) {
    if level == AggregateOnly
    then exists rows, keys :: DailyRedaction.RowsOf(rows, keys, es, c) && sent == Dailies(rows)
    else sent == Redacts(es, level, c)
  }

  /** What a receiver reads off it, field by field: at event level each payload is the upload of its event, at
      `aggregateOnly` the rows are sums of the events' own fields. */
  ghost predicate Tells(sent: seq<Payload>, es: seq<UsageEvent>, level: Privacy, c: Context) {
    if level == AggregateOnly
    then (forall p <- sent :: p.Daily?) && DailyColumns.DailyUploadOf(RowsIn(sent), es, c)
    else |sent| == |es| && forall i :: 0 <= i < |es| ==> sent[i].Event? && UploadOf(sent[i].e, es[i], level, c)
  }

  function RowsIn(sent: seq<Payload>): seq<SyncedDaily>
    requires forall p <- sent :: p.Daily?
  {
    seq(|sent|, i requires 0 <= i < |sent| => sent[i].d)
  }

  lemma UploadTells(sent: seq<Payload>, es: seq<UsageEvent>, level: Privacy, c: Context)
    requires IsUpload(sent, es, level, c)
    ensures Tells(sent, es, level, c)
  {
    hide RedactEvent, UploadOf, DailyRedaction.RowsOf, DailyColumns.DailyUploadOf;
    if level == AggregateOnly {
      var rows, keys :| DailyRedaction.RowsOf(rows, keys, es, c) && sent == Dailies(rows);
      DailyColumns.RowsUpload(rows, keys, es, c);
      assert RowsIn(sent) == rows;
    } else {
      forall i | 0 <= i < |es| ensures sent[i].Event? && UploadOf(sent[i].e, es[i], level, c) {
        RedactsIntoUpload(es[i], level, c);
      }
    }
  }

  function Dailies(rows: seq<SyncedDaily>): seq<Payload> { seq(|rows|, i requires 0 <= i < |rows| => Daily(rows[i])) }

  method MakeUpload(es: seq<UsageEvent>, level: Privacy, c: Context) returns (sent: seq<Payload>)
    ensures IsUpload(sent, es, level, c) && Tells(sent, es, level, c)
  {
    hide RedactEvent, Tells, DailyRedaction.RowsOf;
    if level == AggregateOnly {
      var rows, keys := DailyRedaction.RedactToDaily(es, c);
      sent := Dailies(rows);
    } else {
      sent := Redacts(es, level, c);
    }
    UploadTells(sent, es, level, c);
  }

  /** The reduce over a batch: the largest timestamp, not below the watermark it starts from. */
  method LatestTimestamp(es: seq<UsageEvent>, floor: int) returns (ms: int)
    ensures ms == MaxTimestamp(es, floor)
    ensures ms >= floor && forall e <- es :: e.timestamp <= ms
    ensures ms == floor || exists e :: e in es && e.timestamp == ms
  {
    MaxTimestampIs(es, floor);
    ms := floor;
    for i := 0 to |es|
      invariant ms == MaxTimestamp(es[..i], floor)
    {
      assert es[..i + 1][..i] == es[..i];
      ms := if es[i].timestamp > ms then es[i].timestamp else ms;
    }
    assert es[..|es|] == es;
  }
}
