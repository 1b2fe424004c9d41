/** What each payload of a batch does to the tables and the reply, told by their columns. */
module TeamEffects {
  import opened Wrappers
  import opened JoinedKeys
  import opened UsageSums
  import opened TeamModel
  import opened TeamBatch
  import opened TeamRollup
  import opened TeamCap
  import opened TeamAdmission
  import opened TeamColumns

  /** The names in a payload, the id under which it is answered, and the time it moves the cursor to: the moment of
      an event, one second before the end of the UTC day of a daily row. */
  function TeamIn(p: Payload): string { match p case Event(e) => e.teamId case Daily(d) => d.teamId }

  function UserIn(p: Payload): string { match p case Event(e) => e.userId case Daily(d) => d.userId }

  function NodeIn(p: Payload): string { match p case Event(e) => e.nodeId case Daily(d) => d.nodeId }

  function AnswerId(p: Payload): string {
    match p
    case Event(e) => e.syncEventId
    case Daily(d) => IntText(d.day) + "|" + d.provider + "|" + d.model
  }

  function CursorTime(p: Payload): int {
    match p
    case Event(e) => e.timestamp
    case Daily(d) => (d.day + 1) * 86400000 - 1000
  }

  /** The reason why a payload is refused before any device is looked at; the first that applies counts. */
  predicate RefusedFor(members: map<(string, string), Member>, teamId: string, p: Payload, reason: Reason) {
    var ownId := p.Event? ==> p.e.syncEventId == Sha256Hex(teamId + "|" + p.e.userId + "|" + p.e.nodeId + "|" + p.e.localEventId);
    var k := (teamId, UserIn(p));
    match reason
    case TeamMismatch => TeamIn(p) != teamId
    case IdMismatch => TeamIn(p) == teamId && !ownId
    case NotMember => TeamIn(p) == teamId && ownId && k !in members
    case MembershipRevoked => TeamIn(p) == teamId && ownId && k in members && members[k].status == Revoked
    case DeviceLimit => false
  }

  /** Nothing of this kind stands against the payload. */
  predicate Welcome(members: map<(string, string), Member>, teamId: string, p: Payload) {
    var k := (teamId, UserIn(p));
    && TeamIn(p) == teamId && k in members && members[k].status == Active
    && (p.Event? ==> p.e.syncEventId == Sha256Hex(teamId + "|" + p.e.userId + "|" + p.e.nodeId + "|" + p.e.localEventId))
  }

  lemma RefusalTells(members: map<(string, string), Member>, teamId: string, p: Payload)
    ensures forall reason :: Refusal(members, teamId, p) == Some(reason) <==> RefusedFor(members, teamId, p, reason)
    ensures Refusal(members, teamId, p) == None <==> Welcome(members, teamId, p)
  {
    if p.Event? {
      FourText(teamId, p.e.userId, p.e.nodeId, p.e.localEventId);
    }
    hide Join;
  }

  lemma NamesIn(p: Payload)
    ensures p.Team() == TeamIn(p) && p.User() == UserIn(p) && p.Node() == NodeIn(p) && p.Id() == AnswerId(p) && p.Reached() == CursorTime(p)
  {
    if p.Daily? {
      ThreeText(IntText(p.d.day), p.d.provider, p.d.model);
    }
  }

  /** The stored row is the event without session and message, stamped with the time of the batch. */
  predicate IsRow(row: EventRow, e: SyncedEvent, now: int) {
    && row.uploadedAt == now
    && row.e.syncEventId == e.syncEventId && row.e.teamId == e.teamId && row.e.userId == e.userId && row.e.nodeId == e.nodeId
    && row.e.localEventId == e.localEventId && row.e.payloadHash == e.payloadHash && row.e.privacy == e.privacy
    && row.e.provider == e.provider && row.e.providerRawTag == e.providerRawTag && row.e.model == e.model
    && row.e.timestamp == e.timestamp && row.e.project == e.project && row.e.projectHash == e.projectHash
    && row.e.tokens == e.tokens && row.e.toolCallCount == e.toolCallCount && row.e.latencyMs == e.latencyMs
    && row.e.cost == e.cost && row.e.pricing == e.pricing && row.e.sessionId == None && row.e.messageId == None
  }

  /** The reply keeps what it said before. */
  predicate Says(before: Response, after: Response, accepted: seq<string>, duplicates: seq<string>, rejected: seq<Rejection>, cursor: int) {
    && after.accepted == before.accepted + accepted && after.duplicates == before.duplicates + duplicates
    && after.rejected == before.rejected + rejected && after.cursor == cursor
  }

  /** A rejected payload leaves every table as it was and is reported with its reason. */
  ghost predicate Turned(s: Tables, t: Tables, q: Response, r: Response, teamId: string, p: Payload) {
    && t.events == s.events && t.daily == s.daily && t.conflicts == s.conflicts && t.nodes == s.nodes
    && exists reason :: (RefusedFor(s.members, teamId, p, reason) || (reason == DeviceLimit && Welcome(s.members, teamId, p)))
                        && Says(q, r, [], [], [Rejection(AnswerId(p), reason)], q.cursor)
  }

  /** The node of a payload is seen now; an unknown one is enrolled for its sender. No other node changes. */
  predicate Seen(before: map<string, NodeRow>, after: map<string, NodeRow>, teamId: string, p: Payload, now: int) {
    var n := NodeIn(p);
    && after.Keys == before.Keys + {n}
    && (forall x <- before | x != n :: after[x] == before[x])
    && after[n].lastSeenAt == now
    && (if n in before
        then after[n].userId == before[n].userId && after[n].teamId == before[n].teamId && after[n].enrolledAt == before[n].enrolledAt
        else after[n].userId == UserIn(p) && after[n].teamId == teamId && after[n].enrolledAt == now)
  }

  /** A daily row is overwritten; an event is inserted unless its id is stored, and logged as a conflict if the stored
      one has another hash. */
  ghost predicate Taken(s: Tables, t: Tables, q: Response, r: Response, p: Payload, now: int) {
    var cursor := if CursorTime(p) > q.cursor then CursorTime(p) else q.cursor;
    match p
    case Daily(d) =>
      && t.events == s.events && t.conflicts == s.conflicts
      && t.daily == s.daily[DailyKey(d.teamId, d.userId, d.nodeId, d.day, d.provider, d.model) := DayRow(d.usage, d.pricing, now)]
      && Says(q, r, [AnswerId(p)], [], [], cursor)
    case Event(e) =>
      && t.daily == s.daily
      && if e.syncEventId in s.events then
           && t.events == s.events && Says(q, r, [], [AnswerId(p)], [], cursor)
           && var stored := s.events[e.syncEventId].e.payloadHash;
              t.conflicts == if stored == e.payloadHash then s.conflicts
                             else s.conflicts + [Conflict(e.syncEventId, stored, e.payloadHash, now)]
         else
           && t.events.Keys == s.events.Keys + {e.syncEventId} && IsRow(t.events[e.syncEventId], e, now)
           && (forall id <- s.events :: t.events[id] == s.events[id])
           && t.conflicts == s.conflicts && Says(q, r, [AnswerId(p)], [], [], cursor)
  }

  lemma DailyTakes(c: Scan, p: Payload, now: int)
    requires p.Daily?
    ensures var d := WriteDaily(c, p, now);
            Taken(c.t, d.t, c.resp, d.resp, p, now) && d.t.nodes == c.t.nodes && d.t.members == c.t.members
  {
    NamesIn(p);
    hide IsRow;
  }

  lemma EventTakes(c: Scan, p: Payload, now: int)
    requires p.Event?
    ensures var d := WriteEvent(c, p, now);
            Taken(c.t, d.t, c.resp, d.resp, p, now) && d.t.nodes == c.t.nodes && d.t.members == c.t.members
  {
    NamesIn(p);
    RowIs(p.e, now);
    hide AddToBucket, IsRow, RowOf;
  }

  lemma RowIs(e: SyncedEvent, now: int)
    ensures IsRow(RowOf(e, now), e, now)
  {}

  lemma WriteTakes(c: Scan, p: Payload, now: int)
    ensures var d := Write(c, p, now);
            Taken(c.t, d.t, c.resp, d.resp, p, now) && d.t.nodes == c.t.nodes && d.t.members == c.t.members
  {
    hide Taken, WriteDaily, WriteEvent;
    if p.Daily? {
      DailyTakes(c, p, now);
    } else {
      EventTakes(c, p, now);
    }
  }

  lemma TouchSees(c: Scan, teamId: string, p: Payload, now: int)
    ensures var d := Touch(c, teamId, p, now);
            && d.t == c.t.(nodes := d.t.nodes) && d.resp == c.resp
            && if NodeKey(p.User(), p.Node()) in c.touched then d.t.nodes == c.t.nodes else Seen(c.t.nodes, d.t.nodes, teamId, p, now)
  {
    NamesIn(p);
  }

  lemma NextTurns(c: Scan, teamId: string, p: Payload, now: int, cap: int)
    requires !Admitted(c, teamId, p, cap)
    ensures var d := Next(c, teamId, p, now, cap); Turned(c.t, d.t, c.resp, d.resp, teamId, p)
  {
    NamesIn(p);
    RefusalTells(c.t.members, teamId, p);
    var refusal := Refusal(c.t.members, teamId, p);
    var reason := if refusal.Some? then refusal.value else DeviceLimit;
    hide RefusedFor, Welcome, KnownOf, Refusal;
    assert RefusedFor(c.t.members, teamId, p, reason) || (reason == DeviceLimit && Welcome(c.t.members, teamId, p));
    assert Says(c.resp, Next(c, teamId, p, now, cap).resp, [], [], [Rejection(AnswerId(p), reason)], c.resp.cursor);
  }

  lemma NextTakes(c: Scan, teamId: string, p: Payload, now: int, cap: int)
    requires Admitted(c, teamId, p, cap)
    ensures var d := Next(c, teamId, p, now, cap);
            && Taken(c.t, d.t, c.resp, d.resp, p, now)
            && if NodeKey(p.User(), p.Node()) in c.touched then d.t.nodes == c.t.nodes else Seen(c.t.nodes, d.t.nodes, teamId, p, now)
  {
    TouchSees(c, teamId, p, now);
    WriteTakes(Touch(c, teamId, p, now), p, now);
    hide Touch, Write, Seen, KnownOf;
  }

  /** The last payload of a batch, by what the batch leaves with it and without it: if it does not pass it is turned
      away; otherwise it is taken in, and its node is seen unless an admitted payload came with the same key. */
  lemma LastPayload(s: Tables, teamId: string, ps: seq<Payload>, now: int, cap: int)
    requires ps != []
    ensures var front, p := ps[..|ps| - 1], ps[|ps| - 1];
            var admitted := Passed(s, teamId, front, cap);
            var t, u := Batch(s, teamId, front, now, cap), Batch(s, teamId, ps, now, cap);
            var q, r := Reply(s, teamId, front, now, cap), Reply(s, teamId, ps, now, cap);
            && u.members == s.members
            && if !Passes(s, teamId, admitted, p, cap) then Turned(t, u, q, r, teamId, p)
               else && Taken(t, u, q, r, p, now)
                    && if NodeKey(UserIn(p), NodeIn(p)) in Keys(admitted) then u.nodes == t.nodes else Seen(t.nodes, u.nodes, teamId, p, now)
  {
    var front, p := ps[..|ps| - 1], ps[|ps| - 1];
    var c, admitted := Scanned(s, teamId, front, now, cap), Passed(s, teamId, front, cap);
    NamesIn(p);
    ScanIs(s, teamId, front, now, cap);
    ScanIs(s, teamId, ps, now, cap);
    HasAdmits(c, s, teamId, admitted, p, cap);
    assert Scanned(s, teamId, ps, now, cap) == Next(c, teamId, p, now, cap);
    hide Next, Scanned, Passed, Passes, Admitted, Flush, NodeKey, Keys, Counted, Ids, NewEvents, KnownPairs, Turned, Taken, Seen;
    if Admitted(c, teamId, p, cap) {
      NextTakes(c, teamId, p, now, cap);
      OnlyTables(c.t, Batch(s, teamId, front, now, cap), Next(c, teamId, p, now, cap).t, Batch(s, teamId, ps, now, cap),
                 c.resp, Next(c, teamId, p, now, cap).resp, teamId, p, now);
    } else {
      NextTurns(c, teamId, p, now, cap);
      OnlyTables(c.t, Batch(s, teamId, front, now, cap), Next(c, teamId, p, now, cap).t, Batch(s, teamId, ps, now, cap),
                 c.resp, Next(c, teamId, p, now, cap).resp, teamId, p, now);
    }
  }

  /** The rollup has no part in this. */
  lemma OnlyTables(s: Tables, s': Tables, t: Tables, t': Tables, q: Response, r: Response, teamId: string, p: Payload, now: int)
    requires s' == s.(rollup := s'.rollup) && t' == t.(rollup := t'.rollup)
    ensures Taken(s, t, q, r, p, now) ==> Taken(s', t', q, r, p, now)
    ensures Turned(s, t, q, r, teamId, p) ==> Turned(s', t', q, r, teamId, p)
  {
    hide RefusedFor, Welcome, Says;
  }

  /** An empty batch says and does nothing. */
  lemma NoPayload(s: Tables, teamId: string, now: int, cap: int)
    ensures Batch(s, teamId, [], now, cap) == s && Reply(s, teamId, [], now, cap) == Response([], [], [], 0)
  {
    FlushNothing(s.rollup, now);
  }

  // ---- the rollup ----------------------------------------------------------

  /** The event is added to its own row, which is relabelled; no other row changes. */
  ghost predicate Accrued(before: map<RollupKey, DayRow>, after: map<RollupKey, DayRow>, e: SyncedEvent, now: int) {
    forall k ::
      if BelongsTo(e, k)
      then && k in after && after[k].pricing == e.pricing && after[k].uploadedAt == now
           && Increased(if k in before then before[k].usage else Usage(0, 0, 0, 0, 0, 0, 0, 0), after[k].usage, e)
      else (k in after <==> k in before) && (k in before ==> after[k] == before[k])
  }

  predicate Increased(u: Usage, v: Usage, e: SyncedEvent) {
    && v.count == u.count + 1 && v.input == u.input + e.tokens.input && v.output == u.output + e.tokens.output
    && v.cacheRead == u.cacheRead + e.tokens.cacheRead && v.cache5m == u.cache5m + e.tokens.cache5m
    && v.cache1h == u.cache1h + e.tokens.cache1h && v.cost == u.cost + e.cost
    && v.reasoning == u.reasoning + (if e.tokens.reasoning.Some? then e.tokens.reasoning.value else 0)
  }

  lemma AccumulateAccrues(rollup: map<RollupKey, DayRow>, e: SyncedEvent, now: int)
    ensures Accrued(rollup, Accumulate(rollup, KeyOf(e), UsageOf(e), e.pricing, now), e, now)
  {
    forall k ensures BelongsTo(e, k) <==> KeyOf(e) == k {
      BelongsIff(e, k);
    }
    hide BelongsTo, KeyOf;
  }

  /** While no two new events share a bucket text without sharing a row, the last payload of a batch adds to the
      rollup exactly if it is the first with its id of an event that is not stored. */
  lemma LastRollup(s: Tables, teamId: string, ps: seq<Payload>, now: int, cap: int)
    requires ps != [] && NoCollisions(NewEvents(s.events, Passed(s, teamId, ps, cap)))
    ensures var front, p := ps[..|ps| - 1], ps[|ps| - 1];
            var t, u := Batch(s, teamId, front, now, cap), Batch(s, teamId, ps, now, cap);
            if Passes(s, teamId, Passed(s, teamId, front, cap), p, cap) && p.Event? && p.e.syncEventId !in t.events
            then Accrued(t.rollup, u.rollup, p.e, now) else u.rollup == t.rollup
  {
    hide Next, Scans, Passed, Passes, Admitted, Keys, Counted, Ids, NewEvents, KnownPairs, NoCollisions, Sourced, Flush, Accrued,
         Accumulate, KeyOf, UsageOf, KeyText, AddToBucket, Stored;
    var front, p := ps[..|ps| - 1], ps[|ps| - 1];
    var c, d := Scanned(s, teamId, front, now, cap), Scanned(s, teamId, ps, now, cap);
    assert d == Next(c, teamId, p, now, cap) by { LastScan(s, teamId, ps, now, cap); }
    ScanIs(s, teamId, front, now, cap);
    ScanIs(s, teamId, ps, now, cap);
    HasAdmits(c, s, teamId, Passed(s, teamId, front, cap), p, cap);
    InsertsIff(c, teamId, p, now, cap);
    ScanStored(s, teamId, front, now, cap);
    ScanStored(s, teamId, ps, now, cap);
    if Admitted(c, teamId, p, cap) && p.Event? && p.e.syncEventId !in c.t.events {
      ScansFiled(Begin(s, teamId), teamId, front, now, cap);
      ScanSourced(s, teamId, front, now, cap);
      NoCollisionNow(c, p.e);
      FlushAdds(s.rollup, c.buckets, p.e, now);
      AccumulateAccrues(Flush(s.rollup, c.buckets, now), p.e, now);
    }
  }

  lemma LastScan(s: Tables, teamId: string, ps: seq<Payload>, now: int, cap: int)
    requires ps != []
    ensures Scanned(s, teamId, ps, now, cap) == Next(Scanned(s, teamId, ps[..|ps| - 1], now, cap), teamId, ps[|ps| - 1], now, cap)
  {
    hide Next;
  }
}
