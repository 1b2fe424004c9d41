/** Wire payloads, server tables and the naive one-payload-at-a-time server
    that the batched TeamService is measured against. */
module TeamModel {
  import opened Wrappers
  import opened JoinedKeys
  import opened UsageSums

  const DAY_MS := 86400000
  /** 23:59:59 into the day, the cursor value of a daily payload. */
  const END_OF_DAY_MS := 86399000

  /** UTC day number of a millisecond timestamp. */
  function DayOf(ts: int): int { ts / DAY_MS }

  // ---- wire payloads -------------------------------------------------------

  datatype Tokens = Tokens(
    input: int, output: int, cacheRead: int, cache5m: int, cache1h: int, reasoning: Option<int>)

  datatype Privacy = Full | Redacted | AggregateOnly

  datatype SyncedEvent = SyncedEvent(
    syncEventId: string, teamId: string, userId: string, nodeId: string, localEventId: string,
    payloadHash: string, privacy: Privacy,
    provider: string, providerRawTag: Option<string>, model: string, timestamp: int,
    project: Option<string>, projectHash: Option<string>,
    sessionId: Option<string>, messageId: Option<string>,
    tokens: Tokens, toolCallCount: Option<int>, latencyMs: Option<int>,
    cost: int, pricing: string)

  datatype SyncedDaily = SyncedDaily(
    teamId: string, userId: string, nodeId: string, day: int, provider: string, model: string,
    usage: Usage, pricing: string)

  datatype Payload = Event(e: SyncedEvent) | Daily(d: SyncedDaily)
  {
    function Team(): string { if Event? then e.teamId else d.teamId }
    function User(): string { if Event? then e.userId else d.userId }
    function Node(): string { if Event? then e.nodeId else d.nodeId }

    /** The id under which the response names this payload. */
    function Id(): string {
      if Event? then e.syncEventId else Join([IntText(d.day), d.provider, d.model])
    }

    /** What the payload contributes to the response cursor. */
    function Reached(): int {
      if Event? then e.timestamp else d.day * DAY_MS + END_OF_DAY_MS
    }
  }

  /** The string hashed into an event's primary key. */
  function SyncEventIdInput(teamId: string, userId: string, nodeId: string, localId: string): string {
    Join([teamId, userId, nodeId, localId])
  }

  function ExpectedId(teamId: string, e: SyncedEvent): string {
    Sha256Hex(SyncEventIdInput(teamId, e.userId, e.nodeId, e.localEventId))
  }

  /** Ids of bar-free (team, user, node) and any local id never collide. */
  lemma SyncEventIdInjective(a: (string, string, string, string), b: (string, string, string, string))
    requires NoBar(a.0) && NoBar(a.1) && NoBar(a.2) && NoBar(b.0) && NoBar(b.1) && NoBar(b.2)
    requires Sha256Hex(SyncEventIdInput(a.0, a.1, a.2, a.3)) == Sha256Hex(SyncEventIdInput(b.0, b.1, b.2, b.3))
    ensures a == b
  {
    var p, q := [a.0, a.1, a.2, a.3], [b.0, b.1, b.2, b.3];
    Sha256Injective(Join(p), Join(q));
    JoinInjective(p, q);
    assert p[0] == q[0] && p[1] == q[1] && p[2] == q[2] && p[3] == q[3];
  }

  // ---- server tables -------------------------------------------------------

  datatype MemberStatus = Active | Revoked
  datatype Role = Admin | Plain
  datatype Member = Member(role: Role, status: MemberStatus)

  datatype NodeRow = NodeRow(userId: string, teamId: string, enrolledAt: int, lastSeenAt: int)

  /** A `usage_events` row: the payload without session and message id. */
  datatype EventRow = EventRow(e: SyncedEvent, uploadedAt: int)

  datatype Conflict = Conflict(syncEventId: string, priorHash: string, newHash: string, occurredAt: int)

  datatype DailyKey = DailyKey(teamId: string, userId: string, nodeId: string, day: int, provider: string, model: string)

  datatype RollupKey = RollupKey(
    teamId: string, userId: string, nodeId: string, day: int, provider: string, model: string, projectHash: string)

  /** A row of either daily table. */
  datatype DayRow = DayRow(usage: Usage, pricing: string, uploadedAt: int)

  datatype Tables = Tables(
    members: map<(string, string), Member>,
    nodes: map<string, NodeRow>,
    events: map<string, EventRow>,
    conflicts: seq<Conflict>,
    daily: map<DailyKey, DayRow>,
    rollup: map<RollupKey, DayRow>)

  const EMPTY := Tables(map[], map[], map[], [], map[], map[])

  function RowOf(e: SyncedEvent, now: int): EventRow {
    EventRow(e.(sessionId := None, messageId := None), now)
  }

  function UsageOf(e: SyncedEvent): Usage {
    Usage(1, e.tokens.input, e.tokens.output, e.tokens.cacheRead, e.tokens.cache5m, e.tokens.cache1h,
          OrElse(e.tokens.reasoning, 0), e.cost)
  }

  /** The rollup row an event is counted in. */
  function KeyOf(e: SyncedEvent): RollupKey {
    RollupKey(e.teamId, e.userId, e.nodeId, DayOf(e.timestamp), e.provider, e.model, OrElse(e.projectHash, ""))
  }

  /** The string under which a batch buckets that row; the team is the batch's own. */
  function KeyText(k: RollupKey): string {
    Join([k.userId, k.nodeId, IntText(k.day), k.provider, k.model, k.projectHash])
  }

  predicate BarFreeKey(k: RollupKey) {
    NoBar(k.userId) && NoBar(k.nodeId) && NoBar(k.provider) && NoBar(k.model)
  }

  lemma KeyTextInjective(a: RollupKey, b: RollupKey)
    requires a.teamId == b.teamId && BarFreeKey(a) && BarFreeKey(b)
    requires KeyText(a) == KeyText(b)
    ensures a == b
  {
    var p := [a.userId, a.nodeId, IntText(a.day), a.provider, a.model, a.projectHash];
    var q := [b.userId, b.nodeId, IntText(b.day), b.provider, b.model, b.projectHash];
    JoinInjective(p, q);
    assert p[0] == q[0] && p[1] == q[1] && p[2] == q[2] && p[3] == q[3] && p[4] == q[4] && p[5] == q[5];
    IntTextInjective(a.day, b.day);
  }

  function DailyKeyOf(d: SyncedDaily): DailyKey {
    DailyKey(d.teamId, d.userId, d.nodeId, d.day, d.provider, d.model)
  }

  /** `INSERT … ON CONFLICT DO UPDATE` that adds to the stored totals. */
  function Accumulate(rollup: map<RollupKey, DayRow>, k: RollupKey, u: Usage, pricing: string, now: int): map<RollupKey, DayRow> {
    rollup[k := DayRow(if k in rollup then rollup[k].usage.Plus(u) else u, pricing, now)]
  }

  /** `INSERT INTO nodes … ON CONFLICT (id) DO UPDATE SET last_seen_at`: the owner of a known id stays. */
  function TouchNode(nodes: map<string, NodeRow>, id: string, userId: string, teamId: string, now: int): map<string, NodeRow> {
    nodes[id := if id in nodes then nodes[id].(lastSeenAt := now) else NodeRow(userId, teamId, now, now)]
  }

  /** `SELECT id FROM nodes WHERE team_id = … AND user_id = …`. */
  function NodesOf(nodes: map<string, NodeRow>, teamId: string, userId: string): set<string> {
    set n | n in nodes && nodes[n].teamId == teamId && nodes[n].userId == userId
  }

  // ---- responses -----------------------------------------------------------

  datatype Reason = TeamMismatch | IdMismatch | NotMember | MembershipRevoked | DeviceLimit

  datatype Rejection = Rejection(id: string, reason: Reason)

  datatype Response = Response(
    accepted: seq<string>, duplicates: seq<string>, rejected: seq<Rejection>, cursor: int)
  {
    /** The response to two batches in a row, read as one. */
    function Then(next: Response): Response {
      Response(accepted + next.accepted, duplicates + next.duplicates, rejected + next.rejected,
               Max(cursor, next.cursor))
    }
    function Reject(id: string, reason: Reason): Response {
      this.(rejected := rejected + [Rejection(id, reason)])
    }
    function Accept(id: string, reached: int): Response {
      this.(accepted := accepted + [id], cursor := Max(cursor, reached))
    }
    function Duplicate(id: string, reached: int): Response {
      this.(duplicates := duplicates + [id], cursor := Max(cursor, reached))
    }
  }

  const NOTHING := Response([], [], [], 0)

  /** Admission checks that do not look at nodes. */
  function Refusal(members: map<(string, string), Member>, teamId: string, p: Payload): Option<Reason> {
    if p.Team() != teamId then Some(TeamMismatch)
    else if p.Event? && p.e.syncEventId != ExpectedId(teamId, p.e) then Some(IdMismatch)
    else if (teamId, p.User()) !in members then Some(NotMember)
    else if members[(teamId, p.User())].status != Active then Some(MembershipRevoked)
    else None
  }

  // ---- the naive server ----------------------------------------------------

  /** Storing an admitted payload. */
  function Store(t: Tables, p: Payload, now: int): (Tables, Response) {
    match p
    case Daily(d) =>
      (t.(daily := t.daily[DailyKeyOf(d) := DayRow(d.usage, d.pricing, now)]), NOTHING.Accept(p.Id(), p.Reached()))
    case Event(e) =>
      if e.syncEventId in t.events then
        var prior := t.events[e.syncEventId].e.payloadHash;
        (if prior == e.payloadHash then t
         else t.(conflicts := t.conflicts + [Conflict(e.syncEventId, prior, e.payloadHash, now)]),
         NOTHING.Duplicate(p.Id(), p.Reached()))
      else
        (t.(events := t.events[e.syncEventId := RowOf(e, now)],
            rollup := Accumulate(t.rollup, KeyOf(e), UsageOf(e), e.pricing, now)),
         NOTHING.Accept(p.Id(), p.Reached()))
  }

  /** One payload in a transaction of its own, without any cache. */
  function One(s: Tables, teamId: string, p: Payload, now: int, cap: int): (Tables, Response) {
    var refusal := Refusal(s.members, teamId, p);
    var mine := NodesOf(s.nodes, teamId, p.User());
    if refusal.Some? then (s, NOTHING.Reject(p.Id(), refusal.value))
    else if p.Node() !in mine && |mine| >= cap then (s, NOTHING.Reject(p.Id(), DeviceLimit))
    else Store(s.(nodes := TouchNode(s.nodes, p.Node(), p.User(), teamId, now)), p, now)
  }

  /** The naive server on a list of payloads. */
  function OneByOne(s: Tables, teamId: string, ps: seq<Payload>, now: int, cap: int): (Tables, Response)
    decreases |ps|
  {
    if ps == [] then (s, NOTHING)
    else
      var (t, r) := OneByOne(s, teamId, ps[..|ps| - 1], now, cap);
      var (u, q) := One(t, teamId, ps[|ps| - 1], now, cap);
      (u, r.Then(q))
  }
}
