/** The daily rollup column by column: what each number of a row counts, told from the stored events alone. */
module TeamColumns {
  import opened Wrappers
  import opened JoinedKeys
  import opened UsageSums
  import opened TeamModel
  import opened TeamBatch
  import opened TeamRollup
  import opened TeamAdmission
  import opened TeamRuns

  /** The event belongs to the row: same team, user, node, UTC day, provider and model, and the same project hash,
      a missing one being empty. */
  predicate BelongsTo(e: SyncedEvent, k: RollupKey) {
    && e.teamId == k.teamId && e.userId == k.userId && e.nodeId == k.nodeId
    && k.day * 86400000 <= e.timestamp < (k.day + 1) * 86400000
    && e.provider == k.provider && e.model == k.model
    && (if e.projectHash.Some? then e.projectHash.value == k.projectHash else k.projectHash == "")
  }

  function Members(events: map<string, EventRow>, k: RollupKey): map<string, SyncedEvent> {
    map id | id in events && BelongsTo(events[id].e, k) :: events[id].e
  }

  function Field(es: map<string, SyncedEvent>, f: SyncedEvent -> int): map<string, int> { map id | id in es :: f(es[id]) }

  function Input(e: SyncedEvent): int { e.tokens.input }
  function Output(e: SyncedEvent): int { e.tokens.output }
  function CacheRead(e: SyncedEvent): int { e.tokens.cacheRead }
  function Cache5m(e: SyncedEvent): int { e.tokens.cache5m }
  function Cache1h(e: SyncedEvent): int { e.tokens.cache1h }
  function Reasoning(e: SyncedEvent): int { if e.tokens.reasoning.Some? then e.tokens.reasoning.value else 0 }
  function Cost(e: SyncedEvent): int { e.cost }

  /** Each column is the sum of its own field over the events, the count is their number. */
  ghost predicate Columns(u: Usage, es: map<string, SyncedEvent>) {
    && u.count == |es|
    && u.input == SumInts(Field(es, Input))
    && u.output == SumInts(Field(es, Output))
    && u.cacheRead == SumInts(Field(es, CacheRead))
    && u.cache5m == SumInts(Field(es, Cache5m))
    && u.cache1h == SumInts(Field(es, Cache1h))
    && u.reasoning == SumInts(Field(es, Reasoning))
    && u.cost == SumInts(Field(es, Cost))
  }

  lemma BelongsIff(e: SyncedEvent, k: RollupKey)
    ensures BelongsTo(e, k) <==> KeyOf(e) == k
  {
    DayIff(e.timestamp, k.day);
  }

  lemma DayIff(ts: int, day: int)
    ensures DayOf(ts) == day <==> day * 86400000 <= ts < (day + 1) * 86400000
  {}

  /** The table holds the usage of these events. */
  ghost predicate UsagesOf<K>(m: map<K, Usage>, es: map<K, SyncedEvent>) {
    m.Keys == es.Keys && forall id <- m :: m[id] == UsageOf(es[id])
  }

  lemma OneColumn(m: map<string, Usage>, es: map<string, SyncedEvent>, get: Usage -> int, f: SyncedEvent -> int)
    requires UsagesOf(m, es) && Additive(get) && forall e :: get(UsageOf(e)) == f(e)
    ensures get(Sum(m)) == SumInts(Field(es, f))
  {
    hide UsageOf, Sum;
    SumOfColumn(m, get);
    assert Column(m, get) == Field(es, f);
  }

  lemma CountColumn(m: map<string, Usage>, es: map<string, SyncedEvent>)
    requires UsagesOf(m, es)
    ensures Sum(m).count == |es|
  {
    CountIsSize(m);
    hide Sum;
    assert |m| == |m.Keys| == |es.Keys| == |es|;
  }

  lemma CallColumns(m: map<string, Usage>, es: map<string, SyncedEvent>)
    requires UsagesOf(m, es)
    ensures Sum(m).input == SumInts(Field(es, Input)) && Sum(m).output == SumInts(Field(es, Output))
    ensures Sum(m).cost == SumInts(Field(es, Cost)) && Sum(m).reasoning == SumInts(Field(es, Reasoning))
  {
    hide UsagesOf, Sum, SumInts, Field;
    OneColumn(m, es, (u: Usage) => u.input, Input);
    OneColumn(m, es, (u: Usage) => u.output, Output);
    OneColumn(m, es, (u: Usage) => u.cost, Cost);
    OneColumn(m, es, (u: Usage) => u.reasoning, Reasoning);
  }

  lemma CacheColumns(m: map<string, Usage>, es: map<string, SyncedEvent>)
    requires UsagesOf(m, es)
    ensures Sum(m).cacheRead == SumInts(Field(es, CacheRead))
    ensures Sum(m).cache5m == SumInts(Field(es, Cache5m)) && Sum(m).cache1h == SumInts(Field(es, Cache1h))
  {
    hide UsagesOf, Sum, SumInts, Field;
    OneColumn(m, es, (u: Usage) => u.cacheRead, CacheRead);
    OneColumn(m, es, (u: Usage) => u.cache5m, Cache5m);
    OneColumn(m, es, (u: Usage) => u.cache1h, Cache1h);
  }

  /** A sum over events has these columns. */
  lemma TableHasColumns(m: map<string, Usage>, es: map<string, SyncedEvent>)
    requires UsagesOf(m, es)
    ensures Columns(Sum(m), es)
  {
    hide UsagesOf, Sum, SumInts, Field;
    CountColumn(m, es);
    CallColumns(m, es);
    CacheColumns(m, es);
  }

  /** The grouped sum of a row has the columns of the events that belong to it. */
  lemma SumHasColumns(events: map<string, EventRow>, k: RollupKey)
    ensures Columns(Sum(EventsOf(events, k)), Members(events, k))
  {
    forall id | id in events ensures BelongsTo(events[id].e, k) <==> KeyOf(events[id].e) == k {
      BelongsIff(events[id].e, k);
    }
    hide BelongsTo, KeyOf, UsageOf, Columns;
    assert UsagesOf(EventsOf(events, k), Members(events, k));
    TableHasColumns(EventsOf(events, k), Members(events, k));
  }

  /** Columns determine a row. */
  lemma ColumnsTell(u: Usage, v: Usage, es: map<string, SyncedEvent>)
    requires Columns(u, es) && Columns(v, es)
    ensures u == v
  {}

  /** The rollup has a row for just the groups that have an event, with the right columns. */
  ghost predicate RowsRight(events: map<string, EventRow>, rollup: map<RollupKey, DayRow>) {
    forall k :: (k in rollup <==> Members(events, k) != map[]) && (k in rollup ==> Columns(rollup[k].usage, Members(events, k)))
  }

  /** Agreement of rollup and raw events, column by column. */
  lemma AgreesIff(events: map<string, EventRow>, rollup: map<RollupKey, DayRow>)
    ensures Agrees(events, rollup) <==> RowsRight(events, rollup)
  {
    hide Agrees, Columns, RowsRight, Members;
    if Agrees(events, rollup) {
      forall k ensures (k in rollup <==> Members(events, k) != map[]) && (k in rollup ==> Columns(rollup[k].usage, Members(events, k))) {
        AgreesRow(events, rollup, k);
      }
      RightRows(events, rollup);
    }
    if RowsRight(events, rollup) {
      RightAgrees(events, rollup);
    }
  }

  lemma RightRows(events: map<string, EventRow>, rollup: map<RollupKey, DayRow>)
    requires forall k :: (k in rollup <==> Members(events, k) != map[]) && (k in rollup ==> Columns(rollup[k].usage, Members(events, k)))
    ensures RowsRight(events, rollup)
  {}

  lemma RightAgrees(events: map<string, EventRow>, rollup: map<RollupKey, DayRow>)
    requires RowsRight(events, rollup)
    ensures Agrees(events, rollup)
  {
    forall id | id in events ensures CountedIn(rollup, events[id]) {
      BelongsIff(events[id].e, KeyOf(events[id].e));
      assert id in Members(events, KeyOf(events[id].e));
    }
    forall k <- rollup ensures rollup[k].usage.count >= 1 && rollup[k].usage == Sum(EventsOf(events, k)) {
      RightRow(events, rollup, k);
    }
  }

  lemma RightRow(events: map<string, EventRow>, rollup: map<RollupKey, DayRow>, k: RollupKey)
    requires RowsRight(events, rollup) && k in rollup
    ensures rollup[k].usage.count >= 1 && rollup[k].usage == Sum(EventsOf(events, k))
  {
    SumHasColumns(events, k);
    ColumnsTell(rollup[k].usage, Sum(EventsOf(events, k)), Members(events, k));
    hide SumInts, Field, Sum, EventsOf, Members;
    assert rollup[k].usage.count == |Members(events, k)| && Members(events, k) != map[];
  }

  lemma AgreesRow(events: map<string, EventRow>, rollup: map<RollupKey, DayRow>, k: RollupKey)
    requires Agrees(events, rollup)
    ensures (k in rollup <==> Members(events, k) != map[]) && (k in rollup ==> Columns(rollup[k].usage, Members(events, k)))
  {
    SumHasColumns(events, k);
    if Members(events, k) != map[] {
      var id :| id in Members(events, k);
      BelongsIff(events[id].e, k);
      assert CountedIn(rollup, events[id]);
    }
  }

  /** After every run of bar-free batches each column of each rollup row is the sum of that field over the stored
      events of its team, user, node, day, provider, model and project hash. */
  lemma RollupColumns(steps: seq<Step>, cap: int)
    requires BarFreeSteps(steps)
    ensures var t := Run(EMPTY, steps, cap); RowsRight(t.events, t.rollup)
  {
    RollupAlwaysAgrees(steps, cap);
    AgreesIff(Run(EMPTY, steps, cap).events, Run(EMPTY, steps, cap).rollup);
  }

  /** After one committed batch, exactly when no two of its new events have one bucket text for two rows. */
  lemma BatchColumnsIff(s: Tables, teamId: string, ps: seq<Payload>, now: int, cap: int)
    requires RowsRight(s.events, s.rollup)
    ensures var t := Batch(s, teamId, ps, now, cap);
            RowsRight(t.events, t.rollup) <==> NoCollisions(NewEvents(s.events, Passed(s, teamId, ps, cap)))
  {
    var t := Batch(s, teamId, ps, now, cap);
    AgreesIff(s.events, s.rollup);
    AgreesIff(t.events, t.rollup);
    RollupAgreesIff(s, teamId, ps, now, cap);
  }
}
