/** The dashboard totals, read from the two daily tables in place of raw events. */
module TeamOverview {
  import opened Wrappers
  import opened UsageSums
  import opened TeamModel
  import opened TeamRollup
  import opened TeamRuns
  import TeamColumns

  /** A row of `v_merged_daily`, the UNION ALL of both daily tables. */
  datatype MergedKey = FromDaily(d: DailyKey) | FromRollup(r: RollupKey)
  {
    function Team(): string { if FromDaily? then d.teamId else r.teamId }
    function User(): string { if FromDaily? then d.userId else r.userId }
    function Day(): int { if FromDaily? then d.day else r.day }
    function Model(): (string, string) { if FromDaily? then (d.provider, d.model) else (r.provider, r.model) }
  }

  predicate InWindow(k: MergedKey, teamId: string, since: int) { k.Team() == teamId && k.Day() >= since }

  function DailyWindow(s: Tables, teamId: string, since: int): map<MergedKey, Usage> {
    map k | k in (set d | d in s.daily :: FromDaily(d)) && InWindow(k, teamId, since) :: s.daily[k.d].usage
  }

  function RollupWindow(s: Tables, teamId: string, since: int): map<MergedKey, Usage> {
    map k | k in (set r | r in s.rollup :: FromRollup(r)) && InWindow(k, teamId, since) :: s.rollup[k.r].usage
  }

  /** `FROM v_merged_daily WHERE team_id = … AND date >= …`. */
  function Window(s: Tables, teamId: string, since: int): map<MergedKey, Usage> {
    DailyWindow(s, teamId, since) + RollupWindow(s, teamId, since)
  }

  ghost function Total(s: Tables, teamId: string, since: int): Usage { Sum(Window(s, teamId, since)) }

  /** Raw events of the team whose UTC day lies in the window. */
  function EventsByDay(events: map<string, EventRow>, teamId: string, since: int): map<string, Usage> {
    map id | id in events && events[id].e.teamId == teamId && DayOf(events[id].e.timestamp) >= since :: UsageOf(events[id].e)
  }

  /** Raw events of the team since an exact moment. */
  function EventsByTime(events: map<string, EventRow>, teamId: string, sinceMs: int): map<string, Usage> {
    map id | id in events && events[id].e.teamId == teamId && events[id].e.timestamp >= sinceMs :: UsageOf(events[id].e)
  }

  /** The merged row each event is counted in. */
  function RowTags(events: map<string, EventRow>): map<string, MergedKey> {
    map id | id in events :: FromRollup(KeyOf(events[id].e))
  }

  lemma RowTagGroup(events: map<string, EventRow>, teamId: string, since: int, k: MergedKey)
    requires k.FromRollup? && InWindow(k, teamId, since)
    ensures Group(EventsByDay(events, teamId, since), RowTags(events), k) == EventsOf(events, k.r)
  {}

  lemma RowTagInWindow(s: Tables, teamId: string, since: int, id: string)
    requires id in EventsByDay(s.events, teamId, since) && CountedIn(s.rollup, s.events[id])
    ensures RowTags(s.events)[id] in RollupWindow(s, teamId, since)
  {
    var k := KeyOf(s.events[id].e);
    assert FromRollup(k) in (set r | r in s.rollup :: FromRollup(r));
  }

  /** The rollup half of the window re-sums the raw events of the same days. */
  lemma RollupWindowIsRaw(s: Tables, teamId: string, since: int)
    requires Agrees(s.events, s.rollup)
    ensures Sum(RollupWindow(s, teamId, since)) == Sum(EventsByDay(s.events, teamId, since))
  {
    var raw := EventsByDay(s.events, teamId, since);
    var totals := RollupWindow(s, teamId, since);
    var tags := RowTags(s.events);
    forall id <- raw ensures id in tags && tags[id] in totals {
      assert CountedIn(s.rollup, s.events[id]);
      RowTagInWindow(s, teamId, since, id);
    }
    forall k <- totals ensures totals[k] == Sum(Group(raw, tags, k)) {
      RowTagGroup(s.events, teamId, since, k);
    }
    SumOfGroups(raw, tags, totals);
  }

  /** The dashboard total is the raw events of the window's days plus the pre-aggregated daily rows. */
  lemma TotalIsRaw(s: Tables, teamId: string, since: int)
    requires Agrees(s.events, s.rollup)
    ensures Total(s, teamId, since) == Sum(DailyWindow(s, teamId, since)).Plus(Sum(EventsByDay(s.events, teamId, since)))
  {
    RollupWindowIsRaw(s, teamId, since);
    assert Splits(Window(s, teamId, since), DailyWindow(s, teamId, since), RollupWindow(s, teamId, since));
    SumSplits(Window(s, teamId, since), DailyWindow(s, teamId, since), RollupWindow(s, teamId, since));
  }

  lemma CutoffInDay(events: map<string, EventRow>, teamId: string, sinceMs: int)
    requires forall id <- events :: events[id].e.cost >= 0
    ensures Sum(EventsByTime(events, teamId, sinceMs)).cost <= Sum(EventsByDay(events, teamId, DayOf(sinceMs))).cost
    ensures forall id <- EventsByDay(events, teamId, DayOf(sinceMs)) :: events[id].e.timestamp > sinceMs - DAY_MS
  {
    var exact, days := EventsByTime(events, teamId, sinceMs), EventsByDay(events, teamId, DayOf(sinceMs));
    CostOfPart(exact, days);
  }

  lemma DailyCosts(s: Tables, teamId: string, since: int)
    requires forall k <- s.daily :: s.daily[k].usage.cost >= 0
    ensures Sum(DailyWindow(s, teamId, since)).cost >= 0
  {
    CostNonNegative(DailyWindow(s, teamId, since));
  }

  /** The window never under-counts: with non-negative costs its total is at least what was spent since the
      exact cutoff, and it reaches back less than a day further. */
  lemma TotalCoversCutoff(s: Tables, teamId: string, sinceMs: int)
    requires Agrees(s.events, s.rollup)
    requires forall id <- s.events :: s.events[id].e.cost >= 0
    requires forall k <- s.daily :: s.daily[k].usage.cost >= 0
    ensures Sum(EventsByTime(s.events, teamId, sinceMs)).cost <= Total(s, teamId, DayOf(sinceMs)).cost
    ensures forall id <- EventsByDay(s.events, teamId, DayOf(sinceMs)) :: s.events[id].e.timestamp > sinceMs - DAY_MS
  {
    TotalIsRaw(s, teamId, DayOf(sinceMs));
    CutoffInDay(s.events, teamId, sinceMs);
    DailyCosts(s, teamId, DayOf(sinceMs));
  }

  // ---- breakdowns ----------------------------------------------------------

  function Users(w: map<MergedKey, Usage>): map<MergedKey, string> { map k | k in w :: k.User() }

  function Models(w: map<MergedKey, Usage>): map<MergedKey, (string, string)> { map k | k in w :: k.Model() }

  function MembersOf(members: map<(string, string), Member>, teamId: string): set<string> {
    set k | k in members && k.0 == teamId :: k.1
  }

  /** One row per member of the team, by LEFT JOIN on the window. */
  ghost function PerMember(s: Tables, teamId: string, since: int): map<string, Usage> {
    var w := Window(s, teamId, since);
    GroupBy(w, Users(w), MembersOf(s.members, teamId))
  }

  /** `GROUP BY provider, model`. */
  ghost function PerModel(s: Tables, teamId: string, since: int): map<(string, string), Usage> {
    var w := Window(s, teamId, since);
    GroupBy(w, Models(w), Models(w).Values)
  }

  lemma ModelsAddUp(s: Tables, teamId: string, since: int)
    ensures Sum(PerModel(s, teamId, since)) == Total(s, teamId, since)
  {
    var w := Window(s, teamId, since);
    GroupByAddsUp(w, Models(w), Models(w).Values);
  }

  lemma RowOfMember(s: Tables, teamId: string, since: int, k: MergedKey)
    requires Enrolled(s) && k in Window(s, teamId, since)
    ensures k.User() in MembersOf(s.members, teamId)
  {
    assert (teamId, k.User()) in s.members;
    assert (teamId, k.User()).1 in MembersOf(s.members, teamId);
  }

  /** No usage is lost in the member list, because stored rows only belong to members. */
  lemma MembersAddUp(s: Tables, teamId: string, since: int)
    requires Enrolled(s)
    ensures Sum(PerMember(s, teamId, since)) == Total(s, teamId, since)
  {
    var w := Window(s, teamId, since);
    forall k <- w ensures Users(w)[k] in MembersOf(s.members, teamId) {
      RowOfMember(s, teamId, since, k);
    }
    GroupByAddsUp(w, Users(w), MembersOf(s.members, teamId));
  }

  // ---- each row of the lists -----------------------------------------------

  /** The rows of a window that are picked. */
  function Slice(w: map<MergedKey, Usage>, picks: MergedKey -> bool): map<MergedKey, Usage> { map k | k in w && picks(k) :: w[k] }

  /** The raw events of the window's days that are picked by their rollup row. */
  function EventsIn(events: map<string, EventRow>, teamId: string, since: int, picks: MergedKey -> bool): map<string, Usage> {
    map id | id in EventsByDay(events, teamId, since) && picks(FromRollup(KeyOf(events[id].e))) :: EventsByDay(events, teamId, since)[id]
  }

  lemma SliceGroup(events: map<string, EventRow>, teamId: string, since: int, picks: MergedKey -> bool, k: MergedKey)
    requires k.FromRollup? && InWindow(k, teamId, since) && picks(k)
    ensures Group(EventsIn(events, teamId, since, picks), RowTags(events), k) == EventsOf(events, k.r)
  {
    RowTagGroup(events, teamId, since, k);
  }

  lemma SlicesSplit(w: map<MergedKey, Usage>, d: map<MergedKey, Usage>, r: map<MergedKey, Usage>, picks: MergedKey -> bool)
    requires Splits(w, d, r)
    ensures Splits(Slice(w, picks), Slice(d, picks), Slice(r, picks))
  {}

  lemma WindowSplits(s: Tables, teamId: string, since: int)
    ensures Splits(Window(s, teamId, since), DailyWindow(s, teamId, since), RollupWindow(s, teamId, since))
  {}

  lemma SliceIsRaw(s: Tables, teamId: string, since: int, picks: MergedKey -> bool)
    requires Agrees(s.events, s.rollup)
    ensures Sum(Slice(Window(s, teamId, since), picks))
            == Sum(Slice(DailyWindow(s, teamId, since), picks)).Plus(Sum(EventsIn(s.events, teamId, since, picks)))
  {
    hide Sum, EventsIn, Window, DailyWindow, RollupWindow, Slice, Splits, Agrees;
    var w, d, r := Window(s, teamId, since), DailyWindow(s, teamId, since), RollupWindow(s, teamId, since);
    RollupSliceIsRaw(s, teamId, since, picks);
    WindowSplits(s, teamId, since);
    SlicesSplit(w, d, r, picks);
    SumSplits(Slice(w, picks), Slice(d, picks), Slice(r, picks));
  }

  lemma RollupSliceIsRaw(s: Tables, teamId: string, since: int, picks: MergedKey -> bool)
    requires Agrees(s.events, s.rollup)
    ensures Sum(Slice(RollupWindow(s, teamId, since), picks)) == Sum(EventsIn(s.events, teamId, since, picks))
  {
    var raw := EventsIn(s.events, teamId, since, picks);
    var totals := Slice(RollupWindow(s, teamId, since), picks);
    var tags := RowTags(s.events);
    forall id <- raw ensures id in tags && tags[id] in totals {
      assert CountedIn(s.rollup, s.events[id]);
      RowTagInWindow(s, teamId, since, id);
    }
    forall k <- totals ensures totals[k] == Sum(Group(raw, tags, k)) {
      SliceGroup(s.events, teamId, since, picks, k);
    }
    SumOfGroups(raw, tags, totals);
  }

  /** The team's stored events of the window's days that somebody sent. */
  function SentBy(events: map<string, EventRow>, teamId: string, since: int, userId: string): map<string, SyncedEvent> {
    map id | id in events && events[id].e.teamId == teamId && events[id].e.timestamp >= since * 86400000
             && events[id].e.userId == userId :: events[id].e
  }

  /** Those of one provider and model. */
  function SpentOn(events: map<string, EventRow>, teamId: string, since: int, provider: string, model: string): map<string, SyncedEvent> {
    map id | id in events && events[id].e.teamId == teamId && events[id].e.timestamp >= since * 86400000
             && events[id].e.provider == provider && events[id].e.model == model :: events[id].e
  }

  function DailyBy(s: Tables, teamId: string, since: int, userId: string): map<DailyKey, Usage> {
    map k | k in s.daily && k.teamId == teamId && k.day >= since && k.userId == userId :: s.daily[k].usage
  }

  function DailyOn(s: Tables, teamId: string, since: int, provider: string, model: string): map<DailyKey, Usage> {
    map k | k in s.daily && k.teamId == teamId && k.day >= since && k.provider == provider && k.model == model :: s.daily[k].usage
  }

  /** A sum of daily rows is the same with their keys marked as daily. */
  lemma {:induction false} SameSum(w: map<MergedKey, Usage>, m: map<DailyKey, Usage>)
    requires forall k <- w :: k.FromDaily? && k.d in m && w[k] == m[k.d]
    requires forall d <- m :: FromDaily(d) in w
    ensures Sum(w) == Sum(m)
    decreases |m|
  {
    if m == map[] {
      assert w == map[];
    } else {
      var d :| d in m;
      SameSum(Drop(w, FromDaily(d)), Drop(m, d));
      SumDrop(w, FromDaily(d));
      SumDrop(m, d);
    }
  }

  lemma DailySlice(s: Tables, teamId: string, since: int, picks: MergedKey -> bool, m: map<DailyKey, Usage>)
    requires forall d <- s.daily :: d in m <==> d.teamId == teamId && d.day >= since && picks(FromDaily(d))
    requires forall d <- m :: d in s.daily && m[d] == s.daily[d].usage
    ensures Sum(Slice(DailyWindow(s, teamId, since), picks)) == Sum(m)
  {
    var w := Slice(DailyWindow(s, teamId, since), picks);
    forall d <- m ensures FromDaily(d) in w {
      assert FromDaily(d) in (set x | x in s.daily :: FromDaily(x));
    }
    hide Sum;
    SameSum(w, m);
  }

  lemma EventsOfMember(events: map<string, EventRow>, teamId: string, since: int, userId: string, picks: MergedKey -> bool)
    requires forall k :: picks(k) == (k.User() == userId)
    ensures TeamColumns.UsagesOf(EventsIn(events, teamId, since, picks), SentBy(events, teamId, since, userId))
  {
    hide UsageOf;
  }

  lemma EventsOfModel(events: map<string, EventRow>, teamId: string, since: int, provider: string, model: string, picks: MergedKey -> bool)
    requires forall k :: picks(k) == (k.Model() == (provider, model))
    ensures TeamColumns.UsagesOf(EventsIn(events, teamId, since, picks), SpentOn(events, teamId, since, provider, model))
  {
    hide UsageOf;
  }

  lemma MemberSlice(w: map<MergedKey, Usage>, userId: string, picks: MergedKey -> bool)
    requires forall k :: picks(k) == (k.User() == userId)
    ensures Group(w, Users(w), userId) == Slice(w, picks)
  {}

  lemma ModelSlice(w: map<MergedKey, Usage>, provider: string, model: string, picks: MergedKey -> bool)
    requires forall k :: picks(k) == (k.Model() == (provider, model))
    ensures Group(w, Models(w), (provider, model)) == Slice(w, picks)
  {}

  /** The row of a member is the sum of the member's own daily rows and, column by column, of the member's own stored
      events of the window's days. */
  lemma MemberIsRaw(s: Tables, teamId: string, since: int, userId: string) returns (raw: Usage)
    requires Agrees(s.events, s.rollup) && userId in MembersOf(s.members, teamId)
    ensures TeamColumns.Columns(raw, SentBy(s.events, teamId, since, userId))
    ensures PerMember(s, teamId, since)[userId] == Sum(DailyBy(s, teamId, since, userId)).Plus(raw)
  {
    var w, picks := Window(s, teamId, since), (k: MergedKey) => k.User() == userId;
    DailySlice(s, teamId, since, picks, DailyBy(s, teamId, since, userId));
    hide Sum, Window, DailyWindow, EventsIn, SentBy, Slice, Group, Agrees, Users, DailyBy, TeamColumns.Columns, TeamColumns.UsagesOf;
    var es := EventsIn(s.events, teamId, since, picks);
    raw := Sum(es);
    EventsOfMember(s.events, teamId, since, userId, picks);
    TeamColumns.TableHasColumns(es, SentBy(s.events, teamId, since, userId));
    MemberSlice(w, userId, picks);
    SliceIsRaw(s, teamId, since, picks);
  }

  /** And so is the row of a provider and model. */
  lemma ModelIsRaw(s: Tables, teamId: string, since: int, provider: string, model: string) returns (raw: Usage)
    requires Agrees(s.events, s.rollup) && (provider, model) in PerModel(s, teamId, since)
    ensures TeamColumns.Columns(raw, SpentOn(s.events, teamId, since, provider, model))
    ensures PerModel(s, teamId, since)[(provider, model)] == Sum(DailyOn(s, teamId, since, provider, model)).Plus(raw)
  {
    var w, picks := Window(s, teamId, since), (k: MergedKey) => k.Model() == (provider, model);
    DailySlice(s, teamId, since, picks, DailyOn(s, teamId, since, provider, model));
    hide Sum, Window, DailyWindow, EventsIn, SpentOn, Slice, Group, Agrees, Models, DailyOn, TeamColumns.Columns, TeamColumns.UsagesOf;
    var es := EventsIn(s.events, teamId, since, picks);
    raw := Sum(es);
    EventsOfModel(s.events, teamId, since, provider, model, picks);
    TeamColumns.TableHasColumns(es, SpentOn(s.events, teamId, since, provider, model));
    ModelSlice(w, provider, model, picks);
    SliceIsRaw(s, teamId, since, picks);
  }

  /** In every run of the server the member list, the model list and the total agree; with bar-free names they
      agree with the raw events as well. */
  lemma DashboardAgrees(steps: seq<Step>, cap: int, teamId: string, since: int)
    ensures var s := Run(EMPTY, steps, cap);
            && Sum(PerMember(s, teamId, since)) == Total(s, teamId, since)
            && Sum(PerModel(s, teamId, since)) == Total(s, teamId, since)
            && (BarFreeSteps(steps) ==>
                  Total(s, teamId, since) == Sum(DailyWindow(s, teamId, since)).Plus(Sum(EventsByDay(s.events, teamId, since))))
  {
    var s := Run(EMPTY, steps, cap);
    AlwaysEnrolled(steps, cap);
    MembersAddUp(s, teamId, since);
    ModelsAddUp(s, teamId, since);
    if BarFreeSteps(steps) {
      RollupAlwaysAgrees(steps, cap);
      TotalIsRaw(s, teamId, since);
    }
  }
}
