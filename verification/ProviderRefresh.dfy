/** The desktop daemon's refresh of provider usage: retry, stale data on error, budget overlay and budget notices. */
module ProviderRefresh {
  import opened Wrappers

  /** `fetchedAt` is absent for the zero time, `error` is empty on success. */
  datatype Snapshot = Snapshot(
    providerId: string, spend: real, budget: real, percent: real, unit: string, fetchedAt: Option<int>,
    cacheHit: bool, tokens: int, tokensLimit: int, error: string, stale: bool, updatedAt: int)

  const NONE := Snapshot("", 0.0, 0.0, 0.0, "", None, false, 0, 0, "", false, 0)

  datatype FetchError = NotConfigured | Cancelled | Upstream(message: string)

  function MessageOf(e: FetchError): string {
    match e
    case NotConfigured => "provider not configured"
    case Cancelled => "context canceled"
    case Upstream(m) => m
  }

  // ---- retry ---------------------------------------------------------------

  /** Attempts before the `i`-th all failed in a way that is worth another try, and nobody cancelled the waits. */
  predicate Reached(answer: nat -> Result<Snapshot, FetchError>, cancelled: nat -> bool, i: nat) {
    && (forall j: nat | j < i :: answer(j).Failure? && answer(j).error != NotConfigured)
    && (forall j: nat | 0 < j <= i :: !cancelled(j))
  }

  /** `answer(i)` is what the `i`-th fetch would bring, `cancelled(i)` whether the wait before it is cut off. */
  method FetchWithRetry(attempts: int, answer: nat -> Result<Snapshot, FetchError>, cancelled: nat -> bool)
    returns (r: Result<Snapshot, FetchError>)
    ensures r.Success? <==> exists i: nat :: i < Max(attempts, 1) && Reached(answer, cancelled, i) && answer(i).Success?
    ensures r.Success? ==> exists i: nat :: i < Max(attempts, 1) && Reached(answer, cancelled, i) && answer(i) == r
    ensures r.Failure? ==>
      || (exists i: nat :: i < Max(attempts, 1) && Reached(answer, cancelled, i) && answer(i) == r
                           && (r.error == NotConfigured || i == Max(attempts, 1) - 1))
      || (exists i: nat :: 0 < i < Max(attempts, 1) && Reached(answer, cancelled, i - 1) && answer(i - 1).Failure?
                           && answer(i - 1).error != NotConfigured && cancelled(i) && r.error == Cancelled)
  {
    var n := if attempts < 1 then 1 else attempts;
    var lastErr := Cancelled;
    var i := 0;
    while i < n
      invariant 0 <= i <= n
      invariant i > 0 ==> Reached(answer, cancelled, i - 1) && answer(i - 1).Failure? && answer(i - 1).error != NotConfigured
                          && lastErr == answer(i - 1).error
    {
      if i > 0 && cancelled(i) {
        NoneFrom(answer, cancelled, i);
        return Failure(Cancelled);
      }
      assert Reached(answer, cancelled, i);
      var got := answer(i);
      if got.Success? {
        return got;
      }
      if got.error == NotConfigured {
        NoneAfter(answer, cancelled, i);
        return got;
      }
      lastErr := got.error;
      i := i + 1;
    }
    NoneBefore(answer, cancelled, n);
    assert answer(n - 1) == Failure(lastErr) && Reached(answer, cancelled, n - 1);
    return Failure(lastErr);
  }

  lemma NoneBefore(answer: nat -> Result<Snapshot, FetchError>, cancelled: nat -> bool, n: nat)
    requires n > 0 && Reached(answer, cancelled, n - 1) && answer(n - 1).Failure?
    ensures forall i: nat | i < n :: answer(i).Failure?
  {}

  lemma NoneAfter(answer: nat -> Result<Snapshot, FetchError>, cancelled: nat -> bool, k: nat)
    requires Reached(answer, cancelled, k) && answer(k) == Failure(NotConfigured)
    ensures forall i: nat | Reached(answer, cancelled, i) :: answer(i).Failure?
  {}

  lemma NoneFrom(answer: nat -> Result<Snapshot, FetchError>, cancelled: nat -> bool, k: nat)
    requires k > 0 && Reached(answer, cancelled, k - 1) && answer(k - 1).Failure? && cancelled(k)
    ensures forall i: nat | Reached(answer, cancelled, i) :: answer(i).Failure?
  {}

  // ---- refreshes, as functions on the daemon's state -----------------------

  datatype State = State(snapshots: map<string, Snapshot>, notified: set<string>, emitted: seq<Snapshot>)

  const START := State(map[], {}, [])

  /** One refresh of one provider: its fetch result, the configured limit, and the clock at the store write. */
  datatype Refresh = Refresh(
    id: string, unit: string, configured: bool, fetched: Result<Snapshot, FetchError>, limit: Option<real>, now: int)

  function Prior(snapshots: map<string, Snapshot>, id: string): Snapshot { if id in snapshots then snapshots[id] else NONE }

  function ErrorSnapshot(snapshots: map<string, Snapshot>, r: Refresh, e: FetchError): Snapshot {
    var prior := Prior(snapshots, r.id);
    prior.(providerId := r.id, unit := r.unit, error := MessageOf(e), stale := prior.fetchedAt.Some?, updatedAt := 0)
  }

  function ApplyBudget(s: Snapshot, limit: Option<real>): Snapshot {
    if limit.None? || limit.value <= 0.0 then s
    else s.(budget := limit.value, percent := 100.0 * s.spend / limit.value)
  }

  /** What a successful refresh stores. */
  function Good(r: Refresh): Snapshot
    requires r.fetched.Success?
  {
    ApplyBudget(r.fetched.value.(providerId := r.id, unit := r.unit), r.limit)
  }

  predicate Above(s: Snapshot, threshold: int) { s.percent >= threshold as real }

  predicate Watched(s: Snapshot, threshold: int) { s.budget > 0.0 && threshold > 0 }

  function Notice(st: State, s: Snapshot, threshold: int): State {
    if !Watched(s, threshold) then st
    else if Above(s, threshold) && s.providerId !in st.notified then
      st.(notified := st.notified + {s.providerId}, emitted := st.emitted + [s])
    else if !Above(s, threshold) then st.(notified := st.notified - {s.providerId})
    else st
  }

  function Put(st: State, s: Snapshot, now: int, threshold: int): State {
    var stored := s.(updatedAt := now);
    Notice(st.(snapshots := st.snapshots[s.providerId := stored]), stored, threshold)
  }

  function After(st: State, r: Refresh, threshold: int): State {
    if !r.configured then st
    else match r.fetched
      case Failure(e) => Put(st, ErrorSnapshot(st.snapshots, r, e), r.now, threshold)
      case Success(_) => Put(st, Good(r), r.now, threshold)
  }

  function Run(rs: seq<Refresh>, threshold: int): State
    decreases |rs|
  {
    if rs == [] then START else After(Run(rs[..|rs| - 1], threshold), rs[|rs| - 1], threshold)
  }

  // ---- one refresh, by the figures -----------------------------------------

  /** The snapshot has the usage that a success fetched, field by field; a positive limit takes the place of the
      fetched budget, and the percentage is that of the spend in the limit. */
  predicate Shows(s: Snapshot, r: Refresh)
    requires r.fetched.Success?
  {
    var f := r.fetched.value;
    && s.spend == f.spend && s.tokens == f.tokens && s.tokensLimit == f.tokensLimit
    && s.fetchedAt == f.fetchedAt && s.cacheHit == f.cacheHit
    && (if r.limit.Some? && r.limit.value > 0.0
        then s.budget == r.limit.value && s.percent * r.limit.value == 100.0 * f.spend
        else s.budget == f.budget && s.percent == f.percent)
  }

  /** The snapshot has the usage of an earlier one. */
  predicate Keeps(s: Snapshot, prior: Snapshot) {
    && s.spend == prior.spend && s.budget == prior.budget && s.percent == prior.percent && s.fetchedAt == prior.fetchedAt
    && s.cacheHit == prior.cacheHit && s.tokens == prior.tokens && s.tokensLimit == prior.tokensLimit
  }

  /** No usage at all. */
  predicate Blank(s: Snapshot) {
    && s.spend == 0.0 && s.budget == 0.0 && s.percent == 0.0 && s.fetchedAt == None
    && !s.cacheHit && s.tokens == 0 && s.tokensLimit == 0
  }

  function ErrorText(e: FetchError): string {
    if e.NotConfigured? then "provider not configured" else if e.Cancelled? then "context canceled" else e.message
  }

  /** What is stored for a provider after a configured refresh of it. A failure keeps the usage that was stored,
      if any, and is stale if that was ever fetched. */
  predicate StoredIs(before: map<string, Snapshot>, r: Refresh, s: Snapshot) {
    && s.providerId == r.id && s.unit == r.unit && s.updatedAt == r.now
    && (r.fetched.Success? ==> Shows(s, r) && s.error == r.fetched.value.error && s.stale == r.fetched.value.stale)
    && (r.fetched.Failure? ==>
          && (if r.id in before then Keeps(s, before[r.id]) else Blank(s))
          && s.error == ErrorText(r.fetched.error) && (s.stale <==> s.fetchedAt.Some?))
  }

  /** The refresh is a success with a budget, its limit or the fetched one. */
  predicate HasBudget(r: Refresh) {
    r.configured && r.fetched.Success? && ((r.limit.Some? && r.limit.value > 0.0) || r.fetched.value.budget > 0.0)
  }

  /** The spend is at least the threshold's share of the limit; without a limit the fetched percentage decides. */
  predicate Over(r: Refresh, threshold: int)
    requires r.fetched.Success?
  {
    var f := r.fetched.value;
    if r.limit.Some? && r.limit.value > 0.0 then 100.0 * f.spend >= threshold as real * r.limit.value
    else f.percent >= threshold as real
  }

  /** One refresh: an unconfigured provider changes nothing; otherwise its own snapshot alone is replaced, and a
      notice about it goes out exactly if it is a success with a budget whose spend is over the threshold while
      the provider is not marked. Such a success marks the provider or takes the mark away. */
  ghost predicate Records(before: State, r: Refresh, threshold: int, after: State) {
    if !r.configured then after == before
    else
      && after.snapshots.Keys == before.snapshots.Keys + {r.id}
      && (forall id <- before.snapshots | id != r.id :: after.snapshots[id] == before.snapshots[id])
      && StoredIs(before.snapshots, r, after.snapshots[r.id])
      && (r.fetched.Success? ==>
            var sends := HasBudget(r) && threshold > 0 && Over(r, threshold) && r.id !in before.notified;
            && after.emitted == (if sends then before.emitted + [after.snapshots[r.id]] else before.emitted)
            && after.notified == if !HasBudget(r) || threshold <= 0 then before.notified
                                 else if Over(r, threshold) then before.notified + {r.id} else before.notified - {r.id})
  }

  lemma Quotient(a: real, b: real)
    requires b > 0.0
    ensures (a / b) * b == a
  {}

  lemma Scaled(p: real, t: real, b: real)
    requires b > 0.0
    ensures p >= t <==> p * b >= t * b
  {
    if p >= t {
      assert (p - t) * b >= 0.0;
    } else {
      assert (t - p) * b > 0.0;
    }
  }

  lemma GoodShows(r: Refresh, threshold: int)
    requires r.fetched.Success?
    ensures Shows(Good(r), r) && Good(r).providerId == r.id && Good(r).unit == r.unit
    ensures Good(r).error == r.fetched.value.error && Good(r).stale == r.fetched.value.stale
    ensures r.configured ==> (HasBudget(r) <==> Good(r).budget > 0.0)
    ensures Above(Good(r), threshold) <==> Over(r, threshold)
  {
    if r.limit.Some? && r.limit.value > 0.0 {
      Quotient(100.0 * r.fetched.value.spend, r.limit.value);
      Scaled(100.0 * r.fetched.value.spend / r.limit.value, threshold as real, r.limit.value);
    }
  }

  lemma StepRecords(st: State, r: Refresh, threshold: int)
    ensures Records(st, r, threshold, After(st, r, threshold))
  {
    if r.configured {
      if r.fetched.Success? {
        GoodShows(r, threshold);
        ShowsStamped(Good(r), r);
        hide Good, Shows, Over, HasBudget;
        assert Above(Good(r).(updatedAt := r.now), threshold) <==> Above(Good(r), threshold);
      } else {
        hide Above, Watched, Shows;
      }
    }
  }

  lemma Unconfigured(st: State, r: Refresh, threshold: int)
    ensures !r.configured ==> After(st, r, threshold) == st
  {}

  lemma ShowsStamped(s: Snapshot, r: Refresh)
    requires r.fetched.Success? && Shows(s, r)
    ensures Shows(s.(updatedAt := r.now), r)
  {}

  // ---- the objects ---------------------------------------------------------

  class BudgetNotifier {
    const threshold: int
    var notified: set<string>
    var emitted: seq<Snapshot>

    constructor (threshold: int)
      ensures this.threshold == threshold && notified == {} && emitted == []
    {
      this.threshold, notified, emitted := threshold, {}, [];
    }

    method OnSnapshot(snap: Snapshot)
      modifies this
      ensures forall m :: State(m, notified, emitted) == Notice(State(m, old(notified), old(emitted)), snap, threshold)
    {
      if snap.budget <= 0.0 || threshold <= 0 {
        return;
      }
      var above := snap.percent >= threshold as real;
      var already := snap.providerId in notified;
      if above && !already {
        notified := notified + {snap.providerId};
        emitted := emitted + [snap];
      } else if !above && already {
        notified := notified - {snap.providerId};
      }
    }
  }

  class Store {
    var snapshots: map<string, Snapshot>
    const listener: BudgetNotifier

    constructor (listener: BudgetNotifier)
      ensures this.listener == listener && snapshots == map[]
    {
      this.listener, snapshots := listener, map[];
    }

    function Contents(): State
      reads this, listener
    {
      State(snapshots, listener.notified, listener.emitted)
    }

    method Set(snap: Snapshot, now: int)
      modifies this, listener
      ensures Contents() == Put(old(Contents()), snap, now, listener.threshold)
    {
      var stored := snap.(updatedAt := now);
      snapshots := snapshots[snap.providerId := stored];
      listener.OnSnapshot(stored);
    }

    method Get(id: string) returns (s: Snapshot, ok: bool)
      ensures s == Prior(snapshots, id) && ok == (id in snapshots)
    {
      ok := id in snapshots;
      s := if ok then snapshots[id] else NONE;
    }
  }

  class Manager {
    const store: Store
    var attempts: int

    constructor (store: Store)
      ensures this.store == store && attempts == 3
    {
      this.store, attempts := store, 3;
    }

    method BuildErrorSnapshot(r: Refresh, e: FetchError) returns (s: Snapshot)
      ensures s == ErrorSnapshot(store.snapshots, r, e)
    {
      var prior, _ := store.Get(r.id);
      s := Snapshot(r.id, prior.spend, prior.budget, prior.percent, r.unit, prior.fetchedAt, prior.cacheHit,
                    prior.tokens, prior.tokensLimit, MessageOf(e), prior.fetchedAt.Some?, 0);
    }

    /** Stores the outcome of a fetch. */
    method Record(r: Refresh)
      requires r.configured
      modifies store, store.listener
      ensures store.Contents() == After(old(store.Contents()), r, store.listener.threshold)
    {
      match r.fetched {
        case Failure(e) =>
          var errSnap := BuildErrorSnapshot(r, e);
          store.Set(errSnap, r.now);
        case Success(fetched) =>
          var snap := fetched.(providerId := r.id, unit := r.unit);
          if r.limit.Some? && r.limit.value > 0.0 {
            snap := snap.(budget := r.limit.value, percent := 100.0 * snap.spend / r.limit.value);
          }
          store.Set(snap, r.now);
      }
    }

    /** One refresh. `r` is the outcome it is recorded as. */
    method RefreshOne(id: string, unit: string, configured: bool, answer: nat -> Result<Snapshot, FetchError>,
                      cancelled: nat -> bool, limit: Option<real>, now: int)
      returns (failed: Option<FetchError>, r: Refresh)
      modifies store, store.listener
      ensures r == Refresh(id, unit, configured, r.fetched, limit, now)
      ensures configured && r.fetched.Success? ==>
                exists i: nat :: i < Max(attempts, 1) && Reached(answer, cancelled, i) && answer(i) == r.fetched
      ensures configured && r.fetched.Failure? ==>
                forall i: nat :: i < Max(attempts, 1) && Reached(answer, cancelled, i) ==> answer(i).Failure?
      ensures store.Contents() == After(old(store.Contents()), r, store.listener.threshold)
      ensures Records(old(store.Contents()), r, store.listener.threshold, store.Contents())
      ensures failed == if !configured then Some(NotConfigured)
                        else if r.fetched.Failure? then Some(r.fetched.error) else None
    {
      hide Records, After;
      r := Refresh(id, unit, configured, Failure(NotConfigured), limit, now);
      StepRecords(store.Contents(), r, store.listener.threshold);
      Unconfigured(store.Contents(), r, store.listener.threshold);
      if !configured {
        return Some(NotConfigured), r;
      }
      var fetched := FetchWithRetry(attempts, answer, cancelled);
      r := r.(fetched := fetched);
      StepRecords(store.Contents(), r, store.listener.threshold);
      Record(r);
      failed := if fetched.Failure? then Some(fetched.error) else None;
    }
  }

  // ---- failed refreshes are invisible to the notices -----------------------

  /** A provider is marked notified exactly while its stored snapshot is above the threshold. */
  ghost predicate InSync(st: State, threshold: int) {
    forall id <- st.snapshots ::
      && st.snapshots[id].providerId == id
      && (Watched(st.snapshots[id], threshold) ==> (id in st.notified <==> Above(st.snapshots[id], threshold)))
  }

  lemma StaysInSync(st: State, r: Refresh, threshold: int)
    requires InSync(st, threshold)
    ensures InSync(After(st, r, threshold), threshold)
  {}

  lemma {:induction false} RunInSync(rs: seq<Refresh>, threshold: int)
    ensures InSync(Run(rs, threshold), threshold)
    decreases |rs|
  {
    if rs == [] {
    } else {
      RunInSync(rs[..|rs| - 1], threshold);
      StaysInSync(Run(rs[..|rs| - 1], threshold), rs[|rs| - 1], threshold);
    }
  }

  /** What a snapshot says about usage, without the marks of an error. */
  function Usage(s: Snapshot): (real, real, real, Option<int>, bool, int, int) {
    (s.spend, s.budget, s.percent, s.fetchedAt, s.cacheHit, s.tokens, s.tokensLimit)
  }

  /** The same usage for every provider, the same marks, and the same notices sent. */
  ghost predicate SameUsage(a: State, b: State) {
    && a.notified == b.notified && a.emitted == b.emitted
    && forall id :: Usage(Prior(a.snapshots, id)) == Usage(Prior(b.snapshots, id))
  }

  /** A failure keeps the last good usage, sends nothing and marks nothing. */
  lemma FailureKeeps(st: State, r: Refresh, threshold: int)
    requires InSync(st, threshold) && (!r.configured || r.fetched.Failure?)
    ensures SameUsage(After(st, r, threshold), st)
  {}

  lemma SuccessIsBlind(a: State, b: State, r: Refresh, threshold: int)
    requires SameUsage(a, b) && r.configured && r.fetched.Success?
    ensures SameUsage(After(a, r, threshold), After(b, r, threshold))
  {
    var c, d := After(a, r, threshold).snapshots, After(b, r, threshold).snapshots;
    forall id ensures Usage(Prior(c, id)) == Usage(Prior(d, id)) {
      assert id != r.id ==> Prior(c, id) == Prior(a.snapshots, id) && Prior(d, id) == Prior(b.snapshots, id);
    }
  }

  predicate Succeeds(r: Refresh) { r.configured && r.fetched.Success? }

  function Successes(rs: seq<Refresh>): seq<Refresh>
    decreases |rs|
  {
    if rs == [] then []
    else Successes(rs[..|rs| - 1]) + if Succeeds(rs[|rs| - 1]) then [rs[|rs| - 1]] else []
  }

  /** Erasing every failed refresh from a run changes neither the usage shown nor the notices sent. */
  lemma {:induction false} FailuresDoNotShow(rs: seq<Refresh>, threshold: int)
    ensures SameUsage(Run(rs, threshold), Run(Successes(rs), threshold))
    decreases |rs|
  {
    if rs == [] {
    } else {
      var before, r := rs[..|rs| - 1], rs[|rs| - 1];
      FailuresDoNotShow(before, threshold);
      RunInSync(before, threshold);
      if Succeeds(r) {
        SuccessIsBlind(Run(before, threshold), Run(Successes(before), threshold), r, threshold);
        assert (Successes(before) + [r])[..|Successes(before)|] == Successes(before);
      } else {
        FailureKeeps(Run(before, threshold), r, threshold);
        assert Successes(before) + [] == Successes(before);
      }
    }
  }

  // ---- what is shown, what is sent -----------------------------------------

  /** The last good snapshot of a provider. */
  function LastGood(rs: seq<Refresh>, id: string): Snapshot
    decreases |rs|
  {
    if rs == [] then NONE
    else if rs[|rs| - 1].id == id && Succeeds(rs[|rs| - 1]) then Good(rs[|rs| - 1])
    else LastGood(rs[..|rs| - 1], id)
  }

  /** What is stored of spend, budget, percentage and fetch time is that of the last success. */
  lemma {:induction false} ShowsLastGood(rs: seq<Refresh>, id: string, threshold: int)
    ensures Usage(Prior(Run(rs, threshold).snapshots, id)) == Usage(LastGood(rs, id))
    decreases |rs|
  {
    if rs == [] {
    } else {
      ShowsLastGood(rs[..|rs| - 1], id, threshold);
    }
  }

  /** The budgeted successes of a provider, as they were stored. */
  function Budgeted(rs: seq<Refresh>, id: string): seq<Snapshot>
    decreases |rs|
  {
    if rs == [] then []
    else
      var r := rs[|rs| - 1];
      Budgeted(rs[..|rs| - 1], id)
      + if r.id == id && Succeeds(r) && Good(r).budget > 0.0 then [Good(r).(updatedAt := r.now)] else []
  }

  /** Those that are above the threshold right after one that is not, or at the very start. */
  function Crossings(ss: seq<Snapshot>, threshold: int): seq<Snapshot>
    decreases |ss|
  {
    if ss == [] then []
    else
      var before, s := ss[..|ss| - 1], ss[|ss| - 1];
      Crossings(before, threshold)
      + if Above(s, threshold) && (before == [] || !Above(before[|before| - 1], threshold)) then [s] else []
  }

  /** The notices about one provider. */
  function About(emitted: seq<Snapshot>, id: string): seq<Snapshot>
    decreases |emitted|
  {
    if emitted == [] then []
    else About(emitted[..|emitted| - 1], id) + if emitted[|emitted| - 1].providerId == id then [emitted[|emitted| - 1]] else []
  }

  lemma AboutMore(emitted: seq<Snapshot>, s: Snapshot, id: string)
    ensures About(emitted + [s], id) == if s.providerId == id then About(emitted, id) + [s] else About(emitted, id)
  {
    assert (emitted + [s])[..|emitted|] == emitted;
  }

  lemma CrossingsMore(ss: seq<Snapshot>, s: Snapshot, threshold: int)
    ensures Crossings(ss + [s], threshold)
            == Crossings(ss, threshold) + if Above(s, threshold) && (ss == [] || !Above(ss[|ss| - 1], threshold)) then [s] else []
  {
    assert (ss + [s])[..|ss|] == ss;
  }

  /** A provider is marked after a run exactly if its latest budgeted success was above the threshold. */
  ghost predicate Marked(st: State, ss: seq<Snapshot>, id: string, threshold: int) {
    id in st.notified <==> ss != [] && Above(ss[|ss| - 1], threshold)
  }

  lemma NoticeMore(st: State, r: Refresh, ss: seq<Snapshot>, id: string, threshold: int)
    requires threshold > 0 && Succeeds(r)
    requires Marked(st, ss, id, threshold) && About(st.emitted, id) == Crossings(ss, threshold)
    ensures var more := if r.id == id && Good(r).budget > 0.0 then ss + [Good(r).(updatedAt := r.now)] else ss;
            && Marked(After(st, r, threshold), more, id, threshold)
            && About(After(st, r, threshold).emitted, id) == Crossings(more, threshold)
  {
    hide Good, Crossings, About;
    var s := Good(r).(updatedAt := r.now);
    GoodIsNamed(r);
    AboutMore(st.emitted, s, id);
    CrossingsMore(ss, s, threshold);
  }

  lemma GoodIsNamed(r: Refresh)
    requires r.fetched.Success?
    ensures Good(r).providerId == r.id
  {}

  lemma BudgetedMore(rs: seq<Refresh>, id: string)
    requires rs != []
    ensures var ss, r := Budgeted(rs[..|rs| - 1], id), rs[|rs| - 1];
            Budgeted(rs, id) == if r.id == id && Succeeds(r) && Good(r).budget > 0.0 then ss + [Good(r).(updatedAt := r.now)] else ss
  {}

  /** The notices about a provider are the upward crossings of the threshold among its budgeted successes. */
  lemma {:induction false} NoticesAreCrossings(rs: seq<Refresh>, id: string, threshold: int)
    requires threshold > 0
    ensures Marked(Run(rs, threshold), Budgeted(rs, id), id, threshold)
    ensures About(Run(rs, threshold).emitted, id) == Crossings(Budgeted(rs, id), threshold)
    decreases |rs|
  {
    hide After, Good, Above;
    if rs == [] {
    } else {
      var before, r := rs[..|rs| - 1], rs[|rs| - 1];
      NoticesAreCrossings(before, id, threshold);
      BudgetedMore(rs, id);
      if Succeeds(r) {
        NoticeMore(Run(before, threshold), r, Budgeted(before, id), id, threshold);
      } else {
        RunInSync(before, threshold);
        FailureKeeps(Run(before, threshold), r, threshold);
      }
    }
  }

  // ---- whole runs, by the figures ------------------------------------------

  /** Place `k` holds the last success of the provider. */
  ghost predicate LastSuccess(rs: seq<Refresh>, id: string, k: int) {
    && 0 <= k < |rs| && rs[k].id == id && rs[k].configured && rs[k].fetched.Success?
    && forall j :: k < j < |rs| ==> rs[j].id != id || !rs[j].configured || rs[j].fetched.Failure?
  }

  /** Place `k` holds the last refresh of the provider while it was configured. */
  ghost predicate LastTry(rs: seq<Refresh>, id: string, k: int) {
    0 <= k < |rs| && rs[k].id == id && rs[k].configured && forall j :: k < j < |rs| ==> rs[j].id != id || !rs[j].configured
  }

  /** After any run the stored usage is, figure by figure, that of the last success, with the percentage of its spend
      in its limit; names, time and error are those of the last try. */
  lemma {:induction false} RunShows(rs: seq<Refresh>, id: string, threshold: int)
    ensures var m := Run(rs, threshold).snapshots;
            && (forall k :: LastSuccess(rs, id, k) ==> id in m && Shows(m[id], rs[k]))
            && (forall k :: LastTry(rs, id, k) ==>
                  && id in m && m[id].providerId == id && m[id].unit == rs[k].unit && m[id].updatedAt == rs[k].now
                  && (rs[k].fetched.Failure? ==> m[id].error == ErrorText(rs[k].fetched.error) && (m[id].stale <==> m[id].fetchedAt.Some?)))
    decreases |rs|
  {
    if rs == [] {
    } else {
      var before, r := rs[..|rs| - 1], rs[|rs| - 1];
      RunShows(before, id, threshold);
      StepRecords(Run(before, threshold), r, threshold);
      forall k | LastSuccess(rs, id, k)
        ensures id in Run(rs, threshold).snapshots && Shows(Run(rs, threshold).snapshots[id], rs[k])
      {
        if k < |before| {
          assert LastSuccess(before, id, k);
          if r.id == id && r.configured {
            KeepsShows(Run(rs, threshold).snapshots[id], Run(before, threshold).snapshots[id], rs[k]);
          }
        }
      }
      forall k | LastTry(rs, id, k) && k < |before| ensures LastTry(before, id, k) {
      }
      hide After, Shows, Keeps, Over;
    }
  }

  /** Until its first success a provider shows no usage. */
  lemma {:induction false} NothingShownBefore(rs: seq<Refresh>, id: string, threshold: int)
    requires forall j :: 0 <= j < |rs| && rs[j].id == id ==> !rs[j].configured || rs[j].fetched.Failure?
    ensures var m := Run(rs, threshold).snapshots; id in m ==> Blank(m[id])
    decreases |rs|
  {
    if rs == [] {
    } else {
      NothingShownBefore(rs[..|rs| - 1], id, threshold);
      StepRecords(Run(rs[..|rs| - 1], threshold), rs[|rs| - 1], threshold);
      hide After, Shows, Over;
    }
  }

  lemma KeepsShows(s: Snapshot, prior: Snapshot, r: Refresh)
    requires r.fetched.Success? && Shows(prior, r) && Keeps(s, prior)
    ensures Shows(s, r)
  {}

  /** The budgeted successes of a provider. */
  function BudgetedOf(rs: seq<Refresh>, id: string): seq<Refresh>
    decreases |rs|
  {
    if rs == [] then []
    else BudgetedOf(rs[..|rs| - 1], id) + if rs[|rs| - 1].id == id && HasBudget(rs[|rs| - 1]) then [rs[|rs| - 1]] else []
  }

  /** Those over the threshold of which the one before, if there is one, is not. */
  function Overruns(bs: seq<Refresh>, threshold: int): seq<Refresh>
    requires forall b <- bs :: b.fetched.Success?
    decreases |bs|
  {
    if bs == [] then []
    else
      var n := |bs| - 1;
      Overruns(bs[..n], threshold) + if Over(bs[n], threshold) && (n == 0 || !Over(bs[n - 1], threshold)) then [bs[n]] else []
  }

  /** The snapshots are those of the successes, one by one. */
  predicate ShowAll(ss: seq<Snapshot>, bs: seq<Refresh>) {
    && |ss| == |bs|
    && forall k :: 0 <= k < |bs| ==> bs[k].fetched.Success? && Shows(ss[k], bs[k])
                                     && ss[k].providerId == bs[k].id && ss[k].unit == bs[k].unit && ss[k].updatedAt == bs[k].now
  }

  predicate Agree(ss: seq<Snapshot>, bs: seq<Refresh>, threshold: int) {
    ShowAll(ss, bs) && forall k :: 0 <= k < |bs| ==> (Above(ss[k], threshold) <==> Over(bs[k], threshold))
  }

  lemma {:induction false} BudgetedAgree(rs: seq<Refresh>, id: string, threshold: int)
    ensures Agree(Budgeted(rs, id), BudgetedOf(rs, id), threshold)
    decreases |rs|
  {
    if rs == [] {
    } else {
      var before, r := rs[..|rs| - 1], rs[|rs| - 1];
      BudgetedAgree(before, id, threshold);
      if r.configured && r.fetched.Success? {
        GoodShows(r, threshold);
        ShowsStamped(Good(r), r);
        assert Above(Good(r).(updatedAt := r.now), threshold) <==> Above(Good(r), threshold);
      }
      hide Good, Shows, Over, HasBudget, Above;
    }
  }

  lemma {:induction false} CrossingsShow(ss: seq<Snapshot>, bs: seq<Refresh>, threshold: int)
    requires Agree(ss, bs, threshold)
    ensures forall b <- bs :: b.fetched.Success?
    ensures ShowAll(Crossings(ss, threshold), Overruns(bs, threshold))
    decreases |ss|
  {
    hide Shows, Over, Above;
    if ss == [] {
    } else {
      CrossingsShow(ss[..|ss| - 1], bs[..|bs| - 1], threshold);
    }
  }

  /** The notices about a provider are its budgeted successes that spend the threshold's share of the limit or more
      right after one that spends less, or first of all, each with the figures of that success. */
  lemma NoticesShow(rs: seq<Refresh>, id: string, threshold: int)
    requires threshold > 0
    ensures forall b <- BudgetedOf(rs, id) :: b.fetched.Success?
    ensures ShowAll(About(Run(rs, threshold).emitted, id), Overruns(BudgetedOf(rs, id), threshold))
  {
    NoticesAreCrossings(rs, id, threshold);
    BudgetedAgree(rs, id, threshold);
    CrossingsShow(Budgeted(rs, id), BudgetedOf(rs, id), threshold);
  }

  /** Without a positive threshold nothing is ever sent. */
  lemma {:induction false} NoThresholdNoNotice(rs: seq<Refresh>, threshold: int)
    requires threshold <= 0
    ensures Run(rs, threshold).emitted == []
    decreases |rs|
  {
    if rs == [] {
    } else {
      NoThresholdNoNotice(rs[..|rs| - 1], threshold);
    }
  }
}
