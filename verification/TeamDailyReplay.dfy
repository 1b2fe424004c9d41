/** Pre-aggregated rows under replay: what a batch leaves in the daily table, and when sending it again changes it. */
module TeamDailyReplay {
  import opened Wrappers
  import opened JoinedKeys
  import opened UsageSums
  import opened TeamModel
  import opened TeamBatch
  import opened TeamRollup
  import opened TeamCap
  import opened TeamBatching
  import opened TeamAdmission
  import opened TeamReplay

  /** The last payload for a daily row. */
  function LastFor(ps: seq<Payload>, k: DailyKey): Option<SyncedDaily>
    decreases |ps|
  {
    if ps == [] then None
    else
      var p := ps[|ps| - 1];
      if p.Daily? && DailyKeyOf(p.d) == k then Some(p.d) else LastFor(ps[..|ps| - 1], k)
  }

  function Pair(k: DailyKey): (string, string) { (k.userId, k.nodeId) }

  lemma LastForMore(ps: seq<Payload>, p: Payload, k: DailyKey)
    ensures LastFor(ps + [p], k) == if p.Daily? && DailyKeyOf(p.d) == k then Some(p.d) else LastFor(ps, k)
  {
    Grow(ps, p);
  }

  lemma {:induction false} LastForIn(ps: seq<Payload>, k: DailyKey)
    ensures LastFor(ps, k).Some? ==> exists p :: p in ps && p.Daily? && DailyKeyOf(p.d) == k && LastFor(ps, k) == Some(p.d)
    decreases |ps|
  {
    if ps == [] {
    } else {
      LastForIn(ps[..|ps| - 1], k);
      assert ps == ps[..|ps| - 1] + [ps[|ps| - 1]];
    }
  }

  ghost predicate Bears(row: DayRow, d: SyncedDaily) { row.usage == d.usage && row.pricing == d.pricing }

  /** The daily table `days` is the table `before` with the last admitted payload for each row written over it. */
  ghost predicate Written(days: map<DailyKey, DayRow>, before: map<DailyKey, DayRow>, admitted: seq<Payload>) {
    forall k :: match LastFor(admitted, k)
                case Some(d) => k in days && Bears(days[k], d)
                case None => (k in days <==> k in before) && (k in days ==> days[k] == before[k])
  }

  lemma WrittenMore(days: map<DailyKey, DayRow>, before: map<DailyKey, DayRow>, admitted: seq<Payload>, p: Payload, now: int)
    requires Written(days, before, admitted)
    ensures p.Daily? ==> Written(days[DailyKeyOf(p.d) := DayRow(p.d.usage, p.d.pricing, now)], before, admitted + [p])
    ensures p.Event? ==> Written(days, before, admitted + [p])
  {
    hide LastFor;
    forall k ensures LastFor(admitted + [p], k) == if p.Daily? && DailyKeyOf(p.d) == k then Some(p.d) else LastFor(admitted, k) {
      LastForMore(admitted, p, k);
    }
  }

  /** Verdict and effect of the last payload of a batch. */
  lemma LastStep(s: Tables, teamId: string, ps: seq<Payload>, now: int, cap: int)
    requires ps != []
    ensures var c, p := Scanned(s, teamId, ps[..|ps| - 1], now, cap), ps[|ps| - 1];
            && Scanned(s, teamId, ps, now, cap) == Next(c, teamId, p, now, cap)
            && Passed(s, teamId, ps, cap)
               == Passed(s, teamId, ps[..|ps| - 1], cap) + if Admitted(c, teamId, p, cap) then [p] else []
  {
    ScanIs(s, teamId, ps[..|ps| - 1], now, cap);
    HasAdmits(Scanned(s, teamId, ps[..|ps| - 1], now, cap), s, teamId, Passed(s, teamId, ps[..|ps| - 1], cap), ps[|ps| - 1], cap);
    hide Next, Passes, Admitted, Has;
    PassedStep(s, teamId, ps, cap);
  }

  /** What a batch leaves in the daily table. */
  lemma {:induction false} DaysWritten(s: Tables, teamId: string, ps: seq<Payload>, now: int, cap: int)
    ensures Written(Batch(s, teamId, ps, now, cap).daily, s.daily, Passed(s, teamId, ps, cap))
    decreases |ps|
  {
    hide Next, Written, Passed, Admitted;
    if ps == [] {
      assert Passed(s, teamId, ps, cap) == [] by { NonePassed(s, teamId, cap); }
      NoneWritten(s.daily);
    } else {
      var c, p := Scanned(s, teamId, ps[..|ps| - 1], now, cap), ps[|ps| - 1];
      DaysWritten(s, teamId, ps[..|ps| - 1], now, cap);
      LastStep(s, teamId, ps, now, cap);
      NextDaily(c, teamId, p, now, cap);
      WrittenMore(c.t.daily, s.daily, Passed(s, teamId, ps[..|ps| - 1], cap), p, now);
      assert Passed(s, teamId, ps[..|ps| - 1], cap) + [] == Passed(s, teamId, ps[..|ps| - 1], cap);
    }
  }

  lemma NonePassed(s: Tables, teamId: string, cap: int)
    ensures Passed(s, teamId, [], cap) == []
  {}

  lemma NoneWritten(days: map<DailyKey, DayRow>)
    ensures Written(days, days, [])
  {}

  // ---- the replay ----------------------------------------------------------

  /** A row of which a replay writes something gets from it what the first run left. */
  ghost predicate SameLast(first: seq<Payload>, second: seq<Payload>, k: DailyKey) {
    LastFor(second, k).Some? ==>
      LastFor(first, k).Some? && LastFor(second, k).value.usage == LastFor(first, k).value.usage
      && LastFor(second, k).value.pricing == LastFor(first, k).value.pricing
  }

  lemma SameDaysIff(before: map<DailyKey, DayRow>, once: map<DailyKey, DayRow>, twice: map<DailyKey, DayRow>, first: seq<Payload>, second: seq<Payload>)
    requires Written(once, before, first) && Written(twice, once, second)
    requires forall k :: LastFor(second, k).Some? ==> LastFor(first, k).Some?
    ensures SameDays(twice, once) <==> forall k :: SameLast(first, second, k)
  {
    hide LastFor;
    if SameDays(twice, once) {
      forall k ensures SameLast(first, second, k) {
        if LastFor(second, k).Some? {
          assert k in twice && SameDay(twice[k], once[k]);
        }
      }
    }
    if forall k :: SameLast(first, second, k) {
      forall k ensures (k in twice <==> k in once) && (k in twice ==> SameDay(twice[k], once[k])) {
        assert SameLast(first, second, k);
      }
    }
  }

  /** The replay writes no row the first run did not write, and for pairs the first run counted it writes the same. */
  lemma {:induction false} LastsAgain(s: Tables, teamId: string, ps: seq<Payload>, i: nat, now: int, again: int, cap: int, k: DailyKey)
    requires i <= |ps|
    ensures var once := Batch(s, teamId, ps, now, cap);
            var first, second := LastFor(Passed(s, teamId, ps[..i], cap), k), LastFor(Passed(once, teamId, ps[..i], cap), k);
            && (second.Some? ==> first.Some?)
            && (Pair(k) in Scanned(s, teamId, ps, now, cap).known ==> second == first)
  {
    hide Batch, Next, Scanned, Passed, Replaying, Later, Fits, LastFor, Admitted;
    var once := Batch(s, teamId, ps, now, cap);
    if i == 0 {
      assert ps[..0] == [];
      NonePassed(s, teamId, cap);
      NonePassed(once, teamId, cap);
    } else {
      assert ps[..i][..|ps[..i]| - 1] == ps[..i - 1] && ps[..i][|ps[..i]| - 1] == ps[i - 1];
      LastsAgain(s, teamId, ps, i - 1, now, again, cap, k);
      LastStep(s, teamId, ps[..i], now, cap);
      LastStep(once, teamId, ps[..i], again, cap);
      VerdictAt(s, teamId, ps, i - 1, now, again, cap);
      LastForMore(Passed(s, teamId, ps[..i - 1], cap), ps[i - 1], k);
      LastForMore(Passed(once, teamId, ps[..i - 1], cap), ps[i - 1], k);
      assert Passed(s, teamId, ps[..i - 1], cap) + [] == Passed(s, teamId, ps[..i - 1], cap);
      assert Passed(once, teamId, ps[..i - 1], cap) + [] == Passed(once, teamId, ps[..i - 1], cap);
    }
  }

  lemma VerdictAt(s: Tables, teamId: string, ps: seq<Payload>, i: nat, now: int, again: int, cap: int)
    requires i < |ps|
    ensures var f, c := Scanned(Batch(s, teamId, ps, now, cap), teamId, ps[..i], again, cap), Scanned(s, teamId, ps[..i], now, cap);
            && (Admitted(f, teamId, ps[i], cap) ==> Admitted(c, teamId, ps[i], cap))
            && ((ps[i].User(), ps[i].Node()) in Scanned(s, teamId, ps, now, cap).known ==>
                  (Admitted(f, teamId, ps[i], cap) <==> Admitted(c, teamId, ps[i], cap)))
  {
    ScansReplaying(s, teamId, ps, i, now, again, cap);
    ScansLater(s, teamId, ps, i, now, cap);
    BatchFits(s, teamId, ps, now, cap);
    CountBounded(s, teamId, ps[..i], now, cap, "");
    hide Replaying, Later, Fits, Admitted, Next, Batch;
    Verdict(Scanned(Batch(s, teamId, ps, now, cap), teamId, ps[..i], again, cap), Scanned(s, teamId, ps, now, cap),
            Scanned(s, teamId, ps[..i], now, cap), Begin(s, teamId).known, teamId, ps[i], cap);
  }

  /** The pairs that a batch counts against caps. */
  function CountedBy(s: Tables, teamId: string, ps: seq<Payload>, cap: int): set<(string, string)> {
    KnownPairs(s.nodes, teamId) + Counted(Passed(s, teamId, ps, cap))
  }

  /** Sending a committed batch again keeps the contents of every daily row if and only if, for the rows of pairs
      that the batch admitted without counting them, the last payload admitted again says what the last payload
      admitted at first said. */
  lemma ReplayDaysIff(s: Tables, teamId: string, ps: seq<Payload>, now: int, again: int, cap: int)
    ensures var once := Batch(s, teamId, ps, now, cap);
            SameDays(Batch(once, teamId, ps, again, cap).daily, once.daily)
            <==> forall k | Pair(k) !in CountedBy(s, teamId, ps, cap) ::
                   SameLast(Passed(s, teamId, ps, cap), Passed(once, teamId, ps, cap), k)
  {
    var once := Batch(s, teamId, ps, now, cap);
    var first, second := Passed(s, teamId, ps, cap), Passed(once, teamId, ps, cap);
    DaysWritten(s, teamId, ps, now, cap);
    DaysWritten(once, teamId, ps, again, cap);
    ScanIs(s, teamId, ps, now, cap);
    assert ps[..|ps|] == ps;
    assert Scanned(s, teamId, ps, now, cap).known == CountedBy(s, teamId, ps, cap);
    hide Batch, Scanned, Passed, LastFor, Written, CountedBy;
    forall k ensures (LastFor(second, k).Some? ==> LastFor(first, k).Some?)
                     && (Pair(k) in CountedBy(s, teamId, ps, cap) ==> SameLast(first, second, k)) {
      LastsAgain(s, teamId, ps, |ps|, now, again, cap, k);
    }
    SameDaysIff(s.daily, once.daily, Batch(once, teamId, ps, again, cap).daily, first, second);
  }

  /** When no two admitted payloads share a node key without sharing user and node, every daily row keeps its
      contents. */
  lemma ReplayDays(s: Tables, teamId: string, ps: seq<Payload>, now: int, again: int, cap: int)
    requires KeysTell(Passed(s, teamId, ps, cap))
    ensures var once := Batch(s, teamId, ps, now, cap); SameDays(Batch(once, teamId, ps, again, cap).daily, once.daily)
  {
    var once, first := Batch(s, teamId, ps, now, cap), Passed(s, teamId, ps, cap);
    forall k | Pair(k) !in CountedBy(s, teamId, ps, cap) ensures SameLast(first, Passed(once, teamId, ps, cap), k) {
      assert ps[..|ps|] == ps;
      LastsAgain(s, teamId, ps, |ps|, now, again, cap, k);
      LastForIn(first, k);
      if LastFor(first, k).Some? {
        var p :| p in first && p.Daily? && DailyKeyOf(p.d) == k;
        AdmittedCounted(first, p);
      }
    }
    ReplayDaysIff(s, teamId, ps, now, again, cap);
  }

  /** In particular for names without bars. */
  lemma BarFreeReplayDays(s: Tables, teamId: string, ps: seq<Payload>, now: int, again: int, cap: int)
    requires forall p <- ps :: BarFree(p)
    ensures var once := Batch(s, teamId, ps, now, cap); SameDays(Batch(once, teamId, ps, again, cap).daily, once.daily)
  {
    PassedPart(s, teamId, ps, cap);
    assert forall p <- Passed(s, teamId, ps, cap) :: BarFree(p);
    BarFreeKeysTell(Passed(s, teamId, ps, cap));
    ReplayDays(s, teamId, ps, now, again, cap);
  }

  // ---- a replay that changes a row -----------------------------------------

  function DailyOf(u: string, n: string, count: nat): Payload {
    Daily(SyncedDaily("t", u, n, 0, "p", "m", Usage(count, 0, 0, 0, 0, 0, 0, 0), ""))
  }

  /** Two active members whose names differ by what a bar cuts off; node x belongs to somebody else. */
  const BARRED := EMPTY.(
    members := map[("t", "a") := Member(Plain, Active), ("t", "a|b") := Member(Plain, Active)],
    nodes := map["x" := NodeRow("z", "t", 0, 0)])

  /** Node c of a|b has the key of node b|c of a, so it is admitted uncounted, twice; x and y fill the cap. */
  const OVERLAP: seq<Payload> :=
    [DailyOf("a", "b|c", 1), DailyOf("a|b", "c", 1), DailyOf("a|b", "x", 1), DailyOf("a|b", "c", 2), DailyOf("a|b", "y", 1)]

  lemma OverlapKeys()
    ensures NodeKey("a", "b|c") == NodeKey("a|b", "c")
    ensures NodeKey("a|b", "x") != NodeKey("a|b", "c") && NodeKey("a|b", "y") != NodeKey("a|b", "c")
    ensures NodeKey("a|b", "x") != NodeKey("a|b", "y")
  {
    assert NodeKey("a", "b|c") == "a|b|c" by { assert ["a", "b|c"][1..] == ["b|c"]; }
    assert NodeKey("a|b", "c") == "a|b|c" by { assert ["a|b", "c"][1..] == ["c"]; }
    assert NodeKey("a|b", "x") == "a|b|x" by { assert ["a|b", "x"][1..] == ["x"]; }
    assert NodeKey("a|b", "y") == "a|b|y" by { assert ["a|b", "y"][1..] == ["y"]; }
    assert "a|b|c"[4] == 'c' && "a|b|x"[4] == 'x' && "a|b|y"[4] == 'y';
  }

  lemma AtMostOne(known: set<(string, string)>, u: string, n: string)
    requires forall q <- known | q.0 == u :: q.1 == n
    ensures |KnownOf(known, u)| <= 1
  {
    forall m <- KnownOf(known, u) ensures m == n {
      KnownOfMember(known, u, m);
    }
    SetSize(KnownOf(known, u), {n});
  }

  lemma AtLeastTwo(known: set<(string, string)>, u: string, m: string, n: string)
    requires (u, m) in known && (u, n) in known && m != n
    ensures |KnownOf(known, u)| >= 2
  {
    KnownOfMember(known, u, m);
    KnownOfMember(known, u, n);
    SetSize({m, n}, KnownOf(known, u));
  }

  /** What the front parts of the upload count. */
  lemma OverlapCounts()
    ensures Counted([]) == {} && Counted(OVERLAP[..1]) == {("a", "b|c")} && Counted(OVERLAP[..2]) == {("a", "b|c")}
    ensures Counted(OVERLAP[..3]) == {("a", "b|c"), ("a|b", "x")} && Counted(OVERLAP[..4]) == {("a", "b|c"), ("a|b", "x")}
    ensures Counted(OVERLAP[..5]) == {("a", "b|c"), ("a|b", "x"), ("a|b", "y")}
  {
    OverlapKeys();
    assert OVERLAP[..1] == [] + [OVERLAP[0]] && OVERLAP[..2] == OVERLAP[..1] + [OVERLAP[1]];
    assert OVERLAP[..3] == OVERLAP[..2] + [OVERLAP[2]] && OVERLAP[..4] == OVERLAP[..3] + [OVERLAP[3]];
    assert OVERLAP[..5] == OVERLAP[..4] + [OVERLAP[4]];
    hide NodeKey, Counted, Keys;
    NothingCounted();
    CountedMore([], OVERLAP[0]);
    CountedMore(OVERLAP[..1], OVERLAP[1]);
    CountedMore(OVERLAP[..2], OVERLAP[2]);
    CountedMore(OVERLAP[..3], OVERLAP[3]);
    CountedMore(OVERLAP[..4], OVERLAP[4]);
  }

  lemma NothingCounted()
    ensures Counted([]) == {} && Keys([]) == {}
  {}

  lemma OverlapVetted(s: Tables, i: nat)
    requires s.members == BARRED.members && i < 5
    ensures Refusal(s.members, "t", OVERLAP[i]).None?
  {}

  lemma StillPassing(s: Tables, i: nat)
    requires s.members == BARRED.members && i < 5
    requires Passed(s, "t", OVERLAP[..i], 2) == OVERLAP[..i]
    requires var known := KnownPairs(s.nodes, "t") + Counted(OVERLAP[..i]);
             (OVERLAP[i].User(), OVERLAP[i].Node()) in known || |KnownOf(known, OVERLAP[i].User())| < 2
    ensures Passed(s, "t", OVERLAP[..i + 1], 2) == OVERLAP[..i + 1]
  {
    OverlapVetted(s, i);
    assert OVERLAP[..i + 1][..i] == OVERLAP[..i] && OVERLAP[..i] + [OVERLAP[i]] == OVERLAP[..i + 1];
    hide Counted, KnownPairs, KnownOf, Refusal, Passed;
    PassedStep(s, "t", OVERLAP[..i + 1], 2);
  }

  /** The first three payloads pass whenever nobody but a|b's y, a's b|c and strangers count at the start. */
  lemma ThreePass(s: Tables)
    requires s.members == BARRED.members
    requires forall q <- KnownPairs(s.nodes, "t") :: q.0 == "z" || q == ("a", "b|c") || q == ("a|b", "y")
    ensures Passed(s, "t", OVERLAP[..3], 2) == OVERLAP[..3]
  {
    var k := KnownPairs(s.nodes, "t");
    OverlapCounts();
    hide Counted, KnownPairs, KnownOf, Refusal;
    assert OVERLAP[..0] == [];
    NonePassed(s, "t", 2);
    AtMostOne(k + Counted(OVERLAP[..0]), "a", "b|c");
    StillPassing(s, 0);
    AtMostOne(k + Counted(OVERLAP[..1]), "a|b", "y");
    StillPassing(s, 1);
    AtMostOne(k + Counted(OVERLAP[..2]), "a|b", "y");
    StillPassing(s, 2);
  }

  lemma BarredPairs()
    ensures KnownPairs(BARRED.nodes, "t") == {("z", "x")}
  {
    assert BARRED.nodes["x"].userId == "z";
  }

  lemma AllPassFirst()
    ensures Passed(BARRED, "t", OVERLAP, 2) == OVERLAP
  {
    hide Counted, KnownPairs, KnownOf, Refusal, Passed;
    BarredPairs();
    ThreePass(BARRED);
    OverlapCounts();
    var k := KnownPairs(BARRED.nodes, "t");
    AtMostOne(k + Counted(OVERLAP[..3]), "a|b", "x");
    StillPassing(BARRED, 3);
    AtMostOne(k + Counted(OVERLAP[..4]), "a|b", "x");
    StillPassing(BARRED, 4);
    assert OVERLAP[..5] == OVERLAP;
  }

  /** The rows after the upload: y is a|b's, x still is not. */
  ghost predicate OverlapRows(nodes: map<string, NodeRow>) {
    var k := KnownPairs(nodes, "t");
    && ("a|b", "y") in k && ("a|b", "x") !in k && ("a|b", "c") !in k
    && forall q <- k :: q.0 == "z" || q == ("a", "b|c") || q == ("a|b", "y")
  }

  lemma RowsFrom(nodes: map<string, NodeRow>, known: set<(string, string)>)
    requires KnownPairs(nodes, "t") <= known && known == {("z", "x"), ("a", "b|c"), ("a|b", "x"), ("a|b", "y")}
    requires "x" in nodes && nodes["x"].userId == "z" && "y" in nodes && nodes["y"].userId == "a|b" && nodes["y"].teamId == "t"
    ensures OverlapRows(nodes)
  {
    assert (nodes["y"].userId, "y") in KnownPairs(nodes, "t");
  }

  lemma OwnerOfY(nodes: map<string, NodeRow>)
    requires RowsExplained(BARRED.nodes, nodes, "t", OVERLAP) && ("a|b", "y") in Counted(OVERLAP)
    ensures "y" in nodes && nodes["y"].userId == "a|b" && nodes["y"].teamId == "t"
  {
    hide Counted;
    var p :| p in OVERLAP && p.Node() == "y" && nodes["y"].userId == p.User();
    var i :| 0 <= i < |OVERLAP| && OVERLAP[i] == p;
    assert i == 4;
  }

  lemma BatchRows(s: Tables, teamId: string, ps: seq<Payload>, now: int, cap: int)
    ensures var nodes := Batch(s, teamId, ps, now, cap).nodes;
            && KnownPairs(nodes, teamId) <= CountedBy(s, teamId, ps, cap)
            && RowsExplained(s.nodes, nodes, teamId, Passed(s, teamId, ps, cap))
  {
    RowsAreExplained(s, teamId, ps, now, cap);
    RowsCounted(s, teamId, ps, now, cap);
    ScanIs(s, teamId, ps, now, cap);
  }

  lemma OverlapCountedBy()
    ensures CountedBy(BARRED, "t", OVERLAP, 2) == {("z", "x"), ("a", "b|c"), ("a|b", "x"), ("a|b", "y")}
    ensures ("a|b", "y") in Counted(OVERLAP)
  {
    AllPassFirst();
    BarredPairs();
    OverlapCounts();
    assert OVERLAP[..5] == OVERLAP;
    hide Passed, Counted, KnownPairs;
  }

  lemma XStays(now: int)
    ensures var nodes := Batch(BARRED, "t", OVERLAP, now, 2).nodes; "x" in nodes && nodes["x"].userId == "z"
  {
    OwnersStay(BARRED, "t", OVERLAP, now, 2, "x");
  }

  lemma RowsAfter(now: int)
    ensures OverlapRows(Batch(BARRED, "t", OVERLAP, now, 2).nodes)
  {
    hide *;
    AllPassFirst();
    OverlapCountedBy();
    BatchRows(BARRED, "t", OVERLAP, now, 2);
    XStays(now);
    OwnerOfY(Batch(BARRED, "t", OVERLAP, now, 2).nodes);
    RowsFrom(Batch(BARRED, "t", OVERLAP, now, 2).nodes, CountedBy(BARRED, "t", OVERLAP, 2));
  }

  lemma NotPassing(s: Tables, ps: seq<Payload>, p: Payload, before: seq<Payload>)
    requires Passed(s, "t", ps, 2) == before
    requires var known := KnownPairs(s.nodes, "t") + Counted(before);
             (p.User(), p.Node()) !in known && |KnownOf(known, p.User())| >= 2
    ensures Passed(s, "t", ps + [p], 2) == before
  {
    Grow(ps, p);
    hide Passed, Counted, KnownPairs, KnownOf, Refusal;
    PassedStep(s, "t", ps + [p], 2);
  }

  lemma KnownPasses(s: Tables, ps: seq<Payload>, p: Payload, before: seq<Payload>)
    requires Passed(s, "t", ps, 2) == before && Refusal(s.members, "t", p).None?
    requires (p.User(), p.Node()) in KnownPairs(s.nodes, "t")
    ensures Passed(s, "t", ps + [p], 2) == before + [p]
  {
    Grow(ps, p);
    hide Passed, Counted, KnownPairs, KnownOf, Refusal;
    PassedStep(s, "t", ps + [p], 2);
  }

  lemma FourthRefused(s: Tables)
    requires s.members == BARRED.members && OverlapRows(s.nodes)
    requires Passed(s, "t", OVERLAP[..3], 2) == OVERLAP[..3]
    ensures Passed(s, "t", OVERLAP, 2) == OVERLAP[..3] + [OVERLAP[4]]
  {
    OverlapCounts();
    OverlapVetted(s, 4);
    assert OVERLAP[..3] + [OVERLAP[3]] == OVERLAP[..4] && OVERLAP[..4] + [OVERLAP[4]] == OVERLAP;
    hide Counted, KnownPairs, KnownOf, Refusal, Passed;
    AtLeastTwo(KnownPairs(s.nodes, "t") + Counted(OVERLAP[..3]), "a|b", "x", "y");
    NotPassing(s, OVERLAP[..3], OVERLAP[3], OVERLAP[..3]);
    KnownPasses(s, OVERLAP[..4], OVERLAP[4], OVERLAP[..3]);
  }

  const OVERLAPPED := DailyKey("t", "a|b", "c", 0, "p", "m")

  lemma OverlapLasts()
    ensures LastFor(OVERLAP, OVERLAPPED) == Some(OVERLAP[3].d)
    ensures LastFor(OVERLAP[..3] + [OVERLAP[4]], OVERLAPPED) == Some(OVERLAP[1].d)
  {
    assert OVERLAP[..3] + [OVERLAP[4]] == OVERLAP[..2] + [OVERLAP[2]] + [OVERLAP[4]];
    assert OVERLAP[..2] == OVERLAP[..1] + [OVERLAP[1]] && OVERLAP == OVERLAP[..3] + [OVERLAP[3]] + [OVERLAP[4]];
    LastForMore(OVERLAP[..1], OVERLAP[1], OVERLAPPED);
    LastForMore(OVERLAP[..2], OVERLAP[2], OVERLAPPED);
    LastForMore(OVERLAP[..2] + [OVERLAP[2]], OVERLAP[4], OVERLAPPED);
    LastForMore(OVERLAP[..3], OVERLAP[3], OVERLAPPED);
    LastForMore(OVERLAP[..3] + [OVERLAP[3]], OVERLAP[4], OVERLAPPED);
  }

  lemma Overlapped()
    ensures Pair(OVERLAPPED) !in CountedBy(BARRED, "t", OVERLAP, 2)
    ensures !SameLast(OVERLAP, OVERLAP[..3] + [OVERLAP[4]], OVERLAPPED)
  {
    OverlapCountedBy();
    OverlapLasts();
    hide CountedBy, LastFor;
  }

  /** Sent again, the upload writes its first count for node c of a|b over its second. */
  lemma BarredReplay(now: int, again: int)
    ensures var once := Batch(BARRED, "t", OVERLAP, now, 2);
            !SameDays(Batch(once, "t", OVERLAP, again, 2).daily, once.daily)
  {
    var once := Batch(BARRED, "t", OVERLAP, now, 2);
    AllPassFirst();
    RowsAfter(now);
    assert once.members == BARRED.members by { ScanIs(BARRED, "t", OVERLAP, now, 2); }
    assert OverlapRows(once.nodes) ==>
      forall q <- KnownPairs(once.nodes, "t") :: q.0 == "z" || q == ("a", "b|c") || q == ("a|b", "y");
    Overlapped();
    ReplayDaysIff(BARRED, "t", OVERLAP, now, again, 2);
    hide Passed, Batch, Counted, KnownPairs, LastFor, OverlapRows, CountedBy, SameLast, SameDays;
    ThreePass(once);
    FourthRefused(once);
  }
}
