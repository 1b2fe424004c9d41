/** The exact condition under which a batch may be cut in two. */
module TeamSplits {
  import opened Wrappers
  import opened JoinedKeys
  import opened UsageSums
  import opened TeamModel
  import opened TeamBatch
  import opened TeamRollup
  import opened TeamCap
  import opened TeamBatching
  import opened TeamAdmission

  lemma {:induction false} ScansAppend(c: Scan, teamId: string, a: seq<Payload>, b: seq<Payload>, now: int, cap: int)
    ensures Scans(c, teamId, a + b, now, cap) == Scans(Scans(c, teamId, a, now, cap), teamId, b, now, cap)
    decreases |b|
  {
    if b == [] {
      assert a + b == a;
    } else {
      var b' := b[..|b| - 1];
      assert (a + b)[..|a + b| - 1] == a + b';
      ScansAppend(c, teamId, a, b', now, cap);
    }
  }

  // ---- payloads from nodes nobody has seen ---------------------------------

  lemma {:induction false} LengthBound(names: set<string>) returns (bound: nat)
    ensures forall n <- names :: |n| < bound
    decreases |names|
  {
    bound := 0;
    if names == {} {
    } else {
      var n :| n in names;
      var rest := LengthBound(names - {n});
      bound := if |n| < rest then rest else |n| + 1;
      forall m <- names ensures |m| < bound {
        assert m == n || m in names - {n};
      }
    }
  }

  function Name(length: nat): string { seq(length, i => 'x') }

  /** A daily payload from a node with a name of the given length. */
  function FromNew(teamId: string, u: string, length: nat): Payload {
    Daily(SyncedDaily(teamId, u, Name(length), 0, "", "", ZERO, ""))
  }

  function FromNews(teamId: string, u: string, length: nat, m: nat): (ps: seq<Payload>)
    ensures |ps| == m
  {
    if m == 0 then [] else FromNews(teamId, u, length, m - 1) + [FromNew(teamId, u, length + m - 1)]
  }

  lemma {:induction false} NewsBarFree(teamId: string, u: string, length: nat, m: nat)
    requires NoBar(u)
    ensures forall p <- FromNews(teamId, u, length, m) :: BarFree(p)
  {
    if m == 0 {
    } else {
      NewsBarFree(teamId, u, length, m - 1);
    }
  }

  /** Every node the scan knows of, and every key it has touched, is too short to be new. */
  ghost predicate Below(c: Scan, u: string, length: nat) {
    && (forall n <- c.t.nodes :: |n| < length)
    && (forall q <- c.known :: |q.1| < length)
    && (forall key <- c.touched :: |key| < |u| + 1 + length)
  }

  ghost predicate ActiveMember(members: map<(string, string), Member>, teamId: string, u: string) {
    (teamId, u) in members && members[(teamId, u)].status == Active
  }

  lemma NodeKeyLength(u: string, n: string)
    ensures |NodeKey(u, n)| == |u| + 1 + |n|
  {
    assert [u, n][1..] == [n] && Join([n]) == n;
  }

  lemma NewPayload(c: Scan, teamId: string, u: string, length: nat, now: int, cap: int)
    requires Below(c, u, length) && ActiveMember(c.t.members, teamId, u)
    ensures var d := Next(c, teamId, FromNew(teamId, u, length), now, cap);
            if |KnownOf(c.known, u)| < cap then
              Below(d, u, length + 1) && |KnownOf(d.known, u)| == |KnownOf(c.known, u)| + 1
              && d.t.members == c.t.members && d.resp.rejected == c.resp.rejected
            else |d.resp.rejected| == |c.resp.rejected| + 1
  {
    var p := FromNew(teamId, u, length);
    var d := Next(c, teamId, p, now, cap);
    NodeKeyLength(u, Name(length));
    assert (u, Name(length)) !in c.known;
    KnownOfMember(c.known, u, Name(length));
    KnownOfAdd(c.known, (u, Name(length)), u);
    NextCounts(c, teamId, p, now, cap);
    assert OverCap(c, p, cap) <==> |KnownOf(c.known, u)| >= cap;
  }

  /** What `m` admitted new nodes of user `u` have done to scan `c`. */
  ghost predicate Grown(c: Scan, d: Scan, u: string, length: nat, m: nat) {
    && Below(d, u, length + m) && |KnownOf(d.known, u)| == |KnownOf(c.known, u)| + m
    && d.t.members == c.t.members && d.resp.rejected == c.resp.rejected
  }

  lemma GrownAdds(c: Scan, d: Scan, e: Scan, u: string, length: nat, m: nat)
    requires Grown(c, d, u, length, m) && Grown(d, e, u, length + m, 1)
    ensures Grown(c, e, u, length, m + 1)
  {
    assert length + m + 1 == length + (m + 1);
  }

  lemma GrowsMore(c: Scan, d: Scan, teamId: string, u: string, length: nat, m: nat, now: int, cap: int)
    requires Grown(c, d, u, length, m)
    requires ActiveMember(c.t.members, teamId, u) && |KnownOf(c.known, u)| + m < cap
    ensures Grown(c, Next(d, teamId, FromNew(teamId, u, length + m), now, cap), u, length, m + 1)
  {
    NewPayload(d, teamId, u, length + m, now, cap);
    GrownAdds(c, d, Next(d, teamId, FromNew(teamId, u, length + m), now, cap), u, length, m);
  }

  /** As long as the cap is not reached, new nodes are admitted one after the other. */
  lemma {:induction false} NewPayloads(c: Scan, teamId: string, u: string, length: nat, m: nat, now: int, cap: int)
    requires Below(c, u, length) && ActiveMember(c.t.members, teamId, u)
    requires |KnownOf(c.known, u)| + m <= cap
    ensures Grown(c, Scans(c, teamId, FromNews(teamId, u, length, m), now, cap), u, length, m)
  {
    hide Next;
    if m == 0 {
    } else {
      var ps := FromNews(teamId, u, length, m - 1);
      NewPayloads(c, teamId, u, length, m - 1, now, cap);
      GrowsMore(c, Scans(c, teamId, ps, now, cap), teamId, u, length, m - 1, now, cap);
      ScansStep(c, teamId, ps, FromNew(teamId, u, length + m - 1), now, cap);
    }
  }

  /** At the cap, one more new node is refused. */
  lemma OneTooMany(c: Scan, teamId: string, u: string, length: nat, m: nat, now: int, cap: int)
    requires Below(c, u, length) && ActiveMember(c.t.members, teamId, u)
    requires |KnownOf(c.known, u)| + m == cap
    ensures |Scans(c, teamId, FromNews(teamId, u, length, m + 1), now, cap).resp.rejected| == |c.resp.rejected| + 1
  {
    NewPayloads(c, teamId, u, length, m, now, cap);
    NewPayload(Scans(c, teamId, FromNews(teamId, u, length, m), now, cap), teamId, u, length + m, now, cap);
    ScansStep(c, teamId, FromNews(teamId, u, length, m), FromNew(teamId, u, length + m), now, cap);
  }

  // ---- a foreign node betrays the cut --------------------------------------

  /** A pair the batch came to count belongs to an active member of bar-free name, and counts within the cap. */
  lemma {:induction false} Newcomer(s: Tables, teamId: string, a: seq<Payload>, now: int, cap: int, q: (string, string))
    requires forall p <- a :: BarFree(p)
    requires q in Scanned(s, teamId, a, now, cap).known && q !in Begin(s, teamId).known
    ensures var c := Scanned(s, teamId, a, now, cap);
            c.t.members == s.members && NoBar(q.0) && ActiveMember(s.members, teamId, q.0) && |KnownOf(c.known, q.0)| <= cap
    decreases |a|
  {
    var a', p := a[..|a| - 1], a[|a| - 1];
    var c := Scanned(s, teamId, a', now, cap);
    assert (forall x <- a' :: x in a) && p in a;
    NextCounts(c, teamId, p, now, cap);
    MembersStay(s, teamId, a', now, cap);
    KnownOfAdd(c.known, (p.User(), p.Node()), q.0);
    KnownOfMember(c.known, p.User(), p.Node());
    if q in c.known {
      Newcomer(s, teamId, a', now, cap, q);
    }
  }

  lemma {:induction false} MembersStay(s: Tables, teamId: string, a: seq<Payload>, now: int, cap: int)
    ensures Scanned(s, teamId, a, now, cap).t.members == s.members
    decreases |a|
  {
    if a == [] {
    } else {
      MembersStay(s, teamId, a[..|a| - 1], now, cap);
      NextCounts(Scanned(s, teamId, a[..|a| - 1], now, cap), teamId, a[|a| - 1], now, cap);
    }
  }

  /** A counted pair without a row of its own: the witness that a batch is not attached. */
  lemma Stranger(s: Tables, teamId: string, a: seq<Payload>, now: int, cap: int) returns (q: (string, string))
    requires !Attached(Scanned(s, teamId, a, now, cap), teamId)
    ensures var c := Scanned(s, teamId, a, now, cap);
            q in c.known && q !in KnownPairs(c.t.nodes, teamId) && q !in Begin(s, teamId).known
  {
    var c := Scanned(s, teamId, a, now, cap);
    RowsCounted(s, teamId, a, now, cap);
    OldPairsStay(s, teamId, a, now, cap);
    q :| q in c.known && q !in KnownPairs(c.t.nodes, teamId);
  }

  lemma OldPairsStay(s: Tables, teamId: string, a: seq<Payload>, now: int, cap: int)
    ensures Begin(s, teamId).known <= KnownPairs(Scanned(s, teamId, a, now, cap).t.nodes, teamId)
  {
    forall q <- Begin(s, teamId).known ensures q in KnownPairs(Scanned(s, teamId, a, now, cap).t.nodes, teamId) {
      OwnersStay(s, teamId, a, now, cap, q.1);
    }
  }

  lemma FewerRows(c: Scan, teamId: string, q: (string, string))
    requires KnownPairs(c.t.nodes, teamId) <= c.known
    requires q in c.known && q !in KnownPairs(c.t.nodes, teamId)
    ensures |KnownOf(KnownPairs(c.t.nodes, teamId), q.0)| < |KnownOf(c.known, q.0)|
  {
    var rows, all := KnownOf(KnownPairs(c.t.nodes, teamId), q.0), KnownOf(c.known, q.0);
    KnownOfMember(c.known, q.0, q.1);
    KnownOfMember(KnownPairs(c.t.nodes, teamId), q.0, q.1);
    NodesArePairs(c.t.nodes, teamId, q.0);
    NodesAreKnown(c.t.nodes, c.known, teamId, q.0);
    SetSize(rows + {q.1}, all);
  }

  lemma BoundScan(c: Scan, u: string) returns (length: nat)
    ensures Below(c, u, length)
  {
    length := LengthBound(c.t.nodes.Keys + (set q | q in c.known :: q.1) + c.touched);
    forall q <- c.known ensures |q.1| < length {
      assert q.1 in (set r | r in c.known :: r.1);
    }
  }

  /** If a batch admits one node from two users, or a node that has a row of somebody else, uploads from enough new
      nodes tell the cut: in one batch the last of them is refused, in two batches none is. */
  lemma ForeignNodeTells(s: Tables, teamId: string, a: seq<Payload>, now: int, cap: int) returns (b: seq<Payload>)
    requires forall p <- a :: BarFree(p)
    requires !OwnNodes(s.nodes, teamId, Passed(s, teamId, a, cap))
    ensures (forall p <- b :: BarFree(p)) && !Cuttable(s, teamId, a, b, now, cap)
  {
    AttachedIff(s, teamId, a, now, cap);
    var c := Scanned(s, teamId, a, now, cap);
    var t := Batch(s, teamId, a, now, cap);
    var f := Begin(t, teamId);
    var q := Stranger(s, teamId, a, now, cap);
    Newcomer(s, teamId, a, now, cap, q);
    RowsCounted(s, teamId, a, now, cap);
    FewerRows(c, teamId, q);
    var length := BoundScan(c, q.0);
    assert Below(f, q.0, length);
    var m := cap - |KnownOf(c.known, q.0)|;
    b := FromNews(teamId, q.0, length, m + 1);
    NewsBarFree(teamId, q.0, length, m + 1);
    NewPayloads(f, teamId, q.0, length, m + 1, now, cap);
    OneTooMany(c, teamId, q.0, length, m, now, cap);
    ScansAppend(Begin(s, teamId), teamId, a, b, now, cap);
    RejectionTells(s, teamId, a, b, now, cap);
  }

  lemma RejectionTells(s: Tables, teamId: string, a: seq<Payload>, b: seq<Payload>, now: int, cap: int)
    requires |Reply(s, teamId, a + b, now, cap).rejected| == |Reply(s, teamId, a, now, cap).rejected| + 1
    requires Reply(Batch(s, teamId, a, now, cap), teamId, b, now, cap).rejected == []
    ensures !Cuttable(s, teamId, a, b, now, cap)
  {}

  /** Uploading a batch together with any continuation is the same as uploading it first, if and only if
      the payloads it admits have one owner per node: no row of somebody else, no second sender. */
  lemma SplitsIff(s: Tables, teamId: string, a: seq<Payload>, now: int, cap: int)
    requires forall p <- a :: BarFree(p)
    ensures OwnNodes(s.nodes, teamId, Passed(s, teamId, a, cap))
            <==> forall b: seq<Payload> | (forall p <- b :: BarFree(p)) :: Cuttable(s, teamId, a, b, now, cap)
  {
    AttachedIff(s, teamId, a, now, cap);
    if OwnNodes(s.nodes, teamId, Passed(s, teamId, a, cap)) {
      forall b: seq<Payload> | (forall p <- b :: BarFree(p)) ensures Cuttable(s, teamId, a, b, now, cap) {
        AttachedSplits(s, teamId, a, b, now, cap);
      }
    } else {
      var b := ForeignNodeTells(s, teamId, a, now, cap);
    }
  }

  // ---- an upload that shows the cut ----------------------------------------

  function DailyFrom(u: string, n: string): Payload { Daily(SyncedDaily("t", u, n, 0, "p", "m", ZERO, "")) }

  /** User u is active in team t and may have one device; device n belongs to user v. */
  const TAKEN := EMPTY.(
    members := map[("t", "u") := Member(Plain, Active)],
    nodes := map["n" := NodeRow("v", "t", 0, 0)])

  lemma NobodysNodes(nodes: map<string, NodeRow>, u: string)
    requires forall n <- nodes :: nodes[n].userId != u
    ensures KnownOf(KnownPairs(nodes, "t"), u) == {}
  {
    forall n | n in KnownOf(KnownPairs(nodes, "t"), u) ensures false {
      KnownOfMember(KnownPairs(nodes, "t"), u, n);
    }
  }

  lemma OldDevicePasses()
    ensures var c := Next(Begin(TAKEN, "t"), "t", DailyFrom("u", "n"), 0, 1);
            && c.resp.rejected == [] && c.t.nodes == map["n" := NodeRow("v", "t", 0, 0)] && c.t.members == TAKEN.members
            && c.known == {("v", "n"), ("u", "n")}
  {
    NobodysNodes(TAKEN.nodes, "u");
    assert TAKEN.nodes["n"].userId == "v";
    assert KnownPairs(TAKEN.nodes, "t") == {("v", "n")};
    NextCounts(Begin(TAKEN, "t"), "t", DailyFrom("u", "n"), 0, 1);
  }

  /** The node of somebody else goes through, but takes the batch's only place; in an upload of its own the
      next node finds the place free. */
  lemma CutShows()
    ensures !Cuttable(TAKEN, "t", [DailyFrom("u", "n")], [DailyFrom("u", "m")], 0, 1)
  {
    var (p, q) := (DailyFrom("u", "n"), DailyFrom("u", "m"));
    var c := Next(Begin(TAKEN, "t"), "t", p, 0, 1);
    OldDevicePasses();
    ScanOfOne(TAKEN, "t", p, 0, 1);
    SecondDevice(c, q);
    ScansStep(Begin(TAKEN, "t"), "t", [p], q, 0, 1);
    var t := Batch(TAKEN, "t", [p], 0, 1);
    FreeDevice(t, q);
    ScanOfOne(t, "t", q, 0, 1);
    RejectionTells(TAKEN, "t", [p], [q], 0, 1);
  }

  lemma SecondDevice(c: Scan, p: Payload)
    requires c.known == {("v", "n"), ("u", "n")} && c.t.members == TAKEN.members && p == DailyFrom("u", "m")
    ensures Next(c, "t", p, 0, 1).resp.rejected == c.resp.rejected + [Rejection(p.Id(), DeviceLimit)]
  {
    KnownOfMember(c.known, "u", "n");
    SubsetSize({"n"}, KnownOf(c.known, "u"));
  }

  lemma FreeDevice(t: Tables, p: Payload)
    requires t.nodes == map["n" := NodeRow("v", "t", 0, 0)] && t.members == TAKEN.members && p == DailyFrom("u", "m")
    ensures Next(Begin(t, "t"), "t", p, 0, 1).resp.rejected == []
  {
    NobodysNodes(t.nodes, "u");
  }
}
