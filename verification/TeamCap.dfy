/** Device cap and the (user, node) pairs a batch counts against it. */
module TeamCap {
  import opened Wrappers
  import opened JoinedKeys
  import opened TeamModel
  import opened TeamBatch

  lemma SetSize<T>(a: set<T>, b: set<T>)
    requires a <= b
    ensures |a| <= |b|
  {
    SubsetSize(a, b);
  }

  lemma KnownOfAdd(known: set<(string, string)>, q: (string, string), u: string)
    ensures KnownOf(known + {q}, u) == if q.0 == u then KnownOf(known, u) + {q.1} else KnownOf(known, u)
  {
    forall n | n in KnownOf(known, u) ensures n in KnownOf(known + {q}, u) {
      assert (u, n) in known + {q};
    }
    if q.0 == u {
      assert q in known + {q};
    }
  }

  lemma KnownOfMember(known: set<(string, string)>, u: string, n: string)
    ensures n in KnownOf(known, u) <==> (u, n) in known
  {
    if (u, n) in known {
      assert (u, n).1 in KnownOf(known, u);
    }
  }

  ghost predicate CountsNothing(c: Scan, d: Scan) {
    d.known == c.known && d.t.nodes == c.t.nodes && d.touched == c.touched
  }

  /** Step `d` of scan `c` touches the node of payload `p` for the first time. */
  ghost predicate Counts(c: Scan, d: Scan, teamId: string, p: Payload, now: int) {
    && NodeKey(p.User(), p.Node()) !in c.touched
    && d.known == c.known + {(p.User(), p.Node())}
    && d.touched == c.touched + {NodeKey(p.User(), p.Node())}
    && d.t.nodes == TouchNode(c.t.nodes, p.Node(), p.User(), teamId, now)
  }

  ghost predicate Admitted(c: Scan, teamId: string, p: Payload, cap: int) {
    Refusal(c.t.members, teamId, p).None? && !OverCap(c, p, cap)
  }

  lemma WriteCountsNothing(c: Scan, p: Payload, now: int)
    ensures CountsNothing(c, Write(c, p, now)) && Write(c, p, now).t.members == c.t.members
  {}

  lemma TouchCounts(c: Scan, teamId: string, p: Payload, now: int)
    ensures var d := Touch(c, teamId, p, now);
            d.t.members == c.t.members
            && if NodeKey(p.User(), p.Node()) in c.touched then CountsNothing(c, d) else Counts(c, d, teamId, p, now)
  {}

  /** A step counts at most the pair of its own payload, and only for an admitted one. */
  lemma NextCounts(c: Scan, teamId: string, p: Payload, now: int, cap: int)
    ensures var d := Next(c, teamId, p, now, cap);
            && d.t.members == c.t.members
            && if Admitted(c, teamId, p, cap) && NodeKey(p.User(), p.Node()) !in c.touched
               then Counts(c, d, teamId, p, now) else CountsNothing(c, d)
  {
    TouchCounts(c, teamId, p, now);
    WriteCountsNothing(Touch(c, teamId, p, now), p, now);
  }

  lemma TouchedPairs(nodes: map<string, NodeRow>, teamId: string, q: (string, string), now: int)
    ensures KnownPairs(TouchNode(nodes, q.1, q.0, teamId, now), teamId)
            == if q.1 in nodes then KnownPairs(nodes, teamId) else KnownPairs(nodes, teamId) + {q}
  {
    var after := TouchNode(nodes, q.1, q.0, teamId, now);
    forall n | n in nodes && nodes[n].teamId == teamId ensures (nodes[n].userId, n) in KnownPairs(after, teamId) {
      assert n in after && after[n].teamId == teamId && after[n].userId == nodes[n].userId;
    }
    if q.1 !in nodes {
      assert after[q.1].teamId == teamId && (after[q.1].userId, q.1) == q;
    }
  }

  /** All rows of the team are counted, whatever the batch. */
  lemma {:induction false} RowsCounted(s: Tables, teamId: string, ps: seq<Payload>, now: int, cap: int)
    ensures var c := Scanned(s, teamId, ps, now, cap); KnownPairs(c.t.nodes, teamId) <= c.known
    decreases |ps|
  {
    if ps == [] {
    } else {
      var c := Scanned(s, teamId, ps[..|ps| - 1], now, cap);
      var p := ps[|ps| - 1];
      RowsCounted(s, teamId, ps[..|ps| - 1], now, cap);
      NextCounts(c, teamId, p, now, cap);
      TouchedPairs(c.t.nodes, teamId, (p.User(), p.Node()), now);
    }
  }

  /** The nodes counted for a user are those of the start, or at most as many as the cap. */
  lemma {:induction false} CountBounded(s: Tables, teamId: string, ps: seq<Payload>, now: int, cap: int, u: string)
    ensures var c := Scanned(s, teamId, ps, now, cap);
            && (KnownOf(c.known, u) == KnownOf(Begin(s, teamId).known, u) || |KnownOf(c.known, u)| <= cap)
            && Begin(s, teamId).known <= c.known
    decreases |ps|
  {
    if ps == [] {
    } else {
      var c := Scanned(s, teamId, ps[..|ps| - 1], now, cap);
      var p := ps[|ps| - 1];
      CountBounded(s, teamId, ps[..|ps| - 1], now, cap, u);
      NextCounts(c, teamId, p, now, cap);
      KnownOfAdd(c.known, (p.User(), p.Node()), u);
      KnownOfMember(c.known, p.User(), p.Node());
    }
  }

  lemma NodesAreKnown(nodes: map<string, NodeRow>, known: set<(string, string)>, teamId: string, u: string)
    requires KnownPairs(nodes, teamId) <= known
    ensures NodesOf(nodes, teamId, u) <= KnownOf(known, u)
  {
    forall n | n in NodesOf(nodes, teamId, u) ensures n in KnownOf(known, u) {
      assert (u, n) in known;
    }
  }

  lemma NodesArePairs(nodes: map<string, NodeRow>, teamId: string, u: string)
    ensures KnownOf(KnownPairs(nodes, teamId), u) == NodesOf(nodes, teamId, u)
  {
    NodesAreKnown(nodes, KnownPairs(nodes, teamId), teamId, u);
  }

  /** The cap: whatever a batch mixes, no user of the team ends with more node rows than the larger of
      the cap and the number they started with. */
  lemma DeviceCap(s: Tables, teamId: string, ps: seq<Payload>, now: int, cap: int, u: string)
    ensures |NodesOf(Batch(s, teamId, ps, now, cap).nodes, teamId, u)| <= Max(cap, |NodesOf(s.nodes, teamId, u)|)
  {
    var c := Scanned(s, teamId, ps, now, cap);
    RowsCounted(s, teamId, ps, now, cap);
    CountBounded(s, teamId, ps, now, cap, u);
    NodesAreKnown(c.t.nodes, c.known, teamId, u);
    NodesArePairs(s.nodes, teamId, u);
    SetSize(NodesOf(c.t.nodes, teamId, u), KnownOf(c.known, u));
  }

  /** A node the user already has is never refused for the cap, at any point of any batch. */
  lemma OldNodesPass(s: Tables, teamId: string, ps: seq<Payload>, p: Payload, now: int, cap: int)
    requires p.Node() in NodesOf(s.nodes, teamId, p.User())
    ensures !OverCap(Scanned(s, teamId, ps, now, cap), p, cap)
  {
    CountBounded(s, teamId, ps, now, cap, p.User());
    assert (p.User(), p.Node()) in Begin(s, teamId).known;
  }

  /** No row ever changes its owner, and no row disappears. */
  lemma {:induction false} OwnersStay(s: Tables, teamId: string, ps: seq<Payload>, now: int, cap: int, n: string)
    requires n in s.nodes
    ensures var after := Batch(s, teamId, ps, now, cap).nodes;
            n in after && after[n].userId == s.nodes[n].userId && after[n].teamId == s.nodes[n].teamId
    decreases |ps|
  {
    if ps == [] {
    } else {
      var c := Scanned(s, teamId, ps[..|ps| - 1], now, cap);
      OwnersStay(s, teamId, ps[..|ps| - 1], now, cap, n);
      NextCounts(c, teamId, ps[|ps| - 1], now, cap);
    }
  }
}
