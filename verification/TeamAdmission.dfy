/** What a batch admits, counts and inserts, told from its input alone, and the batches for which the
    shortcuts of the server show. */
module TeamAdmission {
  import opened Wrappers
  import opened JoinedKeys
  import opened TeamModel
  import opened TeamBatch
  import opened TeamRollup
  import opened TeamCap
  import opened TeamBatching

  /** The keys under which a batch remembers the nodes it has touched. */
  function Keys(ps: seq<Payload>): set<string>
    decreases |ps|
  {
    if ps == [] then {} else Keys(ps[..|ps| - 1]) + {NodeKey(ps[|ps| - 1].User(), ps[|ps| - 1].Node())}
  }

  /** The pairs that admitted payloads add to a cap: one for each node key, the first that comes with it. */
  function Counted(admitted: seq<Payload>): set<(string, string)>
    decreases |admitted|
  {
    if admitted == [] then {}
    else
      var before, p := admitted[..|admitted| - 1], admitted[|admitted| - 1];
      Counted(before) + if NodeKey(p.User(), p.Node()) in Keys(before) then {} else {(p.User(), p.Node())}
  }

  /** A payload of an active member passes when its node counts already or the user is below the cap. */
  predicate Passes(s: Tables, teamId: string, before: seq<Payload>, p: Payload, cap: int) {
    var known := KnownPairs(s.nodes, teamId) + Counted(before);
    Refusal(s.members, teamId, p).None? && ((p.User(), p.Node()) in known || |KnownOf(known, p.User())| < cap)
  }

  /** The payloads of a batch that are not rejected, in order. */
  function Passed(s: Tables, teamId: string, ps: seq<Payload>, cap: int): seq<Payload>
    decreases |ps|
  {
    if ps == [] then []
    else
      var before, p := Passed(s, teamId, ps[..|ps| - 1], cap), ps[|ps| - 1];
      before + if Passes(s, teamId, before, p, cap) then [p] else []
  }

  function Ids(es: seq<SyncedEvent>): set<string> { set e <- es :: e.syncEventId }

  /** The events among admitted payloads that are not stored yet, each id once. */
  function NewEvents(events: map<string, EventRow>, admitted: seq<Payload>): seq<SyncedEvent>
    decreases |admitted|
  {
    if admitted == [] then []
    else
      var before, p := NewEvents(events, admitted[..|admitted| - 1]), admitted[|admitted| - 1];
      before + if p.Event? && p.Id() !in events && p.Id() !in Ids(before) then [p.e] else []
  }

  lemma {:induction false} PassedPart(s: Tables, teamId: string, ps: seq<Payload>, cap: int)
    ensures forall p <- Passed(s, teamId, ps, cap) :: p in ps && Refusal(s.members, teamId, p).None?
    decreases |ps|
  {
    if ps == [] {
    } else {
      PassedPart(s, teamId, ps[..|ps| - 1], cap);
      assert ps == ps[..|ps| - 1] + [ps[|ps| - 1]];
    }
  }

  lemma {:induction false} PassedFront(s: Tables, teamId: string, ps: seq<Payload>, k: nat, cap: int)
    requires k <= |ps|
    ensures Passed(s, teamId, ps[..k], cap) <= Passed(s, teamId, ps, cap)
    decreases |ps|
  {
    if k == |ps| {
      assert ps[..k] == ps;
    } else {
      assert ps[..|ps| - 1][..k] == ps[..k];
      PassedFront(s, teamId, ps[..|ps| - 1], k, cap);
    }
  }

  // ---- the scan does what the input says -----------------------------------

  ghost predicate HasCounted(c: Scan, s: Tables, teamId: string, admitted: seq<Payload>) {
    c.t.members == s.members && c.known == KnownPairs(s.nodes, teamId) + Counted(admitted) && c.touched == Keys(admitted)
  }

  ghost predicate HasInserted(c: Scan, s: Tables, admitted: seq<Payload>) {
    c.inserted == NewEvents(s.events, admitted) && c.t.events.Keys == s.events.Keys + Ids(c.inserted)
  }

  /** Scan `c` has admitted just these payloads. */
  ghost predicate Has(c: Scan, s: Tables, teamId: string, admitted: seq<Payload>) {
    HasCounted(c, s, teamId, admitted) && HasInserted(c, s, admitted)
  }

  lemma Grow<T>(xs: seq<T>, x: T)
    ensures (xs + [x])[..|xs + [x]| - 1] == xs && (xs + [x])[|xs + [x]| - 1] == x
  {}

  lemma CountedMore(admitted: seq<Payload>, p: Payload)
    ensures var key := NodeKey(p.User(), p.Node());
            && Counted(admitted + [p]) == Counted(admitted) + (if key in Keys(admitted) then {} else {(p.User(), p.Node())})
            && Keys(admitted + [p]) == Keys(admitted) + {key}
  {
    Grow(admitted, p);
  }

  lemma IdsMore(es: seq<SyncedEvent>, e: SyncedEvent)
    ensures Ids(es + [e]) == Ids(es) + {e.syncEventId}
  {
    forall id ensures id in Ids(es + [e]) <==> id in Ids(es) + {e.syncEventId} {
      if x :| x in es && x.syncEventId == id {
        assert x in es + [e];
      }
      if id == e.syncEventId {
        assert e in es + [e];
      }
    }
  }

  lemma NewEventsMore(events: map<string, EventRow>, admitted: seq<Payload>, p: Payload)
    ensures var before := NewEvents(events, admitted);
            NewEvents(events, admitted + [p]) == before + if p.Event? && p.Id() !in events && p.Id() !in Ids(before) then [p.e] else []
  {
    Grow(admitted, p);
  }

  /** A step inserts an event exactly when it is admitted and its id is new. */
  lemma InsertsIff(c: Scan, teamId: string, p: Payload, now: int, cap: int)
    ensures var d := Next(c, teamId, p, now, cap);
            if Admitted(c, teamId, p, cap) && p.Event? && p.e.syncEventId !in c.t.events
            then Inserts(c, d, p.e, now) else InsertsNothing(c, d)
  {
    if Admitted(c, teamId, p, cap) {
      var t := Touch(c, teamId, p, now);
      assert InsertsNothing(c, t);
      hide Touch, TouchNode, AddToBucket, KnownOf;
    }
  }

  lemma HasAdmits(c: Scan, s: Tables, teamId: string, admitted: seq<Payload>, p: Payload, cap: int)
    requires Has(c, s, teamId, admitted)
    ensures Admitted(c, teamId, p, cap) <==> Passes(s, teamId, admitted, p, cap)
  {
    hide KnownOf, KnownPairs, Counted, NewEvents, Refusal, NodeKey, Keys, Ids;
  }

  lemma CountsMore(c: Scan, s: Tables, teamId: string, admitted: seq<Payload>, p: Payload, now: int, cap: int)
    requires HasCounted(c, s, teamId, admitted) && Admitted(c, teamId, p, cap)
    ensures HasCounted(Next(c, teamId, p, now, cap), s, teamId, admitted + [p])
  {
    NextCounts(c, teamId, p, now, cap);
    CountedMore(admitted, p);
    hide Next, KnownOf, KnownPairs, Counted, Refusal, NodeKey, TouchNode, Admitted, Keys;
  }

  lemma InsertsMore(c: Scan, s: Tables, teamId: string, admitted: seq<Payload>, p: Payload, now: int, cap: int)
    requires HasInserted(c, s, admitted) && Admitted(c, teamId, p, cap)
    ensures HasInserted(Next(c, teamId, p, now, cap), s, admitted + [p])
  {
    InsertsIff(c, teamId, p, now, cap);
    NewEventsMore(s.events, admitted, p);
    if p.Event? {
      IdsMore(c.inserted, p.e);
    }
    hide Next, NewEvents, Refusal, AddToBucket, Admitted, Ids;
  }

  lemma HasMore(c: Scan, d: Scan, s: Tables, teamId: string, admitted: seq<Payload>, p: Payload, now: int, cap: int)
    requires Has(c, s, teamId, admitted) && Admitted(c, teamId, p, cap) && d == Next(c, teamId, p, now, cap)
    ensures Has(d, s, teamId, admitted + [p])
  {
    CountsMore(c, s, teamId, admitted, p, now, cap);
    InsertsMore(c, s, teamId, admitted, p, now, cap);
  }

  lemma HasSame(c: Scan, d: Scan, s: Tables, teamId: string, admitted: seq<Payload>, p: Payload, now: int, cap: int)
    requires Has(c, s, teamId, admitted) && !Admitted(c, teamId, p, cap) && d == Next(c, teamId, p, now, cap)
    ensures Has(d, s, teamId, admitted)
  {
    NextCounts(c, teamId, p, now, cap);
    InsertsIff(c, teamId, p, now, cap);
    hide Next, Counted, NewEvents, KnownPairs, Admitted, Keys, Ids;
  }

  lemma PassedStep(s: Tables, teamId: string, ps: seq<Payload>, cap: int)
    requires ps != []
    ensures var before, p := Passed(s, teamId, ps[..|ps| - 1], cap), ps[|ps| - 1];
            Passed(s, teamId, ps, cap) == if Passes(s, teamId, before, p, cap) then before + [p] else before
  {}

  /** The scan of a batch admits, counts and inserts what its input says. */
  lemma {:induction false} ScanIs(s: Tables, teamId: string, ps: seq<Payload>, now: int, cap: int)
    ensures Has(Scanned(s, teamId, ps, now, cap), s, teamId, Passed(s, teamId, ps, cap))
    decreases |ps|
  {
    if ps == [] {
    } else {
      var c, p := Scanned(s, teamId, ps[..|ps| - 1], now, cap), ps[|ps| - 1];
      var before := Passed(s, teamId, ps[..|ps| - 1], cap);
      ScanIs(s, teamId, ps[..|ps| - 1], now, cap);
      HasAdmits(c, s, teamId, before, p, cap);
      PassedStep(s, teamId, ps, cap);
      var d := Next(c, teamId, p, now, cap);
      assert Scanned(s, teamId, ps, now, cap) == d;
      hide *;
      if Passes(s, teamId, before, p, cap) {
        HasMore(c, d, s, teamId, before, p, now, cap);
      } else {
        HasSame(c, d, s, teamId, before, p, now, cap);
      }
    }
  }

  // ---- the rollup ----------------------------------------------------------

  /** A committed batch keeps the rollup in agreement if and only if no two of the new events it brings
      have one bucket text for two rollup rows. */
  lemma RollupAgreesIff(s: Tables, teamId: string, ps: seq<Payload>, now: int, cap: int)
    requires Agrees(s.events, s.rollup)
    ensures var t := Batch(s, teamId, ps, now, cap);
            Agrees(t.events, t.rollup) <==> NoCollisions(NewEvents(s.events, Passed(s, teamId, ps, cap)))
  {
    ScanIs(s, teamId, ps, now, cap);
    ScanAgreesIff(s, teamId, ps, now, cap);
  }

  /** An event of team t without anything remarkable in it but its names. */
  function EventFrom(u: string, n: string, localId: string): Payload {
    Event(SyncedEvent(Sha256Hex(SyncEventIdInput("t", u, n, localId)), "t", u, n, localId, "", Full, "p", None, "m", 0,
                      None, None, None, None, Tokens(1, 0, 0, 0, 0, None), None, None, 0, ""))
  }

  function TwoMembers(u: string, v: string): Tables {
    EMPTY.(members := map[("t", u) := Member(Plain, Active), ("t", v) := Member(Plain, Active)])
  }

  /** Node `y|z` of user `x` and node `z` of user `x|y`. */
  function Alike(x: string, y: string, z: string): (Payload, Payload) {
    (EventFrom(x, y + ['|'] + z, "1"), EventFrom(x + ['|'] + y, z, "22"))
  }

  lemma AlikeEvents(x: string, y: string, z: string)
    ensures var (p, q) := Alike(x, y, z);
            p.Id() != q.Id() && KeyText(KeyOf(p.e)) == KeyText(KeyOf(q.e)) && KeyOf(p.e) != KeyOf(q.e)
  {
    var (p, q) := Alike(x, y, z);
    AlikeTexts(x, y, z, [IntText(0), "p", "m", ""]);
    FourLong("t", x, y + ['|'] + z, "1");
    FourLong("t", x + ['|'] + y, z, "22");
    assert |p.User()| != |q.User()|;
  }

  lemma AlikeTexts(x: string, y: string, z: string, rest: seq<string>)
    requires |rest| == 4
    ensures Join([x, y + ['|'] + z, rest[0], rest[1], rest[2], rest[3]]) == Join([x + ['|'] + y, z, rest[0], rest[1], rest[2], rest[3]])
  {
    BarMoves(x, y, z, rest);
    assert [x, y + ['|'] + z] + rest == [x, y + ['|'] + z, rest[0], rest[1], rest[2], rest[3]];
    assert [x + ['|'] + y, z] + rest == [x + ['|'] + y, z, rest[0], rest[1], rest[2], rest[3]];
  }

  lemma FewPass(s: Tables, teamId: string, before: seq<Payload>, p: Payload, cap: int)
    requires Refusal(s.members, teamId, p).None? && s.nodes == map[] && |before| < cap
    ensures Passes(s, teamId, before, p, cap)
  {
    CountedSize(before);
    var counted := Counted(before);
    assert KnownPairs(s.nodes, teamId) + counted == counted;
    KnownSize(counted, p.User());
  }

  lemma {:induction false} CountedSize(ps: seq<Payload>)
    ensures |Counted(ps)| <= |ps|
    decreases |ps|
  {
    if ps == [] {
    } else {
      CountedSize(ps[..|ps| - 1]);
    }
  }

  lemma {:induction false} KnownSize(known: set<(string, string)>, u: string)
    ensures |KnownOf(known, u)| <= |known|
    decreases |known|
  {
    if known == {} {
      assert KnownOf(known, u) == {};
    } else {
      var q :| q in known;
      KnownSize(known - {q}, u);
      KnownOfAdd(known - {q}, q, u);
      assert known - {q} + {q} == known;
    }
  }

  lemma BothPass(s: Tables, teamId: string, p: Payload, q: Payload, cap: int)
    requires Refusal(s.members, teamId, p).None? && Refusal(s.members, teamId, q).None? && s.nodes == map[] && cap >= 2
    ensures Passed(s, teamId, [p, q], cap) == [p, q]
  {
    FewPass(s, teamId, [], p, cap);
    FewPass(s, teamId, [p], q, cap);
    PassedStep(s, teamId, [p], cap);
    PassedStep(s, teamId, [p, q], cap);
    hide Passes, Refusal;
    assert [p, q][..1] == [p] && [p][..0] == [] && [] + [p] == [p] && [p] + [q] == [p, q];
  }

  lemma BothNew(p: Payload, q: Payload)
    requires p.Event? && q.Event? && p.Id() != q.Id()
    ensures NewEvents(map[], [p, q]) == [p.e, q.e]
  {
    NewEventsMore(map[], [], p);
    NewEventsMore(map[], [p], q);
    assert [] + [p] == [p] && [p] + [q] == [p, q] && [] + [p.e] == [p.e] && [p.e] + [q.e] == [p.e, q.e];
  }

  lemma AlikeAdmitted(x: string, y: string, z: string)
    ensures var (p, q) := Alike(x, y, z); var members := TwoMembers(x, x + ['|'] + y).members;
            Refusal(members, "t", p).None? && Refusal(members, "t", q).None?
  {}

  /** The bucket of these two events is filed for the first one: the rollup misses the second. */
  lemma CollisionBreaks(x: string, y: string, z: string, now: int)
    ensures var (p, q) := Alike(x, y, z); var s := TwoMembers(x, x + ['|'] + y);
            var t := Batch(s, "t", [p, q], now, 5);
            Agrees(s.events, s.rollup) && !Agrees(t.events, t.rollup)
  {
    var (p, q) := Alike(x, y, z);
    var s := TwoMembers(x, x + ['|'] + y);
    AlikeAdmitted(x, y, z);
    BothPass(s, "t", p, q, 5);
    AlikeEvents(x, y, z);
    BothNew(p, q);
    RollupAgreesIff(s, "t", [p, q], now, 5);
    hide Batch, Passed, NewEvents, EventFrom, KeyText, KeyOf, EventsOf;
    assert [p.e, q.e][0] == p.e && [p.e, q.e][1] == q.e;
  }

  // ---- the names of stored rows --------------------------------------------

  lemma {:induction false} NewEventsPart(events: map<string, EventRow>, admitted: seq<Payload>)
    ensures forall e <- NewEvents(events, admitted) :: Event(e) in admitted
    decreases |admitted|
  {
    if admitted == [] {
    } else {
      NewEventsPart(events, admitted[..|admitted| - 1]);
      assert admitted == admitted[..|admitted| - 1] + [admitted[|admitted| - 1]];
    }
  }

  /** A row that a batch adds is the event of a payload that passed all checks. */
  lemma NewRow(s: Tables, teamId: string, ps: seq<Payload>, now: int, cap: int, id: string) returns (p: Payload)
    requires id in Batch(s, teamId, ps, now, cap).events && id !in s.events
    ensures p in ps && p.Event? && p.Id() == id && Refusal(s.members, teamId, p).None?
    ensures Batch(s, teamId, ps, now, cap).events[id].e == RowOf(p.e, now).e
  {
    ScanIs(s, teamId, ps, now, cap);
    ScanStored(s, teamId, ps, now, cap);
    PassedPart(s, teamId, ps, cap);
    NewEventsPart(s.events, Passed(s, teamId, ps, cap));
    hide NewEvents, Passed, Scanned, RowOf;
    var c := Scanned(s, teamId, ps, now, cap);
    assert id in Ids(c.inserted);
    var e :| e in c.inserted && e.syncEventId == id;
    p := Event(e);
    assert RowOf(e, now).e == RowOf(e, 0).e by { TimeAside(e, now); }
  }

  lemma TimeAside(e: SyncedEvent, now: int)
    ensures RowOf(e, now).e == RowOf(e, 0).e
  {}

  /** Every row is stored under the hash of its own names. */
  ghost predicate SelfNamed(events: map<string, EventRow>) { forall id <- events :: id == ExpectedId(events[id].e.teamId, events[id].e) }

  lemma SelfNamedStays(s: Tables, teamId: string, ps: seq<Payload>, now: int, cap: int)
    requires SelfNamed(s.events)
    ensures SelfNamed(Batch(s, teamId, ps, now, cap).events)
  {
    ScanStored(s, teamId, ps, now, cap);
    var after := Batch(s, teamId, ps, now, cap).events;
    forall id <- after ensures id == ExpectedId(after[id].e.teamId, after[id].e) {
      if id !in s.events {
        var p := NewRow(s, teamId, ps, now, cap, id);
      }
    }
  }

  // ---- foreign nodes -------------------------------------------------------

  /** Each node id of the payloads belongs to one (team, user): its row, if any, is the sender's own, and no
      two senders share it. */
  ghost predicate OwnNodes(nodes: map<string, NodeRow>, teamId: string, ps: seq<Payload>) {
    && (forall p <- ps | p.Node() in nodes :: nodes[p.Node()].teamId == teamId && nodes[p.Node()].userId == p.User())
    && (forall p, q | p in ps && q in ps && p.Node() == q.Node() :: p.User() == q.User())
  }

  lemma {:induction false} CountedPart(ps: seq<Payload>)
    ensures forall q <- Counted(ps) :: exists p :: p in ps && q == (p.User(), p.Node())
    decreases |ps|
  {
    if ps == [] {
    } else {
      var before, last := ps[..|ps| - 1], ps[|ps| - 1];
      CountedPart(before);
      assert last in ps;
      forall q <- Counted(ps) ensures exists p :: p in ps && q == (p.User(), p.Node()) {
        if q in Counted(before) {
          var p :| p in before && q == (p.User(), p.Node());
          assert p in ps;
        }
      }
    }
  }

  /** Every node row is an old row, or was made for an admitted payload by its sender; and every node that an
      admitted payload counts has a row. */
  ghost predicate RowsExplained(before: map<string, NodeRow>, nodes: map<string, NodeRow>, teamId: string, admitted: seq<Payload>) {
    && (forall n <- nodes | n !in before ::
          nodes[n].teamId == teamId && exists p :: p in admitted && p.Node() == n && nodes[n].userId == p.User())
    && (forall q <- Counted(admitted) :: q.1 in nodes)
  }

  lemma ExplainedMore(before: map<string, NodeRow>, nodes: map<string, NodeRow>, teamId: string,
                      admitted: seq<Payload>, p: Payload, now: int)
    requires RowsExplained(before, nodes, teamId, admitted)
    ensures RowsExplained(before, TouchNode(nodes, p.Node(), p.User(), teamId, now), teamId, admitted + [p])
    ensures NodeKey(p.User(), p.Node()) in Keys(admitted) ==> RowsExplained(before, nodes, teamId, admitted + [p])
  {
    CountedMore(admitted, p);
    hide NodeKey, Counted, Keys;
    var all, after := admitted + [p], TouchNode(nodes, p.Node(), p.User(), teamId, now);
    assert p in all;
    forall n <- after | n !in before
      ensures after[n].teamId == teamId && exists x :: x in all && x.Node() == n && after[n].userId == x.User()
    {
      if n in nodes {
        var x :| x in admitted && x.Node() == n && nodes[n].userId == x.User();
        assert x in all;
      }
    }
    forall n <- nodes | n !in before
      ensures nodes[n].teamId == teamId && exists x :: x in all && x.Node() == n && nodes[n].userId == x.User()
    {
      var x :| x in admitted && x.Node() == n && nodes[n].userId == x.User();
      assert x in all;
    }
  }

  lemma {:induction false} RowsAreExplained(s: Tables, teamId: string, ps: seq<Payload>, now: int, cap: int)
    ensures RowsExplained(s.nodes, Scanned(s, teamId, ps, now, cap).t.nodes, teamId, Passed(s, teamId, ps, cap))
    decreases |ps|
  {
    if ps == [] {
    } else {
      var c, p := Scanned(s, teamId, ps[..|ps| - 1], now, cap), ps[|ps| - 1];
      var before := Passed(s, teamId, ps[..|ps| - 1], cap);
      RowsAreExplained(s, teamId, ps[..|ps| - 1], now, cap);
      ScanIs(s, teamId, ps[..|ps| - 1], now, cap);
      HasAdmits(c, s, teamId, before, p, cap);
      PassedStep(s, teamId, ps, cap);
      ExplainedMore(s.nodes, c.t.nodes, teamId, before, p, now);
      NextCounts(c, teamId, p, now, cap);
      assert Scanned(s, teamId, ps, now, cap) == Next(c, teamId, p, now, cap);
      hide Next, RowsExplained, Passes, Admitted, Passed, Scanned, TouchNode, Counted, Keys, NodeKey;
    }
  }

  /** The admitted payloads of one owner per node count no node whose row belongs to somebody else. */
  lemma OwnNodesAttached(s: Tables, teamId: string, ps: seq<Payload>, now: int, cap: int)
    requires OwnNodes(s.nodes, teamId, Passed(s, teamId, ps, cap))
    ensures Attached(Scanned(s, teamId, ps, now, cap), teamId)
  {
    var c, admitted := Scanned(s, teamId, ps, now, cap), Passed(s, teamId, ps, cap);
    ScanIs(s, teamId, ps, now, cap);
    RowsAreExplained(s, teamId, ps, now, cap);
    RowsCounted(s, teamId, ps, now, cap);
    CountedPart(admitted);
    forall q <- c.known ensures q in KnownPairs(c.t.nodes, teamId) {
      if q in Counted(admitted) {
        OwnRow(s, teamId, ps, now, cap, q);
      } else {
        OwnersStay(s, teamId, ps, now, cap, q.1);
      }
    }
  }

  lemma OwnRow(s: Tables, teamId: string, ps: seq<Payload>, now: int, cap: int, q: (string, string))
    requires OwnNodes(s.nodes, teamId, Passed(s, teamId, ps, cap)) && q in Counted(Passed(s, teamId, ps, cap))
    ensures q in KnownPairs(Scanned(s, teamId, ps, now, cap).t.nodes, teamId)
  {
    var c, admitted := Scanned(s, teamId, ps, now, cap), Passed(s, teamId, ps, cap);
    RowsAreExplained(s, teamId, ps, now, cap);
    CountedPart(admitted);
    var p :| p in admitted && q == (p.User(), p.Node());
    if q.1 in s.nodes {
      OwnersStay(s, teamId, ps, now, cap, q.1);
    } else {
      var x :| x in admitted && x.Node() == q.1 && c.t.nodes[q.1].userId == x.User();
    }
    assert c.t.nodes[q.1].teamId == teamId && c.t.nodes[q.1].userId == q.0;
  }

  /** Payloads with one node key have one user and one node. */
  ghost predicate KeysTell(ps: seq<Payload>) {
    forall p <- ps, q <- ps | NodeKey(p.User(), p.Node()) == NodeKey(q.User(), q.Node()) :: p.User() == q.User() && p.Node() == q.Node()
  }

  lemma BarFreeKeysTell(ps: seq<Payload>)
    requires forall p <- ps :: NoBar(p.User())
    ensures KeysTell(ps)
  {
    forall p <- ps, q <- ps | NodeKey(p.User(), p.Node()) == NodeKey(q.User(), q.Node())
      ensures p.User() == q.User() && p.Node() == q.Node()
    {
      NodeKeyInjective(p.User(), p.Node(), q.User(), q.Node());
    }
  }

  /** Then every payload has its pair counted. */
  lemma {:induction false} AdmittedCounted(ps: seq<Payload>, p: Payload)
    requires KeysTell(ps) && p in ps
    ensures (p.User(), p.Node()) in Counted(ps)
    decreases |ps|
  {
    hide NodeKey;
    var before, last := ps[..|ps| - 1], ps[|ps| - 1];
    assert ps == before + [last] && last in ps && forall x <- before :: x in ps;
    CountedMore(before, last);
    if p in before {
      AdmittedCounted(before, p);
    } else if NodeKey(last.User(), last.Node()) in Keys(before) {
      var x := KeyFrom(before, NodeKey(last.User(), last.Node()));
      AdmittedCounted(before, x);
    }
  }

  lemma {:induction false} KeyFrom(ps: seq<Payload>, key: string) returns (p: Payload)
    requires key in Keys(ps)
    ensures p in ps && key == NodeKey(p.User(), p.Node())
    decreases |ps|
  {
    p := ps[|ps| - 1];
    if key != NodeKey(p.User(), p.Node()) {
      p := KeyFrom(ps[..|ps| - 1], key);
    }
  }

  /** A bar-free batch counts no node whose row belongs to somebody else if and only if the payloads it
      admits have one owner per node. */
  lemma AttachedIff(s: Tables, teamId: string, ps: seq<Payload>, now: int, cap: int)
    requires forall p <- ps :: BarFree(p)
    ensures Attached(Scanned(s, teamId, ps, now, cap), teamId) <==> OwnNodes(s.nodes, teamId, Passed(s, teamId, ps, cap))
  {
    var c, admitted := Scanned(s, teamId, ps, now, cap), Passed(s, teamId, ps, cap);
    if Attached(c, teamId) {
      ScanIs(s, teamId, ps, now, cap);
      PassedPart(s, teamId, ps, cap);
      forall p <- admitted
        ensures p.Node() in c.t.nodes && c.t.nodes[p.Node()].teamId == teamId && c.t.nodes[p.Node()].userId == p.User()
      {
        assert forall x <- admitted :: x in ps && BarFree(x);
        BarFreeKeysTell(admitted);
        AdmittedCounted(admitted, p);
        assert (p.User(), p.Node()) in KnownPairs(c.t.nodes, teamId);
      }
      forall p <- admitted | p.Node() in s.nodes
        ensures s.nodes[p.Node()].teamId == teamId && s.nodes[p.Node()].userId == p.User()
      {
        OwnersStay(s, teamId, ps, now, cap, p.Node());
      }
    } else if OwnNodes(s.nodes, teamId, admitted) {
      OwnNodesAttached(s, teamId, ps, now, cap);
    }
  }

  lemma OwnNodesFront(s: Tables, teamId: string, ps: seq<Payload>, k: nat, cap: int)
    requires k <= |ps| && OwnNodes(s.nodes, teamId, Passed(s, teamId, ps, cap))
    ensures OwnNodes(s.nodes, teamId, Passed(s, teamId, ps[..k], cap))
  {
    PassedFront(s, teamId, ps, k, cap);
    assert forall p <- Passed(s, teamId, ps[..k], cap) :: p in Passed(s, teamId, ps, cap);
  }

  /** While the payloads it has admitted before its last one have one owner per node, the batched server is
      the naive server. */
  lemma OwnNodesOneByOne(s: Tables, teamId: string, ps: seq<Payload>, now: int, cap: int)
    requires forall p <- ps :: BarFree(p)
    requires ps != [] ==> OwnNodes(s.nodes, teamId, Passed(s, teamId, ps[..|ps| - 1], cap))
    ensures (Batch(s, teamId, ps, now, cap), Reply(s, teamId, ps, now, cap)) == OneByOne(s, teamId, ps, now, cap)
  {
    forall k | 0 <= k < |ps| ensures Attached(Scanned(s, teamId, ps[..k], now, cap), teamId) {
      assert ps[..|ps| - 1][..k] == ps[..k];
      OwnNodesFront(s, teamId, ps[..|ps| - 1], k, cap);
      OwnNodesAttached(s, teamId, ps[..k], now, cap);
    }
    BatchIsOneByOne(s, teamId, ps, now, cap);
  }
}
