/** The batched server. */
module TeamServices {
  import opened Wrappers
  import opened JoinedKeys
  import opened UsageSums
  import opened TeamModel
  import opened TeamBatch
  import TeamMembership

  /** `${teamId}|${userId}`, the key of both per-batch caches. */
  function UserKey(teamId: string, userId: string): string { Join([teamId, userId]) }

  lemma UserKeyTail(teamId: string, u: string)
    ensures |UserKey(teamId, u)| == |teamId| + 1 + |u| && UserKey(teamId, u)[|teamId| + 1..] == u
  {
    assert [teamId, u][1..] == [u] && Join([u]) == u;
    assert UserKey(teamId, u) == teamId + ['|'] + u;
  }

  /** Within one team the key determines the user, bars or not. */
  lemma UserKeyInjective(teamId: string, u: string, v: string)
    requires UserKey(teamId, u) == UserKey(teamId, v)
    ensures u == v
  {
    UserKeyTail(teamId, u);
    UserKeyTail(teamId, v);
  }

  /** Cached statuses are those of the members table. */
  ghost predicate MembersCached(cache: map<string, MemberStatus>, members: map<(string, string), Member>, teamId: string) {
    forall u :: UserKey(teamId, u) in cache ==>
      (teamId, u) in members && cache[UserKey(teamId, u)] == members[(teamId, u)].status
  }

  /** A cached node set is what the scan counts for that user; an uncached user has only table rows. */
  ghost predicate NodesCached(cache: map<string, set<string>>, c: Scan, teamId: string) {
    forall u ::
      if UserKey(teamId, u) in cache then cache[UserKey(teamId, u)] == KnownOf(c.known, u)
      else KnownOf(c.known, u) == NodesOf(c.t.nodes, teamId, u)
  }

  lemma BeginCached(s: Tables, teamId: string)
    ensures NodesCached(map[], Begin(s, teamId), teamId)
  {
    var c := Begin(s, teamId);
    forall u ensures KnownOf(c.known, u) == NodesOf(s.nodes, teamId, u) {
      forall n | n in NodesOf(s.nodes, teamId, u) ensures n in KnownOf(c.known, u) {
        assert (u, n) in c.known;
      }
    }
  }

  lemma KnownMember(known: set<(string, string)>, userId: string, nodeId: string)
    ensures nodeId in KnownOf(known, userId) <==> (userId, nodeId) in known
  {}

  lemma KnownAdd(known: set<(string, string)>, userId: string, nodeId: string, u: string)
    ensures KnownOf(known + {(userId, nodeId)}, u) == if u == userId then KnownOf(known, u) + {nodeId} else KnownOf(known, u)
  {
    forall n ensures n in KnownOf(known + {(userId, nodeId)}, u) <==>
                     n in (if u == userId then KnownOf(known, u) + {nodeId} else KnownOf(known, u)) {
      KnownMember(known + {(userId, nodeId)}, u, n);
      KnownMember(known, u, n);
    }
  }

  /** A touched node only ever changes the cached set of the user it was touched for. */
  lemma TouchCached(before: map<string, set<string>>, c: Scan, teamId: string, p: Payload, now: int)
    requires NodesCached(before, c, teamId) && UserKey(teamId, p.User()) in before
    requires NodeKey(p.User(), p.Node()) !in c.touched
    ensures NodesCached(before[UserKey(teamId, p.User()) := before[UserKey(teamId, p.User())] + {p.Node()}],
                        Touch(c, teamId, p, now), teamId)
  {
    var k := UserKey(teamId, p.User());
    var after := before[k := before[k] + {p.Node()}];
    var c' := Touch(c, teamId, p, now);
    forall u
      ensures if UserKey(teamId, u) in after then after[UserKey(teamId, u)] == KnownOf(c'.known, u)
              else KnownOf(c'.known, u) == NodesOf(c'.t.nodes, teamId, u)
    {
      KnownAdd(c.known, p.User(), p.Node(), u);
      if UserKey(teamId, u) == k {
        UserKeyInjective(teamId, u, p.User());
      } else if UserKey(teamId, u) !in after {
        assert NodesOf(c'.t.nodes, teamId, u) == NodesOf(c.t.nodes, teamId, u);
      }
    }
  }

  /** `order` lists every key of `b` once: the iteration order of the bucket map. */
  ghost predicate Enumerates(order: seq<string>, b: map<string, Bucket>) {
    && (forall i, j :: 0 <= i < j < |order| ==> order[i] != order[j])
    && (forall text :: text in order <==> text in b)
  }

  lemma {:induction false} OrderSize(order: seq<string>, b: map<string, Bucket>)
    requires Enumerates(order, b)
    ensures |order| == |b|
    decreases |order|
  {
    if order == [] {
      assert b == map[];
    } else {
      var last := order[|order| - 1];
      var rest := Drop(b, last);
      assert order == order[..|order| - 1] + [last];
      OrderSize(order[..|order| - 1], rest);
    }
  }

  lemma EnumeratesMore(order: seq<string>, b: map<string, Bucket>, e: SyncedEvent)
    requires Enumerates(order, b)
    ensures Enumerates(if KeyText(KeyOf(e)) in b then order else order + [KeyText(KeyOf(e))], AddToBucket(b, e))
  {}

  /** The rollup table after the upserts of the first `j` buckets. */
  ghost function Upserts(rollup: map<RollupKey, DayRow>, b: map<string, Bucket>, order: seq<string>, j: nat, now: int): map<RollupKey, DayRow>
    requires j <= |order| && forall text <- order :: text in b
  {
    if j == 0 then rollup
    else
      var d := b[order[j - 1]];
      Accumulate(Upserts(rollup, b, order, j - 1, now), d.key, d.usage, d.pricing, now)
  }

  /** The buckets filed under the first `j` names. */
  ghost function FirstOf(b: map<string, Bucket>, order: seq<string>, j: nat): (r: map<string, Bucket>)
    requires j <= |order| && Distinct(b)
    ensures Distinct(r)
  {
    map text | text in b && text in order[..j] :: b[text]
  }

  lemma FirstOfNext(b: map<string, Bucket>, order: seq<string>, j: nat)
    requires Enumerates(order, b) && Distinct(b) && j < |order|
    ensures order[j] !in FirstOf(b, order, j) && b[order[j]].key !in Targets(FirstOf(b, order, j))
    ensures FirstOf(b, order, j + 1) == FirstOf(b, order, j)[order[j] := b[order[j]]]
  {
    assert order[..j + 1] == order[..j] + [order[j]];
    assert order[j] !in order[..j];
  }

  lemma {:induction false} UpsertsFlush(rollup: map<RollupKey, DayRow>, b: map<string, Bucket>, order: seq<string>, j: nat, now: int)
    requires Enumerates(order, b) && Distinct(b) && j <= |order|
    ensures Upserts(rollup, b, order, j, now) == Flush(rollup, FirstOf(b, order, j), now)
  {
    hide Flush, Accumulate, Targets;
    if j == 0 {
      assert FirstOf(b, order, 0) == map[];
      FlushNothing(rollup, now);
    } else {
      UpsertsFlush(rollup, b, order, j - 1, now);
      FirstOfNext(b, order, j - 1);
      FlushOneMore(rollup, FirstOf(b, order, j - 1), order[j - 1], b[order[j - 1]], now);
    }
  }

  /** All upserts together are the grouped write of the specification, whatever the iteration order. */
  lemma UpsertsAll(rollup: map<RollupKey, DayRow>, b: map<string, Bucket>, order: seq<string>, now: int)
    requires Enumerates(order, b) && Distinct(b)
    ensures Upserts(rollup, b, order, |order|, now) == Flush(rollup, b, now)
  {
    UpsertsFlush(rollup, b, order, |order|, now);
    assert order[..|order|] == order;
    assert FirstOf(b, order, |order|) == b;
  }

  /** What a batch remembers between payloads. */
  datatype Caches = Caches(
    memberships: map<string, MemberStatus>, touchedNodes: set<string>, userNodeSets: map<string, set<string>>)

  ghost predicate CachesAgree(caches: Caches, c: Scan, teamId: string) {
    && MembersCached(caches.memberships, c.t.members, teamId)
    && caches.touchedNodes == c.touched
    && NodesCached(caches.userNodeSets, c, teamId)
  }

  /** Whether a payload is turned away, and why. */
  function Decision(c: Scan, teamId: string, p: Payload, cap: int): Option<Reason> {
    var refusal := Refusal(c.t.members, teamId, p);
    if refusal.Some? then refusal else if OverCap(c, p, cap) then Some(DeviceLimit) else None
  }

  lemma NextIs(c: Scan, teamId: string, p: Payload, now: int, cap: int)
    ensures var why := Decision(c, teamId, p, cap);
            Next(c, teamId, p, now, cap)
            == if why.Some? then c.(resp := c.resp.Reject(p.Id(), why.value)) else Write(Touch(c, teamId, p, now), p, now)
  {}

  lemma TouchIsNodes(c: Scan, teamId: string, p: Payload, now: int)
    ensures var d := Touch(c, teamId, p, now);
            d.t == c.t.(nodes := d.t.nodes) && d.buckets == c.buckets && d.resp == c.resp
  {}

  lemma WriteKeepsCached(caches: Caches, c: Scan, teamId: string, p: Payload, now: int)
    requires CachesAgree(caches, c, teamId)
    ensures CachesAgree(caches, Write(c, p, now), teamId)
  {
    SameCached(caches, c, Write(c, p, now), teamId);
  }

  /** The caches are about members, nodes and touched keys, whatever else changes. */
  lemma SameCached(caches: Caches, c: Scan, d: Scan, teamId: string)
    requires CachesAgree(caches, c, teamId)
    requires d.known == c.known && d.touched == c.touched && d.t.members == c.t.members && d.t.nodes == c.t.nodes
    ensures CachesAgree(caches, d, teamId)
  {}

  datatype Inserted = Fresh | SameHash | OtherHash

  class TeamService {
    const maxDevicesPerUser: int
    var members: map<(string, string), Member>
    var nodes: map<string, NodeRow>
    var events: map<string, EventRow>
    var conflicts: seq<Conflict>
    var daily: map<DailyKey, DayRow>
    var rollup: map<RollupKey, DayRow>

    constructor (maxDevicesPerUser: int)
      ensures Contents() == EMPTY && this.maxDevicesPerUser == maxDevicesPerUser
    {
      this.maxDevicesPerUser := maxDevicesPerUser;
      members, nodes, events, conflicts, daily, rollup := map[], map[], map[], [], map[], map[];
    }

    function Contents(): Tables
      reads this
    {
      Tables(members, nodes, events, conflicts, daily, rollup)
    }

    /** Enrols a user and reports the role the new row would have got. */
    method AddMember(teamId: string, userId: string, role: Option<Role>) returns (reported: Role)
      modifies this`members
      ensures members == TeamMembership.Add(old(members), teamId, userId, role)
      ensures reported == TeamMembership.EffectiveRole(old(members), teamId, role)
      ensures TeamMembership.Does(old(members), TeamMembership.Change.AddMember(teamId, userId, role), members)
      ensures reported == if role.Some? then role.value
                          else if exists k :: k in old(members) && k.0 == teamId && old(members)[k].role == Admin then Plain else Admin
    {
      TeamMembership.ChangeDoes(members, TeamMembership.Change.AddMember(teamId, userId, role));
      TeamMembership.AnyAdmin(members, teamId);
      reported := OrElse(role, Plain);
      if role.None? {
        var count := |TeamMembership.Admins(members, teamId)|;
        if count == 0 {
          reported := Admin;
        }
      }
      if (teamId, userId) in members {
        members := members[(teamId, userId) := members[(teamId, userId)].(status := Active)];
      } else {
        members := members[(teamId, userId) := Member(reported, Active)];
      }
    }

    method RevokeMember(teamId: string, userId: string)
      modifies this`members
      ensures members == TeamMembership.Revoke(old(members), teamId, userId)
      ensures TeamMembership.Does(old(members), TeamMembership.Change.RevokeMember(teamId, userId), members)
    {
      TeamMembership.ChangeDoes(members, TeamMembership.Change.RevokeMember(teamId, userId));
      if (teamId, userId) in members {
        members := members[(teamId, userId) := members[(teamId, userId)].(status := Revoked)];
      }
    }

    /** Refuses to demote the last admin of a team. */
    method SetMemberRole(teamId: string, userId: string, role: Role) returns (refusal: Option<TeamMembership.RoleError>)
      modifies this`members
      ensures refusal == (match TeamMembership.SetRole(old(members), teamId, userId, role)
                          case Failure(why) => Some(why)
                          case Success(_) => None)
      ensures members == TeamMembership.Apply(old(members), TeamMembership.SetMemberRole(teamId, userId, role))
      ensures TeamMembership.Does(old(members), TeamMembership.Change.SetMemberRole(teamId, userId, role), members)
      ensures refusal == Some(TeamMembership.NotFound) <==> (teamId, userId) !in old(members)
      ensures refusal == Some(TeamMembership.LastAdmin) <==>
              && (teamId, userId) in old(members) && old(members)[(teamId, userId)].role == Admin && role == Plain
              && !TeamMembership.AnotherAdmin(old(members), teamId, userId)
    {
      TeamMembership.ChangeDoes(members, TeamMembership.Change.SetMemberRole(teamId, userId, role));
      TeamMembership.OthersAreAdmins(members, teamId, userId);
      if (teamId, userId) !in members {
        return Some(TeamMembership.NotFound);
      }
      if members[(teamId, userId)].role == Admin && role != Admin {
        var others := TeamMembership.Admins(members, teamId) - {userId};
        if |others| == 0 {
          return Some(TeamMembership.LastAdmin);
        }
      }
      members := members[(teamId, userId) := members[(teamId, userId)].(role := role)];
      return None;
    }

    method CheckMember(teamId: string, userId: string, memberships: map<string, MemberStatus>)
      returns (status: Option<MemberStatus>, cache: map<string, MemberStatus>)
      requires MembersCached(memberships, members, teamId)
      ensures MembersCached(cache, members, teamId)
      ensures status == if (teamId, userId) in members then Some(members[(teamId, userId)].status) else None
    {
      var k := UserKey(teamId, userId);
      cache := memberships;
      if k in cache {
        return Some(cache[k]), cache;
      }
      if (teamId, userId) !in members {
        return None, cache;
      }
      var v := members[(teamId, userId)].status;
      cache := cache[k := v];
      forall u | UserKey(teamId, u) in cache
        ensures (teamId, u) in members && cache[UserKey(teamId, u)] == members[(teamId, u)].status
      {
        if UserKey(teamId, u) == k {
          UserKeyInjective(teamId, u, userId);
        }
      }
      return Some(v), cache;
    }

    method LoadUserNodes(teamId: string, userId: string, userNodeSets: map<string, set<string>>, ghost c: Scan)
      returns (known: set<string>, cache: map<string, set<string>>)
      requires nodes == c.t.nodes && NodesCached(userNodeSets, c, teamId)
      ensures NodesCached(cache, c, teamId) && UserKey(teamId, userId) in cache
      ensures known == KnownOf(c.known, userId) == cache[UserKey(teamId, userId)]
    {
      var k := UserKey(teamId, userId);
      cache := userNodeSets;
      if k !in cache {
        cache := cache[k := NodesOf(nodes, teamId, userId)];
        forall u | UserKey(teamId, u) == k ensures u == userId {
          UserKeyInjective(teamId, u, userId);
        }
      }
      known := cache[k];
    }

    method UpsertEvent(e: SyncedEvent, now: int) returns (r: Inserted)
      modifies this`events, this`conflicts
      ensures r == if e.syncEventId !in old(events) then Fresh
                   else if old(events)[e.syncEventId].e.payloadHash == e.payloadHash then SameHash else OtherHash
      ensures events == if r == Fresh then old(events)[e.syncEventId := RowOf(e, now)] else old(events)
      ensures conflicts == if r == OtherHash
                           then old(conflicts) + [Conflict(e.syncEventId, old(events)[e.syncEventId].e.payloadHash, e.payloadHash, now)]
                           else old(conflicts)
    {
      if e.syncEventId in events {
        var prior := events[e.syncEventId].e.payloadHash;
        if prior == e.payloadHash { return SameHash; }
        conflicts := conflicts + [Conflict(e.syncEventId, prior, e.payloadHash, now)];
        return OtherHash;
      }
      events := events[e.syncEventId := RowOf(e, now)];
      return Fresh;
    }

    /** Everything a payload has to pass before it is written: team and id checks, membership, device cap. */
    method Vet(teamId: string, p: Payload, caches: Caches, ghost c: Scan)
      returns (refusal: Option<Reason>, after: Caches, userNodes: set<string>)
      requires members == c.t.members && nodes == c.t.nodes && CachesAgree(caches, c, teamId)
      ensures refusal == Decision(c, teamId, p, maxDevicesPerUser)
      ensures CachesAgree(after, c, teamId)
      ensures refusal.None? ==> UserKey(teamId, p.User()) in after.userNodeSets
                                && userNodes == after.userNodeSets[UserKey(teamId, p.User())]
    {
      after, userNodes := caches, {};
      if p.Team() != teamId {
        return Some(TeamMismatch), after, userNodes;
      }
      if p.Event? && ExpectedId(teamId, p.e) != p.e.syncEventId {
        return Some(IdMismatch), after, userNodes;
      }
      var status, memberships := CheckMember(teamId, p.User(), caches.memberships);
      after := after.(memberships := memberships);
      if status == None {
        return Some(NotMember), after, userNodes;
      }
      if status != Some(Active) {
        return Some(MembershipRevoked), after, userNodes;
      }
      var userNodeSets;
      userNodes, userNodeSets := LoadUserNodes(teamId, p.User(), caches.userNodeSets, c);
      after := after.(userNodeSets := userNodeSets);
      KnownMember(c.known, p.User(), p.Node());
      if p.Node() !in userNodes && |userNodes| >= maxDevicesPerUser {
        return Some(DeviceLimit), after, userNodes;
      }
      return None, after, userNodes;
    }

    /** Vets a payload and touches its node, once per batch. */
    method Admit(teamId: string, p: Payload, now: int, caches: Caches, ghost c: Scan)
      returns (refusal: Option<Reason>, after: Caches)
      requires members == c.t.members && nodes == c.t.nodes && CachesAgree(caches, c, teamId)
      modifies this`nodes
      ensures refusal == Decision(c, teamId, p, maxDevicesPerUser)
      ensures refusal.Some? ==> nodes == old(nodes) && CachesAgree(after, c, teamId)
      ensures refusal.None? ==> nodes == Touch(c, teamId, p, now).t.nodes && CachesAgree(after, Touch(c, teamId, p, now), teamId)
    {
      hide Decision, MembersCached, NodesCached, TouchNode;
      var userNodes;
      refusal, after, userNodes := Vet(teamId, p, caches, c);
      if refusal.Some? {
        return;
      }
      var nodeKey := NodeKey(p.User(), p.Node());
      if nodeKey !in after.touchedNodes {
        TouchCached(after.userNodeSets, c, teamId, p, now);
        nodes := TouchNode(nodes, p.Node(), p.User(), teamId, now);
        after := after.(touchedNodes := after.touchedNodes + {nodeKey},
                        userNodeSets := after.userNodeSets[UserKey(teamId, p.User()) := userNodes + {p.Node()}]);
      }
    }

    /** Stores an admitted payload and reports what became of it. */
    method StorePayload(p: Payload, now: int, response: Response, rollupDeltas: map<string, Bucket>, order: seq<string>, ghost c: Scan)
      returns (reply: Response, deltas: map<string, Bucket>, names: seq<string>)
      requires c.t == Contents() && c.buckets == rollupDeltas && c.resp == response
      requires Enumerates(order, rollupDeltas)
      modifies this`events, this`conflicts, this`daily
      ensures var w := Write(c, p, now);
              Contents() == w.t && deltas == w.buckets && reply == w.resp
      ensures Enumerates(names, deltas)
    {
      reply, deltas, names := response, rollupDeltas, order;
      match p {
        case Event(e) =>
          var flag := UpsertEvent(e, now);
          if flag == Fresh {
            var text := KeyText(KeyOf(e));
            EnumeratesMore(order, rollupDeltas, e);
            names := if text in rollupDeltas then order else order + [text];
            deltas := AddToBucket(rollupDeltas, e);
            reply := response.Accept(p.Id(), p.Reached());
          } else {
            reply := response.Duplicate(p.Id(), p.Reached());
          }
        case Daily(d) =>
          daily := daily[DailyKeyOf(d) := DayRow(d.usage, d.pricing, now)];
          reply := response.Accept(p.Id(), p.Reached());
      }
    }

    /** One turn of the payload loop. */
    method TakePayload(teamId: string, p: Payload, now: int, response: Response, caches: Caches,
                       rollupDeltas: map<string, Bucket>, order: seq<string>, ghost c: Scan)
      returns (reply: Response, after: Caches, deltas: map<string, Bucket>, names: seq<string>)
      requires c.t == Contents() && c.buckets == rollupDeltas && c.resp == response
      requires CachesAgree(caches, c, teamId) && Enumerates(order, rollupDeltas)
      modifies this`nodes, this`events, this`conflicts, this`daily
      ensures var n := Next(c, teamId, p, now, maxDevicesPerUser);
              && Contents() == n.t && deltas == n.buckets && reply == n.resp
              && CachesAgree(after, n, teamId)
      ensures Enumerates(names, deltas)
    {
      hide CachesAgree, Next, Write, Touch, Decision;
      NextIs(c, teamId, p, now, maxDevicesPerUser);
      reply, deltas, names := response, rollupDeltas, order;
      var refusal;
      refusal, after := Admit(teamId, p, now, caches, c);
      if refusal.Some? {
        reply := response.Reject(p.Id(), refusal.value);
        SameCached(after, c, c.(resp := reply), teamId);
      } else {
        TouchIsNodes(c, teamId, p, now);
        WriteKeepsCached(after, Touch(c, teamId, p, now), teamId, p, now);
        reply, deltas, names := StorePayload(p, now, response, rollupDeltas, order, Touch(c, teamId, p, now));
      }
    }

    /** The batch endpoint. `fault` is the step at which the database fails: payload `i` is step `i`,
        each grouped rollup write one more step, the commit the last one. */
    method BatchUpsert(teamId: string, payloads: seq<Payload>, now: int, fault: nat)
      returns (r: Result<Response, string>)
      modifies this
      ensures payloads == [] ==> r == Success(NOTHING) && Contents() == old(Contents())
      ensures var c := Scanned(old(Contents()), teamId, payloads, now, maxDevicesPerUser);
              payloads != [] ==>
                && (r.Failure? <==> fault <= |payloads| + |c.buckets|)
                && (r.Failure? ==> Contents() == old(Contents()))
                && (r.Success? ==> r.value == c.resp && Contents() == Commit(c, now))
    {
      if |payloads| == 0 {
        return Success(NOTHING);
      }
      var response := NOTHING;
      var caches := Caches(map[], {}, map[]);
      var rollupDeltas: map<string, Bucket> := map[];
      var order: seq<string> := [];

      var nodes0, events0, conflicts0, daily0, rollup0 := nodes, events, conflicts, daily, rollup;
      ghost var s := Contents();
      ghost var c := Begin(s, teamId);
      ghost var start := c;
      BeginCached(s, teamId);

      var i := 0;
      while i < |payloads|
        invariant 0 <= i <= |payloads| && i <= fault
        invariant c == Scans(start, teamId, payloads[..i], now, maxDevicesPerUser)
        invariant Contents() == c.t && rollup == rollup0 && members == s.members
        invariant response == c.resp && rollupDeltas == c.buckets
        invariant CachesAgree(caches, c, teamId)
        invariant Enumerates(order, rollupDeltas)
      {
        if fault == i {
          nodes, events, conflicts, daily := nodes0, events0, conflicts0, daily0;
          return Failure("database");
        }
        var p := payloads[i];
        assert payloads[..i + 1][..i] == payloads[..i];
        i := i + 1;

        response, caches, rollupDeltas, order := TakePayload(teamId, p, now, response, caches, rollupDeltas, order, c);
        c := Next(c, teamId, p, now, maxDevicesPerUser);
      }
      assert payloads[..i] == payloads;
      OrderSize(order, rollupDeltas);
      ScannedDistinct(s, teamId, payloads, now, maxDevicesPerUser);
      var committed := WriteRollups(rollupDeltas, order, now, fault - |payloads|);
      if !committed {
        nodes, events, conflicts, daily, rollup := nodes0, events0, conflicts0, daily0, rollup0;
        return Failure("database");
      }
      return Success(response);
    }

    /** One accumulating upsert per bucket, then the commit. */
    method WriteRollups(deltas: map<string, Bucket>, order: seq<string>, now: int, fault: nat) returns (committed: bool)
      requires Enumerates(order, deltas) && Distinct(deltas)
      modifies this`rollup
      ensures committed <==> fault > |order|
      ensures committed ==> rollup == Flush(old(rollup), deltas, now)
    {
      ghost var rollup0 := rollup;
      var j := 0;
      while j < |order|
        invariant 0 <= j <= |order| && j <= fault
        invariant rollup == Upserts(rollup0, deltas, order, j, now)
      {
        if fault == j {
          return false;
        }
        var d := deltas[order[j]];
        rollup := Accumulate(rollup, d.key, d.usage, d.pricing, now);
        j := j + 1;
      }
      UpsertsAll(rollup0, deltas, order, now);
      return fault != |order|;
    }
  }
}
