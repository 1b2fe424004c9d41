/** Revocation: nothing more is stored for a revoked member until the member is enrolled again. */
module TeamRevocation {
  import opened Wrappers
  import opened UsageSums
  import opened TeamModel
  import opened TeamBatch
  import opened TeamRollup
  import opened TeamCap
  import opened TeamAdmission
  import opened TeamRuns
  import opened TeamEffects
  import TeamMembership

  ghost predicate IsRevoked(s: Tables, teamId: string, userId: string) {
    (teamId, userId) in s.members && s.members[(teamId, userId)].status == Revoked
  }

  /** The member's rows in the second state are those of the first: events, daily rows and rollup rows with all their
      contents, nodes with their owner and enrolment, though others may have used them since. */
  ghost predicate NothingNew(s: Tables, t: Tables, teamId: string, userId: string) {
    && (forall id <- t.events | t.events[id].e.teamId == teamId && t.events[id].e.userId == userId ::
          id in s.events && t.events[id] == s.events[id])
    && (forall k <- t.daily | k.teamId == teamId && k.userId == userId :: k in s.daily && t.daily[k] == s.daily[k])
    && (forall k <- t.rollup | k.teamId == teamId && k.userId == userId :: k in s.rollup && t.rollup[k] == s.rollup[k])
    && (forall n <- t.nodes | t.nodes[n].teamId == teamId && t.nodes[n].userId == userId ::
          n in s.nodes && t.nodes[n].(lastSeenAt := 0) == s.nodes[n].(lastSeenAt := 0))
  }

  ghost predicate NothingButRollup(s: Tables, t: Tables, teamId: string, userId: string) {
    NothingNew(s.(rollup := map[]), t.(rollup := map[]), teamId, userId)
  }

  /** No bucket is for a row of the member. */
  ghost predicate NoBucket(c: Scan, teamId: string, userId: string) {
    forall text <- c.buckets :: c.buckets[text].key.teamId != teamId || c.buckets[text].key.userId != userId
  }

  lemma TakenLeaves(s: Tables, t: Tables, u: Tables, q: Response, r: Response, p: Payload, now: int, team: string, user: string)
    requires NothingButRollup(s, t, team, user) && (TeamIn(p) != team || UserIn(p) != user)
    requires Taken(t, u, q, r, p, now) && u.nodes == t.nodes
    ensures NothingButRollup(s, u, team, user)
  {
    hide Says;
  }

  lemma SeenLeaves(s: Tables, t: Tables, teamId: string, p: Payload, now: int, team: string, user: string)
    requires NothingButRollup(s, t, team, user) && TeamIn(p) == teamId && (TeamIn(p) != team || UserIn(p) != user)
    ensures NothingButRollup(s, t.(nodes := TouchNode(t.nodes, NodeIn(p), UserIn(p), teamId, now)), team, user)
  {}

  lemma NextLeaves(s: Tables, c: Scan, teamId: string, p: Payload, now: int, cap: int, team: string, user: string)
    requires IsRevoked(c.t, team, user) && NothingButRollup(s, c.t, team, user) && NoBucket(c, team, user)
    ensures var d := Next(c, teamId, p, now, cap); NothingButRollup(s, d.t, team, user) && NoBucket(d, team, user)
  {
    var d := Next(c, teamId, p, now, cap);
    InsertsIff(c, teamId, p, now, cap);
    if Admitted(c, teamId, p, cap) {
      RefusalTells(c.t.members, teamId, p);
      NamesIn(p);
      assert TeamIn(p) == teamId && (TeamIn(p) != team || UserIn(p) != user);
      BucketLeaves(c, d, p, now, team, user);
      hide AddToBucket, Says, KnownOf, NodeKey, NothingButRollup, NoBucket, Write, Taken, TouchNode;
      var touched := Touch(c, teamId, p, now);
      SeenLeaves(s, c.t, teamId, p, now, team, user);
      assert touched.t == c.t || touched.t == c.t.(nodes := TouchNode(c.t.nodes, NodeIn(p), UserIn(p), teamId, now));
      WriteTakes(touched, p, now);
      TakenLeaves(s, touched.t, d.t, touched.resp, d.resp, p, now, team, user);
    } else {
      NextTurns(c, teamId, p, now, cap);
      hide Next, Says, Admitted, KnownOf;
    }
  }

  lemma BucketLeaves(c: Scan, d: Scan, p: Payload, now: int, team: string, user: string)
    requires NoBucket(c, team, user) && (TeamIn(p) != team || UserIn(p) != user)
    requires InsertsNothing(c, d) || (p.Event? && Inserts(c, d, p.e, now))
    ensures NoBucket(d, team, user)
  {
    hide KeyText, UsageOf;
  }

  lemma {:induction false} ScanLeaves(s: Tables, teamId: string, ps: seq<Payload>, now: int, cap: int, team: string, user: string)
    requires IsRevoked(s, team, user)
    ensures var c := Scanned(s, teamId, ps, now, cap);
            c.t.members == s.members && NothingButRollup(s, c.t, team, user) && NoBucket(c, team, user)
    decreases |ps|
  {
    if ps == [] {
    } else {
      var c := Scanned(s, teamId, ps[..|ps| - 1], now, cap);
      ScanLeaves(s, teamId, ps[..|ps| - 1], now, cap, team, user);
      NextLeaves(s, c, teamId, ps[|ps| - 1], now, cap, team, user);
      NextCounts(c, teamId, ps[|ps| - 1], now, cap);
      LastScan(s, teamId, ps, now, cap);
      hide Next, Scans, NothingButRollup, NoBucket;
    }
  }

  lemma BatchLeaves(s: Tables, teamId: string, ps: seq<Payload>, now: int, cap: int, team: string, user: string)
    requires IsRevoked(s, team, user)
    ensures var t := Batch(s, teamId, ps, now, cap); t.members == s.members && NothingNew(s, t, team, user)
  {
    var c := Scanned(s, teamId, ps, now, cap);
    ScanLeaves(s, teamId, ps, now, cap, team, user);
    ScanStored(s, teamId, ps, now, cap);
    FlushLeaves(c, now, team, user);
    hide Scans, Flush, NoBucket, Stored;
  }

  lemma FlushLeaves(c: Scan, now: int, team: string, user: string)
    requires NoBucket(c, team, user)
    ensures var after := Flush(c.t.rollup, c.buckets, now);
            forall k <- after | k.teamId == team && k.userId == user :: k in c.t.rollup && after[k] == c.t.rollup[k]
  {}

  lemma SameTables(s: Tables, t: Tables, u: Tables, teamId: string, userId: string)
    requires NothingNew(s, t, teamId, userId) && u == t.(members := u.members)
    ensures NothingNew(s, u, teamId, userId)
  {}

  lemma NothingAtFirst(s: Tables, teamId: string, userId: string)
    ensures NothingNew(s, s, teamId, userId)
  {}

  lemma NothingNewThen(r: Tables, s: Tables, t: Tables, teamId: string, userId: string)
    requires NothingNew(r, s, teamId, userId) && NothingNew(s, t, teamId, userId)
    ensures NothingNew(r, t, teamId, userId)
  {}

  /** Whatever is uploaded, for whichever team and by whomever, and whatever memberships change: while a revoked
      member is not enrolled again, the server gains no event, daily row, rollup row, count or node for that member. */
  lemma {:induction false} RevokedGainsNothing(s: Tables, steps: seq<Step>, cap: int, team: string, user: string)
    requires IsRevoked(s, team, user)
    requires forall x <- steps :: x.Membership? && x.change.AddMember? ==> x.change.teamId != team || x.change.userId != user
    ensures var t := Run(s, steps, cap); IsRevoked(t, team, user) && NothingNew(s, t, team, user)
    decreases |steps|
  {
    if steps == [] {
      NothingAtFirst(s, team, user);
    } else {
      var before, step := steps[..|steps| - 1], steps[|steps| - 1];
      assert step in steps && forall x <- before :: x in steps;
      RevokedGainsNothing(s, before, cap, team, user);
      var t := Run(s, before, cap);
      hide NothingNew, Batch;
      match step {
        case Upload(teamId, ps, now) =>
          BatchLeaves(t, teamId, ps, now, cap, team, user);
          NothingNewThen(s, t, Batch(t, teamId, ps, now, cap), team, user);
        case Aborted(_, _) =>
        case Membership(change) =>
          TeamMembership.ChangeDoes(t.members, change);
          SameTables(s, t, t.(members := TeamMembership.Apply(t.members, change)), team, user);
      }
    }
  }
}
