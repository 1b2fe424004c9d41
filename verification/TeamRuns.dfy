/** Serial runs of the server: uploads for any team, aborted uploads and membership changes in any order. */
module TeamRuns {
  import opened Wrappers
  import opened UsageSums
  import opened TeamModel
  import opened TeamBatch
  import opened TeamRollup
  import opened TeamCap
  import opened TeamReplay
  import TeamMembership

  datatype Step =
    | Upload(teamId: string, payloads: seq<Payload>, now: int)
    | Aborted(teamId: string, payloads: seq<Payload>)
    | Membership(change: TeamMembership.Change)

  ghost function Apply(s: Tables, step: Step, cap: int): Tables {
    match step
    case Upload(teamId, ps, now) => Batch(s, teamId, ps, now, cap)
    case Aborted(_, _) => s
    case Membership(change) => s.(members := TeamMembership.Apply(s.members, change))
  }

  ghost function Run(s: Tables, steps: seq<Step>, cap: int): Tables
    decreases |steps|
  {
    if steps == [] then s else Apply(Run(s, steps[..|steps| - 1], cap), steps[|steps| - 1], cap)
  }

  ghost predicate BarFreeSteps(steps: seq<Step>) {
    forall step <- steps | step.Upload? :: forall p <- step.payloads :: BarFree(p)
  }

  /** After any run the rollup is the grouped sum of the raw events. */
  lemma {:induction false} RollupAlwaysAgrees(steps: seq<Step>, cap: int)
    requires BarFreeSteps(steps)
    ensures var t := Run(EMPTY, steps, cap); Agrees(t.events, t.rollup)
    decreases |steps|
  {
    if steps == [] {
    } else {
      var before, step := steps[..|steps| - 1], steps[|steps| - 1];
      assert step in steps && forall x <- before :: x in steps;
      RollupAlwaysAgrees(before, cap);
      if step.Upload? {
        BarFreeAgrees(Run(EMPTY, before, cap), step.teamId, step.payloads, step.now, cap);
      }
    }
  }

  /** Once stored, an event row is the same for ever. */
  lemma {:induction false} StoredForEver(s: Tables, steps: seq<Step>, cap: int, id: string)
    requires id in s.events
    ensures id in Run(s, steps, cap).events && Run(s, steps, cap).events[id] == s.events[id]
    decreases |steps|
  {
    if steps == [] {
    } else {
      var before, step := steps[..|steps| - 1], steps[|steps| - 1];
      StoredForEver(s, before, cap, id);
      if step.Upload? {
        RowsImmutable(Run(s, before, cap), step.teamId, step.payloads, step.now, cap);
      }
    }
  }

  lemma {:induction false} NewRowsOfTeam(s: Tables, teamId: string, ps: seq<Payload>, now: int, cap: int)
    ensures forall n <- Batch(s, teamId, ps, now, cap).nodes :: n in s.nodes || Batch(s, teamId, ps, now, cap).nodes[n].teamId == teamId
    decreases |ps|
  {
    if ps == [] {
    } else {
      var c := Scanned(s, teamId, ps[..|ps| - 1], now, cap);
      NewRowsOfTeam(s, teamId, ps[..|ps| - 1], now, cap);
      NextCounts(c, teamId, ps[|ps| - 1], now, cap);
    }
  }

  lemma UploadCap(s: Tables, teamId: string, ps: seq<Payload>, now: int, cap: int, team: string, u: string)
    ensures |NodesOf(Batch(s, teamId, ps, now, cap).nodes, team, u)| <= Max(cap, |NodesOf(s.nodes, team, u)|)
  {
    if team == teamId {
      DeviceCap(s, teamId, ps, now, cap, u);
    } else {
      NewRowsOfTeam(s, teamId, ps, now, cap);
      forall n <- NodesOf(Batch(s, teamId, ps, now, cap).nodes, team, u) ensures n in NodesOf(s.nodes, team, u) {
        OwnersStay(s, teamId, ps, now, cap, n);
      }
      SetSize(NodesOf(Batch(s, teamId, ps, now, cap).nodes, team, u), NodesOf(s.nodes, team, u));
    }
  }

  /** In a serial run nobody's node rows ever exceed the larger of the cap and the starting number. */
  lemma {:induction false} CapHolds(s: Tables, steps: seq<Step>, cap: int, team: string, u: string)
    ensures |NodesOf(Run(s, steps, cap).nodes, team, u)| <= Max(cap, |NodesOf(s.nodes, team, u)|)
    decreases |steps|
  {
    if steps == [] {
    } else {
      var before, step := steps[..|steps| - 1], steps[|steps| - 1];
      CapHolds(s, before, cap, team, u);
      if step.Upload? {
        UploadCap(Run(s, before, cap), step.teamId, step.payloads, step.now, cap, team, u);
      }
    }
  }

  // ---- stored rows belong to members ---------------------------------------

  /** Every stored event, daily row and rollup row belongs to a user with a membership row. */
  ghost predicate Enrolled(t: Tables) {
    && (forall id <- t.events :: (t.events[id].e.teamId, t.events[id].e.userId) in t.members)
    && (forall k <- t.daily :: (k.teamId, k.userId) in t.members)
    && (forall k <- t.rollup :: (k.teamId, k.userId) in t.members)
  }

  /** So does every bucket that is still to be written to the rollup. */
  ghost predicate BucketsEnrolled(c: Scan) {
    forall text <- c.buckets :: (c.buckets[text].key.teamId, c.buckets[text].key.userId) in c.t.members
  }

  lemma WriteEnrolled(c: Scan, p: Payload, now: int)
    requires Enrolled(c.t) && BucketsEnrolled(c) && (p.Team(), p.User()) in c.t.members
    ensures var d := Write(c, p, now); Enrolled(d.t) && BucketsEnrolled(d)
  {
    hide KeyText, UsageOf;
  }

  lemma {:induction false} ScanEnrolled(s: Tables, teamId: string, ps: seq<Payload>, now: int, cap: int)
    requires Enrolled(s)
    ensures var c := Scanned(s, teamId, ps, now, cap); Enrolled(c.t) && BucketsEnrolled(c)
    decreases |ps|
  {
    if ps == [] {
    } else {
      var c, p := Scanned(s, teamId, ps[..|ps| - 1], now, cap), ps[|ps| - 1];
      ScanEnrolled(s, teamId, ps[..|ps| - 1], now, cap);
      if Admitted(c, teamId, p, cap) {
        WriteEnrolled(Touch(c, teamId, p, now), p, now);
      }
    }
  }

  lemma BatchEnrolled(s: Tables, teamId: string, ps: seq<Payload>, now: int, cap: int)
    requires Enrolled(s)
    ensures Enrolled(Batch(s, teamId, ps, now, cap))
  {
    ScanEnrolled(s, teamId, ps, now, cap);
  }

  lemma {:induction false} AlwaysEnrolled(steps: seq<Step>, cap: int)
    ensures Enrolled(Run(EMPTY, steps, cap))
    decreases |steps|
  {
    if steps == [] {
    } else {
      var before, step := steps[..|steps| - 1], steps[|steps| - 1];
      AlwaysEnrolled(before, cap);
      if step.Upload? {
        BatchEnrolled(Run(EMPTY, before, cap), step.teamId, step.payloads, step.now, cap);
      }
    }
  }
}
