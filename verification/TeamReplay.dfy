/** Idempotence: what a committed batch has stored stays, and sending it again changes nothing. */
module TeamReplay {
  import opened Wrappers
  import opened JoinedKeys
  import opened TeamModel
  import opened TeamBatch
  import opened TeamRollup
  import opened TeamCap
  import opened TeamBatching
  import opened TeamAdmission

  // ---- every payload is answered -------------------------------------------

  /** The payload is reported rejected, or its event is stored. */
  ghost predicate Answered(p: Payload, events: map<string, EventRow>, r: Response) {
    || (exists reason :: Rejection(p.Id(), reason) in r.rejected)
    || (p.Event? ==> p.Id() in events)
  }

  lemma WriteAnswers(c: Scan, p: Payload, now: int)
    ensures var d := Write(c, p, now);
            (p.Event? ==> p.Id() in d.t.events) && d.resp.rejected == c.resp.rejected && c.t.events.Keys <= d.t.events.Keys
  {}

  lemma RejectAnswers(c: Scan, p: Payload, reason: Reason)
    ensures Answered(p, c.t.events, c.resp.Reject(p.Id(), reason))
    ensures c.resp.rejected <= c.resp.Reject(p.Id(), reason).rejected
  {
    var r := c.resp.Reject(p.Id(), reason);
    assert r.rejected[|c.resp.rejected|] == Rejection(p.Id(), reason);
    assert Rejection(p.Id(), reason) in r.rejected;
  }

  lemma NextAnswers(c: Scan, teamId: string, p: Payload, now: int, cap: int)
    ensures var d := Next(c, teamId, p, now, cap);
            && Answered(p, d.t.events, d.resp)
            && c.resp.rejected <= d.resp.rejected && c.t.events.Keys <= d.t.events.Keys
  {
    var refusal := Refusal(c.t.members, teamId, p);
    if refusal.Some? || OverCap(c, p, cap) {
      RejectAnswers(c, p, if refusal.Some? then refusal.value else DeviceLimit);
    } else {
      WriteAnswers(Touch(c, teamId, p, now), p, now);
    }
  }

  /** After a commit no payload of the batch is left in doubt. */
  lemma {:induction false} AllAnswered(s: Tables, teamId: string, ps: seq<Payload>, now: int, cap: int)
    ensures forall p <- ps :: Answered(p, Batch(s, teamId, ps, now, cap).events, Reply(s, teamId, ps, now, cap))
    decreases |ps|
  {
    if ps == [] {
    } else {
      var ps', last := ps[..|ps| - 1], ps[|ps| - 1];
      var c := Scanned(s, teamId, ps', now, cap);
      AllAnswered(s, teamId, ps', now, cap);
      NextAnswers(c, teamId, last, now, cap);
      var d := Next(c, teamId, last, now, cap);
      assert ps == ps' + [last];
      forall p <- ps ensures Answered(p, d.t.events, d.resp) {
        if p in ps' {
          AnsweredStays(p, c.t.events, c.resp, d.t.events, d.resp);
        }
      }
    }
  }

  lemma AnsweredStays(p: Payload, events: map<string, EventRow>, r: Response, events': map<string, EventRow>, r': Response)
    requires Answered(p, events, r) && events.Keys <= events'.Keys && r.rejected <= r'.rejected
    ensures Answered(p, events', r')
  {
    if reason :| Rejection(p.Id(), reason) in r.rejected {
      assert Rejection(p.Id(), reason) in r'.rejected;
    }
  }

  /** How many answers a response holds. */
  function Answers(r: Response): nat { |r.accepted| + |r.duplicates| + |r.rejected| }

  /** Each payload is answered once: the three lists together are as long as the batch. */
  lemma {:induction false} AnsweredOnce(s: Tables, teamId: string, ps: seq<Payload>, now: int, cap: int)
    ensures Answers(Reply(s, teamId, ps, now, cap)) == |ps|
    decreases |ps|
  {
    if ps == [] {
    } else {
      AnsweredOnce(s, teamId, ps[..|ps| - 1], now, cap);
      NextAnswersOnce(Scanned(s, teamId, ps[..|ps| - 1], now, cap), teamId, ps[|ps| - 1], now, cap);
    }
  }

  lemma WriteAnswersOnce(c: Scan, p: Payload, now: int)
    ensures Answers(Write(c, p, now).resp) == Answers(c.resp) + 1
  {
    hide AddToBucket, RowOf;
  }

  lemma NextAnswersOnce(c: Scan, teamId: string, p: Payload, now: int, cap: int)
    ensures Answers(Next(c, teamId, p, now, cap).resp) == Answers(c.resp) + 1
  {
    var t := Touch(c, teamId, p, now);
    assert t.resp == c.resp;
    WriteAnswersOnce(t, p, now);
    hide Touch, Write, Refusal, OverCap;
  }

  // ---- stored rows are immutable -------------------------------------------

  /** No batch alters or removes a stored event, whatever payload hash it carries. */
  lemma RowsImmutable(s: Tables, teamId: string, ps: seq<Payload>, now: int, cap: int)
    ensures forall id <- s.events :: id in Batch(s, teamId, ps, now, cap).events
                                  && Batch(s, teamId, ps, now, cap).events[id] == s.events[id]
  {
    ScanStored(s, teamId, ps, now, cap);
  }

  /** A batch whose events are all stored already adds neither an event nor a count, in any state. */
  lemma {:induction false} StoredReplay(s: Tables, teamId: string, ps: seq<Payload>, now: int, cap: int)
    requires forall p <- ps | p.Event? :: p.Id() in s.events
    ensures var c := Scanned(s, teamId, ps, now, cap); c.t.events == s.events && c.buckets == map[]
    ensures var t := Batch(s, teamId, ps, now, cap); t.events == s.events && t.rollup == s.rollup
    decreases |ps|
  {
    ScanStored(s, teamId, ps, now, cap);
    FlushNothing(s.rollup, now);
    if ps == [] {
    } else {
      var ps', last := ps[..|ps| - 1], ps[|ps| - 1];
      assert last in ps && forall p <- ps' :: p in ps;
      StoredReplay(s, teamId, ps', now, cap);
      NextInserts(Scanned(s, teamId, ps', now, cap), teamId, last, now, cap);
    }
  }

  // ---- replay of a committed batch -----------------------------------------

  /** How a scan can go on: counted pairs and stored events stay, and a user at the cap gains no node. */
  ghost predicate Later(c: Scan, d: Scan, cap: int) {
    && d.t.members == c.t.members
    && c.known <= d.known && c.touched <= d.touched
    && c.t.events.Keys <= d.t.events.Keys
    && (forall u :: |KnownOf(c.known, u)| >= cap ==> KnownOf(d.known, u) == KnownOf(c.known, u))
  }

  lemma NextLater(c: Scan, teamId: string, p: Payload, now: int, cap: int)
    ensures Later(c, Next(c, teamId, p, now, cap), cap)
  {
    var d := Next(c, teamId, p, now, cap);
    NextCounts(c, teamId, p, now, cap);
    NextAnswers(c, teamId, p, now, cap);
    KnownOfMember(c.known, p.User(), p.Node());
    forall u | |KnownOf(c.known, u)| >= cap ensures KnownOf(d.known, u) == KnownOf(c.known, u) {
      KnownOfAdd(c.known, (p.User(), p.Node()), u);
    }
  }

  lemma {:induction false} ScansLater(s: Tables, teamId: string, ps: seq<Payload>, i: nat, now: int, cap: int)
    requires i <= |ps|
    ensures Later(Scanned(s, teamId, ps[..i], now, cap), Scanned(s, teamId, ps, now, cap), cap)
    decreases |ps|
  {
    if i == |ps| {
      assert ps[..i] == ps;
    } else {
      var ps' := ps[..|ps| - 1];
      assert ps'[..i] == ps[..i];
      ScansLater(s, teamId, ps', i, now, cap);
      NextLater(Scanned(s, teamId, ps', now, cap), teamId, ps[|ps| - 1], now, cap);
    }
  }

  lemma WrittenStored(c: Scan, p: Payload, now: int)
    ensures p.Event? ==> p.Id() in Write(c, p, now).t.events
  {
    hide AddToBucket;
  }

  lemma AdmittedStored(c: Scan, teamId: string, p: Payload, now: int, cap: int)
    requires Admitted(c, teamId, p, cap)
    ensures p.Event? ==> p.Id() in Next(c, teamId, p, now, cap).t.events
  {
    WrittenStored(Touch(c, teamId, p, now), p, now);
    hide Touch, Write, OverCap, Refusal;
  }

  ghost predicate SameDay(a: DayRow, b: DayRow) { a.usage == b.usage && a.pricing == b.pricing }

  /** Equal daily tables up to upload times. */
  ghost predicate SameDays(a: map<DailyKey, DayRow>, b: map<DailyKey, DayRow>) {
    a.Keys == b.Keys && forall k <- a :: SameDay(a[k], b[k])
  }

  /** Scan `f` replays the batch that ended as `z`, at the point where the first run stood at `c`. It may count
      nodes that the first run only came to later, and may still miss foreign nodes that have no row. */
  ghost predicate Replaying(f: Scan, z: Scan, c: Scan) {
    && f.t.members == c.t.members && c.t.members == z.t.members
    && c.known <= f.known <= z.known && f.touched == c.touched
    && f.t.events == z.t.events && f.buckets == map[]
  }

  lemma NextDaily(c: Scan, teamId: string, p: Payload, now: int, cap: int)
    ensures Next(c, teamId, p, now, cap).t.daily ==
            if p.Daily? && Admitted(c, teamId, p, cap)
            then c.t.daily[DailyKeyOf(p.d) := DayRow(p.d.usage, p.d.pricing, now)] else c.t.daily
  {
    if Admitted(c, teamId, p, cap) {
      WriteDays(Touch(c, teamId, p, now), p, now);
    }
  }

  lemma WriteDays(c: Scan, p: Payload, now: int)
    ensures Write(c, p, now).t.daily ==
            if p.Daily? then c.t.daily[DailyKeyOf(p.d) := DayRow(p.d.usage, p.d.pricing, now)] else c.t.daily
  {}

  /** The counts of a finished batch: no more than the cap, or just what there was at the start. */
  ghost predicate Fits(z: Scan, start: set<(string, string)>, cap: int) {
    forall u :: |KnownOf(z.known, u)| <= cap || KnownOf(z.known, u) == KnownOf(start, u)
  }

  lemma KnownSubset(a: set<(string, string)>, b: set<(string, string)>, u: string)
    requires a <= b
    ensures KnownOf(a, u) <= KnownOf(b, u) && |KnownOf(a, u)| <= |KnownOf(b, u)|
  {
    forall n | n in KnownOf(a, u) ensures n in KnownOf(b, u) {
      KnownOfMember(a, u, n);
      KnownOfMember(b, u, n);
    }
    SetSize(KnownOf(a, u), KnownOf(b, u));
  }

  /** A node the finished batch counts still fits while it is not counted. */
  lemma StillFits(f: set<(string, string)>, z: Scan, start: set<(string, string)>, u: string, n: string, cap: int)
    requires Fits(z, start, cap) && start <= f <= z.known && (u, n) in z.known && (u, n) !in f
    ensures |KnownOf(f, u)| < cap
  {
    KnownSubset(start, f, u);
    KnownOfMember(z.known, u, n);
    KnownOfMember(f, u, n);
    KnownSubset(f, z.known, u);
    assert KnownOf(f, u) <= KnownOf(z.known, u) - {n};
    SetSize(KnownOf(f, u), KnownOf(z.known, u) - {n});
  }

  /** A user at the cap in the first run is there in the replay. */
  lemma StillFull(c: Scan, f: Scan, z: Scan, p: Payload, cap: int)
    requires Later(c, z, cap) && c.known <= f.known <= z.known && OverCap(c, p, cap)
    ensures OverCap(f, p, cap)
  {
    var u := p.User();
    KnownSubset(c.known, f.known, u);
    KnownOfMember(c.known, u, p.Node());
    KnownOfMember(z.known, u, p.Node());
  }

  /** The replay admits nothing that the first run refused, and decides as the first run did about every pair
      that the first run counted. */
  lemma Verdict(f: Scan, z: Scan, c: Scan, start: set<(string, string)>, teamId: string, p: Payload, cap: int)
    requires Replaying(f, z, c) && Fits(z, start, cap) && start <= c.known && Later(c, z, cap)
    ensures Admitted(f, teamId, p, cap) ==> Admitted(c, teamId, p, cap)
    ensures (p.User(), p.Node()) in z.known ==> (Admitted(f, teamId, p, cap) <==> Admitted(c, teamId, p, cap))
  {
    if OverCap(c, p, cap) {
      StillFull(c, f, z, p, cap);
    } else if (p.User(), p.Node()) in z.known && (p.User(), p.Node()) !in f.known {
      StillFits(f.known, z, start, p.User(), p.Node(), cap);
    }
  }

  lemma NextReplaying(f: Scan, z: Scan, c: Scan, start: set<(string, string)>, teamId: string, p: Payload, now: int, again: int, cap: int)
    requires Replaying(f, z, c) && Fits(z, start, cap) && start <= c.known
    requires Later(c, z, cap) && Later(Next(c, teamId, p, now, cap), z, cap)
    ensures Replaying(Next(f, teamId, p, again, cap), z, Next(c, teamId, p, now, cap))
  {
    Verdict(f, z, c, start, teamId, p, cap);
    NextCounts(c, teamId, p, now, cap);
    NextCounts(f, teamId, p, again, cap);
    InsertsIff(f, teamId, p, again, cap);
    hide Next, KnownOf, Refusal, OverCap, Admitted, TouchNode, AddToBucket, Fits, NodeKey;
    if Admitted(c, teamId, p, cap) {
      AdmittedStored(c, teamId, p, now, cap);
    }
  }

  lemma ReplayStarts(s: Tables, teamId: string, ps: seq<Payload>, now: int, cap: int)
    ensures Replaying(Begin(Batch(s, teamId, ps, now, cap), teamId), Scanned(s, teamId, ps, now, cap), Begin(s, teamId))
  {
    assert ps[..0] == [];
    ScansLater(s, teamId, ps, 0, now, cap);
    RowsCounted(s, teamId, ps, now, cap);
    var after := Batch(s, teamId, ps, now, cap).nodes;
    forall n | n in s.nodes && s.nodes[n].teamId == teamId ensures (s.nodes[n].userId, n) in KnownPairs(after, teamId) {
      OwnersStay(s, teamId, ps, now, cap, n);
    }
  }

  lemma BatchFits(s: Tables, teamId: string, ps: seq<Payload>, now: int, cap: int)
    ensures Fits(Scanned(s, teamId, ps, now, cap), Begin(s, teamId).known, cap)
  {
    forall u ensures |KnownOf(Scanned(s, teamId, ps, now, cap).known, u)| <= cap
                     || KnownOf(Scanned(s, teamId, ps, now, cap).known, u) == KnownOf(Begin(s, teamId).known, u) {
      CountBounded(s, teamId, ps, now, cap, u);
    }
  }

  /** The replay of the first `i` payloads, and the verdicts on the next. */
  lemma {:induction false} ScansReplaying(s: Tables, teamId: string, ps: seq<Payload>, i: nat, now: int, again: int, cap: int)
    requires i <= |ps|
    ensures Replaying(Scanned(Batch(s, teamId, ps, now, cap), teamId, ps[..i], again, cap),
                      Scanned(s, teamId, ps, now, cap), Scanned(s, teamId, ps[..i], now, cap))
  {
    hide Next, Batch, Replaying, Later, Fits;
    if i == 0 {
      assert ps[..0] == [];
      ReplayStarts(s, teamId, ps, now, cap);
    } else {
      var once := Batch(s, teamId, ps, now, cap);
      ScansReplaying(s, teamId, ps, i - 1, now, again, cap);
      ScannedStep(s, teamId, ps, i - 1, now, cap);
      ScannedStep(once, teamId, ps, i - 1, again, cap);
      ScansLater(s, teamId, ps, i - 1, now, cap);
      ScansLater(s, teamId, ps, i, now, cap);
      BatchFits(s, teamId, ps, now, cap);
      CountBounded(s, teamId, ps[..i - 1], now, cap, "");
      NextReplaying(Scanned(once, teamId, ps[..i - 1], again, cap), Scanned(s, teamId, ps, now, cap),
                    Scanned(s, teamId, ps[..i - 1], now, cap), Begin(s, teamId).known, teamId, ps[i - 1], now, again, cap);
    }
  }

  /** Sending a committed batch again, whatever names it bears, leaves events, rollup and members untouched. */
  lemma ReplayHarmless(s: Tables, teamId: string, ps: seq<Payload>, now: int, again: int, cap: int)
    ensures var once := Batch(s, teamId, ps, now, cap);
            var twice := Batch(once, teamId, ps, again, cap);
            twice.events == once.events && twice.rollup == once.rollup && twice.members == once.members
  {
    var once := Batch(s, teamId, ps, now, cap);
    ScansReplaying(s, teamId, ps, |ps|, now, again, cap);
    assert ps[..|ps|] == ps;
    FlushNothing(once.rollup, again);
    ScanStored(once, teamId, ps, again, cap);
  }
}
