/** Batching is unobservable exactly when a batch counts no node that belongs to somebody else. */
module TeamBatching {
  import opened Wrappers
  import opened JoinedKeys
  import opened UsageSums
  import opened TeamModel
  import opened TeamBatch
  import opened TeamRollup
  import opened TeamCap

  /** Every pair counted against a cap is a row of the nodes table. It fails once a batch admits a node
      whose row belongs to another user: the row keeps its owner, but the batch counts the node. */
  ghost predicate Attached(c: Scan, teamId: string) {
    c.known == KnownPairs(c.t.nodes, teamId)
  }

  // ---- invariants of a bar-free batch --------------------------------------

  /** A touched key stands for a counted pair whose row was seen just now. */
  ghost predicate TouchedNow(c: Scan, now: int) {
    forall u, n | NoBar(u) && NodeKey(u, n) in c.touched ::
      (u, n) in c.known && n in c.t.nodes && c.t.nodes[n].lastSeenAt == now
  }

  /** Bucket keys are bar-free and of one team. */
  ghost predicate CleanBuckets(b: map<string, Bucket>, teamId: string) {
    forall text <- b :: b[text].key.teamId == teamId && BarFreeKey(b[text].key)
  }

  lemma NodeKeyInjective(u: string, n: string, v: string, m: string)
    requires NoBar(u) && NoBar(v) && NodeKey(u, n) == NodeKey(v, m)
    ensures u == v && n == m
  {
    JoinInjective([u, n], [v, m]);
    assert [u, n][0] == [v, m][0] && [u, n][1] == [v, m][1];
  }

  lemma NextTouchedNow(c: Scan, teamId: string, p: Payload, now: int, cap: int)
    requires TouchedNow(c, now) && NoBar(p.User())
    ensures TouchedNow(Next(c, teamId, p, now, cap), now)
  {
    var d := Next(c, teamId, p, now, cap);
    NextCounts(c, teamId, p, now, cap);
    forall u, n | NoBar(u) && NodeKey(u, n) in d.touched
      ensures (u, n) in d.known && n in d.t.nodes && d.t.nodes[n].lastSeenAt == now
    {
      if NodeKey(u, n) == NodeKey(p.User(), p.Node()) {
        NodeKeyInjective(u, n, p.User(), p.Node());
      }
    }
  }

  lemma NextCleanBuckets(c: Scan, teamId: string, p: Payload, now: int, cap: int)
    requires CleanBuckets(c.buckets, teamId) && BarFree(p)
    ensures CleanBuckets(Next(c, teamId, p, now, cap).buckets, teamId)
  {
    NextInserts(c, teamId, p, now, cap);
    var d := Next(c, teamId, p, now, cap);
    if !InsertsNothing(c, d) {
      assert BarFreeKey(KeyOf(p.e));
    }
  }

  lemma CleanNoCollision(b: map<string, Bucket>, teamId: string, e: SyncedEvent)
    requires Filed(b) && CleanBuckets(b, teamId) && e.teamId == teamId && BarFreeKey(KeyOf(e))
    ensures !Collides(b, e)
  {
    if KeyText(KeyOf(e)) in b {
      KeyTextInjective(b[KeyText(KeyOf(e))].key, KeyOf(e));
    }
  }

  // ---- the simulation ------------------------------------------------------

  /** Scan `c` goes on inside a batch, scan `f` began afresh on the committed tables; `past` is what the
      response of `c` said when they parted. */
  ghost predicate Sim(c: Scan, f: Scan, past: Response, now: int) {
    && f.t == c.t.(rollup := f.t.rollup)
    && f.known == c.known
    && f.touched <= c.touched
    && Flush(f.t.rollup, f.buckets, now) == Flush(c.t.rollup, c.buckets, now)
    && c.resp == past.Then(f.resp)
  }

  /** What `Sim` needs of both sides to survive a step. */
  ghost predicate Sound(c: Scan, teamId: string, now: int) {
    TouchedNow(c, now) && Filed(c.buckets) && CleanBuckets(c.buckets, teamId)
  }

  lemma NextSound(c: Scan, teamId: string, p: Payload, now: int, cap: int)
    requires Sound(c, teamId, now) && BarFree(p)
    ensures Sound(Next(c, teamId, p, now, cap), teamId, now)
  {
    NextTouchedNow(c, teamId, p, now, cap);
    NextCleanBuckets(c, teamId, p, now, cap);
    NextInserts(c, teamId, p, now, cap);
    if p.Event? {
      AddFiled(c.buckets, p.e);
    }
  }

  lemma {:induction false} ScanSound(s: Tables, teamId: string, ps: seq<Payload>, now: int, cap: int)
    requires forall p <- ps :: BarFree(p)
    ensures Sound(Scanned(s, teamId, ps, now, cap), teamId, now)
    decreases |ps|
  {
    if ps == [] {
    } else {
      assert forall p <- ps[..|ps| - 1] :: p in ps;
      ScanSound(s, teamId, ps[..|ps| - 1], now, cap);
      NextSound(Scanned(s, teamId, ps[..|ps| - 1], now, cap), teamId, ps[|ps| - 1], now, cap);
    }
  }

  lemma TouchSim(c: Scan, f: Scan, past: Response, teamId: string, p: Payload, now: int)
    requires Sim(c, f, past, now) && TouchedNow(c, now) && NoBar(p.User())
    ensures Sim(Touch(c, teamId, p, now), Touch(f, teamId, p, now), past, now)
  {
    var key := NodeKey(p.User(), p.Node());
    if key in c.touched && key !in f.touched {
      assert TouchNode(f.t.nodes, p.Node(), p.User(), teamId, now) == f.t.nodes;
      assert f.known + {(p.User(), p.Node())} == f.known;
    }
  }

  lemma ThenAssociates(a: Response, b: Response, id: string, reached: int, reason: Reason)
    ensures a.Then(b).Accept(id, reached) == a.Then(b.Accept(id, reached))
    ensures a.Then(b).Duplicate(id, reached) == a.Then(b.Duplicate(id, reached))
    ensures a.Then(b).Reject(id, reason) == a.Then(b.Reject(id, reason))
  {}

  lemma WriteSim(c: Scan, f: Scan, past: Response, teamId: string, p: Payload, now: int)
    requires Sim(c, f, past, now) && BarFree(p) && p.Team() == teamId
    requires Filed(c.buckets) && CleanBuckets(c.buckets, teamId) && Filed(f.buckets) && CleanBuckets(f.buckets, teamId)
    ensures Sim(Write(c, p, now), Write(f, p, now), past, now)
  {
    ThenAssociates(past, f.resp, p.Id(), p.Reached(), DeviceLimit);
    if p.Event? && p.e.syncEventId !in c.t.events {
      assert BarFreeKey(KeyOf(p.e));
      CleanNoCollision(c.buckets, teamId, p.e);
      CleanNoCollision(f.buckets, teamId, p.e);
      FlushAdds(c.t.rollup, c.buckets, p.e, now);
      FlushAdds(f.t.rollup, f.buckets, p.e, now);
    }
  }

  lemma NextSim(c: Scan, f: Scan, past: Response, teamId: string, p: Payload, now: int, cap: int)
    requires Sim(c, f, past, now) && Sound(c, teamId, now) && Sound(f, teamId, now) && BarFree(p)
    ensures Sim(Next(c, teamId, p, now, cap), Next(f, teamId, p, now, cap), past, now)
  {
    var refusal := Refusal(c.t.members, teamId, p);
    ThenAssociates(past, f.resp, p.Id(), 0, if refusal.Some? then refusal.value else DeviceLimit);
    if refusal.None? && !OverCap(c, p, cap) {
      TouchSim(c, f, past, teamId, p, now);
      WriteSim(Touch(c, teamId, p, now), Touch(f, teamId, p, now), past, teamId, p, now);
    }
  }

  lemma CursorRises(c: Scan, teamId: string, p: Payload, now: int, cap: int)
    ensures Next(c, teamId, p, now, cap).resp.cursor >= c.resp.cursor
  {}

  lemma {:induction false} CursorNonNegative(s: Tables, teamId: string, ps: seq<Payload>, now: int, cap: int)
    ensures Reply(s, teamId, ps, now, cap).cursor >= 0
    decreases |ps|
  {
    hide Next;
    if ps == [] {
    } else {
      CursorNonNegative(s, teamId, ps[..|ps| - 1], now, cap);
      CursorRises(Scanned(s, teamId, ps[..|ps| - 1], now, cap), teamId, ps[|ps| - 1], now, cap);
    }
  }

  lemma Parting(s: Tables, teamId: string, a: seq<Payload>, now: int, cap: int)
    requires Attached(Scanned(s, teamId, a, now, cap), teamId)
    ensures Sim(Scanned(s, teamId, a, now, cap), Begin(Batch(s, teamId, a, now, cap), teamId), Reply(s, teamId, a, now, cap), now)
  {
    var c := Scanned(s, teamId, a, now, cap);
    CursorNonNegative(s, teamId, a, now, cap);
    FlushNothing(Flush(c.t.rollup, c.buckets, now), now);
    assert c.resp == c.resp.Then(NOTHING);
  }

  lemma {:induction false} ScansSim(s: Tables, teamId: string, a: seq<Payload>, b: seq<Payload>, now: int, cap: int)
    requires Attached(Scanned(s, teamId, a, now, cap), teamId)
    requires (forall p <- a :: BarFree(p)) && (forall p <- b :: BarFree(p))
    ensures Sim(Scanned(s, teamId, a + b, now, cap), Scanned(Batch(s, teamId, a, now, cap), teamId, b, now, cap),
                Reply(s, teamId, a, now, cap), now)
    decreases |b|
  {
    if b == [] {
      assert a + b == a;
      Parting(s, teamId, a, now, cap);
    } else {
      var b', p := b[..|b| - 1], b[|b| - 1];
      assert (a + b)[..|a + b| - 1] == a + b' && (a + b)[|a + b| - 1] == p;
      assert forall q <- b' :: q in b;
      ScansSim(s, teamId, a, b', now, cap);
      ScanSound(s, teamId, a + b', now, cap);
      ScanSound(Batch(s, teamId, a, now, cap), teamId, b', now, cap);
      NextSim(Scanned(s, teamId, a + b', now, cap), Scanned(Batch(s, teamId, a, now, cap), teamId, b', now, cap),
              Reply(s, teamId, a, now, cap), teamId, p, now, cap);
    }
  }

  /** Uploading `a + b` in one batch cannot be told from uploading `a` and then `b`. */
  ghost predicate Cuttable(s: Tables, teamId: string, a: seq<Payload>, b: seq<Payload>, now: int, cap: int) {
    var t := Batch(s, teamId, a, now, cap);
    && Batch(s, teamId, a + b, now, cap) == Batch(t, teamId, b, now, cap)
    && Reply(s, teamId, a + b, now, cap) == Reply(s, teamId, a, now, cap).Then(Reply(t, teamId, b, now, cap))
  }

  lemma AttachedSplits(s: Tables, teamId: string, a: seq<Payload>, b: seq<Payload>, now: int, cap: int)
    requires Attached(Scanned(s, teamId, a, now, cap), teamId)
    requires (forall p <- a :: BarFree(p)) && (forall p <- b :: BarFree(p))
    ensures Cuttable(s, teamId, a, b, now, cap)
  {
    ScansSim(s, teamId, a, b, now, cap);
  }

  // ---- the naive server ----------------------------------------------------

  lemma ScanOfOne(s: Tables, teamId: string, p: Payload, now: int, cap: int)
    ensures Scanned(s, teamId, [p], now, cap) == Next(Begin(s, teamId), teamId, p, now, cap)
  {
    var ps := [p];
    assert ps[..|ps| - 1] == [];
    assert Scans(Begin(s, teamId), teamId, [], now, cap) == Begin(s, teamId);
  }

  lemma FirstOverCap(s: Tables, teamId: string, p: Payload, cap: int)
    ensures var mine := NodesOf(s.nodes, teamId, p.User());
            OverCap(Begin(s, teamId), p, cap) <==> p.Node() !in mine && |mine| >= cap
  {
    NodesArePairs(s.nodes, teamId, p.User());
    KnownOfMember(Begin(s, teamId).known, p.User(), p.Node());
  }

  lemma FirstTouch(s: Tables, teamId: string, p: Payload, now: int)
    ensures var c := Touch(Begin(s, teamId), teamId, p, now);
            c.t == s.(nodes := TouchNode(s.nodes, p.Node(), p.User(), teamId, now)) && c.buckets == map[] && c.resp == NOTHING
  {}

  lemma FirstWrite(c: Scan, p: Payload, now: int)
    requires c.buckets == map[] && c.resp == NOTHING
    ensures (Commit(Write(c, p, now), now), Write(c, p, now).resp) == Store(c.t, p, now)
  {
    FlushNothing(c.t.rollup, now);
    if p.Event? {
      FlushAdds(c.t.rollup, map[], p.e, now);
    }
  }

  /** A batch of one payload is a transaction of the naive server, for every state and payload. */
  lemma SingleIsOne(s: Tables, teamId: string, p: Payload, now: int, cap: int)
    ensures (Batch(s, teamId, [p], now, cap), Reply(s, teamId, [p], now, cap)) == One(s, teamId, p, now, cap)
  {
    ScanOfOne(s, teamId, p, now, cap);
    FirstOverCap(s, teamId, p, cap);
    FlushNothing(s.rollup, now);
    FirstTouch(s, teamId, p, now);
    FirstWrite(Touch(Begin(s, teamId), teamId, p, now), p, now);
  }

  /** The batched server, its caches and its grouped rollup writes refine the naive server: as long as no
      proper prefix counts a foreign node, tables and responses are the same. */
  lemma {:induction false} BatchIsOneByOne(s: Tables, teamId: string, ps: seq<Payload>, now: int, cap: int)
    requires forall p <- ps :: BarFree(p)
    requires forall k :: 0 <= k < |ps| ==> Attached(Scanned(s, teamId, ps[..k], now, cap), teamId)
    ensures (Batch(s, teamId, ps, now, cap), Reply(s, teamId, ps, now, cap)) == OneByOne(s, teamId, ps, now, cap)
    decreases |ps|
  {
    if ps == [] {
      FlushNothing(s.rollup, now);
    } else {
      var a, p := ps[..|ps| - 1], ps[|ps| - 1];
      assert ps == a + [p];
      assert Attached(Scanned(s, teamId, ps[..|ps| - 1], now, cap), teamId);
      forall k | 0 <= k < |a| ensures Attached(Scanned(s, teamId, a[..k], now, cap), teamId) {
        assert a[..k] == ps[..k];
      }
      BatchIsOneByOne(s, teamId, a, now, cap);
      AttachedSplits(s, teamId, a, [p], now, cap);
      SingleIsOne(Batch(s, teamId, a, now, cap), teamId, p, now, cap);
    }
  }
}
