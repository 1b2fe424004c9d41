/** What one committed batch does, as a function: the specification of TeamService.BatchUpsert.
    Membership look-ups and node sets need no cache here; the strings under which a batch
    remembers touched nodes and rollup buckets are kept, because they can collide. */
module TeamBatch {
  import opened Wrappers
  import opened JoinedKeys
  import opened UsageSums
  import opened TeamModel

  datatype Bucket = Bucket(key: RollupKey, usage: Usage, pricing: string)

  function AddToBucket(b: map<string, Bucket>, e: SyncedEvent): map<string, Bucket> {
    var text := KeyText(KeyOf(e));
    b[text := if text in b then Bucket(b[text].key, b[text].usage.Plus(UsageOf(e)), e.pricing)
              else Bucket(KeyOf(e), UsageOf(e), e.pricing)]
  }

  /** The state of a batch between two payloads: the tables inside its transaction (rollup still
      untouched), the (user, node) pairs that count against the device cap, the keys of touched
      nodes, the rollup buckets, the events inserted so far and the response so far. */
  datatype Scan = Scan(
    t: Tables,
    known: set<(string, string)>,
    touched: set<string>,
    buckets: map<string, Bucket>,
    inserted: seq<SyncedEvent>,
    resp: Response)

  function NodeKey(userId: string, nodeId: string): string { Join([userId, nodeId]) }

  function KnownPairs(nodes: map<string, NodeRow>, teamId: string): set<(string, string)> {
    set n | n in nodes && nodes[n].teamId == teamId :: (nodes[n].userId, n)
  }

  function KnownOf(known: set<(string, string)>, userId: string): set<string> {
    set q | q in known && q.0 == userId :: q.1
  }

  function Begin(s: Tables, teamId: string): Scan {
    Scan(s, KnownPairs(s.nodes, teamId), {}, map[], [], NOTHING)
  }

  predicate OverCap(c: Scan, p: Payload, cap: int) {
    (p.User(), p.Node()) !in c.known && |KnownOf(c.known, p.User())| >= cap
  }

  function Touch(c: Scan, teamId: string, p: Payload, now: int): Scan {
    var key := NodeKey(p.User(), p.Node());
    if key in c.touched then c
    else c.(t := c.t.(nodes := TouchNode(c.t.nodes, p.Node(), p.User(), teamId, now)),
            known := c.known + {(p.User(), p.Node())},
            touched := c.touched + {key})
  }

  function WriteDaily(c: Scan, p: Payload, now: int): Scan
    requires p.Daily?
  {
    c.(t := c.t.(daily := c.t.daily[DailyKeyOf(p.d) := DayRow(p.d.usage, p.d.pricing, now)]),
       resp := c.resp.Accept(p.Id(), p.Reached()))
  }

  function WriteEvent(c: Scan, p: Payload, now: int): Scan
    requires p.Event?
  {
    var e := p.e;
    if e.syncEventId in c.t.events then
      var prior := c.t.events[e.syncEventId].e.payloadHash;
      c.(t := if prior == e.payloadHash then c.t
              else c.t.(conflicts := c.t.conflicts + [Conflict(e.syncEventId, prior, e.payloadHash, now)]),
         resp := c.resp.Duplicate(p.Id(), p.Reached()))
    else
      c.(t := c.t.(events := c.t.events[e.syncEventId := RowOf(e, now)]),
         buckets := AddToBucket(c.buckets, e),
         inserted := c.inserted + [e],
         resp := c.resp.Accept(p.Id(), p.Reached()))
  }

  function Write(c: Scan, p: Payload, now: int): Scan {
    if p.Daily? then WriteDaily(c, p, now) else WriteEvent(c, p, now)
  }

  function Next(c: Scan, teamId: string, p: Payload, now: int, cap: int): Scan {
    var refusal := Refusal(c.t.members, teamId, p);
    if refusal.Some? then c.(resp := c.resp.Reject(p.Id(), refusal.value))
    else if OverCap(c, p, cap) then c.(resp := c.resp.Reject(p.Id(), DeviceLimit))
    else Write(Touch(c, teamId, p, now), p, now)
  }

  function Scans(c: Scan, teamId: string, ps: seq<Payload>, now: int, cap: int): Scan
    decreases |ps|
  {
    if ps == [] then c
    else Next(Scans(c, teamId, ps[..|ps| - 1], now, cap), teamId, ps[|ps| - 1], now, cap)
  }

  lemma ScansStep(c: Scan, teamId: string, ps: seq<Payload>, p: Payload, now: int, cap: int)
    ensures Scans(c, teamId, ps + [p], now, cap) == Next(Scans(c, teamId, ps, now, cap), teamId, p, now, cap)
  {
    var all := ps + [p];
    assert all[..|all| - 1] == ps && all[|all| - 1] == p;
  }

  // ---- the grouped rollup write --------------------------------------------

  /** A bucket is filed under the text of its own key. */
  predicate Filed(b: map<string, Bucket>) {
    forall text <- b :: KeyText(b[text].key) == text
  }

  /** No two buckets are for the same rollup row. */
  predicate Distinct(b: map<string, Bucket>) {
    forall s, t | s in b && t in b && b[s].key == b[t].key :: s == t
  }

  function Targets(b: map<string, Bucket>): set<RollupKey> {
    set text | text in b :: b[text].key
  }

  /** The bucket for rollup row `k`, if there is one. */
  ghost function BucketFor(b: map<string, Bucket>, k: RollupKey): Option<Bucket> {
    if k in Targets(b) then var text :| text in b && b[text].key == k; Some(b[text]) else None
  }

  function Merged(rollup: map<RollupKey, DayRow>, k: RollupKey, d: Option<Bucket>, now: int): DayRow
    requires k in rollup || d.Some?
  {
    if d.None? then rollup[k]
    else DayRow(if k in rollup then rollup[k].usage.Plus(d.value.usage) else d.value.usage, d.value.pricing, now)
  }

  /** One accumulating upsert for every bucket. */
  ghost function Flush(rollup: map<RollupKey, DayRow>, b: map<string, Bucket>, now: int): map<RollupKey, DayRow> {
    map k | k in rollup.Keys + Targets(b) :: Merged(rollup, k, BucketFor(b, k), now)
  }

  ghost function Commit(c: Scan, now: int): Tables {
    c.t.(rollup := Flush(c.t.rollup, c.buckets, now))
  }

  lemma AddFiled(b: map<string, Bucket>, e: SyncedEvent)
    requires Filed(b)
    ensures Filed(AddToBucket(b, e))
  {}

  lemma FiledDistinct(b: map<string, Bucket>)
    requires Filed(b)
    ensures Distinct(b)
  {}

  lemma {:induction false} ScansFiled(c: Scan, teamId: string, ps: seq<Payload>, now: int, cap: int)
    requires Filed(c.buckets)
    ensures Filed(Scans(c, teamId, ps, now, cap).buckets)
    decreases |ps|
  {
    if ps == [] {
    } else {
      var d := Scans(c, teamId, ps[..|ps| - 1], now, cap);
      var p := ps[|ps| - 1];
      ScansFiled(c, teamId, ps[..|ps| - 1], now, cap);
      assert Next(d, teamId, p, now, cap).buckets in {d.buckets, if p.Event? then AddToBucket(d.buckets, p.e) else d.buckets};
      if p.Event? {
        AddFiled(d.buckets, p.e);
      }
    }
  }

  /** The scan of a whole batch. */
  function Scanned(s: Tables, teamId: string, ps: seq<Payload>, now: int, cap: int): Scan {
    Scans(Begin(s, teamId), teamId, ps, now, cap)
  }

  lemma ScannedStep(s: Tables, teamId: string, ps: seq<Payload>, i: nat, now: int, cap: int)
    requires i < |ps|
    ensures Scanned(s, teamId, ps[..i + 1], now, cap) == Next(Scanned(s, teamId, ps[..i], now, cap), teamId, ps[i], now, cap)
  {
    assert ps[..i + 1] == ps[..i] + [ps[i]];
    ScansStep(Begin(s, teamId), teamId, ps[..i], ps[i], now, cap);
  }

  lemma ScannedDistinct(s: Tables, teamId: string, ps: seq<Payload>, now: int, cap: int)
    ensures Distinct(Scanned(s, teamId, ps, now, cap).buckets)
  {
    ScansFiled(Begin(s, teamId), teamId, ps, now, cap);
    FiledDistinct(Scanned(s, teamId, ps, now, cap).buckets);
  }

  /** The tables after a committed batch. */
  ghost function Batch(s: Tables, teamId: string, ps: seq<Payload>, now: int, cap: int): Tables {
    Commit(Scanned(s, teamId, ps, now, cap), now)
  }

  function Reply(s: Tables, teamId: string, ps: seq<Payload>, now: int, cap: int): Response {
    Scanned(s, teamId, ps, now, cap).resp
  }

  // ---- facts about the grouped write ---------------------------------------

  lemma BucketOf(b: map<string, Bucket>, text: string)
    requires Distinct(b) && text in b
    ensures b[text].key in Targets(b) && BucketFor(b, b[text].key) == Some(b[text])
  {}

  /** Filing a bucket changes what is filed for its row and nothing else. */
  lemma FileBucket(b: map<string, Bucket>, text: string, d: Bucket)
    requires Distinct(b) && (if text in b then b[text].key == d.key else d.key !in Targets(b))
    ensures var b' := b[text := d];
            && Distinct(b')
            && Targets(b') == Targets(b) + {d.key}
            && BucketFor(b', d.key) == Some(d)
            && (forall k :: k != d.key ==> BucketFor(b', k) == BucketFor(b, k))
  {
    var b' := b[text := d];
    assert forall t <- b :: b[t].key in Targets(b);
    assert Distinct(b');
    BucketOf(b', text);
    forall k | k in Targets(b) ensures k in Targets(b') {
      var t :| t in b && b[t].key == k;
      BucketOf(b', t);
    }
    forall k | k != d.key ensures BucketFor(b', k) == BucketFor(b, k) {
      if k in Targets(b) {
        var t :| t in b && b[t].key == k;
        BucketOf(b, t);
        BucketOf(b', t);
      }
    }
  }

  /** Writing one more bucket is one more accumulating upsert. */
  lemma FlushOneMore(rollup: map<RollupKey, DayRow>, b: map<string, Bucket>, text: string, d: Bucket, now: int)
    requires Distinct(b) && text !in b && d.key !in Targets(b)
    ensures Flush(rollup, b[text := d], now) == Accumulate(Flush(rollup, b, now), d.key, d.usage, d.pricing, now)
  {
    FileBucket(b, text, d);
  }

  /** Adding to a bucket and flushing later is adding to its row now. */
  lemma FlushMore(rollup: map<RollupKey, DayRow>, b: map<string, Bucket>, text: string, u: Usage, pricing: string, now: int)
    requires Distinct(b) && text in b
    ensures Flush(rollup, b[text := Bucket(b[text].key, b[text].usage.Plus(u), pricing)], now)
            == Accumulate(Flush(rollup, b, now), b[text].key, u, pricing, now)
  {
    var d := b[text];
    FileBucket(b, text, Bucket(d.key, d.usage.Plus(u), pricing));
    BucketOf(b, text);
    if d.key in rollup {
      PlusLaws(rollup[d.key].usage, d.usage, u);
    }
  }

  /** The event would be put into a bucket filed for another rollup row. */
  predicate Collides(b: map<string, Bucket>, e: SyncedEvent) {
    KeyText(KeyOf(e)) in b && b[KeyText(KeyOf(e))].key != KeyOf(e)
  }

  lemma FreshTarget(b: map<string, Bucket>, e: SyncedEvent)
    requires Filed(b) && KeyText(KeyOf(e)) !in b
    ensures KeyOf(e) !in Targets(b)
  {}

  /** Without a collision, bucketing an event and flushing later is writing it to the rollup now. */
  lemma FlushAdds(rollup: map<RollupKey, DayRow>, b: map<string, Bucket>, e: SyncedEvent, now: int)
    requires Filed(b) && !Collides(b, e)
    ensures Flush(rollup, AddToBucket(b, e), now) == Accumulate(Flush(rollup, b, now), KeyOf(e), UsageOf(e), e.pricing, now)
  {
    var text := KeyText(KeyOf(e));
    FiledDistinct(b);
    if text !in b {
      FreshTarget(b, e);
      FlushOneMore(rollup, b, text, Bucket(KeyOf(e), UsageOf(e), e.pricing), now);
    } else {
      FlushMore(rollup, b, text, UsageOf(e), e.pricing, now);
    }
  }

  lemma FlushNothing(rollup: map<RollupKey, DayRow>, now: int)
    ensures Flush(rollup, map[], now) == rollup
  {}

  lemma {:induction false} SubsetSize<T>(a: set<T>, b: set<T>)
    requires a <= b
    ensures |a| <= |b|
    decreases |a|
  {
    if a == {} {
    } else {
      var x :| x in a;
      SubsetSize(a - {x}, b - {x});
    }
  }
}
