/** Runs of refreshes over a growing Claude log. */
module ClaudeRuns {
  import opened Wrappers
  import opened Redaction
  import opened LocalDb
  import opened Jsonl
  import opened Ingestion
  import opened FileCaches
  import opened ClaudeParser
  import opened ClaudeResume

  // ---- rows of a log by position -------------------------------------------

  lemma {:induction false} HeldConcat(parse: Parse, a: seq<Line>, b: seq<Line>)
    ensures HeldOf(parse, a + b) == HeldOf(parse, a) + HeldOf(parse, b)
    decreases |b|
  {
    if b == [] {
      assert a + b == a && HeldOf(parse, b) == [];
    } else {
      var init, last := b[..|b| - 1], b[|b| - 1];
      SplitLast(a, b);
      HeldConcat(parse, a, init);
      HeldMore(parse, a + init, last, a + b);
      HeldMore(parse, init, last, b);
      RegroupEnd(HeldOf(parse, a + b), HeldOf(parse, a + init), HeldOf(parse, a), HeldOf(parse, init),
                 HeldAt(parse, last), HeldOf(parse, b));
    }
  }

  function Held(parse: Parse, f: string, i: nat, n: nat): seq<ClaudeParser.Held>
    requires n <= |f|
  {
    HeldOf(parse, Lines(f, i, n))
  }

  /** The rows with usage of the whole file. */
  function Log(parse: Parse, f: string): seq<ClaudeParser.Held> { Held(parse, f, 0, |f|) }

  /** How many of them start before byte `k`. */
  function Index(parse: Parse, f: string, k: nat): nat
    requires k <= |f|
  {
    |Held(parse, f, 0, k)|
  }

  lemma HeldReach(parse: Parse, f: string, i: nat, k: nat)
    requires FrontsAgree(parse, f) && i <= k <= |f| && AtLineEnd(f, i)
    ensures Held(parse, f, i, k) == Held(parse, f, i, Reach(parse, f, k))
  {
    if !AtLineEnd(f, k) {
      var b, e := LineStart(f, k), LineEnd(f, k, |f|);
      LinesReach(f, i, k);
      HeldMore(parse, Lines(f, i, b), Line(b, f[b..k]), Lines(f, i, k));
      HeldMore(parse, Lines(f, i, b), Line(b, f[b..e]), Lines(f, i, e));
      SameLine(f, k);
      assert FrontAgrees(parse, f, k, e);
    }
  }

  lemma Middle<T>(all: seq<T>, a: seq<T>, b: seq<T>, c: seq<T>, ab: seq<T>)
    requires all == ab + c && ab == a + b
    ensures |a| <= |ab| <= |all| && b == all[|a|..|ab|]
  {}

  /** A read hands the parser a stretch of the log. */
  lemma ReadIsStretch(parse: Parse, f: string, i: nat, r: nat)
    requires i <= r <= |f| && AtLineEnd(f, i) && AtLineEnd(f, r)
    ensures Index(parse, f, i) <= Index(parse, f, r) <= |Log(parse, f)|
    ensures Held(parse, f, i, r) == Log(parse, f)[Index(parse, f, i)..Index(parse, f, r)]
  {
    LinesCut(f, 0, r, |f|);
    LinesCut(f, 0, i, r);
    HeldConcat(parse, Lines(f, 0, r), Lines(f, r, |f|));
    HeldConcat(parse, Lines(f, 0, i), Lines(f, i, r));
    Middle(Log(parse, f), Held(parse, f, 0, i), Held(parse, f, i, r), Held(parse, f, r, |f|), Held(parse, f, 0, r));
  }

  // ---- runs ----------------------------------------------------------------

  /** The store after the windows have been parsed and upserted one after the other. */
  function Ingested(parse: Parse, f: string, cfg: Setup, s: Store, ws: seq<Window>): Store
    decreases |ws|
  {
    if ws == [] then s
    else
      var w, before := ws[|ws| - 1], Ingested(parse, f, cfg, s, ws[..|ws| - 1]);
      if w.end > |f| then before
      else PutAll(before, Emitted(cfg, Held(parse, f, w.start, w.end), w.clock), w.now)
  }

  lemma {:induction false} IngestedSane(parse: Parse, f: string, cfg: Setup, s: Store, ws: seq<Window>)
    requires Sane(s)
    ensures Sane(Ingested(parse, f, cfg, s, ws))
    decreases |ws|
  {
    if ws == [] {
    } else {
      var w, before := ws[|ws| - 1], Ingested(parse, f, cfg, s, ws[..|ws| - 1]);
      IngestedSane(parse, f, cfg, s, ws[..|ws| - 1]);
      if w.end <= |f| {
        PutAllSane(before, Emitted(cfg, Held(parse, f, w.start, w.end), w.clock), w.now);
      }
    }
  }

  lemma OneMoreWindow(parse: Parse, f: string, cfg: Setup, before: View, v: View, covered: nat, w: Window)
    requires FrontsAgree(parse, f) && LogOk(Log(parse, f))
    requires w.start <= covered <= w.end <= |f| && AtLineEnd(f, w.start)
    requires Index(parse, f, Reach(parse, f, covered)) <= |Log(parse, f)|
    requires TookIn(cfg, Log(parse, f), Index(parse, f, Reach(parse, f, covered)), before, v)
    ensures Index(parse, f, Reach(parse, f, w.end)) <= |Log(parse, f)|
    ensures TookIn(cfg, Log(parse, f), Index(parse, f, Reach(parse, f, w.end)), before,
                   AbsorbAll(v, Emitted(cfg, Held(parse, f, w.start, w.end), w.clock)))
  {
    var c, r := Reach(parse, f, covered), Reach(parse, f, w.end);
    ReachMonotone(parse, f, w.start, covered);
    ReachMonotone(parse, f, covered, w.end);
    HeldReach(parse, f, w.start, w.end);
    ReadIsStretch(parse, f, w.start, c);
    ReadIsStretch(parse, f, c, r);
    ReadIsStretch(parse, f, w.start, r);
    TakeInMore(cfg, Log(parse, f), Index(parse, f, w.start), Index(parse, f, c), Index(parse, f, r), w.clock, before, v);
  }

  lemma {:induction false} IngestedTookIn(parse: Parse, f: string, cfg: Setup, s: Store, ws: seq<Window>)
    requires FrontsAgree(parse, f) && LogOk(Log(parse, f)) && Sane(s)
    requires Tiles(f, ws) && StartAtLines(f, ws)
    ensures Covered(ws) <= |f| && Index(parse, f, Reach(parse, f, Covered(ws))) <= |Log(parse, f)|
    ensures TookIn(cfg, Log(parse, f), Index(parse, f, Reach(parse, f, Covered(ws))), ViewOf(s),
                   ViewOf(Ingested(parse, f, cfg, s, ws)))
    decreases |ws|
  {
    if ws == [] {
    } else {
      var before, w := ws[..|ws| - 1], ws[|ws| - 1];
      assert w in ws;
      TilesBefore(f, ws);
      IngestedTookIn(parse, f, cfg, s, before);
      IngestedSane(parse, f, cfg, s, before);
      var t := Ingested(parse, f, cfg, s, before);
      PutAllView(t, Emitted(cfg, Held(parse, f, w.start, w.end), w.clock), w.now);
      OneMoreWindow(parse, f, cfg, ViewOf(s), ViewOf(t), Covered(before), w);
    }
  }

  lemma {:induction false} HeldRise(parse: Parse, lines: seq<Line>)
    requires Rising(lines)
    ensures Ordered(HeldOf(parse, lines))
    ensures forall h <- HeldOf(parse, lines) :: lines != [] && h.offset <= lines[|lines| - 1].offset
    decreases |lines|
  {
    if lines == [] {
    } else {
      var before := lines[..|lines| - 1];
      HeldRise(parse, before);
      var hs := HeldOf(parse, before);
      assert forall a :: 0 <= a < |hs| ==> hs[a] in hs;
    }
  }

  lemma LogRises(parse: Parse, f: string)
    ensures Ordered(Log(parse, f))
  {
    LinesRise(f, 0, |f|);
    HeldRise(parse, Lines(f, 0, |f|));
  }

  /** The parse of the finished file in one go. */
  function FullParse(parse: Parse, f: string, cfg: Setup, s: Store, clock: nat -> int, now: int): Store {
    PutAll(s, Emitted(cfg, Log(parse, f), clock), now)
  }

  /** Any run of refreshes of a growing settled log that ends caught up leaves the events of one full parse, and
      queues the same ids. */
  lemma ResumingIsParsingInFull(parse: Parse, f: string, cfg: Setup, s: Store, rs: seq<Refresh>, clock: nat -> int, now: int)
    requires FrontsAgree(parse, f) && Stamped(Log(parse, f)) && Plain(Log(parse, f)) && Settled(Log(parse, f)) && Sane(s)
    requires Grows(f, rs) && WholeLines(f, rs) && CaughtUp(f, rs)
    ensures Same(ViewOf(Ingested(parse, f, cfg, s, Windows(true, cfg.src.path, rs))), ViewOf(FullParse(parse, f, cfg, s, clock, now)))
  {
    var ws := Windows(true, cfg.src.path, rs);
    LogRises(parse, f);
    WindowsTile(true, f, cfg.src.path, rs);
    WindowsStartAtLines(true, f, cfg.src.path, rs);
    WindowsCover(true, f, cfg.src.path, rs);
    IngestedTookIn(parse, f, cfg, s, ws);
    PutAllView(s, Emitted(cfg, Log(parse, f), clock), now);
    FullRead(cfg, Log(parse, f), clock, ViewOf(s));
    TookAllIn(cfg, Log(parse, f), ViewOf(s), ViewOf(Ingested(parse, f, cfg, s, ws)), ViewOf(FullParse(parse, f, cfg, s, clock, now)));
  }

  // ---- a split that shows --------------------------------------------------

  lemma IndexOverLine(parse: Parse, f: string, i: nat, j: nat)
    requires i <= j <= |f| && AtLineEnd(f, i) && LineEnd(f, i, |f|) == j
    ensures Index(parse, f, j) == Index(parse, f, i) + |HeldOf(parse, LineAt(f, i, j))|
  {
    LinesCut(f, 0, i, j);
    OneLine(f, i, j);
    HeldConcat(parse, Lines(f, 0, i), LineAt(f, i, j));
  }

  lemma IndexOverBreak(parse: Parse, f: string, j: nat)
    requires j < |f| && f[j] == '\n'
    ensures Index(parse, f, j + 1) == Index(parse, f, j)
  {
    LinesCut(f, 0, j, j + 1);
    BreakOnly(f, j);
    NothingAfter(Lines(f, 0, j));
  }

  lemma HeldShort(parse: Parse, lines: seq<Line>)
    requires |lines| <= 1
    ensures |HeldOf(parse, lines)| <= |lines|
  {
    if lines != [] {
      assert lines[..0] == [];
    }
  }

  /** Over one line a count grows by one at most. */
  ghost predicate OneAtMost(f: string, count: nat -> nat, k: nat) {
    k <= |f| && (k == 0 || f[k - 1] == '\n') ==> count(LineEnd(f, k, |f|)) <= count(k) + 1
  }

  ghost predicate NoneOverBreak(f: string, count: nat -> nat, k: nat) {
    k < |f| && f[k] == '\n' ==> count(k + 1) == count(k)
  }

  /** Such a count takes every value on its way at some line end. */
  lemma {:induction false} FindEnd(f: string, count: nat -> nat, i: nat, q: nat) returns (e: nat)
    requires i <= |f| && (i == 0 || f[i - 1] == '\n') && count(i) <= q < count(|f|)
    requires forall k: nat :: OneAtMost(f, count, k)
    requires forall k: nat :: NoneOverBreak(f, count, k)
    ensures e <= |f| && AtLineEnd(f, e) && count(e) == q + 1
    decreases |f| - i
  {
    assert OneAtMost(f, count, i);
    e := LineEnd(f, i, |f|);
    if count(e) != q + 1 {
      assert NoneOverBreak(f, count, e);
      e := FindEnd(f, count, e + 1, q);
    }
  }

  function CountAt(parse: Parse, f: string, k: nat): nat { if k <= |f| then Index(parse, f, k) else 0 }

  lemma CountSteps(parse: Parse, f: string, count: nat -> nat, k: nat)
    requires forall j: nat :: count(j) == CountAt(parse, f, j)
    ensures OneAtMost(f, count, k) && NoneOverBreak(f, count, k)
  {
    if k <= |f| && (k == 0 || f[k - 1] == '\n') {
      IndexOverLine(parse, f, k, LineEnd(f, k, |f|));
      HeldShort(parse, LineAt(f, k, LineEnd(f, k, |f|)));
    }
    if k < |f| && f[k] == '\n' {
      IndexOverBreak(parse, f, k);
    }
  }

  /** There is a line end right after each row of the log. */
  lemma CutAfter(parse: Parse, f: string, q: nat) returns (e: nat)
    requires q < |Log(parse, f)|
    ensures 0 < e <= |f| && AtLineEnd(f, e) && Index(parse, f, e) == q + 1
  {
    var count := (k: nat) => CountAt(parse, f, k);
    forall k: nat ensures OneAtMost(f, count, k) && NoneOverBreak(f, count, k) {
      CountSteps(parse, f, count, k);
    }
    e := FindEnd(f, count, 0, q);
    assert Index(parse, f, 0) == 0;
  }

  /** Two refreshes, the first of which sees the file up to byte `e`. */
  function TwoRefreshes(f: string, e: nat, clock: nat -> int): seq<Refresh> {
    [Refresh(Some(FileStat(e, 0)), e, clock, 0, 0), Refresh(Some(FileStat(|f|, 0)), |f|, clock, 0, 0)]
  }

  lemma TwoRefreshesRun(path: string, f: string, e: nat, clock: nat -> int)
    requires 0 < e < |f| && AtLineEnd(f, e)
    ensures var rs := TwoRefreshes(f, e, clock);
            && Grows(f, rs) && WholeLines(f, rs) && CaughtUp(f, rs)
            && Windows(true, path, rs) == [Window(0, e, clock, 0), Window(e, |f|, clock, 0)]
  {
    var rs := TwoRefreshes(f, e, clock);
    TwoReads(path, rs[0], rs[1]);
  }

  /** The row of an unsettled log after which to cut it. */
  predicate Unsettles(log: seq<ClaudeParser.Held>, q: nat) {
    q < |log| && Counts(log[q]) && MessageOf(log[q]).Some? && !Outlived(log, log[q])
  }

  lemma UnsettledAt(log: seq<ClaudeParser.Held>) returns (q: nat)
    requires !Settled(log)
    ensures Unsettles(log, q)
  {
    var h :| h in log && Counts(h) && MessageOf(h).Some? && !Outlived(log, h);
    q :| 0 <= q < |log| && log[q] == h;
  }

  lemma UnsettledShows(parse: Parse, f: string, cfg: Setup) returns (rs: seq<Refresh>)
    requires Stamped(Log(parse, f)) && Plain(Log(parse, f)) && !Settled(Log(parse, f))
    ensures Grows(f, rs) && WholeLines(f, rs) && CaughtUp(f, rs)
    ensures !Same(ViewOf(Ingested(parse, f, cfg, EMPTY_STORE, Windows(true, cfg.src.path, rs))), ViewOf(FullParse(parse, f, cfg, EMPTY_STORE, Noon, 0)))
  {
    LogRises(parse, f);
    var q := UnsettledAt(Log(parse, f));
    var e := CutAfter(parse, f, q);
    NotTheWhole(parse, f, e, q);
    rs := TwoRefreshes(f, e, Noon);
    TwoRefreshesRun(cfg.src.path, f, e, Noon);
    ShowsAt(parse, f, cfg, e, q);
  }

  lemma NotTheWhole(parse: Parse, f: string, e: nat, q: nat)
    requires Unsettles(Log(parse, f), q) && e <= |f| && Index(parse, f, e) == q + 1
    ensures e < |f|
  {
    if q == |Log(parse, f)| - 1 {
      LastAt(Log(parse, f), MessageOf(Log(parse, f)[q]).value, q);
    }
  }

  lemma ShowsAt(parse: Parse, f: string, cfg: Setup, e: nat, q: nat)
    requires LogOk(Log(parse, f)) && Unsettles(Log(parse, f), q) && e < |f| && AtLineEnd(f, e) && Index(parse, f, e) == q + 1
    ensures !Same(ViewOf(Ingested(parse, f, cfg, EMPTY_STORE, [Window(0, e, Noon, 0), Window(e, |f|, Noon, 0)])),
                  ViewOf(FullParse(parse, f, cfg, EMPTY_STORE, Noon, 0)))
  {
    var log := Log(parse, f);
    SplitShows(cfg, log, q, Noon);
    ReadIsStretch(parse, f, 0, e);
    SplitStores(parse, f, cfg, e, Noon, Out(cfg, log[q])[0]);
    NotEmitted(cfg, log, Noon, Out(cfg, log[q])[0].id);
  }

  lemma NotEmitted(cfg: Setup, log: seq<Held>, clock: nat -> int, id: string)
    requires forall x <- Emitted(cfg, log, clock) :: x.id != id
    ensures id !in PutAll(EMPTY_STORE, Emitted(cfg, log, clock), 0).events
  {
    PutAllView(EMPTY_STORE, Emitted(cfg, log, clock), 0);
    AbsorbNone(ViewOf(EMPTY_STORE), Emitted(cfg, log, clock), id);
  }

  /** What the first of two reads stores is there after the second. */
  lemma SplitStores(parse: Parse, f: string, cfg: Setup, e: nat, clock: nat -> int, x: UsageEvent)
    requires e < |f| && x in Emitted(cfg, Held(parse, f, 0, e), clock)
    ensures x.id in Ingested(parse, f, cfg, EMPTY_STORE, [Window(0, e, clock, 0), Window(e, |f|, clock, 0)]).events
  {
    var w, z := Window(0, e, clock, 0), Window(e, |f|, clock, 0);
    var es, more := Emitted(cfg, Held(parse, f, 0, e), clock), Emitted(cfg, Held(parse, f, e, |f|), clock);
    OneWindow(parse, f, cfg, EMPTY_STORE, [], w);
    OneWindow(parse, f, cfg, EMPTY_STORE, [w], z);
    assert [] + [w] == [w] && [w] + [z] == [w, z];
    PutStays(es, more, x);
  }

  lemma OneWindow(parse: Parse, f: string, cfg: Setup, s: Store, ws: seq<Window>, w: Window)
    requires w.end <= |f|
    ensures Ingested(parse, f, cfg, s, ws + [w])
            == PutAll(Ingested(parse, f, cfg, s, ws), Emitted(cfg, Held(parse, f, w.start, w.end), w.clock), w.now)
  {
    assert (ws + [w])[..|ws|] == ws;
  }

  lemma PutStays(es: seq<UsageEvent>, more: seq<UsageEvent>, x: UsageEvent)
    requires x in es
    ensures x.id in PutAll(PutAll(EMPTY_STORE, es, 0), more, 0).events
  {
    PutAllSane(EMPTY_STORE, es, 0);
    PutAllView(EMPTY_STORE, es, 0);
    AbsorbOne(ViewOf(EMPTY_STORE), es, x);
    PutAllAppends(PutAll(EMPTY_STORE, es, 0), more, 0);
  }

  // ---- a row without a time ------------------------------------------------

  function Stamps(hs: seq<Held>): seq<Stamp> { seq(|hs|, i requires 0 <= i < |hs| => hs[i].row.timestamp) }

  /** At `u` no read emits an event of a time `t` that is later than all that is written down. */
  lemma NoneAt(cfg: Setup, hs: seq<Held>, t: int, u: int, x: UsageEvent)
    requires t >= LaterThan(Stamps(hs)) && u != t && x in Emitted(cfg, hs, (_: nat) => u)
    ensures exists h :: Kept(hs, h) && x.timestamp != t && x.id == IdAt(cfg, h, x.timestamp)
  {
    EmittedIs(cfg, hs, (_: nat) => u, x);
    var h :| Kept(hs, h) && Finalize(cfg, h, (_: nat) => u) == [x];
    LaterThanAll(Stamps(hs));
    var i :| 0 <= i < |hs| && hs[i] == h;
    assert Stamps(hs)[i] == h.row.timestamp;
  }

  /** Right after the row without a time, it is emitted under the time of the clock. */
  lemma EmittedNow(cfg: Setup, hs: seq<Held>, t: int) returns (x: UsageEvent)
    requires hs != [] && HasUsage(hs[|hs| - 1].row) && hs[|hs| - 1].row.timestamp.Missing?
    ensures x in Emitted(cfg, hs, (_: nat) => t) && x.timestamp == t && x.id == IdAt(cfg, hs[|hs| - 1], t)
  {
    var h := hs[|hs| - 1];
    x := EventAt(cfg, h, t);
    assert Kept(hs, h) && Finalize(cfg, h, (_: nat) => t) == [x];
    EmittedIs(cfg, hs, (_: nat) => t, x);
  }

  lemma OtherTimeOtherId(cfg: Setup, g: Held, ts: int, h: Held, us: int)
    requires ts != us
    ensures IdAt(cfg, g, ts) != IdAt(cfg, h, us)
  {
    if IdAt(cfg, g, ts) == IdAt(cfg, h, us) {
      EventIdInjective("anthropic", cfg.src.sessionId, NameOf(g), ts, NameOf(h), us);
    }
  }

  /** The id of that event is not among those of a full parse at another time. */
  lemma NotInFull(cfg: Setup, log: seq<Held>, h: Held, t: int, u: int)
    requires t >= LaterThan(Stamps(log)) && u != t
    ensures IdAt(cfg, h, t) !in PutAll(EMPTY_STORE, Emitted(cfg, log, (_: nat) => u), 0).events
  {
    forall x <- Emitted(cfg, log, (_: nat) => u) ensures x.id != IdAt(cfg, h, t) {
      NoneAt(cfg, log, t, u, x);
      var g :| Kept(log, g) && x.timestamp != t && x.id == IdAt(cfg, g, x.timestamp);
      OtherTimeOtherId(cfg, g, x.timestamp, h, t);
    }
    NotEmitted(cfg, log, (_: nat) => u, IdAt(cfg, h, t));
  }

  /** A read of everything up to the line end `e`, and if that is not all, a read of the rest. */
  function ReadsTo(f: string, e: nat, clock: nat -> int): seq<Refresh> {
    if e >= |f| then OneRefresh(f, clock) else TwoRefreshes(f, e, clock)
  }

  lemma ReadsStore(parse: Parse, f: string, cfg: Setup, e: nat, clock: nat -> int, x: UsageEvent)
    requires 0 < e <= |f| && AtLineEnd(f, e) && x in Emitted(cfg, Held(parse, f, 0, e), clock)
    ensures var rs := ReadsTo(f, e, clock);
            && Grows(f, rs) && WholeLines(f, rs) && CaughtUp(f, rs)
            && x.id in Ingested(parse, f, cfg, EMPTY_STORE, Windows(true, cfg.src.path, rs)).events
  {
    if e == |f| {
      var w := Window(0, |f|, clock, 0);
      OneRefreshRun(true, f, cfg.src.path, clock);
      OneWindow(parse, f, cfg, EMPTY_STORE, [], w);
      assert [] + [w] == [w];
      PutStays(Emitted(cfg, Held(parse, f, 0, e), clock), [], x);
    } else {
      TwoRefreshesRun(cfg.src.path, f, e, clock);
      SplitStores(parse, f, cfg, e, clock, x);
    }
  }

  /** A row with usage and without a time shows in some run. */
  lemma UnstampedShows(parse: Parse, f: string, cfg: Setup) returns (rs: seq<Refresh>, clock: nat -> int)
    requires !Stamped(Log(parse, f))
    ensures Grows(f, rs) && WholeLines(f, rs) && CaughtUp(f, rs)
    ensures !Same(ViewOf(Ingested(parse, f, cfg, EMPTY_STORE, Windows(true, cfg.src.path, rs))), ViewOf(FullParse(parse, f, cfg, EMPTY_STORE, clock, 0)))
  {
    var log := Log(parse, f);
    var h :| h in log && HasUsage(h.row) && h.row.timestamp.Missing?;
    var q :| 0 <= q < |log| && log[q] == h;
    var e := CutAfter(parse, f, q);
    ReadIsStretch(parse, f, 0, e);
    var t := LaterThan(Stamps(log));
    var hs := Held(parse, f, 0, e);
    assert hs[|hs| - 1] == h;
    var x := EmittedNow(cfg, hs, t);
    rs := ReadsTo(f, e, (_: nat) => t);
    clock := (_: nat) => t + 1;
    hide Log, Held, Emitted, LaterThan, Stamped, ReadsTo, Ingested;
    ReadsStore(parse, f, cfg, e, (_: nat) => t, x);
    NotInFull(cfg, log, h, t, t + 1);
  }

  /** Every run of refreshes of a Claude log that is caught up comes to the same as a full parse at any time, if and
      only if every row with usage has a time, and for every row that counts, the last row of its message counts too
      and bears the same time. */
  lemma EveryRunAgreesIff(parse: Parse, f: string, cfg: Setup)
    requires FrontsAgree(parse, f) && Plain(Log(parse, f))
    ensures Stamped(Log(parse, f)) && Settled(Log(parse, f)) <==>
            forall rs: seq<Refresh>, clock: nat -> int | Grows(f, rs) && WholeLines(f, rs) && CaughtUp(f, rs) ::
              Same(ViewOf(Ingested(parse, f, cfg, EMPTY_STORE, Windows(true, cfg.src.path, rs))),
                   ViewOf(FullParse(parse, f, cfg, EMPTY_STORE, clock, 0)))
  {
    hide Ingested, FullParse, Windows, Log, ViewOf, Same, Plain, FrontsAgree, Settled, Stamped;
    if Stamped(Log(parse, f)) && Settled(Log(parse, f)) {
      forall rs: seq<Refresh>, clock: nat -> int | Grows(f, rs) && WholeLines(f, rs) && CaughtUp(f, rs)
        ensures Same(ViewOf(Ingested(parse, f, cfg, EMPTY_STORE, Windows(true, cfg.src.path, rs))),
                     ViewOf(FullParse(parse, f, cfg, EMPTY_STORE, clock, 0)))
      {
        ResumingIsParsingInFull(parse, f, cfg, EMPTY_STORE, rs, clock, 0);
      }
    } else if Stamped(Log(parse, f)) {
      var rs := UnsettledShows(parse, f, cfg);
    } else {
      var rs, clock := UnstampedShows(parse, f, cfg);
    }
  }

  // ---- a log that shows it -------------------------------------------------

  /** Two rows of one message, written down at two times. */
  function TwoTimes(line: string): Option<ClaudeRow> {
    var usage := ClaudeUsage(Some(1), None, None, None, None, None);
    if line == "1" then Some(ClaudeRow(At(1), Some("m"), None, Some(usage)))
    else if line == "2" then Some(ClaudeRow(At(2), Some("m"), None, Some(usage)))
    else None
  }

  lemma TwoTimesLog()
    ensures Log(TwoTimes, "1\n2") == [ClaudeParser.Held.Held(TwoTimes("1").value, 0), ClaudeParser.Held.Held(TwoTimes("2").value, 2)]
    ensures Index(TwoTimes, "1\n2", 1) == 1
  {
    var f := "1\n2";
    var one, two := Line(0, "1"), Line(2, "2");
    TwoTimesLines();
    hide Lines, TwoTimes;
    assert [] + [one] == [one] && [one] + [two] == [one, two];
    assert TwoTimes("1").Some? && TwoTimes("2").Some? && TwoTimes("1").value.usage.Some? && TwoTimes("2").value.usage.Some? by {
      TwoTimesParsed();
    }
    HeldMore(TwoTimes, [], one, [one]);
    HeldMore(TwoTimes, [one], two, [one, two]);
  }

  lemma TwoTimesParsed()
    ensures TwoTimes("1").Some? && TwoTimes("2").Some? && TwoTimes("1").value.usage.Some? && TwoTimes("2").value.usage.Some?
  {}

  lemma TwoTimesLines()
    ensures var f := "1\n2";
            Lines(f, 0, 3) == [Line(0, "1"), Line(2, "2")] && Lines(f, 0, 1) == [Line(0, "1")]
  {
    var f := "1\n2";
    var one, two := Line(0, "1"), Line(2, "2");
    assert f[0..1] == "1" && f[2..3] == "2";
    OneLine(f, 2, 3);
    OneLine(f, 0, 1);
    LinesStep(f, 0, 3);
  }

  /** Read in two goes, it leaves an event that a full parse does not have. */
  lemma TwoTimesShow(cfg: Setup)
    ensures var f := "1\n2"; var rs := TwoRefreshes(f, 1, Noon);
            && FrontsAgree(TwoTimes, f) && Stamped(Log(TwoTimes, f)) && Plain(Log(TwoTimes, f))
            && Grows(f, rs) && WholeLines(f, rs) && CaughtUp(f, rs)
            && !Same(ViewOf(Ingested(TwoTimes, f, cfg, EMPTY_STORE, Windows(true, cfg.src.path, rs))),
                     ViewOf(FullParse(TwoTimes, f, cfg, EMPTY_STORE, Noon, 0)))
  {
    var f := "1\n2";
    TwoTimesLog();
    TwoTimesFacts();
    TwoTimesFronts();
    LogRises(TwoTimes, f);
    hide *;
    TwoRefreshesRun(cfg.src.path, f, 1, Noon);
    ShowsAt(TwoTimes, f, cfg, 1, 0);
  }

  lemma TwoTimesFacts()
    ensures var log := Log(TwoTimes, "1\n2"); Stamped(log) && Plain(log) && Unsettles(log, 0) && AtLineEnd("1\n2", 1)
  {
    TwoTimesLog();
    hide Log, Index, NameOf;
    var log := Log(TwoTimes, "1\n2");
    assert LastOf(log, "m") == Some(log[1]);
    assert !("noid:" <= "m");
  }

  lemma TwoTimesFronts()
    ensures FrontsAgree(TwoTimes, "1\n2")
  {
    var f := "1\n2";
    assert LineStart(f, 0) == 0 && LineStart(f, 1) == 0 && LineStart(f, 2) == 2 && LineStart(f, 3) == 2;
    forall j: nat, k: nat | j <= k <= |f| && LineStart(f, j) == LineStart(f, k) ensures FrontAgrees(TwoTimes, f, j, k) {
      if j != k {
        assert LineStart(f, j) == j;
        assert |f[j..j]| == 0;
      }
    }
  }
}
