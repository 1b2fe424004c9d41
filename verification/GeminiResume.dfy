/** Resuming agrees with parsing in full, exactly when every row that counts carries its own time. */
module GeminiResume {
  import opened Wrappers
  import opened JoinedKeys
  import opened Redaction
  import opened LocalDb
  import opened Jsonl
  import opened Ingestion
  import opened FileCaches
  import opened GeminiParser

  lemma EventsMore(parse: Parse, src: LogFile, pricing: Pricing, a: seq<Line>, line: Line, all: seq<Line>, clock: nat -> int)
    requires all == a + [line]
    ensures EventsOf(parse, src, pricing, all, clock)
            == EventsOf(parse, src, pricing, a, clock) + EventOf(parse, src, pricing, line, clock)
  {
    assert all[..|all| - 1] == a;
  }

  lemma {:induction false} EventsConcat(parse: Parse, src: LogFile, pricing: Pricing, a: seq<Line>, b: seq<Line>, clock: nat -> int)
    ensures EventsOf(parse, src, pricing, a + b, clock)
            == EventsOf(parse, src, pricing, a, clock) + EventsOf(parse, src, pricing, b, clock)
    decreases |b|
  {
    if b == [] {
      assert a + b == a && EventsOf(parse, src, pricing, b, clock) == [];
    } else {
      var init, last := b[..|b| - 1], b[|b| - 1];
      SplitLast(a, b);
      EventsConcat(parse, src, pricing, a, init, clock);
      EventsMore(parse, src, pricing, a + init, last, a + b, clock);
      EventsMore(parse, src, pricing, init, last, b, clock);
      RegroupEnd(EventsOf(parse, src, pricing, a + b, clock), EventsOf(parse, src, pricing, a + init, clock),
                 EventsOf(parse, src, pricing, a, clock), EventsOf(parse, src, pricing, init, clock),
                 EventOf(parse, src, pricing, last, clock), EventsOf(parse, src, pricing, b, clock));
    }
  }

  /** Reading in two goes at a line end. */
  lemma EventsCut(parse: Parse, f: string, src: LogFile, pricing: Pricing, i: nat, k: nat, n: nat, clock: nat -> int)
    requires i <= k <= n <= |f| && AtLineEnd(f, k)
    ensures Events(parse, f, src, pricing, i, n, clock)
            == Events(parse, f, src, pricing, i, k, clock) + Events(parse, f, src, pricing, k, n, clock)
  {
    LinesCut(f, i, k, n);
    EventsConcat(parse, src, pricing, Lines(f, i, k), Lines(f, k, n), clock);
  }

  /** A read that ends inside a line yields what whole lines yield. */
  lemma EventsReach(parse: Parse, f: string, src: LogFile, pricing: Pricing, i: nat, k: nat, clock: nat -> int)
    requires FrontsAgree(parse, f) && i <= k <= |f| && AtLineEnd(f, i)
    ensures Events(parse, f, src, pricing, i, k, clock) == Events(parse, f, src, pricing, i, Reach(parse, f, k), clock)
  {
    if !AtLineEnd(f, k) {
      var b, e := LineStart(f, k), LineEnd(f, k, |f|);
      LinesReach(f, i, k);
      SameLine(f, k);
      assert FrontAgrees(parse, f, k, e);
      hide FrontsAgree, Lines, LineStart, LineEnd, EventsOf, BearsUsage, EventAt, AtLineEnd;
      EventsMore(parse, src, pricing, Lines(f, i, b), Line(b, f[b..k]), Lines(f, i, k), clock);
      EventsMore(parse, src, pricing, Lines(f, i, b), Line(b, f[b..e]), Lines(f, i, e), clock);
    }
  }

  /** Every row with usage has a `timestamp` field. */
  predicate Stamped(parse: Parse, lines: seq<Line>) {
    forall l <- lines :: parse(l.raw).Some? && BearsUsage(parse(l.raw).value) ==> !parse(l.raw).value.timestamp.Missing?
  }

  lemma {:induction false} ClockFree(parse: Parse, src: LogFile, pricing: Pricing, lines: seq<Line>, c: nat -> int, d: nat -> int)
    requires Stamped(parse, lines)
    ensures EventsOf(parse, src, pricing, lines, c) == EventsOf(parse, src, pricing, lines, d)
    decreases |lines|
  {
    if lines == [] {
    } else {
      assert lines[|lines| - 1] in lines;
      ClockFree(parse, src, pricing, lines[..|lines| - 1], c, d);
    }
  }

  /** The lines between two line ends are lines of the file. */
  lemma LinesWithin(f: string, i: nat, n: nat)
    requires i <= n <= |f| && AtLineEnd(f, i) && AtLineEnd(f, n)
    ensures forall l <- Lines(f, i, n) :: l in Lines(f, 0, |f|)
  {
    LinesCut(f, 0, i, |f|);
    LinesCut(f, i, n, |f|);
  }

  /** The store after the windows have been parsed and upserted one after the other. */
  function Ingested(parse: Parse, f: string, src: LogFile, pricing: Pricing, s: Store, ws: seq<Window>): Store
    decreases |ws|
  {
    if ws == [] then s
    else
      var w, before := ws[|ws| - 1], Ingested(parse, f, src, pricing, s, ws[..|ws| - 1]);
      if w.end > |f| then before
      else PutAll(before, Events(parse, f, src, pricing, w.start, w.end, w.clock), w.now)
  }

  lemma {:induction false} IngestedSane(parse: Parse, f: string, src: LogFile, pricing: Pricing, s: Store, ws: seq<Window>)
    requires Sane(s)
    ensures Sane(Ingested(parse, f, src, pricing, s, ws))
    decreases |ws|
  {
    if ws == [] {
    } else {
      var w, before := ws[|ws| - 1], Ingested(parse, f, src, pricing, s, ws[..|ws| - 1]);
      IngestedSane(parse, f, src, pricing, s, ws[..|ws| - 1]);
      if w.end <= |f| {
        PutAllSane(before, Events(parse, f, src, pricing, w.start, w.end, w.clock), w.now);
      }
    }
  }

  /** One more overlapping window: the events up to `reach` grow to those up to the window's own reach. */
  lemma OneMoreWindow(parse: Parse, f: string, src: LogFile, pricing: Pricing, v: View, covered: nat, w: Window, clock: nat -> int)
    requires FrontsAgree(parse, f) && Stamped(parse, Lines(f, 0, |f|))
    requires w.start <= covered <= w.end <= |f| && AtLineEnd(f, w.start)
    ensures AbsorbAll(AbsorbAll(v, Events(parse, f, src, pricing, 0, Reach(parse, f, covered), clock)),
                      Events(parse, f, src, pricing, w.start, w.end, w.clock))
            == AbsorbAll(v, Events(parse, f, src, pricing, 0, Reach(parse, f, w.end), clock))
  {
    var c, r := Reach(parse, f, covered), Reach(parse, f, w.end);
    ReachMonotone(parse, f, w.start, covered);
    ReachMonotone(parse, f, covered, w.end);
    EventsReach(parse, f, src, pricing, w.start, w.end, w.clock);
    LinesWithin(f, w.start, r);
    ClockFree(parse, src, pricing, Lines(f, w.start, r), w.clock, clock);
    EventsCut(parse, f, src, pricing, 0, w.start, c, clock);
    EventsCut(parse, f, src, pricing, w.start, c, r, clock);
    EventsCut(parse, f, src, pricing, 0, c, r, clock);
    AbsorbOverlap(v, Events(parse, f, src, pricing, 0, w.start, clock), Events(parse, f, src, pricing, w.start, c, clock),
                  Events(parse, f, src, pricing, c, r, clock));
  }

  lemma {:induction false} IngestedIs(parse: Parse, f: string, src: LogFile, pricing: Pricing, s: Store, ws: seq<Window>, clock: nat -> int)
    requires FrontsAgree(parse, f) && Stamped(parse, Lines(f, 0, |f|)) && Sane(s)
    requires Tiles(f, ws) && StartAtLines(f, ws)
    ensures Covered(ws) <= |f|
    ensures ViewOf(Ingested(parse, f, src, pricing, s, ws))
            == AbsorbAll(ViewOf(s), Events(parse, f, src, pricing, 0, Reach(parse, f, Covered(ws)), clock))
    decreases |ws|
  {
    if ws == [] {
    } else {
      var before, w := ws[..|ws| - 1], ws[|ws| - 1];
      assert w in ws;
      TilesBefore(f, ws);
      IngestedIs(parse, f, src, pricing, s, before, clock);
      IngestedSane(parse, f, src, pricing, s, before);
      PutAllView(Ingested(parse, f, src, pricing, s, before), Events(parse, f, src, pricing, w.start, w.end, w.clock), w.now);
      OneMoreWindow(parse, f, src, pricing, ViewOf(s), Covered(before), w, clock);
    }
  }

  /** Any run of refreshes of a growing file that ends caught up leaves the event table, and the outbox in the same
      order and once per event, as one parse of the finished file does. */
  lemma ResumingIsParsingInFull(parse: Parse, f: string, src: LogFile, pricing: Pricing, s: Store, rs: seq<Refresh>,
                                clock: nat -> int, now: int)
    requires FrontsAgree(parse, f) && Stamped(parse, Lines(f, 0, |f|)) && Sane(s)
    requires Grows(f, rs) && WholeLines(f, rs) && CaughtUp(f, rs)
    ensures ViewOf(Ingested(parse, f, src, pricing, s, Windows(true, src.path, rs)))
            == ViewOf(PutAll(s, Events(parse, f, src, pricing, 0, |f|, clock), now))
  {
    WindowsTile(true, f, src.path, rs);
    WindowsStartAtLines(true, f, src.path, rs);
    WindowsCover(true, f, src.path, rs);
    IngestedIs(parse, f, src, pricing, s, Windows(true, src.path, rs), clock);
    PutAllView(s, Events(parse, f, src, pricing, 0, |f|, clock), now);
  }

  // ---- a row without a time ------------------------------------------------

  function Stamps(parse: Parse, lines: seq<Line>): seq<Stamp> {
    seq(|lines|, i requires 0 <= i < |lines| =>
      if parse(lines[i].raw).Some? then parse(lines[i].raw).value.timestamp else Unreadable)
  }

  /** Later than every time that is written in the log. */
  function AfterAll(parse: Parse, lines: seq<Line>): int { LaterThan(Stamps(parse, lines)) }

  lemma AfterAllIs(parse: Parse, lines: seq<Line>)
    ensures forall l <- lines :: parse(l.raw).Some? && parse(l.raw).value.timestamp.At? ==>
              parse(l.raw).value.timestamp.ms < AfterAll(parse, lines)
  {
    LaterThanAll(Stamps(parse, lines));
    forall l <- lines | parse(l.raw).Some? ensures parse(l.raw).value.timestamp in Stamps(parse, lines) {
      var i :| 0 <= i < |lines| && lines[i] == l;
      assert Stamps(parse, lines)[i] == parse(l.raw).value.timestamp;
    }
  }

  /** Every event comes from a line; what time it bears is the line's or the clock's. */
  lemma {:induction false} EventsCome(parse: Parse, src: LogFile, pricing: Pricing, lines: seq<Line>, clock: nat -> int)
    ensures forall e <- EventsOf(parse, src, pricing, lines, clock) ::
              exists l :: l in lines && EventOf(parse, src, pricing, l, clock) == [e]
    ensures forall l <- lines, e <- EventOf(parse, src, pricing, l, clock) :: e in EventsOf(parse, src, pricing, lines, clock)
    decreases |lines|
  {
    if lines == [] {
    } else {
      EventsCome(parse, src, pricing, lines[..|lines| - 1], clock);
    }
  }

  /** Parsed at one moment, the row without a time gets an id that no row gets at another. */
  lemma ClockLeaks(parse: Parse, src: LogFile, pricing: Pricing, lines: seq<Line>, l: Line, t: int, u: int)
    requires l in lines && parse(l.raw).Some? && BearsUsage(parse(l.raw).value) && parse(l.raw).value.timestamp.Missing?
    requires t >= AfterAll(parse, lines) && u != t
    ensures var id := IdOf(src, parse(l.raw).value, l.offset, t);
            && LastWith(EventsOf(parse, src, pricing, lines, (_: nat) => t), id).Some?
            && LastWith(EventsOf(parse, src, pricing, lines, (_: nat) => u), id).None?
  {
    var row := parse(l.raw).value;
    var id := IdOf(src, row, l.offset, t);
    var c, d := (_: nat) => t, (_: nat) => u;
    var e := EventAt(src, pricing, row, l.offset, t);
    var es, ds := EventsOf(parse, src, pricing, lines, c), EventsOf(parse, src, pricing, lines, d);
    EventsCome(parse, src, pricing, lines, c);
    assert EventOf(parse, src, pricing, l, c) == [e] && e in es;
    LastFound(es, id);
    LastFound(ds, id);
    NoOther(parse, src, pricing, lines, row, l.offset, t, u);
    assert forall i :: 0 <= i < |ds| ==> ds[i] in ds;
  }

  lemma NoOther(parse: Parse, src: LogFile, pricing: Pricing, lines: seq<Line>, row: GeminiRow, offset: nat, t: int, u: int)
    requires t >= AfterAll(parse, lines) && u != t
    ensures forall x <- EventsOf(parse, src, pricing, lines, (_: nat) => u) :: x.id != IdOf(src, row, offset, t)
  {
    var d := (_: nat) => u;
    AfterAllIs(parse, lines);
    EventsCome(parse, src, pricing, lines, d);
    hide IdOf, EventsOf, AfterAll, BearsUsage, TokensOf;
    forall x <- EventsOf(parse, src, pricing, lines, d) ensures x.id != IdOf(src, row, offset, t) {
      var m :| m in lines && EventOf(parse, src, pricing, m, d) == [x];
      OtherTimeOtherId(src, parse(m.raw).value, m.offset, x.timestamp, row, offset, t);
    }
  }

  lemma OtherTimeOtherId(src: LogFile, row: GeminiRow, offset: nat, ts: int, row': GeminiRow, offset': nat, ts': int)
    requires ts != ts'
    ensures IdOf(src, row, offset, ts) != IdOf(src, row', offset', ts')
  {
    if IdOf(src, row, offset, ts) == IdOf(src, row', offset', ts') {
      EventIdInjective("google", src.sessionId, MessageName(row, offset), ts, MessageName(row', offset'), ts');
    }
  }

  /** What one parse of the whole file at a given time puts into an empty store. */
  function Parsed(parse: Parse, f: string, src: LogFile, pricing: Pricing, clock: nat -> int): View {
    AbsorbAll(View(map[], []), EventsOf(parse, src, pricing, Lines(f, 0, |f|), clock))
  }

  lemma UnstampedDiffers(parse: Parse, f: string, src: LogFile, pricing: Pricing) returns (c: nat -> int, d: nat -> int)
    requires !Stamped(parse, Lines(f, 0, |f|))
    ensures Parsed(parse, f, src, pricing, c) != Parsed(parse, f, src, pricing, d)
  {
    var lines := Lines(f, 0, |f|);
    var l :| l in lines && parse(l.raw).Some? && BearsUsage(parse(l.raw).value) && parse(l.raw).value.timestamp.Missing?;
    var t := AfterAll(parse, lines);
    c, d := (_: nat) => t, (_: nat) => t + 1;
    ClockLeaks(parse, src, pricing, lines, l, t, t + 1);
    AbsorbLast(View(map[], []), EventsOf(parse, src, pricing, lines, (_: nat) => t));
    AbsorbLast(View(map[], []), EventsOf(parse, src, pricing, lines, (_: nat) => t + 1));
    var id := IdOf(src, parse(l.raw).value, l.offset, t);
    assert id in Parsed(parse, f, src, pricing, (_: nat) => t).events && id !in Parsed(parse, f, src, pricing, (_: nat) => t + 1).events;
  }

  /** A full parse yields the same whenever it runs, if and only if every row with usage has a time. */
  lemma FullParseIsStableIff(parse: Parse, f: string, src: LogFile, pricing: Pricing)
    ensures Stamped(parse, Lines(f, 0, |f|)) <==>
            forall c: nat -> int, d: nat -> int :: Parsed(parse, f, src, pricing, c) == Parsed(parse, f, src, pricing, d)
  {
    if Stamped(parse, Lines(f, 0, |f|)) {
      forall c: nat -> int, d: nat -> int ensures Parsed(parse, f, src, pricing, c) == Parsed(parse, f, src, pricing, d) {
        ClockFree(parse, src, pricing, Lines(f, 0, |f|), c, d);
      }
    } else {
      var c, d := UnstampedDiffers(parse, f, src, pricing);
    }
  }
}
