/** Reparsing a growing Codex log: any caught-up run of refreshes leaves what one parse leaves, exactly when every
    row with usage has a time of its own. */
module CodexResume {
  import opened Wrappers
  import opened JoinedKeys
  import opened TeamModel
  import opened Redaction
  import opened LocalDb
  import opened Jsonl
  import opened Ingestion
  import opened FileCaches
  import opened CodexParser

  // ---- reparsing agrees with parsing once ----------------------------------

  /** The output for a front part of the log is a front part of the output. */
  lemma {:induction false} OutputExtends(parse: Parse, path: string, derive: Derive, pricing: Pricing, a: seq<Line>, b: seq<Line>, clock: nat -> int)
    ensures EventsOf(parse, path, derive, pricing, a, clock) <= EventsOf(parse, path, derive, pricing, a + b, clock)
    decreases |b|
  {
    if b == [] {
      assert a + b == a;
    } else {
      var init, last := b[..|b| - 1], b[|b| - 1];
      SplitLast(a, b);
      OutputExtends(parse, path, derive, pricing, a, init, clock);
      EventsMore(parse, path, derive, pricing, a + init, last, a + b, clock);
    }
  }

  predicate BearsTime(parse: Parse, l: Line) {
    var row := parse(l.raw);
    row.Some? && row.value.TokenCount? && row.value.last.Some? && BearsUsage(row.value.last.value) ==> !row.value.timestamp.Missing?
  }

  /** Every row with usage has a `timestamp` field. */
  predicate Stamped(parse: Parse, lines: seq<Line>) { forall l <- lines :: BearsTime(parse, l) }

  lemma LastClockFree(parse: Parse, path: string, derive: Derive, pricing: Pricing, before: seq<Line>, l: Line, c: nat -> int, d: nat -> int)
    requires BearsTime(parse, l)
    ensures LastEvent(parse, path, derive, pricing, before, l, c) == LastEvent(parse, path, derive, pricing, before, l, d)
  {}

  lemma {:induction false} ClockFree(parse: Parse, path: string, derive: Derive, pricing: Pricing, lines: seq<Line>, c: nat -> int, d: nat -> int)
    requires Stamped(parse, lines)
    ensures EventsOf(parse, path, derive, pricing, lines, c) == EventsOf(parse, path, derive, pricing, lines, d)
    decreases |lines|
  {
    if lines == [] {
    } else {
      var before, last := lines[..|lines| - 1], lines[|lines| - 1];
      assert last in lines && lines == before + [last];
      ClockFree(parse, path, derive, pricing, before, c, d);
      LastClockFree(parse, path, derive, pricing, before, last, c, d);
      EventsMore(parse, path, derive, pricing, before, last, lines, c);
      EventsMore(parse, path, derive, pricing, before, last, lines, d);
    }
  }

  /** The events of the first `n` bytes. */
  function Events(parse: Parse, f: string, path: string, derive: Derive, pricing: Pricing, n: nat, clock: nat -> int): seq<UsageEvent>
    requires n <= |f|
  {
    EventsOf(parse, path, derive, pricing, Lines(f, 0, n), clock)
  }

  lemma EventsReach(parse: Parse, f: string, path: string, derive: Derive, pricing: Pricing, k: nat, clock: nat -> int)
    requires FrontsAgree(parse, f) && k <= |f|
    ensures Events(parse, f, path, derive, pricing, k, clock) == Events(parse, f, path, derive, pricing, Reach(parse, f, k), clock)
  {
    if !AtLineEnd(f, k) {
      var b, e := LineStart(f, k), LineEnd(f, k, |f|);
      LinesReach(f, 0, k);
      EventsMore(parse, path, derive, pricing, Lines(f, 0, b), Line(b, f[b..k]), Lines(f, 0, k), clock);
      EventsMore(parse, path, derive, pricing, Lines(f, 0, b), Line(b, f[b..e]), Lines(f, 0, e), clock);
      SameLine(f, k);
      assert FrontAgrees(parse, f, k, e);
    }
  }

  lemma EventsExtend(parse: Parse, f: string, path: string, derive: Derive, pricing: Pricing, j: nat, k: nat, clock: nat -> int)
    requires j <= k <= |f| && AtLineEnd(f, j)
    ensures Events(parse, f, path, derive, pricing, j, clock) <= Events(parse, f, path, derive, pricing, k, clock)
  {
    LinesCut(f, 0, j, k);
    OutputExtends(parse, path, derive, pricing, Lines(f, 0, j), Lines(f, j, k), clock);
  }

  function Ingested(parse: Parse, f: string, path: string, derive: Derive, pricing: Pricing, s: Store, ws: seq<Window>): Store
    decreases |ws|
  {
    if ws == [] then s
    else
      var w, before := ws[|ws| - 1], Ingested(parse, f, path, derive, pricing, s, ws[..|ws| - 1]);
      if w.end > |f| then before
      else PutAll(before, Events(parse, f, path, derive, pricing, w.end, w.clock), w.now)
  }

  lemma {:induction false} IngestedSane(parse: Parse, f: string, path: string, derive: Derive, pricing: Pricing, s: Store, ws: seq<Window>)
    requires Sane(s)
    ensures Sane(Ingested(parse, f, path, derive, pricing, s, ws))
    decreases |ws|
  {
    if ws == [] {
    } else {
      var w, before := ws[|ws| - 1], Ingested(parse, f, path, derive, pricing, s, ws[..|ws| - 1]);
      IngestedSane(parse, f, path, derive, pricing, s, ws[..|ws| - 1]);
      if w.end <= |f| {
        PutAllSane(before, Events(parse, f, path, derive, pricing, w.end, w.clock), w.now);
      }
    }
  }

  /** One more reparse: the output so far is put again, and more. */
  lemma OneMoreReparse(parse: Parse, f: string, path: string, derive: Derive, pricing: Pricing, v: View, covered: nat, w: Window, clock: nat -> int)
    requires FrontsAgree(parse, f) && Stamped(parse, Lines(f, 0, |f|)) && covered <= w.end <= |f|
    ensures AbsorbAll(AbsorbAll(v, Events(parse, f, path, derive, pricing, Reach(parse, f, covered), clock)),
                      Events(parse, f, path, derive, pricing, w.end, w.clock))
            == AbsorbAll(v, Events(parse, f, path, derive, pricing, Reach(parse, f, w.end), clock))
  {
    var c, r := Reach(parse, f, covered), Reach(parse, f, w.end);
    ReachMonotone(parse, f, covered, w.end);
    EventsReach(parse, f, path, derive, pricing, w.end, w.clock);
    LinesCut(f, 0, r, |f|);
    ClockFree(parse, path, derive, pricing, Lines(f, 0, r), w.clock, clock);
    EventsExtend(parse, f, path, derive, pricing, c, r, clock);
    AbsorbLonger(v, Events(parse, f, path, derive, pricing, c, clock), Events(parse, f, path, derive, pricing, r, clock));
  }

  lemma AbsorbLonger(v: View, es: seq<UsageEvent>, more: seq<UsageEvent>)
    requires es <= more
    ensures AbsorbAll(AbsorbAll(v, es), more) == AbsorbAll(v, more)
  {
    assert [] + es == es && es + more[|es|..] == more && [] + es + more[|es|..] == more;
    AbsorbOverlap(v, [], es, more[|es|..]);
  }

  lemma {:induction false} IngestedIs(parse: Parse, f: string, path: string, derive: Derive, pricing: Pricing, s: Store, ws: seq<Window>, clock: nat -> int)
    requires FrontsAgree(parse, f) && Stamped(parse, Lines(f, 0, |f|)) && Sane(s) && Tiles(f, ws)
    ensures Covered(ws) <= |f|
    ensures ViewOf(Ingested(parse, f, path, derive, pricing, s, ws))
            == AbsorbAll(ViewOf(s), Events(parse, f, path, derive, pricing, Reach(parse, f, Covered(ws)), clock))
    decreases |ws|
  {
    if ws == [] {
    } else {
      var before, w := ws[..|ws| - 1], ws[|ws| - 1];
      TilesBefore(f, ws);
      IngestedIs(parse, f, path, derive, pricing, s, before, clock);
      IngestedSane(parse, f, path, derive, pricing, s, before);
      PutAllView(Ingested(parse, f, path, derive, pricing, s, before), Events(parse, f, path, derive, pricing, w.end, w.clock), w.now);
      OneMoreReparse(parse, f, path, derive, pricing, ViewOf(s), Covered(before), w, clock);
    }
  }

  /** Any run of refreshes that ends caught up leaves what one parse of the finished file does, wherever the sizes
      and reads in between fell. */
  lemma ReparsingIsParsingOnce(parse: Parse, f: string, path: string, derive: Derive, pricing: Pricing, s: Store,
                               rs: seq<Refresh>, clock: nat -> int, now: int)
    requires FrontsAgree(parse, f) && Stamped(parse, Lines(f, 0, |f|)) && Sane(s)
    requires Grows(f, rs) && CaughtUp(f, rs)
    ensures ViewOf(Ingested(parse, f, path, derive, pricing, s, Windows(false, path, rs)))
            == ViewOf(PutAll(s, Events(parse, f, path, derive, pricing, |f|, clock), now))
  {
    WindowsTile(false, f, path, rs);
    WindowsCover(false, f, path, rs);
    IngestedIs(parse, f, path, derive, pricing, s, Windows(false, path, rs), clock);
    PutAllView(s, Events(parse, f, path, derive, pricing, |f|, clock), now);
  }

  // ---- a row without a time ------------------------------------------------

  function StampOf(parse: Parse, l: Line): Stamp {
    var row := parse(l.raw); if row.Some? && row.value.TokenCount? then row.value.timestamp else Unreadable
  }

  function Stamps(parse: Parse, lines: seq<Line>): seq<Stamp> {
    seq(|lines|, i requires 0 <= i < |lines| => StampOf(parse, lines[i]))
  }

  lemma StampIn(parse: Parse, lines: seq<Line>, l: Line)
    requires l in lines && StampOf(parse, l).At?
    ensures StampOf(parse, l).ms < LaterThan(Stamps(parse, lines))
  {
    LaterThanAll(Stamps(parse, lines));
    var i :| 0 <= i < |lines| && lines[i] == l;
    assert Stamps(parse, lines)[i] == StampOf(parse, l);
  }

  /** Ids end with time and offset, so events of two times have two ids. */
  lemma OtherTimeOtherId(a: seq<string>, ts: int, offset: nat, b: seq<string>, us: int, offset': nat)
    requires |a| == 3 && |b| == 3
    requires BuildEventId([a[0], a[1], a[2], IntText(ts), NatText(offset)]) == BuildEventId([b[0], b[1], b[2], IntText(us), NatText(offset')])
    ensures ts == us
  {
    var x, y := [a[0], a[1], a[2], IntText(ts), NatText(offset)], [b[0], b[1], b[2], IntText(us), NatText(offset')];
    Sha256Injective(JoinNul(x), JoinNul(y));
    JoinFive(a[0], a[1], a[2], IntText(ts), NatText(offset));
    JoinFive(b[0], b[1], b[2], IntText(us), NatText(offset'));
    NumbersHaveNoNul(ts);
    NumbersHaveNoNul(us);
    hide JoinNul, IntText, NatText, Sha256Hex;
    var p, q := a[0] + [NUL] + a[1] + [NUL] + a[2], b[0] + [NUL] + b[1] + [NUL] + b[2];
    LastNulCuts(p + [NUL] + IntText(ts), NatText(offset), q + [NUL] + IntText(us), NatText(offset'));
    LastNulCuts(p, IntText(ts), q, IntText(us));
    IntTextInjective(ts, us);
  }

  lemma JoinFive(a: string, b: string, c: string, d: string, e: string)
    ensures JoinNul([a, b, c, d, e]) == (((a + [NUL] + b + [NUL] + c) + [NUL] + d) + [NUL] + e)
  {
    JoinFour(b, c, d, e);
    assert [a, b, c, d, e][1..] == [b, c, d, e];
  }

  /** Where an event comes from. */
  lemma {:induction false} EventsCome(parse: Parse, path: string, derive: Derive, pricing: Pricing, lines: seq<Line>, clock: nat -> int, e: UsageEvent)
    ensures e in EventsOf(parse, path, derive, pricing, lines, clock) <==>
            exists i :: 0 <= i < |lines| && e in LastEvent(parse, path, derive, pricing, lines[..i], lines[i], clock)
    decreases |lines|
  {
    hide LastEvent;
    if lines == [] {
    } else {
      var before := lines[..|lines| - 1];
      EventsCome(parse, path, derive, pricing, before, clock, e);
      assert forall i :: 0 <= i < |before| ==> before[..i] == lines[..i] && before[i] == lines[i];
    }
  }

  /** Parsed with every clock reading `t`, the row without a time yields an event whose id no row yields at `u`. */
  lemma ClockLeaks(parse: Parse, path: string, derive: Derive, pricing: Pricing, lines: seq<Line>, i: nat, t: int, u: int)
      returns (e: UsageEvent)
    requires i < |lines| && !BearsTime(parse, lines[i]) && t >= LaterThan(Stamps(parse, lines)) && u != t
    ensures e in EventsOf(parse, path, derive, pricing, lines, (_: nat) => t)
    ensures forall x <- EventsOf(parse, path, derive, pricing, lines, (_: nat) => u) :: x.id != e.id
  {
    var c, d := (_: nat) => t, (_: nat) => u;
    var st := StateOf(parse, lines[..i]);
    e := EventAt(path, derive, pricing, st, parse(lines[i].raw).value.last.value, lines[i].offset, t);
    assert LastEvent(parse, path, derive, pricing, lines[..i], lines[i], c) == [e];
    EventsCome(parse, path, derive, pricing, lines, c, e);
    forall x <- EventsOf(parse, path, derive, pricing, lines, d) ensures x.id != e.id {
      EventsCome(parse, path, derive, pricing, lines, d, x);
      var j :| 0 <= j < |lines| && x in LastEvent(parse, path, derive, pricing, lines[..j], lines[j], d);
      assert lines[j] in lines;
      NotAt(parse, path, derive, pricing, lines, j, t, u, x);
      DifferentIds(path, derive, pricing, parse, lines, i, j, t, u, e, x);
    }
  }

  lemma NotAt(parse: Parse, path: string, derive: Derive, pricing: Pricing, lines: seq<Line>, j: nat, t: int, u: int, x: UsageEvent)
    requires j < |lines| && t >= LaterThan(Stamps(parse, lines)) && u != t
    requires x in LastEvent(parse, path, derive, pricing, lines[..j], lines[j], (_: nat) => u)
    ensures x.timestamp != t
  {
    if StampOf(parse, lines[j]).At? {
      StampIn(parse, lines, lines[j]);
    }
  }

  lemma DifferentIds(path: string, derive: Derive, pricing: Pricing, parse: Parse, lines: seq<Line>, i: nat, j: nat, t: int, u: int,
                     e: UsageEvent, x: UsageEvent)
    requires i < |lines| && j < |lines| && e.timestamp != x.timestamp
    requires e in LastEvent(parse, path, derive, pricing, lines[..i], lines[i], (_: nat) => t)
    requires x in LastEvent(parse, path, derive, pricing, lines[..j], lines[j], (_: nat) => u)
    ensures x.id != e.id
  {
    var st, su := StateOf(parse, lines[..i]), StateOf(parse, lines[..j]);
    var a := ["openai", OrElse(st.session, path), OrElse(st.turn, "noturn")];
    var b := ["openai", OrElse(su.session, path), OrElse(su.turn, "noturn")];
    if x.id == e.id {
      OtherTimeOtherId(a, e.timestamp, lines[i].offset, b, x.timestamp, lines[j].offset);
    }
  }

  lemma OneRead(parse: Parse, f: string, path: string, derive: Derive, pricing: Pricing, w: Window)
    requires w.end == |f|
    ensures ViewOf(Ingested(parse, f, path, derive, pricing, EMPTY_STORE, [w]))
            == AbsorbAll(ViewOf(EMPTY_STORE), Events(parse, f, path, derive, pricing, |f|, w.clock))
  {
    assert [w][..|[w]| - 1] == [];
    PutAllView(EMPTY_STORE, Events(parse, f, path, derive, pricing, |f|, w.clock), w.now);
  }

  /** A caught-up run and a clock for which it differs from a full parse. */
  lemma UnstampedShows(parse: Parse, f: string, path: string, derive: Derive, pricing: Pricing) returns (rs: seq<Refresh>, clock: nat -> int)
    requires !Stamped(parse, Lines(f, 0, |f|))
    ensures Grows(f, rs) && CaughtUp(f, rs)
    ensures ViewOf(Ingested(parse, f, path, derive, pricing, EMPTY_STORE, Windows(false, path, rs)))
            != ViewOf(PutAll(EMPTY_STORE, Events(parse, f, path, derive, pricing, |f|, clock), 0))
  {
    var lines := Lines(f, 0, |f|);
    var l :| l in lines && !BearsTime(parse, l);
    var i :| 0 <= i < |lines| && lines[i] == l;
    var t := LaterThan(Stamps(parse, lines));
    var e := ClockLeaks(parse, path, derive, pricing, lines, i, t, t + 1);
    var c := (_: nat) => t;
    clock := (_: nat) => t + 1;
    rs := OneRefresh(f, c);
    OneRefreshRun(false, f, path, c);
    hide Stamped, Lines, EventsOf, LaterThan;
    OneRead(parse, f, path, derive, pricing, Window(0, |f|, c, 0));
    PutAllView(EMPTY_STORE, Events(parse, f, path, derive, pricing, |f|, clock), 0);
    AbsorbOne(ViewOf(EMPTY_STORE), Events(parse, f, path, derive, pricing, |f|, c), e);
    AbsorbNone(ViewOf(EMPTY_STORE), Events(parse, f, path, derive, pricing, |f|, clock), e.id);
  }

  /** Every caught-up run comes to the same as a full parse at any time, if and only if every row with usage has
      a time. */
  lemma EveryRunAgreesIff(parse: Parse, f: string, path: string, derive: Derive, pricing: Pricing)
    requires FrontsAgree(parse, f)
    ensures Stamped(parse, Lines(f, 0, |f|)) <==>
            forall rs: seq<Refresh>, clock: nat -> int | Grows(f, rs) && CaughtUp(f, rs) ::
              ViewOf(Ingested(parse, f, path, derive, pricing, EMPTY_STORE, Windows(false, path, rs)))
              == ViewOf(PutAll(EMPTY_STORE, Events(parse, f, path, derive, pricing, |f|, clock), 0))
  {
    if Stamped(parse, Lines(f, 0, |f|)) {
      forall rs: seq<Refresh>, clock: nat -> int | Grows(f, rs) && CaughtUp(f, rs)
        ensures ViewOf(Ingested(parse, f, path, derive, pricing, EMPTY_STORE, Windows(false, path, rs)))
                == ViewOf(PutAll(EMPTY_STORE, Events(parse, f, path, derive, pricing, |f|, clock), 0))
      {
        ReparsingIsParsingOnce(parse, f, path, derive, pricing, EMPTY_STORE, rs, clock, 0);
      }
    } else {
      var rs, clock := UnstampedShows(parse, f, path, derive, pricing);
    }
  }
}
