/** Which lines of a Gemini log a run of refreshes loses, for file sizes taken anywhere. */
module GeminiExact {
  import opened Wrappers
  import opened Redaction
  import opened LocalDb
  import opened Jsonl
  import opened Ingestion
  import opened FileCaches
  import opened GeminiParser
  import opened GeminiResume

  /** The log, how it is parsed, and under which labels. */
  datatype Log = Log(parse: Parse, f: string, src: LogFile, pricing: Pricing)

  function All(g: Log): seq<Line> { Lines(g.f, 0, |g.f|) }

  function Read(g: Log, i: nat, k: nat, clock: nat -> int): seq<UsageEvent>
    requires k <= |g.f|
  {
    Events(g.parse, g.f, g.src, g.pricing, i, k, clock)
  }

  /** The event of a line. */
  function Out(g: Log, l: Line): seq<UsageEvent> { EventOf(g.parse, g.src, g.pricing, l, Noon) }

  /** What is left of a line when its front is missing means nothing. */
  ghost predicate TailsMeanNothing(parse: Parse, f: string) {
    forall j: nat, k: nat | j <= k <= |f| && LineStart(f, k) < j :: TailMeansNothing(parse, f, j, k)
  }

  ghost predicate TailMeansNothing(parse: Parse, f: string, j: nat, k: nat)
    requires j <= k <= |f|
  {
    var row := parse(f[j..k]); row.None? || !BearsUsage(row.value)
  }

  /** Two lines of the log never have one event id. */
  ghost predicate DistinctIds(g: Log) {
    forall l <- All(g), m <- All(g) | Out(g, l) != [] && Out(g, m) != [] && Out(g, l)[0].id == Out(g, m)[0].id :: l == m
  }

  ghost predicate LogOk(g: Log) {
    FrontsAgree(g.parse, g.f) && TailsMeanNothing(g.parse, g.f) && Stamped(g.parse, All(g)) && DistinctIds(g)
  }

  // ---- which lines a read takes --------------------------------------------

  /** Lines are where they say, and end at their break. */
  lemma {:induction false} LinesFit(f: string, i: nat, n: nat)
    requires i <= n <= |f|
    ensures forall l <- Lines(f, i, n) :: i <= l.offset < l.offset + |l.raw| <= n
    decreases n - i
  {
    hide LineAt;
    if i == n {
    } else {
      var j := LineEnd(f, i, n);
      LinesStep(f, i, n);
      assert forall l <- LineAt(f, i, j) :: l == Line(i, f[i..j]) && i < j by { OneLineFits(f, i, j); }
      if j < n {
        LinesFit(f, j + 1, n);
      }
    }
  }

  lemma OneLineFits(f: string, i: nat, j: nat)
    requires i <= j <= |f|
    ensures forall l <- LineAt(f, i, j) :: l == Line(i, f[i..j]) && i < j
  {}

  /** The lines between two line ends are those of the file that lie between them. */
  lemma LinesBetween(f: string, i: nat, n: nat, l: Line)
    requires i <= n <= |f| && AtLineEnd(f, i) && AtLineEnd(f, n)
    ensures l in Lines(f, i, n) <==> l in Lines(f, 0, |f|) && i <= l.offset && l.offset + |l.raw| <= n
  {
    hide Lines, AtLineEnd;
    LinesCut(f, 0, i, |f|);
    LinesCut(f, i, n, |f|);
    LinesFit(f, 0, i);
    LinesFit(f, i, n);
    LinesFit(f, n, |f|);
  }

  /** The read from byte `i` to byte `k` takes the line in: it starts before it and reaches its end. */
  predicate Takes(g: Log, i: nat, k: nat, l: Line)
    requires k <= |g.f|
  {
    i <= l.offset && l.offset + |l.raw| <= Reach(g.parse, g.f, k)
  }

  /** The event is that of some line which the read takes in. */
  ghost predicate Taken(g: Log, i: nat, k: nat, clock: nat -> int, e: UsageEvent)
    requires k <= |g.f|
  {
    exists l :: l in All(g) && Takes(g, i, k, l) && EventOf(g.parse, g.src, g.pricing, l, clock) == [e]
  }

  /** A read that starts at a line end. */
  lemma ReadFromLine(g: Log, i: nat, k: nat, clock: nat -> int, e: UsageEvent)
    requires FrontsAgree(g.parse, g.f) && i <= k <= |g.f| && AtLineEnd(g.f, i)
    ensures e in Read(g, i, k, clock) <==> Taken(g, i, k, clock, e)
  {
    hide AtLineEnd, Reach, EventOf, FrontsAgree, Lines;
    var r := Reach(g.parse, g.f, k);
    ReachMonotone(g.parse, g.f, i, k);
    EventsReach(g.parse, g.f, g.src, g.pricing, i, k, clock);
    EventsCome(g.parse, g.src, g.pricing, Lines(g.f, i, r), clock);
    if e in Read(g, i, k, clock) {
      var l :| l in Lines(g.f, i, r) && EventOf(g.parse, g.src, g.pricing, l, clock) == [e];
      LinesBetween(g.f, i, r, l);
    }
    if Taken(g, i, k, clock, e) {
      var l :| l in All(g) && Takes(g, i, k, l) && EventOf(g.parse, g.src, g.pricing, l, clock) == [e];
      LinesBetween(g.f, i, r, l);
    }
  }

  /** A whole line of the file: from a line start to the line's end. */
  ghost predicate Whole(f: string, l: Line) {
    && l.offset < |f| && LineStart(f, l.offset) == l.offset
    && LineEnd(f, l.offset, |f|) == l.offset + |l.raw| && l.raw == f[l.offset..l.offset + |l.raw|] && l.raw != []
  }

  lemma WholeHere(f: string, i: nat)
    requires i < |f| && LineStart(f, i) == i
    ensures var j := LineEnd(f, i, |f|);
            (forall l <- LineAt(f, i, j) :: Whole(f, l)) && (j < |f| ==> LineStart(f, j + 1) == j + 1)
  {
    OneLineFits(f, i, LineEnd(f, i, |f|));
  }

  lemma {:induction false} LinesWhole(f: string, i: nat)
    requires i <= |f| && LineStart(f, i) == i
    ensures forall l <- Lines(f, i, |f|) :: Whole(f, l)
    decreases |f| - i
  {
    hide *;
    if i == |f| {
      NoLineAfter(f, i, |f|);
    } else {
      var j := LineEnd(f, i, |f|);
      LinesStep(f, i, |f|);
      WholeHere(f, i);
      if j < |f| {
        LinesWhole(f, j + 1);
      } else {
        NoLineAfter(f, j + 1, |f|);
      }
    }
  }

  /** A read that starts inside a line takes what a read from the end of that line takes: the piece it begins
      with means nothing. */
  lemma ReadFromInside(g: Log, i: nat, k: nat, clock: nat -> int)
    requires TailsMeanNothing(g.parse, g.f) && i <= k <= |g.f| && LineStart(g.f, i) < i
    ensures var j := LineEnd(g.f, i, |g.f|);
            Read(g, i, k, clock) == if k <= j then [] else Read(g, j, k, clock)
  {
    hide Lines, LineEnd, LineStart, EventsOf, TailsMeanNothing;
    var j := LineEnd(g.f, i, |g.f|);
    PieceMeansNothing(g, i, Min(j, k), clock);
    if j < k {
      EventsCut(g.parse, g.f, g.src, g.pricing, i, j, k, clock);
      assert [] + Read(g, j, k, clock) == Read(g, j, k, clock);
    }
  }

  lemma {:induction false} WithinLine(f: string, i: nat, m: nat)
    requires i <= m <= |f| && m <= LineEnd(f, i, |f|)
    ensures LineStart(f, m) == LineStart(f, i)
    decreases m - i
  {
    if i == m {
    } else {
      WithinLine(f, i, m - 1);
    }
  }

  lemma PieceMeansNothing(g: Log, i: nat, m: nat, clock: nat -> int)
    requires TailsMeanNothing(g.parse, g.f) && i <= m <= |g.f| && m <= LineEnd(g.f, i, |g.f|) && LineStart(g.f, i) < i
    ensures Read(g, i, m, clock) == []
  {
    if i == m {
      hide *;
      NoneRead(g, i, clock);
    } else {
      WithinLine(g.f, i, m);
      assert TailMeansNothing(g.parse, g.f, i, m);
      hide TailsMeanNothing, Lines, LineStart, LineEnd, BearsUsage;
      PieceAlone(g.f, i, m);
      EventsMore(g.parse, g.src, g.pricing, [], Line(i, g.f[i..m]), [Line(i, g.f[i..m])], clock);
    }
  }

  lemma NoneRead(g: Log, i: nat, clock: nat -> int)
    requires i <= |g.f|
    ensures Read(g, i, i, clock) == []
  {}

  lemma PieceAlone(f: string, i: nat, m: nat)
    requires i < m <= |f| && m <= LineEnd(f, i, |f|)
    ensures Lines(f, i, m) == [Line(i, f[i..m])]
  {
    hide Lines;
    LineEndOfFront(f, i, m, |f|);
    LinesStep(f, i, m);
    NothingAfter(LineAt(f, i, m));
    assert Lines(f, m + 1, m) == [] by { NoLineAfter(f, m + 1, m); }
  }

  lemma NoLineAfter(f: string, i: nat, n: nat)
    requires n <= |f| && i >= n
    ensures Lines(f, i, n) == []
  {}

  /** What a read yields, wherever it starts and ends: the events of the lines it takes in. */
  lemma ReadIs(g: Log, i: nat, k: nat, clock: nat -> int, e: UsageEvent)
    requires FrontsAgree(g.parse, g.f) && TailsMeanNothing(g.parse, g.f) && i <= k <= |g.f|
    ensures e in Read(g, i, k, clock) <==> Taken(g, i, k, clock, e)
  {
    if LineStart(g.f, i) == i {
      ReadFromLine(g, i, k, clock, e);
    } else {
      var j := LineEnd(g.f, i, |g.f|);
      ReadFromInside(g, i, k, clock);
      if j < k {
        ReadFromLine(g, j, k, clock, e);
      }
      forall l <- All(g) ensures Takes(g, i, k, l) <==> j < k && Takes(g, j, k, l) {
        TakesFromInside(g, i, k, l);
      }
      hide EventOf, Reach, Read;
    }
  }

  lemma TakesFromInside(g: Log, i: nat, k: nat, l: Line)
    requires i <= k <= |g.f| && LineStart(g.f, i) < i && l in All(g)
    ensures var j := LineEnd(g.f, i, |g.f|); Takes(g, i, k, l) <==> j < k && Takes(g, j, k, l)
  {
    var f, j := g.f, LineEnd(g.f, i, |g.f|);
    LinesWhole(f, 0);
    if i <= l.offset <= j {
      WithinLine(f, i, l.offset);
    }
    if k <= j {
      WithinLine(f, i, k);
    }
  }

  // ---- runs ----------------------------------------------------------------

  /** Some window of the run takes the line in. */
  ghost predicate TakenBy(g: Log, ws: seq<Window>, l: Line) {
    exists w :: w in ws && w.end <= |g.f| && Takes(g, w.start, w.end, l)
  }

  /** The events of the lines that the windows take in are in the store; ids of no such line are as before. */
  ghost predicate TookIn(g: Log, ws: seq<Window>, before: View, v: View) {
    && (forall l <- All(g) | Out(g, l) != [] && TakenBy(g, ws, l) :: Holds(v, Out(g, l)[0]))
    && (forall id :: Holding(g, ws, id) || SameAt(before, v, id))
  }

  ghost predicate Holding(g: Log, ws: seq<Window>, id: string) {
    exists l :: l in All(g) && TakenBy(g, ws, l) && Out(g, l) != [] && Out(g, l)[0].id == id
  }

  lemma ClockIgnored(g: Log, l: Line, clock: nat -> int)
    requires Stamped(g.parse, All(g)) && l in All(g)
    ensures EventOf(g.parse, g.src, g.pricing, l, clock) == Out(g, l)
  {}

  /** The events of a read, told by lines. */
  lemma ReadTold(g: Log, w: Window, l: Line)
    requires LogOk(g) && w.start <= w.end <= |g.f| && l in All(g) && Out(g, l) != [] && Takes(g, w.start, w.end, l)
    ensures var es := Read(g, w.start, w.end, w.clock); var x := Out(g, l)[0];
            x in es && forall y <- es | y.id == x.id :: y == x
  {
    hide EventOf, Reach, Read, Takes, Out;
    var es, x := Read(g, w.start, w.end, w.clock), Out(g, l)[0];
    assert Out(g, l) == [x] by { OneOut(g, l); }
    ClockIgnored(g, l, w.clock);
    ReadIs(g, w.start, w.end, w.clock, x);
    assert Taken(g, w.start, w.end, w.clock, x);
    forall y <- es | y.id == x.id ensures y == x {
      ReadIs(g, w.start, w.end, w.clock, y);
      var m := LineOf(g, w, y);
      assert m == l;
    }
  }

  lemma OneOut(g: Log, l: Line)
    requires Out(g, l) != []
    ensures Out(g, l) == [Out(g, l)[0]]
  {}

  /** The line that an event of a read comes from. */
  lemma LineOf(g: Log, w: Window, y: UsageEvent) returns (m: Line)
    requires LogOk(g) && w.start <= w.end <= |g.f| && y in Read(g, w.start, w.end, w.clock)
    ensures m in All(g) && Takes(g, w.start, w.end, m) && Out(g, m) == [y]
  {
    hide EventOf, Reach, Read, Takes, Out;
    ReadIs(g, w.start, w.end, w.clock, y);
    m :| m in All(g) && Takes(g, w.start, w.end, m) && EventOf(g.parse, g.src, g.pricing, m, w.clock) == [y];
    ClockIgnored(g, m, w.clock);
  }

  lemma OneMore(g: Log, before: View, v: View, ws: seq<Window>, w: Window)
    requires LogOk(g) && TookIn(g, ws, before, v) && w.start <= w.end <= |g.f|
    ensures TookIn(g, ws + [w], before, AbsorbAll(v, Read(g, w.start, w.end, w.clock)))
  {
    hide Out, Read, Takes, LogOk, Holds, AbsorbAll;
    var es, all := Read(g, w.start, w.end, w.clock), ws + [w];
    var u := AbsorbAll(v, es);
    forall l <- All(g) | Out(g, l) != [] && TakenBy(g, all, l) ensures Holds(u, Out(g, l)[0]) {
      OneMoreHolds(g, before, v, ws, w, l);
    }
    forall id ensures Holding(g, all, id) || SameAt(before, u, id) {
      if !Holding(g, all, id) {
        OneMoreSame(g, before, v, ws, w, id);
      }
    }
  }

  lemma OneMoreHolds(g: Log, before: View, v: View, ws: seq<Window>, w: Window, l: Line)
    requires LogOk(g) && TookIn(g, ws, before, v) && w.start <= w.end <= |g.f|
    requires l in All(g) && Out(g, l) != [] && TakenBy(g, ws + [w], l)
    ensures Holds(AbsorbAll(v, Read(g, w.start, w.end, w.clock)), Out(g, l)[0])
  {
    hide Out, Read, Takes, AbsorbAll;
    var es, x := Read(g, w.start, w.end, w.clock), Out(g, l)[0];
    if Takes(g, w.start, w.end, l) {
      ReadTold(g, w, l);
      AbsorbThe(v, es, x);
    } else {
      var z :| z in ws + [w] && z.end <= |g.f| && Takes(g, z.start, z.end, l);
      assert z in ws && TakenBy(g, ws, l);
      forall y <- es ensures y.id != x.id {
        var m := LineOf(g, w, y);
        assert m != l;
      }
      AbsorbNone(v, es, x.id);
    }
  }

  lemma OneMoreSame(g: Log, before: View, v: View, ws: seq<Window>, w: Window, id: string)
    requires LogOk(g) && TookIn(g, ws, before, v) && w.start <= w.end <= |g.f| && !Holding(g, ws + [w], id)
    ensures SameAt(before, AbsorbAll(v, Read(g, w.start, w.end, w.clock)), id)
  {
    hide Out, Read, Takes, AbsorbAll;
    var es := Read(g, w.start, w.end, w.clock);
    assert w in ws + [w];
    forall y <- es ensures y.id != id {
      var m := LineOf(g, w, y);
      assert TakenBy(g, ws + [w], m);
    }
    AbsorbNone(v, es, id);
    forall l | l in All(g) && TakenBy(g, ws, l) ensures TakenBy(g, ws + [w], l) {
      var z :| z in ws && z.end <= |g.f| && Takes(g, z.start, z.end, l);
      assert z in ws + [w];
    }
    assert !Holding(g, ws, id);
  }

  /** The store after the windows. */
  function Run(g: Log, s: Store, ws: seq<Window>): Store { Ingested(g.parse, g.f, g.src, g.pricing, s, ws) }

  lemma {:induction false} RunTookIn(g: Log, s: Store, ws: seq<Window>)
    requires LogOk(g) && Sane(s) && forall w <- ws :: w.start <= w.end <= |g.f|
    ensures TookIn(g, ws, ViewOf(s), ViewOf(Run(g, s, ws)))
    decreases |ws|
  {
    hide TookIn, LogOk, ViewOf, Events;
    if ws == [] {
      NothingTaken(g, ViewOf(s));
    } else {
      var before, w := ws[..|ws| - 1], ws[|ws| - 1];
      assert w in ws && forall z <- before :: z in ws;
      RunTookIn(g, s, before);
      IngestedSane(g.parse, g.f, g.src, g.pricing, s, before);
      PutAllView(Run(g, s, before), Read(g, w.start, w.end, w.clock), w.now);
      OneMore(g, ViewOf(s), ViewOf(Run(g, s, before)), before, w);
      assert before + [w] == ws;
    }
  }

  lemma NothingTaken(g: Log, v: View)
    ensures TookIn(g, [], v, v)
  {}

  /** None of the log's events is in the store yet. */
  ghost predicate NoneYet(g: Log, s: Store) { forall l <- All(g) | Out(g, l) != [] :: Out(g, l)[0].id !in s.events }

  /** Every line with an event is taken in by some window. */
  ghost predicate AllTaken(g: Log, ws: seq<Window>) { forall l <- All(g) | Out(g, l) != [] :: TakenBy(g, ws, l) }

  function FullParse(g: Log, s: Store, clock: nat -> int, now: int): Store { PutAll(s, Read(g, 0, |g.f|, clock), now) }

  lemma OneRead(g: Log, s: Store, w: Window)
    requires w.end <= |g.f|
    ensures Run(g, s, [w]) == PutAll(s, Read(g, w.start, w.end, w.clock), w.now)
  {
    hide Events, PutAll;
    assert [w][..|[w]| - 1] == [];
    assert Run(g, s, []) == s;
  }

  /** A parse of everything is a run of one window, which takes in every line. */
  lemma FullParseTookIn(g: Log, s: Store, clock: nat -> int, now: int)
    requires LogOk(g) && Sane(s)
    ensures var w := Window(0, |g.f|, clock, now); AllTaken(g, [w]) && TookIn(g, [w], ViewOf(s), ViewOf(FullParse(g, s, clock, now)))
  {
    var w := Window(0, |g.f|, clock, now);
    RunTookIn(g, s, [w]);
    OneRead(g, s, w);
    LinesFit(g.f, 0, |g.f|);
    assert Reach(g.parse, g.f, |g.f|) == |g.f|;
    forall l <- All(g) | Out(g, l) != [] ensures TakenBy(g, [w], l) {
      assert Takes(g, w.start, w.end, l);
    }
  }

  lemma AllTakenSame(g: Log, ws: seq<Window>, zs: seq<Window>, before: View, v: View, u: View)
    requires TookIn(g, ws, before, v) && TookIn(g, zs, before, u) && AllTaken(g, ws) && AllTaken(g, zs)
    ensures Same(v, u)
  {
    hide Out, Takes, All;
    forall id ensures SameAt(v, u, id) {
      if Holding(g, ws, id) || Holding(g, zs, id) {
        var l :| l in All(g) && Out(g, l) != [] && Out(g, l)[0].id == id;
        assert Holds(v, Out(g, l)[0]) && Holds(u, Out(g, l)[0]);
      } else {
        assert SameAt(before, v, id) && SameAt(before, u, id);
      }
    }
    SameEverywhere(v, u);
  }

  /** The event of a line that no window takes in is not there. */
  lemma LostLine(g: Log, ws: seq<Window>, before: View, v: View, l: Line)
    requires DistinctIds(g) && TookIn(g, ws, before, v)
    requires l in All(g) && Out(g, l) != [] && !TakenBy(g, ws, l) && Out(g, l)[0].id !in before.events
    ensures Out(g, l)[0].id !in v.events
  {
    hide Out, Takes, All;
    assert !Holding(g, ws, Out(g, l)[0].id);
  }

  /** A run of refreshes of a growing log, with sizes taken anywhere, comes to the same as a full parse, if and
      only if every line with an event lies whole in one of the stretches that were read. */
  lemma RunAgreesIff(g: Log, s: Store, rs: seq<Refresh>, clock: nat -> int, now: int)
    requires LogOk(g) && Sane(s) && NoneYet(g, s) && Grows(g.f, rs)
    ensures var ws := Windows(true, g.src.path, rs);
            Same(ViewOf(Run(g, s, ws)), ViewOf(FullParse(g, s, clock, now))) <==> AllTaken(g, ws)
  {
    var ws, w := Windows(true, g.src.path, rs), Window(0, |g.f|, clock, now);
    WindowsTile(true, g.f, g.src.path, rs);
    RunTookIn(g, s, ws);
    FullParseTookIn(g, s, clock, now);
    hide Run, FullParse, Out, All, Windows, LogOk, TookIn, TakenBy;
    if AllTaken(g, ws) {
      AllTakenSame(g, ws, [w], ViewOf(s), ViewOf(Run(g, s, ws)), ViewOf(FullParse(g, s, clock, now)));
    } else {
      var l :| l in All(g) && Out(g, l) != [] && !TakenBy(g, ws, l);
      LostTells(g, s, ws, w, l, clock, now);
    }
  }

  lemma LostTells(g: Log, s: Store, ws: seq<Window>, w: Window, l: Line, clock: nat -> int, now: int)
    requires LogOk(g) && NoneYet(g, s) && TookIn(g, ws, ViewOf(s), ViewOf(Run(g, s, ws)))
    requires TookIn(g, [w], ViewOf(s), ViewOf(FullParse(g, s, clock, now))) && AllTaken(g, [w])
    requires l in All(g) && Out(g, l) != [] && !TakenBy(g, ws, l)
    ensures Out(g, l)[0].id !in Run(g, s, ws).events && Out(g, l)[0].id in FullParse(g, s, clock, now).events
  {
    hide Run, FullParse, Out, All, QueueTo;
    LostLine(g, ws, ViewOf(s), ViewOf(Run(g, s, ws)), l);
    assert Holds(ViewOf(FullParse(g, s, clock, now)), Out(g, l)[0]);
  }

  // ---- a size taken inside a line ------------------------------------------

  /** A file size taken inside a line with an event, while its front means nothing: the size goes into the cache,
      the next refresh reads only the rest of the line, and the event is lost although the run ends caught up. */
  lemma CutInsideLoses(g: Log, s: Store, l: Line, k: nat, a: Refresh, b: Refresh, clock: nat -> int, now: int)
    requires LogOk(g) && Sane(s) && NoneYet(g, s)
    requires l in All(g) && Out(g, l) != [] && l.offset < k < l.offset + |l.raw| && k <= |g.f|
    requires g.parse(g.f[l.offset..k]).None?
    requires a.stat.Some? && a.stat.value.size == a.visible == k
    requires b.stat.Some? && b.stat.value.size == b.visible == |g.f|
    ensures Grows(g.f, [a, b]) && CaughtUp(g.f, [a, b])
    ensures var id := Out(g, l)[0].id;
            && id !in Run(g, s, Windows(true, g.src.path, [a, b])).events
            && id in FullParse(g, s, clock, now).events
  {
    var w, z := Window(0, k, a.clock, a.now), Window(k, |g.f|, b.clock, b.now);
    CutMisses(g, l, k, w, z);
    TwoReads(g.src.path, a, b);
    CutLoses(g, s, l, k, w, z, clock, now);
    CutGrows(g.f, k, a, b);
    hide *;
  }

  lemma CutGrows(f: string, k: nat, a: Refresh, b: Refresh)
    requires k < |f| && a.stat.Some? && a.stat.value.size == a.visible == k
    requires b.stat.Some? && b.stat.value.size == b.visible == |f|
    ensures Grows(f, [a, b]) && CaughtUp(f, [a, b])
  {}

  lemma CutLoses(g: Log, s: Store, l: Line, k: nat, w: Window, z: Window, clock: nat -> int, now: int)
    requires LogOk(g) && Sane(s) && NoneYet(g, s)
    requires l in All(g) && Out(g, l) != [] && l.offset < k < l.offset + |l.raw| && k <= |g.f|
    requires g.parse(g.f[l.offset..k]).None? && w.start == 0 && w.end == z.start == k && z.end == |g.f|
    ensures var id := Out(g, l)[0].id; id !in Run(g, s, [w, z]).events && id in FullParse(g, s, clock, now).events
  {
    CutMisses(g, l, k, w, z);
    hide *;
    RunTookIn(g, s, [w, z]);
    FullParseTookIn(g, s, clock, now);
    LostTells(g, s, [w, z], Window(0, |g.f|, clock, now), l, clock, now);
  }

  lemma CutMisses(g: Log, l: Line, k: nat, w: Window, z: Window)
    requires l in All(g) && l.offset < k < l.offset + |l.raw| && k <= |g.f| && g.parse(g.f[l.offset..k]).None?
    requires w.end == z.start == k && z.end == |g.f|
    ensures k < |g.f| && !TakenBy(g, [w, z], l)
  {
    LinesWhole(g.f, 0);
    assert Whole(g.f, l);
    WithinLine(g.f, l.offset, k);
    assert !AtLineEnd(g.f, k);
    assert Reach(g.parse, g.f, k) == l.offset;
  }

  // ---- rows without a time -------------------------------------------------

  /** The views of two full parses differ once some row has no time of its own. */
  lemma UnstampedShows(g: Log) returns (rs: seq<Refresh>, clock: nat -> int)
    requires !Stamped(g.parse, All(g))
    ensures Grows(g.f, rs) && WholeLines(g.f, rs) && CaughtUp(g.f, rs)
    ensures ViewOf(Run(g, EMPTY_STORE, Windows(true, g.src.path, rs))) != ViewOf(FullParse(g, EMPTY_STORE, clock, 0))
  {
    var c: nat -> int;
    c, clock := UnstampedDiffers(g.parse, g.f, g.src, g.pricing);
    rs := OneRefresh(g.f, c);
    OneRefreshRun(true, g.f, g.src.path, c);
    OneRead(g, EMPTY_STORE, Window(0, |g.f|, c, 0));
    PutAllView(EMPTY_STORE, Read(g, 0, |g.f|, c), 0);
    PutAllView(EMPTY_STORE, Read(g, 0, |g.f|, clock), 0);
    assert ViewOf(EMPTY_STORE) == View(map[], []);
  }

  /** Every caught-up run with sizes at line ends comes to the same as a full parse at any time, if and only if
      every row with usage has a time. */
  lemma EveryRunAgreesIff(g: Log)
    requires FrontsAgree(g.parse, g.f)
    ensures Stamped(g.parse, All(g)) <==>
            forall rs: seq<Refresh>, clock: nat -> int | Grows(g.f, rs) && WholeLines(g.f, rs) && CaughtUp(g.f, rs) ::
              ViewOf(Run(g, EMPTY_STORE, Windows(true, g.src.path, rs))) == ViewOf(FullParse(g, EMPTY_STORE, clock, 0))
  {
    if Stamped(g.parse, All(g)) {
      forall rs: seq<Refresh>, clock: nat -> int | Grows(g.f, rs) && WholeLines(g.f, rs) && CaughtUp(g.f, rs)
        ensures ViewOf(Run(g, EMPTY_STORE, Windows(true, g.src.path, rs))) == ViewOf(FullParse(g, EMPTY_STORE, clock, 0))
      {
        ResumingIsParsingInFull(g.parse, g.f, g.src, g.pricing, EMPTY_STORE, rs, clock, 0);
      }
    } else {
      var rs, clock := UnstampedShows(g);
    }
  }
}
