/** The Claude Code parser: within one read only the last row of a message counts. */
module ClaudeParser {
  import opened Wrappers
  import opened JoinedKeys
  import opened TeamModel
  import opened Redaction
  import opened Jsonl
  import opened Ingestion
  import opened FileCaches
  import opened LogContent

  datatype ClaudeUsage = ClaudeUsage(
    input: Option<int>, output: Option<int>, cacheRead: Option<int>,
    cacheCreation: Option<int>, cache5m: Option<int>, cache1h: Option<int>)

  datatype ClaudeRow = ClaudeRow(timestamp: Stamp, messageId: Option<string>, model: Option<string>, usage: Option<ClaudeUsage>)

  type Parse = string -> Option<ClaudeRow>

  /** File, prices, and the provider a model name belongs to. */
  datatype Setup = Setup(src: LogFile, pricing: Pricing, providerOf: string -> string)

  /** A row with usage, and where it starts. */
  datatype Held = Held(row: ClaudeRow, offset: nat)

  /** The message id, unless absent or empty. */
  function MessageOf(h: Held): Option<string> {
    if h.row.messageId.Some? && |h.row.messageId.value| > 0 then h.row.messageId else None
  }

  function NameOf(h: Held): string { OrElse(MessageOf(h), "noid:" + NatText(h.offset)) }

  /** Cache writes: the old single field goes to the five-minute bucket, otherwise the split fields count. */
  function TokensOf(u: ClaudeUsage): Tokens {
    var single := ReadNumber(u.cacheCreation);
    Tokens(ReadNumber(u.input), ReadNumber(u.output), ReadNumber(u.cacheRead),
           if single > 0 then single else ReadNumber(u.cache5m), if single > 0 then 0 else ReadNumber(u.cache1h), None)
  }

  predicate IsZero(t: Tokens) { t.input == 0 && t.output == 0 && t.cacheRead == 0 && t.cache5m == 0 && t.cache1h == 0 }

  predicate HasUsage(row: ClaudeRow) { row.usage.Some? && !IsZero(TokensOf(row.usage.value)) }

  function IdAt(cfg: Setup, h: Held, ts: int): string {
    BuildEventId(["anthropic", cfg.src.sessionId, NameOf(h), IntText(ts)])
  }

  function EventAt(cfg: Setup, h: Held, ts: int): UsageEvent
    requires h.row.usage.Some?
  {
    var model := OrElse(h.row.model, "unknown");
    var partial := UsageEvent(
      IdAt(cfg, h, ts), cfg.providerOf(model), None, model, ts,
      Some(cfg.src.project), Some(cfg.src.rawSlug), Some(cfg.src.sessionId), MessageOf(h),
      TokensOf(h.row.usage.value), None, None, 0, cfg.pricing.version, cfg.src.path, h.offset);
    partial.(cost := cfg.pricing.cost(partial))
  }

  /** The event of a row, if its time can be read and it counts anything. */
  function Finalize(cfg: Setup, h: Held, clock: nat -> int): seq<UsageEvent> {
    var ts := TimeOf(h.row.timestamp, clock(h.offset));
    if ts.None? || !HasUsage(h.row) then [] else [EventAt(cfg, h, ts.value)]
  }

  function HeldAt(parse: Parse, line: Line): seq<Held> {
    var row := parse(line.raw);
    if row.None? || row.value.usage.None? then [] else [Held(row.value, line.offset)]
  }

  function HeldOf(parse: Parse, lines: seq<Line>): seq<Held>
    decreases |lines|
  {
    if lines == [] then [] else HeldOf(parse, lines[..|lines| - 1]) + HeldAt(parse, lines[|lines| - 1])
  }

  /** The two collections of the first pass: the map by message id, in insertion order, and the rows without one. */
  datatype Pass = Pass(order: seq<string>, byMessageId: map<string, Held>, noIdRows: seq<Held>)

  function Collect(p: Pass, h: Held): Pass {
    var m := MessageOf(h);
    if m.None? then p.(noIdRows := p.noIdRows + [h])
    else p.(order := AddNew(p.order, m.value), byMessageId := p.byMessageId[m.value := h])
  }

  function Collected(hs: seq<Held>): Pass
    decreases |hs|
  {
    if hs == [] then Pass([], map[], []) else Collect(Collected(hs[..|hs| - 1]), hs[|hs| - 1])
  }

  function FinalizeAll(cfg: Setup, hs: seq<Held>, clock: nat -> int): seq<UsageEvent>
    decreases |hs|
  {
    if hs == [] then [] else FinalizeAll(cfg, hs[..|hs| - 1], clock) + Finalize(cfg, hs[|hs| - 1], clock)
  }

  /** The last row with message id `m`. */
  function LastOf(hs: seq<Held>, m: string): Option<Held>
    decreases |hs|
  {
    if hs == [] then None
    else if MessageOf(hs[|hs| - 1]) == Some(m) then Some(hs[|hs| - 1])
    else LastOf(hs[..|hs| - 1], m)
  }

  lemma {:induction false} PassIs(hs: seq<Held>)
    ensures var p := Collected(hs);
            && (forall m :: m in p.order <==> m in p.byMessageId)
            && (forall m :: m in p.byMessageId <==> LastOf(hs, m).Some?)
            && (forall m <- p.byMessageId :: LastOf(hs, m) == Some(p.byMessageId[m]))
            && (forall h :: h in p.noIdRows <==> h in hs && MessageOf(h).None?)
    decreases |hs|
  {
    if hs == [] {
    } else {
      PassIs(hs[..|hs| - 1]);
    }
  }

  function Latest(p: Pass): seq<Held>
    requires forall m <- p.order :: m in p.byMessageId
  {
    seq(|p.order|, i requires 0 <= i < |p.order| => p.byMessageId[p.order[i]])
  }

  /** What a read emits: the last row of each message in order of first appearance, then the rows without id. */
  function Emitted(cfg: Setup, hs: seq<Held>, clock: nat -> int): seq<UsageEvent> {
    PassIs(hs);
    FinalizeAll(cfg, Latest(Collected(hs)), clock) + FinalizeAll(cfg, Collected(hs).noIdRows, clock)
  }

  /** The row counts: it has no message id, or it is the last of its message. */
  predicate Kept(hs: seq<Held>, h: Held) {
    h in hs && (MessageOf(h).None? || LastOf(hs, MessageOf(h).value) == Some(h))
  }

  lemma {:induction false} LastOfIs(hs: seq<Held>, m: string)
    ensures LastOf(hs, m).Some? <==> exists h :: h in hs && MessageOf(h) == Some(m)
    ensures LastOf(hs, m).Some? ==> LastOf(hs, m).value in hs && MessageOf(LastOf(hs, m).value) == Some(m)
    decreases |hs|
  {
    if hs == [] {
    } else {
      LastOfIs(hs[..|hs| - 1], m);
    }
  }

  lemma {:induction false} FinalizeAllIs(cfg: Setup, hs: seq<Held>, clock: nat -> int, e: UsageEvent)
    ensures e in FinalizeAll(cfg, hs, clock) <==> exists h :: h in hs && Finalize(cfg, h, clock) == [e]
    decreases |hs|
  {
    if hs == [] {
    } else {
      FinalizeAllIs(cfg, hs[..|hs| - 1], clock, e);
    }
  }

  lemma LatestIs(hs: seq<Held>, h: Held)
    ensures (forall m <- Collected(hs).order :: m in Collected(hs).byMessageId)
    ensures h in Latest(Collected(hs)) <==> h in hs && MessageOf(h).Some? && LastOf(hs, MessageOf(h).value) == Some(h)
  {
    PassIs(hs);
    var p := Collected(hs);
    if h in Latest(p) {
      var i :| 0 <= i < |p.order| && h == p.byMessageId[p.order[i]];
      LastOfIs(hs, p.order[i]);
    }
    if h in hs && MessageOf(h).Some? && LastOf(hs, MessageOf(h).value) == Some(h) {
      var i :| 0 <= i < |p.order| && p.order[i] == MessageOf(h).value;
      assert Latest(p)[i] == h;
    }
  }

  /** The events of a read are those of the rows that count. */
  lemma EmittedIs(cfg: Setup, hs: seq<Held>, clock: nat -> int, e: UsageEvent)
    ensures e in Emitted(cfg, hs, clock) <==> exists h :: Kept(hs, h) && Finalize(cfg, h, clock) == [e]
  {
    PassIs(hs);
    FinalizeAllIs(cfg, Latest(Collected(hs)), clock, e);
    FinalizeAllIs(cfg, Collected(hs).noIdRows, clock, e);
    forall h ensures Kept(hs, h) <==> h in Latest(Collected(hs)) || h in Collected(hs).noIdRows {
      LatestIs(hs, h);
    }
  }

  // ---- the events, told from the lines alone -------------------------------

  predicate HoldsUsage(parse: Parse, l: Line) { parse(l.raw).Some? && parse(l.raw).value.usage.Some? }

  /** An empty message id is none. */
  function MessageAt(parse: Parse, l: Line): Option<string>
    requires HoldsUsage(parse, l)
  {
    var m := parse(l.raw).value.messageId; if m == Some("") then None else m
  }

  /** No line below has usage for the same message. */
  predicate IsLast(parse: Parse, lines: seq<Line>, i: nat)
    requires i < |lines| && HoldsUsage(parse, lines[i])
  {
    MessageAt(parse, lines[i]).Some? ==>
      forall j | i < j < |lines| :: HoldsUsage(parse, lines[j]) ==> MessageAt(parse, lines[j]) != MessageAt(parse, lines[i])
  }

  /** The line has a number of tokens that counts and is not zero, and a time that can be read, if any. The split
      cache fields count where the old single field is not positive. */
  predicate Tallies(parse: Parse, l: Line)
    requires HoldsUsage(parse, l)
  {
    var row := parse(l.raw).value;
    && row.timestamp != Unreadable
    && var u := row.usage.value;
       NonZero(u.input) || NonZero(u.output) || NonZero(u.cacheRead)
       || Count(u.cacheCreation) > 0 || NonZero(u.cache5m) || NonZero(u.cache1h)
  }

  /** The line has an event: it is the last of its message, or has none, and it counts. */
  predicate Emits(parse: Parse, lines: seq<Line>, i: int) {
    0 <= i < |lines| && HoldsUsage(parse, lines[i]) && IsLast(parse, lines, i) && Tallies(parse, lines[i])
  }

  /** The event of a line: its numbers field by field, the old single cache field going to the five-minute column,
      its time, model, message and offset, the file's session and project, and a price. */
  predicate EventTells(e: UsageEvent, parse: Parse, cfg: Setup, l: Line, clock: nat -> int)
    requires HoldsUsage(parse, l)
  {
    var row := parse(l.raw).value;
    var u := row.usage.value;
    var single := Count(u.cacheCreation);
    && e.tokens.input == Count(u.input) && e.tokens.output == Count(u.output) && e.tokens.cacheRead == Count(u.cacheRead)
    && (single > 0 ==> e.tokens.cache5m == single && e.tokens.cache1h == 0)
    && (single <= 0 ==> e.tokens.cache5m == Count(u.cache5m) && e.tokens.cache1h == Count(u.cache1h))
    && e.tokens.reasoning == None
    && e.timestamp == (if row.timestamp.At? then row.timestamp.ms else clock(l.offset))
    && e.model == (if row.model.Some? then row.model.value else "unknown")
    && e.provider == cfg.providerOf(e.model) && e.providerRawTag == None && e.toolCallCount == None && e.latencyMs == None
    && e.messageId == MessageAt(parse, l) && e.sessionId == Some(cfg.src.sessionId)
    && e.project == Some(cfg.src.project) && e.projectRawSlug == Some(cfg.src.rawSlug)
    && e.sourceFile == cfg.src.path && e.sourceLineOffset == l.offset
    && e.id == BuildEventId(["anthropic", cfg.src.sessionId,
                             if e.messageId.Some? then e.messageId.value else "noid:" + NatText(l.offset), IntText(e.timestamp)])
    && e.pricing == cfg.pricing.version && e.cost == cfg.pricing.cost(e.(cost := 0))
  }

  /** The first line with usage for a message. */
  function Opening(parse: Parse, lines: seq<Line>, m: string): (i: Option<nat>)
    ensures i.Some? ==> i.value < |lines|
    decreases |lines|
  {
    if lines == [] then None
    else
      var before, last := Opening(parse, lines[..|lines| - 1], m), lines[|lines| - 1];
      if before.Some? then before
      else if HoldsUsage(parse, last) && MessageAt(parse, last) == Some(m) then Some(|lines| - 1) else None
  }

  predicate Earlier(i: Option<nat>, j: Option<nat>) { i.Some? && j.Some? && i.value < j.value }

  /** Events of messages come first, in the order in which their messages open, then those without a message, in
      the order of their lines. */
  predicate InOrder(parse: Parse, lines: seq<Line>, e: UsageEvent, g: UsageEvent) {
    if e.messageId.Some? && g.messageId.Some? then
      Earlier(Opening(parse, lines, e.messageId.value), Opening(parse, lines, g.messageId.value))
    else e.messageId.Some? || (g.messageId.None? && e.sourceLineOffset < g.sourceLineOffset)
  }

  /** The event is that of line `i`. */
  predicate IsOf(e: UsageEvent, parse: Parse, cfg: Setup, lines: seq<Line>, i: int, clock: nat -> int) {
    Emits(parse, lines, i) && EventTells(e, parse, cfg, lines[i], clock)
  }

  ghost predicate HasSource(e: UsageEvent, parse: Parse, cfg: Setup, lines: seq<Line>, clock: nat -> int) {
    exists i :: IsOf(e, parse, cfg, lines, i, clock)
  }

  ghost predicate HasEvent(events: seq<UsageEvent>, parse: Parse, cfg: Setup, lines: seq<Line>, i: int, clock: nat -> int) {
    exists k :: 0 <= k < |events| && IsOf(events[k], parse, cfg, lines, i, clock)
  }

  ghost predicate AllInOrder(events: seq<UsageEvent>, parse: Parse, lines: seq<Line>) {
    forall a, b :: 0 <= a < b < |events| ==> InOrder(parse, lines, events[a], events[b])
  }

  /** No event but those of lines that emit one, every one of these, and in this order. */
  ghost predicate Tells(events: seq<UsageEvent>, parse: Parse, cfg: Setup, lines: seq<Line>, clock: nat -> int) {
    && (forall e <- events :: HasSource(e, parse, cfg, lines, clock))
    && (forall i | Emits(parse, lines, i) :: HasEvent(events, parse, cfg, lines, i, clock))
    && AllInOrder(events, parse, lines)
  }

  /** A line with usage, as the first pass holds it. */
  function HeldLine(parse: Parse, l: Line): Held
    requires HoldsUsage(parse, l)
  {
    Held(parse(l.raw).value, l.offset)
  }

  lemma LineTells(parse: Parse, cfg: Setup, l: Line, clock: nat -> int)
    requires HoldsUsage(parse, l)
    ensures var es := Finalize(cfg, HeldLine(parse, l), clock);
            if Tallies(parse, l) then |es| == 1 && EventTells(es[0], parse, cfg, l, clock) else es == []
  {}

  lemma {:induction false} LastHeld(parse: Parse, lines: seq<Line>, i: nat)
    requires i < |lines| && HoldsUsage(parse, lines[i])
    ensures HeldLine(parse, lines[i]) in HeldOf(parse, lines)
    ensures IsLast(parse, lines, i) ==> Kept(HeldOf(parse, lines), HeldLine(parse, lines[i]))
    decreases |lines|
  {
    var before, last := lines[..|lines| - 1], lines[|lines| - 1];
    assert lines == before + [last];
    HeldMore(parse, before, last, lines);
    if i < |before| {
      LastHeld(parse, before, i);
      if IsLast(parse, lines, i) {
        assert IsLast(parse, before, i);
      }
    }
  }

  lemma {:induction false} HeldFrom(parse: Parse, lines: seq<Line>, h: Held) returns (i: nat)
    requires h in HeldOf(parse, lines)
    ensures i < |lines| && HoldsUsage(parse, lines[i]) && HeldLine(parse, lines[i]) == h
    decreases |lines|
  {
    var before, last := lines[..|lines| - 1], lines[|lines| - 1];
    assert lines == before + [last];
    HeldMore(parse, before, last, lines);
    if h in HeldOf(parse, before) {
      i := HeldFrom(parse, before, h);
    } else {
      i := |before|;
    }
  }

  lemma {:induction false} KeptFrom(parse: Parse, lines: seq<Line>, h: Held) returns (i: nat)
    requires Kept(HeldOf(parse, lines), h)
    ensures i < |lines| && HoldsUsage(parse, lines[i]) && HeldLine(parse, lines[i]) == h && IsLast(parse, lines, i)
    decreases |lines|
  {
    if MessageOf(h).None? {
      i := HeldFrom(parse, lines, h);
    } else {
      var before, last := lines[..|lines| - 1], lines[|lines| - 1];
      assert lines == before + [last];
      HeldMore(parse, before, last, lines);
      if HoldsUsage(parse, last) && MessageAt(parse, last) == MessageOf(h) {
        i := |before|;
      } else {
        LastOfIs(HeldOf(parse, before), MessageOf(h).value);
        i := KeptFrom(parse, before, h);
      }
    }
  }

  lemma EventFrom(parse: Parse, cfg: Setup, lines: seq<Line>, clock: nat -> int, e: UsageEvent) returns (i: nat)
    requires e in Emitted(cfg, HeldOf(parse, lines), clock)
    ensures IsOf(e, parse, cfg, lines, i, clock)
  {
    hide Emitted, HeldOf, Finalize, EventTells, Tallies, Kept, IsLast;
    EmittedIs(cfg, HeldOf(parse, lines), clock, e);
    var h :| Kept(HeldOf(parse, lines), h) && Finalize(cfg, h, clock) == [e];
    i := KeptFrom(parse, lines, h);
    LineTells(parse, cfg, lines[i], clock);
  }

  lemma EventOf(parse: Parse, cfg: Setup, lines: seq<Line>, clock: nat -> int, i: nat) returns (e: UsageEvent)
    requires Emits(parse, lines, i)
    ensures e in Emitted(cfg, HeldOf(parse, lines), clock) && IsOf(e, parse, cfg, lines, i, clock)
  {
    hide Emitted, HeldOf, Finalize, EventTells, Tallies, Kept, IsLast;
    var h := HeldLine(parse, lines[i]);
    LastHeld(parse, lines, i);
    LineTells(parse, cfg, lines[i], clock);
    e := Finalize(cfg, h, clock)[0];
    assert Finalize(cfg, h, clock) == [e];
    EmittedIs(cfg, HeldOf(parse, lines), clock, e);
  }

  // ---- their order ---------------------------------------------------------

  lemma {:induction false} FinalizedInOrder(cfg: Setup, hs: seq<Held>, clock: nat -> int, a: nat, b: nat) returns (x: nat, y: nat)
    requires a < b < |FinalizeAll(cfg, hs, clock)|
    ensures x < y < |hs|
    ensures Finalize(cfg, hs[x], clock) == [FinalizeAll(cfg, hs, clock)[a]] && Finalize(cfg, hs[y], clock) == [FinalizeAll(cfg, hs, clock)[b]]
    decreases |hs|
  {
    var before, last := hs[..|hs| - 1], hs[|hs| - 1];
    if b < |FinalizeAll(cfg, before, clock)| {
      x, y := FinalizedInOrder(cfg, before, clock, a, b);
    } else {
      x := FinalizedFrom(cfg, before, clock, a);
      y := |before|;
    }
  }

  lemma {:induction false} FinalizedFrom(cfg: Setup, hs: seq<Held>, clock: nat -> int, a: nat) returns (x: nat)
    requires a < |FinalizeAll(cfg, hs, clock)|
    ensures x < |hs| && Finalize(cfg, hs[x], clock) == [FinalizeAll(cfg, hs, clock)[a]]
    decreases |hs|
  {
    var before := hs[..|hs| - 1];
    if a < |FinalizeAll(cfg, before, clock)| {
      x := FinalizedFrom(cfg, before, clock, a);
    } else {
      x := |before|;
    }
  }

  /** Messages are held in the order in which they open. */
  ghost predicate OpensInOrder(parse: Parse, lines: seq<Line>, order: seq<string>) {
    && (forall m :: m in order <==> Opening(parse, lines, m).Some?)
    && (forall x, y :: 0 <= x < y < |order| ==> Earlier(Opening(parse, lines, order[x]), Opening(parse, lines, order[y])))
  }

  lemma PassMore(parse: Parse, before: seq<Line>, last: Line, lines: seq<Line>)
    requires lines == before + [last]
    ensures var p, q := Collected(HeldOf(parse, before)), Collected(HeldOf(parse, lines));
            if !HoldsUsage(parse, last) then q == p
            else if MessageAt(parse, last).Some?
            then q.order == AddNew(p.order, MessageAt(parse, last).value) && q.noIdRows == p.noIdRows
            else q.order == p.order && q.noIdRows == p.noIdRows + [HeldLine(parse, last)]
  {
    hide HeldOf, Collected, AddNew;
    HeldMore(parse, before, last, lines);
    if HoldsUsage(parse, last) {
      assert HeldAt(parse, last) == [HeldLine(parse, last)];
      CollectedMore(HeldOf(parse, before), HeldLine(parse, last));
    } else {
      assert HeldAt(parse, last) == [];
    }
  }

  lemma {:induction false} OrderIs(parse: Parse, lines: seq<Line>)
    ensures OpensInOrder(parse, lines, Collected(HeldOf(parse, lines)).order)
    decreases |lines|
  {
    if lines == [] {
    } else {
      var before, last := lines[..|lines| - 1], lines[|lines| - 1];
      assert lines == before + [last];
      hide OpensInOrder, HeldOf, Collected, AddNew;
      OrderIs(parse, before);
      PassMore(parse, before, last, lines);
      OrderMore(parse, before, last, lines, Collected(HeldOf(parse, before)).order);
    }
  }

  lemma OrderMore(parse: Parse, before: seq<Line>, last: Line, lines: seq<Line>, order: seq<string>)
    requires lines == before + [last] && OpensInOrder(parse, before, order)
    ensures OpensInOrder(parse, lines, if HoldsUsage(parse, last) && MessageAt(parse, last).Some?
                                       then AddNew(order, MessageAt(parse, last).value) else order)
  {
    forall m ensures Opening(parse, lines, m) ==
                     if m in order then Opening(parse, before, m)
                     else if HoldsUsage(parse, last) && MessageAt(parse, last) == Some(m) then Some(|before|) else None
    {
      assert lines[..|lines| - 1] == before;
    }
    hide Opening, HoldsUsage, MessageAt;
    assert forall x :: 0 <= x < |order| ==> order[x] in order;
  }

  /** Offsets rise, and each is that of a held row. */
  ghost predicate RowsRise(rows: seq<Held>, hs: seq<Held>) {
    && (forall h <- rows :: h in hs)
    && (forall x, y :: 0 <= x < y < |rows| ==> rows[x].offset < rows[y].offset)
  }

  lemma RowsMore(rows: seq<Held>, hs: seq<Held>, more: seq<Held>)
    requires RowsRise(rows, hs) && |more| <= 1 && forall h <- hs, l <- more :: h.offset < l.offset
    ensures RowsRise(rows, hs + more) && RowsRise(rows + more, hs + more)
  {
    assert forall x :: 0 <= x < |rows| ==> rows[x] in rows;
    assert more != [] ==> more[0] in more;
  }

  lemma {:induction false} NoIdRowsRise(parse: Parse, lines: seq<Line>)
    requires Rising(lines)
    ensures RowsRise(Collected(HeldOf(parse, lines)).noIdRows, HeldOf(parse, lines))
    decreases |lines|
  {
    if lines == [] {
    } else {
      var before, last := lines[..|lines| - 1], lines[|lines| - 1];
      assert lines == before + [last];
      hide HeldOf, Collected;
      NoIdRowsRise(parse, before);
      HeldMore(parse, before, last, lines);
      PassMore(parse, before, last, lines);
      HeldBelow(parse, before, last);
      RowsMore(Collected(HeldOf(parse, before)).noIdRows, HeldOf(parse, before), HeldAt(parse, last));
    }
  }

  lemma HeldBelow(parse: Parse, before: seq<Line>, last: Line)
    requires Rising(before + [last])
    ensures forall h <- HeldOf(parse, before) :: h.offset < last.offset
  {
    forall h <- HeldOf(parse, before) ensures h.offset < last.offset {
      var i := HeldFrom(parse, before, h);
      assert (before + [last])[i].offset < (before + [last])[|before|].offset;
    }
  }

  lemma MessagesInOrder(parse: Parse, cfg: Setup, lines: seq<Line>, clock: nat -> int, a: nat, b: nat)
    requires (forall m <- Collected(HeldOf(parse, lines)).order :: m in Collected(HeldOf(parse, lines)).byMessageId)
    requires var es := FinalizeAll(cfg, Latest(Collected(HeldOf(parse, lines))), clock); a < b < |es|
    ensures var es := FinalizeAll(cfg, Latest(Collected(HeldOf(parse, lines))), clock);
            es[a].messageId.Some? && es[b].messageId.Some? && InOrder(parse, lines, es[a], es[b])
  {
    var hs := HeldOf(parse, lines);
    var p := Collected(hs);
    var x, y := FinalizedInOrder(cfg, Latest(p), clock, a, b);
    OrderIs(parse, lines);
    HeldMessage(hs, p.order[x]);
    HeldMessage(hs, p.order[y]);
    hide HeldOf, Collected, FinalizeAll, Opening;
  }

  lemma HeldMessage(hs: seq<Held>, m: string)
    requires m in Collected(hs).order
    ensures m in Collected(hs).byMessageId && MessageOf(Collected(hs).byMessageId[m]) == Some(m)
  {
    PassIs(hs);
    LastOfIs(hs, m);
  }

  lemma OneMessage(parse: Parse, cfg: Setup, lines: seq<Line>, clock: nat -> int, a: nat)
    requires (forall m <- Collected(HeldOf(parse, lines)).order :: m in Collected(HeldOf(parse, lines)).byMessageId)
    requires a < |FinalizeAll(cfg, Latest(Collected(HeldOf(parse, lines))), clock)|
    ensures FinalizeAll(cfg, Latest(Collected(HeldOf(parse, lines))), clock)[a].messageId.Some?
  {
    var hs := HeldOf(parse, lines);
    var x := FinalizedFrom(cfg, Latest(Collected(hs)), clock, a);
    HeldMessage(hs, Collected(hs).order[x]);
    hide HeldOf, Collected, FinalizeAll;
  }

  lemma RowsInOrder(parse: Parse, cfg: Setup, lines: seq<Line>, clock: nat -> int, a: nat, b: nat)
    requires Rising(lines)
    requires var es := FinalizeAll(cfg, Collected(HeldOf(parse, lines)).noIdRows, clock); a < b < |es|
    ensures var es := FinalizeAll(cfg, Collected(HeldOf(parse, lines)).noIdRows, clock); InOrder(parse, lines, es[a], es[b])
  {
    var hs := HeldOf(parse, lines);
    var rows := Collected(hs).noIdRows;
    var x, y := FinalizedInOrder(cfg, rows, clock, a, b);
    NoIdRowsRise(parse, lines);
    PassIs(hs);
    assert rows[x] in rows && rows[y] in rows;
    hide HeldOf, Collected, FinalizeAll, Opening;
  }

  lemma MessageFirst(parse: Parse, lines: seq<Line>, e: UsageEvent, g: UsageEvent)
    requires e.messageId.Some? && g.messageId.None?
    ensures InOrder(parse, lines, e, g)
  {}

  lemma EmittedInOrder(parse: Parse, cfg: Setup, lines: seq<Line>, clock: nat -> int, a: nat, b: nat)
    requires Rising(lines)
    requires a < b < |Emitted(cfg, HeldOf(parse, lines), clock)|
    ensures var es := Emitted(cfg, HeldOf(parse, lines), clock); InOrder(parse, lines, es[a], es[b])
  {
    hide HeldOf, Collected, FinalizeAll, Opening, InOrder;
    var hs := HeldOf(parse, lines);
    PassIs(hs);
    var first := FinalizeAll(cfg, Latest(Collected(hs)), clock);
    var k := |first|;
    if b < k {
      MessagesInOrder(parse, cfg, lines, clock, a, b);
    } else if a >= k {
      RowsInOrder(parse, cfg, lines, clock, a - k, b - k);
    } else {
      OneMessage(parse, cfg, lines, clock, a);
      OneRow(parse, cfg, lines, clock, b - k);
      MessageFirst(parse, lines, first[a], Emitted(cfg, hs, clock)[b]);
    }
  }

  lemma OneRow(parse: Parse, cfg: Setup, lines: seq<Line>, clock: nat -> int, b: nat)
    requires b < |FinalizeAll(cfg, Collected(HeldOf(parse, lines)).noIdRows, clock)|
    ensures FinalizeAll(cfg, Collected(HeldOf(parse, lines)).noIdRows, clock)[b].messageId.None?
  {
    var hs := HeldOf(parse, lines);
    var rows := Collected(hs).noIdRows;
    var x := FinalizedFrom(cfg, rows, clock, b);
    PassIs(hs);
    assert rows[x] in rows;
    hide HeldOf, Collected, FinalizeAll;
  }

  /** What a read of some lines emits. */
  lemma EmittedTells(parse: Parse, cfg: Setup, lines: seq<Line>, clock: nat -> int)
    requires Rising(lines)
    ensures Tells(Emitted(cfg, HeldOf(parse, lines), clock), parse, cfg, lines, clock)
  {
    var events := Emitted(cfg, HeldOf(parse, lines), clock);
    hide Emitted, HeldOf, IsOf, Emits, InOrder;
    forall e <- events ensures HasSource(e, parse, cfg, lines, clock) {
      var i := EventFrom(parse, cfg, lines, clock, e);
    }
    forall i | Emits(parse, lines, i) ensures HasEvent(events, parse, cfg, lines, i, clock) {
      assert 0 <= i by { LineIn(parse, lines, i); }
      var e := EventOf(parse, cfg, lines, clock, i);
    }
    forall a, b | 0 <= a < b < |events| ensures InOrder(parse, lines, events[a], events[b]) {
      EmittedInOrder(parse, cfg, lines, clock, a, b);
    }
  }

  lemma LineIn(parse: Parse, lines: seq<Line>, i: int)
    requires Emits(parse, lines, i)
    ensures 0 <= i < |lines|
  {}

  // ---- the parser ----------------------------------------------------------

  method ParseClaudeFile(parse: Parse, f: string, cfg: Setup, fileCache: FileCache, r: Refresh)
    returns (events: seq<UsageEvent>)
    requires r.visible <= |f|
    modifies fileCache
    ensures var cached := old(Lookup(fileCache.rows, cfg.src.path));
            && events == (if Skips(cached, r.stat) then []
                          else Emitted(cfg, HeldOf(parse, Lines(f, ResumeAt(cached, r.stat), r.visible)), r.clock))
            && Lookup(fileCache.rows, cfg.src.path) == Remembered(cached, cfg.src.path, r)
            && (!Skips(cached, r.stat) ==> Tells(events, parse, cfg, Lines(f, ResumeAt(cached, r.stat), r.visible), r.clock))
    ensures forall p | p != cfg.src.path :: Lookup(fileCache.rows, p) == old(Lookup(fileCache.rows, p))
  {
    hide Tells, IsLine, Lines, HeldOf;
    events := [];
    var skip, resumeFromOffset := Consult(fileCache, cfg.src.path, r.stat);
    if skip {
      return;
    }
    var lines := ReadLines(f, resumeFromOffset, r.visible);
    var p := FirstPass(parse, lines);
    events := EmitMessages(cfg, p, r.clock);
    var more := EmitRows(cfg, p.noIdRows, r.clock);
    events := events + more;
    LinesRise(f, resumeFromOffset, r.visible);
    EmittedTells(parse, cfg, lines, r.clock);
    Remember(fileCache, cfg.src.path, r);
  }

  method FirstPass(parse: Parse, lines: seq<Line>) returns (p: Pass)
    ensures p == Collected(HeldOf(parse, lines))
    ensures forall m <- p.order :: m in p.byMessageId
  {
    var order: seq<string>, byMessageId: map<string, Held>, noIdRows: seq<Held> := [], map[], [];
    for i := 0 to |lines|
      invariant Pass(order, byMessageId, noIdRows) == Collected(HeldOf(parse, lines[..i]))
    {
      HeldMore(parse, lines[..i], lines[i], lines[..i + 1]);
      var row := parse(lines[i].raw);
      if row.None? || row.value.usage.None? {
        continue;
      }
      var h := Held(row.value, lines[i].offset);
      CollectedMore(HeldOf(parse, lines[..i]), h);
      var messageId := row.value.messageId;
      if messageId.Some? && |messageId.value| > 0 {
        if messageId.value !in order {
          order := order + [messageId.value];
        }
        byMessageId := byMessageId[messageId.value := h];
      } else {
        noIdRows := noIdRows + [h];
      }
    }
    assert lines[..|lines|] == lines;
    p := Pass(order, byMessageId, noIdRows);
    PassIs(HeldOf(parse, lines));
  }

  method EmitMessages(cfg: Setup, p: Pass, clock: nat -> int) returns (events: seq<UsageEvent>)
    requires forall m <- p.order :: m in p.byMessageId
    ensures events == FinalizeAll(cfg, Latest(p), clock)
  {
    hide Finalize;
    events := [];
    for i := 0 to |p.order|
      invariant events == FinalizeAll(cfg, Latest(p)[..i], clock)
    {
      assert Latest(p)[..i + 1][..i] == Latest(p)[..i];
      events := events + Finalize(cfg, p.byMessageId[p.order[i]], clock);
    }
    assert Latest(p)[..|p.order|] == Latest(p);
  }

  method EmitRows(cfg: Setup, hs: seq<Held>, clock: nat -> int) returns (events: seq<UsageEvent>)
    ensures events == FinalizeAll(cfg, hs, clock)
  {
    hide Finalize;
    events := [];
    for j := 0 to |hs|
      invariant events == FinalizeAll(cfg, hs[..j], clock)
    {
      assert hs[..j + 1][..j] == hs[..j];
      events := events + Finalize(cfg, hs[j], clock);
    }
    assert hs[..|hs|] == hs;
  }

  lemma HeldMore(parse: Parse, a: seq<Line>, line: Line, all: seq<Line>)
    requires all == a + [line]
    ensures HeldOf(parse, all) == HeldOf(parse, a) + HeldAt(parse, line)
    ensures HeldAt(parse, line) == [] ==> HeldOf(parse, all) == HeldOf(parse, a)
  {
    assert all[..|all| - 1] == a;
  }

  lemma CollectedMore(hs: seq<Held>, h: Held)
    ensures Collected(hs + [h]) == Collect(Collected(hs), h)
  {
    assert (hs + [h])[..|hs|] == hs;
  }
}
