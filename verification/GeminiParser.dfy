/** The Gemini parser: every line stands on its own, and a grown file is read on from the cached offset. */
module GeminiParser {
  import opened Wrappers
  import opened JoinedKeys
  import opened TeamModel
  import opened Redaction
  import opened LocalDb
  import opened Jsonl
  import opened Ingestion
  import opened FileCaches
  import opened LogContent

  datatype GeminiTokens = GeminiTokens(
    input: Option<int>, output: Option<int>, cached: Option<int>, thoughts: Option<int>, tool: Option<int>)

  datatype GeminiRow = GeminiRow(id: Option<string>, timestamp: Stamp, model: Option<string>, tokens: Option<GeminiTokens>)

  type Parse = string -> Option<GeminiRow>

  function TokensOf(t: GeminiTokens): Tokens {
    var thoughts := ReadNumber(t.thoughts);
    Tokens(ReadNumber(t.input), ReadNumber(t.output) + ReadNumber(t.tool), ReadNumber(t.cached), 0, 0,
           if thoughts > 0 then Some(thoughts) else None)
  }

  predicate BearsUsage(row: GeminiRow) {
    row.tokens.Some? &&
    var t := row.tokens.value;
    !(ReadNumber(t.input) == 0 && ReadNumber(t.output) + ReadNumber(t.tool) == 0 && ReadNumber(t.cached) == 0 && ReadNumber(t.thoughts) == 0)
  }

  function MessageName(row: GeminiRow, offset: nat): string { OrElse(row.id, "noid:" + NatText(offset)) }

  function IdOf(src: LogFile, row: GeminiRow, offset: nat, ts: int): string {
    BuildEventId(["google", src.sessionId, MessageName(row, offset), IntText(ts)])
  }

  function EventAt(src: LogFile, pricing: Pricing, row: GeminiRow, offset: nat, ts: int): UsageEvent
    requires row.tokens.Some?
  {
    var partial := UsageEvent(
      IdOf(src, row, offset, ts), "google", None, OrElse(row.model, "gemini-unknown"), ts,
      Some(src.project), Some(src.project), Some(src.sessionId), row.id,
      TokensOf(row.tokens.value), None, None, 0, pricing.version, src.path, offset);
    partial.(cost := pricing.cost(partial))
  }

  /** The event of a line, if it has one. */
  function EventOf(parse: Parse, src: LogFile, pricing: Pricing, line: Line, clock: nat -> int): seq<UsageEvent> {
    var row := parse(line.raw);
    if row.None? || !BearsUsage(row.value) then []
    else
      var ts := TimeOf(row.value.timestamp, clock(line.offset));
      if ts.None? then [] else [EventAt(src, pricing, row.value, line.offset, ts.value)]
  }

  function EventsOf(parse: Parse, src: LogFile, pricing: Pricing, lines: seq<Line>, clock: nat -> int): seq<UsageEvent>
    decreases |lines|
  {
    if lines == [] then []
    else EventsOf(parse, src, pricing, lines[..|lines| - 1], clock) + EventOf(parse, src, pricing, lines[|lines| - 1], clock)
  }

  /** The events of the bytes from `i` to `n`. */
  function Events(parse: Parse, f: string, src: LogFile, pricing: Pricing, i: nat, n: nat, clock: nat -> int): seq<UsageEvent>
    requires n <= |f|
  {
    EventsOf(parse, src, pricing, Lines(f, i, n), clock)
  }

  // ---- the events, told from the lines alone -------------------------------

  /** The line has a number of tokens that is not zero, tool tokens counting as output, and a time that can be
      read, if any. */
  predicate Counts(parse: Parse, l: Line) {
    var row := parse(l.raw);
    && row.Some? && row.value.timestamp != Unreadable && row.value.tokens.Some?
    && var t := row.value.tokens.value;
       NonZero(t.input) || Count(t.output) + Count(t.tool) != 0 || NonZero(t.cached) || NonZero(t.thoughts)
  }

  /** The event of a line: its numbers field by field, its time, model, message and offset, the file's session
      and project, and a price. */
  predicate EventTells(e: UsageEvent, parse: Parse, src: LogFile, pricing: Pricing, l: Line, clock: nat -> int)
    requires Counts(parse, l)
  {
    var row := parse(l.raw).value;
    var t := row.tokens.value;
    && e.tokens.input == Count(t.input) && e.tokens.output == Count(t.output) + Count(t.tool) && e.tokens.cacheRead == Count(t.cached)
    && e.tokens.cache5m == 0 && e.tokens.cache1h == 0
    && e.tokens.reasoning == (if Count(t.thoughts) > 0 then Some(Count(t.thoughts)) else None)
    && e.timestamp == (if row.timestamp.At? then row.timestamp.ms else clock(l.offset))
    && e.model == (if row.model.Some? then row.model.value else "gemini-unknown")
    && e.messageId == row.id && e.sessionId == Some(src.sessionId)
    && e.project == Some(src.project) && e.projectRawSlug == Some(src.project)
    && e.sourceFile == src.path && e.sourceLineOffset == l.offset
    && e.provider == "google" && e.providerRawTag == None && e.toolCallCount == None && e.latencyMs == None
    && e.id == BuildEventId(["google", src.sessionId, if row.id.Some? then row.id.value else "noid:" + NatText(l.offset),
                             IntText(e.timestamp)])
    && e.pricing == pricing.version && e.cost == pricing.cost(e.(cost := 0))
  }

  /** One event for each line that counts, in the order of the lines. */
  ghost predicate Tells(events: seq<UsageEvent>, parse: Parse, src: LogFile, pricing: Pricing, lines: seq<Line>, n: nat, clock: nat -> int)
    requires n <= |lines|
  {
    var places := Where(lines, n, l => Counts(parse, l));
    && |events| == |places|
    && forall k :: 0 <= k < |places| ==> places[k] < |lines| && Counts(parse, lines[places[k]])
                                         && EventTells(events[k], parse, src, pricing, lines[places[k]], clock)
  }

  lemma LineTells(parse: Parse, src: LogFile, pricing: Pricing, l: Line, clock: nat -> int)
    ensures var es := EventOf(parse, src, pricing, l, clock);
            if Counts(parse, l) then |es| == 1 && EventTells(es[0], parse, src, pricing, l, clock) else es == []
  {}

  lemma NothingTells(parse: Parse, src: LogFile, pricing: Pricing, lines: seq<Line>, clock: nat -> int)
    ensures Tells(EventsOf(parse, src, pricing, lines[..0], clock), parse, src, pricing, lines, 0, clock)
  {
    hide EventTells, Counts;
  }

  lemma OneMoreLine(parse: Parse, src: LogFile, pricing: Pricing, lines: seq<Line>, n: nat, clock: nat -> int)
    requires n < |lines|
    ensures EventsOf(parse, src, pricing, lines[..n + 1], clock)
            == EventsOf(parse, src, pricing, lines[..n], clock) + EventOf(parse, src, pricing, lines[n], clock)
  {
    hide EventOf;
    assert lines[..n + 1][..n] == lines[..n] && lines[..n + 1][n] == lines[n];
  }

  lemma TellsMore(events: seq<UsageEvent>, more: seq<UsageEvent>, parse: Parse, src: LogFile, pricing: Pricing,
                  lines: seq<Line>, n: nat, clock: nat -> int)
    requires n < |lines| && Tells(events, parse, src, pricing, lines, n, clock)
    requires if Counts(parse, lines[n]) then |more| == 1 && EventTells(more[0], parse, src, pricing, lines[n], clock) else more == []
    ensures Tells(events + more, parse, src, pricing, lines, n + 1, clock)
  {
    hide EventTells, Counts;
  }

  lemma {:induction false} EventsTell(parse: Parse, src: LogFile, pricing: Pricing, lines: seq<Line>, n: nat, clock: nat -> int)
    requires n <= |lines|
    ensures Tells(EventsOf(parse, src, pricing, lines[..n], clock), parse, src, pricing, lines, n, clock)
    decreases n
  {
    hide Tells, EventTells, EventOf, EventsOf, Counts;
    if n == 0 {
      NothingTells(parse, src, pricing, lines, clock);
    } else {
      EventsTell(parse, src, pricing, lines, n - 1, clock);
      OneMoreLine(parse, src, pricing, lines, n - 1, clock);
      LineTells(parse, src, pricing, lines[n - 1], clock);
      TellsMore(EventsOf(parse, src, pricing, lines[..n - 1], clock), EventOf(parse, src, pricing, lines[n - 1], clock),
                parse, src, pricing, lines, n - 1, clock);
    }
  }

  // ---- the parser ----------------------------------------------------------

  lemma NoLineYet(parse: Parse, src: LogFile, pricing: Pricing, lines: seq<Line>, clock: nat -> int)
    ensures EventsOf(parse, src, pricing, lines[..0], clock) == []
  {}

  method ParseGeminiFile(parse: Parse, f: string, src: LogFile, pricing: Pricing, fileCache: FileCache, r: Refresh)
    returns (events: seq<UsageEvent>)
    requires r.visible <= |f|
    modifies fileCache
    ensures var cached := old(Lookup(fileCache.rows, src.path));
            && events == (if Skips(cached, r.stat) then []
                          else Events(parse, f, src, pricing, ResumeAt(cached, r.stat), r.visible, r.clock))
            && Lookup(fileCache.rows, src.path) == Remembered(cached, src.path, r)
            && (!Skips(cached, r.stat) ==>
                  var lines := Lines(f, ResumeAt(cached, r.stat), r.visible);
                  Tells(events, parse, src, pricing, lines, |lines|, r.clock))
    ensures forall p | p != src.path :: Lookup(fileCache.rows, p) == old(Lookup(fileCache.rows, p))
  {
    hide Tells, EventAt, EventsOf, IsLine, Rising, Lines;
    events := [];
    var skip, resumeFromOffset := Consult(fileCache, src.path, r.stat);
    if skip {
      return;
    }
    var lines := ReadLines(f, resumeFromOffset, r.visible);
    NoLineYet(parse, src, pricing, lines, r.clock);
    for i := 0 to |lines|
      invariant fileCache.rows == old(fileCache.rows)
      invariant events == EventsOf(parse, src, pricing, lines[..i], r.clock)
    {
      OneMoreLine(parse, src, pricing, lines, i, r.clock);
      var line := lines[i];
      var row := parse(line.raw);
      if row.None? || row.value.tokens.None? {
        continue;
      }
      if !BearsUsage(row.value) {
        continue;
      }
      var timestamp := TimeOf(row.value.timestamp, r.clock(line.offset));
      if timestamp.None? {
        continue;
      }
      events := events + [EventAt(src, pricing, row.value, line.offset, timestamp.value)];
    }
    assert lines[..|lines|] == lines;
    EventsTell(parse, src, pricing, lines, |lines|, r.clock);
    Remember(fileCache, src.path, r);
  }
}
