/** The Codex parser: rows set the model, turn and session of those after them, so every reparse starts at byte 0. */
module CodexParser {
  import opened Wrappers
  import opened JoinedKeys
  import opened TeamModel
  import opened Redaction
  import opened LocalDb
  import opened Jsonl
  import opened Ingestion
  import opened FileCaches
  import opened LogContent

  datatype CodexTokens = CodexTokens(input: Option<int>, cachedInput: Option<int>, output: Option<int>, reasoning: Option<int>)

  datatype CodexRow =
    | SessionMeta(id: Option<string>, cwd: Option<string>)
    | TurnContext(model: Option<string>, turnId: Option<string>)
    | TokenCount(timestamp: Stamp, last: Option<CodexTokens>)
    | OtherRow

  type Parse = string -> Option<CodexRow>

  /** Project and slug of a working directory. */
  type Derive = Option<string> -> (string, string)

  datatype State = State(model: string, turn: Option<string>, session: Option<string>, cwd: Option<string>)

  const FRESH := State("unknown", None, None, None)

  predicate BearsUsage(t: CodexTokens) {
    !(ReadNumber(t.input) == 0 && ReadNumber(t.output) == 0 && ReadNumber(t.cachedInput) == 0 && ReadNumber(t.reasoning) == 0)
  }

  function EventAt(path: string, derive: Derive, pricing: Pricing, st: State, t: CodexTokens, offset: nat, ts: int): UsageEvent {
    var (project, rawSlug) := derive(st.cwd);
    var thoughts := ReadNumber(t.reasoning);
    var id := BuildEventId(["openai", OrElse(st.session, path), OrElse(st.turn, "noturn"), IntText(ts), NatText(offset)]);
    var partial := UsageEvent(
      id, "openai", None, st.model, ts, Some(project), Some(rawSlug), st.session, st.turn,
      Tokens(ReadNumber(t.input), ReadNumber(t.output), ReadNumber(t.cachedInput), 0, 0, if thoughts > 0 then Some(thoughts) else None),
      None, None, 0, pricing.version, path, offset);
    partial.(cost := pricing.cost(partial))
  }

  /** What a row makes of the state. */
  function After(st: State, row: CodexRow): State {
    match row
    case SessionMeta(id, cwd) => st.(session := id, cwd := if cwd.Some? then cwd else st.cwd)
    case TurnContext(model, turnId) =>
      st.(model := if model.Some? && |model.value| > 0 then model.value else st.model,
          turn := if turnId.Some? then turnId else st.turn)
    case _ => st
  }

  function EventOf(path: string, derive: Derive, pricing: Pricing, st: State, row: CodexRow, offset: nat, clock: int): seq<UsageEvent> {
    if !row.TokenCount? || row.last.None? || !BearsUsage(row.last.value) then []
    else
      var ts := TimeOf(row.timestamp, clock);
      if ts.None? then [] else [EventAt(path, derive, pricing, st, row.last.value, offset, ts.value)]
  }

  function StateOf(parse: Parse, lines: seq<Line>): State
    decreases |lines|
  {
    if lines == [] then FRESH
    else
      var row := parse(lines[|lines| - 1].raw);
      if row.None? then StateOf(parse, lines[..|lines| - 1]) else After(StateOf(parse, lines[..|lines| - 1]), row.value)
  }

  function LastEvent(parse: Parse, path: string, derive: Derive, pricing: Pricing, before: seq<Line>, line: Line, clock: nat -> int): seq<UsageEvent> {
    var row := parse(line.raw);
    if row.None? then []
    else EventOf(path, derive, pricing, StateOf(parse, before), row.value, line.offset, clock(line.offset))
  }

  function EventsOf(parse: Parse, path: string, derive: Derive, pricing: Pricing, lines: seq<Line>, clock: nat -> int): seq<UsageEvent>
    decreases |lines|
  {
    if lines == [] then []
    else EventsOf(parse, path, derive, pricing, lines[..|lines| - 1], clock)
         + LastEvent(parse, path, derive, pricing, lines[..|lines| - 1], lines[|lines| - 1], clock)
  }

  lemma EventsMore(parse: Parse, path: string, derive: Derive, pricing: Pricing, a: seq<Line>, line: Line, all: seq<Line>, clock: nat -> int)
    requires all == a + [line]
    ensures EventsOf(parse, path, derive, pricing, all, clock)
            == EventsOf(parse, path, derive, pricing, a, clock) + LastEvent(parse, path, derive, pricing, a, line, clock)
  {
    assert all[..|all| - 1] == a;
  }

  // ---- the events, told from the lines alone -------------------------------

  /** The line holds a token count with a number in it that is not zero, and a time that can be read, if any. */
  predicate Counts(parse: Parse, l: Line) {
    var row := parse(l.raw);
    && row.Some? && row.value.TokenCount? && row.value.timestamp != Unreadable && row.value.last.Some?
    && var t := row.value.last.value;
       NonZero(t.input) || NonZero(t.cachedInput) || NonZero(t.output) || NonZero(t.reasoning)
  }

  /** A turn row with a model name sets the model, one with a turn id the turn. */
  function SaysModel(parse: Parse, l: Line): Option<string> {
    var row := parse(l.raw);
    if row.Some? && row.value.TurnContext? && row.value.model.Some? && row.value.model.value != "" then row.value.model else None
  }

  function SaysTurn(parse: Parse, l: Line): Option<Option<string>> {
    var row := parse(l.raw);
    if row.Some? && row.value.TurnContext? && row.value.turnId.Some? then Some(row.value.turnId) else None
  }

  /** A session row sets the session, even to none, and the directory if it names one. */
  function SaysSession(parse: Parse, l: Line): Option<Option<string>> {
    var row := parse(l.raw);
    if row.Some? && row.value.SessionMeta? then Some(row.value.id) else None
  }

  function SaysDirectory(parse: Parse, l: Line): Option<Option<string>> {
    var row := parse(l.raw);
    if row.Some? && row.value.SessionMeta? && row.value.cwd.Some? then Some(row.value.cwd) else None
  }

  /** The state before line `n`, read off the lines above it. */
  ghost predicate StateSaid(parse: Parse, lines: seq<Line>, n: nat,
                            model: string, turn: Option<string>, session: Option<string>, cwd: Option<string>)
    requires n <= |lines|
  {
    && LastSaid(l => SaysModel(parse, l), lines, n, model, "unknown")
    && LastSaid(l => SaysTurn(parse, l), lines, n, turn, None)
    && LastSaid(l => SaysSession(parse, l), lines, n, session, None)
    && LastSaid(l => SaysDirectory(parse, l), lines, n, cwd, None)
  }

  /** The event has the numbers of the line, field by field. */
  predicate HasNumbers(e: UsageEvent, t: CodexTokens) {
    && e.tokens.input == Count(t.input) && e.tokens.output == Count(t.output) && e.tokens.cacheRead == Count(t.cachedInput)
    && e.tokens.cache5m == 0 && e.tokens.cache1h == 0
    && e.tokens.reasoning == (if Count(t.reasoning) > 0 then Some(Count(t.reasoning)) else None)
  }

  /** The event of line `i`: its own numbers, time and offset, what the lines above it last said, and a price. */
  ghost predicate EventTells(e: UsageEvent, parse: Parse, path: string, derive: Derive, pricing: Pricing,
                             lines: seq<Line>, i: nat, clock: nat -> int)
    requires i < |lines| && Counts(parse, lines[i])
  {
    var row := parse(lines[i].raw).value;
    && HasNumbers(e, row.last.value)
    && e.timestamp == (if row.timestamp.At? then row.timestamp.ms else clock(lines[i].offset))
    && e.sourceFile == path && e.sourceLineOffset == lines[i].offset
    && e.provider == "openai" && e.providerRawTag == None && e.toolCallCount == None && e.latencyMs == None
    && (exists cwd :: StateSaid(parse, lines, i, e.model, e.messageId, e.sessionId, cwd)
                      && e.project == Some(derive(cwd).0) && e.projectRawSlug == Some(derive(cwd).1))
    && e.id == BuildEventId(["openai", if e.sessionId.Some? then e.sessionId.value else path,
                             if e.messageId.Some? then e.messageId.value else "noturn", IntText(e.timestamp), NatText(lines[i].offset)])
    && e.pricing == pricing.version && e.cost == pricing.cost(e.(cost := 0))
  }

  /** One event for each line that counts, in the order of the lines. */
  ghost predicate Tells(events: seq<UsageEvent>, parse: Parse, path: string, derive: Derive, pricing: Pricing,
                        lines: seq<Line>, n: nat, clock: nat -> int)
    requires n <= |lines|
  {
    var places := Where(lines, n, l => Counts(parse, l));
    && |events| == |places|
    && forall k :: 0 <= k < |places| ==> places[k] < |lines| && Counts(parse, lines[places[k]])
                                         && EventTells(events[k], parse, path, derive, pricing, lines, places[k], clock)
  }

  lemma {:induction false} StateIsSaid(parse: Parse, lines: seq<Line>, n: nat)
    requires n <= |lines|
    ensures var st := StateOf(parse, lines[..n]); StateSaid(parse, lines, n, st.model, st.turn, st.session, st.cwd)
    decreases n
  {
    if n == 0 {
    } else {
      assert lines[..n][..n - 1] == lines[..n - 1];
      StateIsSaid(parse, lines, n - 1);
      StateMore(parse, lines, n - 1, StateOf(parse, lines[..n - 1]));
    }
  }

  lemma StateMore(parse: Parse, lines: seq<Line>, n: nat, st: State)
    requires n < |lines| && StateSaid(parse, lines, n, st.model, st.turn, st.session, st.cwd)
    ensures var row := parse(lines[n].raw);
            var next := if row.None? then st else After(st, row.value);
            StateSaid(parse, lines, n + 1, next.model, next.turn, next.session, next.cwd)
  {
    LastSaidMore(l => SaysModel(parse, l), lines, n, st.model, "unknown");
    LastSaidMore(l => SaysTurn(parse, l), lines, n, st.turn, None);
    LastSaidMore(l => SaysSession(parse, l), lines, n, st.session, None);
    LastSaidMore(l => SaysDirectory(parse, l), lines, n, st.cwd, None);
    hide LastSaid;
  }

  lemma CountsIff(parse: Parse, path: string, derive: Derive, pricing: Pricing, before: seq<Line>, l: Line, clock: nat -> int)
    ensures Counts(parse, l) <==> LastEvent(parse, path, derive, pricing, before, l, clock) != []
  {
    hide EventAt, StateOf;
  }

  lemma LineTells(parse: Parse, path: string, derive: Derive, pricing: Pricing, lines: seq<Line>, i: nat, clock: nat -> int)
    requires i < |lines| && Counts(parse, lines[i])
    ensures var es := LastEvent(parse, path, derive, pricing, lines[..i], lines[i], clock);
            |es| == 1 && EventTells(es[0], parse, path, derive, pricing, lines, i, clock)
  {
    StateIsSaid(parse, lines, i);
    CountsIff(parse, path, derive, pricing, lines[..i], lines[i], clock);
    hide StateSaid, StateOf;
  }

  lemma NothingTells(parse: Parse, path: string, derive: Derive, pricing: Pricing, lines: seq<Line>, clock: nat -> int)
    ensures Tells(EventsOf(parse, path, derive, pricing, lines[..0], clock), parse, path, derive, pricing, lines, 0, clock)
  {
    hide EventTells, Counts;
  }

  lemma TellsMore(events: seq<UsageEvent>, more: seq<UsageEvent>, parse: Parse, path: string, derive: Derive, pricing: Pricing,
                  lines: seq<Line>, n: nat, clock: nat -> int)
    requires n < |lines| && Tells(events, parse, path, derive, pricing, lines, n, clock)
    requires if Counts(parse, lines[n])
             then |more| == 1 && EventTells(more[0], parse, path, derive, pricing, lines, n, clock) else more == []
    ensures Tells(events + more, parse, path, derive, pricing, lines, n + 1, clock)
  {
    hide EventTells, Counts;
  }

  /** A parse of the first `n` lines yields just these events. */
  lemma {:induction false} EventsTell(parse: Parse, path: string, derive: Derive, pricing: Pricing, lines: seq<Line>, n: nat, clock: nat -> int)
    requires n <= |lines|
    ensures Tells(EventsOf(parse, path, derive, pricing, lines[..n], clock), parse, path, derive, pricing, lines, n, clock)
    decreases n
  {
    hide Tells, EventTells, LastEvent, EventsOf, Counts;
    if n == 0 {
      NothingTells(parse, path, derive, pricing, lines, clock);
    } else {
      EventsTell(parse, path, derive, pricing, lines, n - 1, clock);
      assert lines[..n] == lines[..n - 1] + [lines[n - 1]];
      EventsMore(parse, path, derive, pricing, lines[..n - 1], lines[n - 1], lines[..n], clock);
      CountsIff(parse, path, derive, pricing, lines[..n - 1], lines[n - 1], clock);
      if Counts(parse, lines[n - 1]) {
        LineTells(parse, path, derive, pricing, lines, n - 1, clock);
      }
      TellsMore(EventsOf(parse, path, derive, pricing, lines[..n - 1], clock),
                LastEvent(parse, path, derive, pricing, lines[..n - 1], lines[n - 1], clock),
                parse, path, derive, pricing, lines, n - 1, clock);
    }
  }

  // ---- the parser ----------------------------------------------------------

  lemma FirstRow(parse: Parse, path: string, derive: Derive, pricing: Pricing, lines: seq<Line>, clock: nat -> int)
    ensures StateOf(parse, lines[..0]) == FRESH && EventsOf(parse, path, derive, pricing, lines[..0], clock) == []
  {}

  lemma NextRow(parse: Parse, path: string, derive: Derive, pricing: Pricing, lines: seq<Line>, i: nat, clock: nat -> int)
    requires i < |lines|
    ensures var st, row := StateOf(parse, lines[..i]), parse(lines[i].raw);
            && StateOf(parse, lines[..i + 1]) == (if row.None? then st else After(st, row.value))
            && EventsOf(parse, path, derive, pricing, lines[..i + 1], clock)
               == EventsOf(parse, path, derive, pricing, lines[..i], clock)
                  + if row.None? then [] else EventOf(path, derive, pricing, st, row.value, lines[i].offset, clock(lines[i].offset))
  {
    hide EventOf, After;
    assert lines[..i + 1][..i] == lines[..i] && lines[..i + 1][i] == lines[i];
  }

  method ParseCodexFile(parse: Parse, f: string, path: string, derive: Derive, pricing: Pricing, fileCache: FileCache, r: Refresh)
    returns (events: seq<UsageEvent>)
    requires r.visible <= |f|
    modifies fileCache
    ensures var cached := old(Lookup(fileCache.rows, path));
            && events == (if Skips(cached, r.stat) then []
                          else EventsOf(parse, path, derive, pricing, Lines(f, 0, r.visible), r.clock))
            && Lookup(fileCache.rows, path) == Remembered(cached, path, r)
            && (!Skips(cached, r.stat) ==>
                  var lines := Lines(f, 0, r.visible); Tells(events, parse, path, derive, pricing, lines, |lines|, r.clock))
    ensures forall p | p != path :: Lookup(fileCache.rows, p) == old(Lookup(fileCache.rows, p))
  {
    hide Tells, StateOf, EventsOf, EventAt, IsLine, Rising, Lines;
    events := [];
    var skip, _ := Consult(fileCache, path, r.stat);
    if skip {
      return;
    }
    var currentModel := "unknown";
    var currentTurnId, sessionId, cwd: Option<string> := None, None, None;
    var lines := ReadLines(f, 0, r.visible);
    FirstRow(parse, path, derive, pricing, lines, r.clock);
    for i := 0 to |lines|
      invariant fileCache.rows == old(fileCache.rows)
      invariant State(currentModel, currentTurnId, sessionId, cwd) == StateOf(parse, lines[..i])
      invariant events == EventsOf(parse, path, derive, pricing, lines[..i], r.clock)
    {
      NextRow(parse, path, derive, pricing, lines, i, r.clock);
      var line := lines[i];
      var parsed := parse(line.raw);
      if parsed.None? {
        continue;
      }
      match parsed.value {
        case SessionMeta(id, dir) =>
          sessionId := id;
          cwd := if dir.Some? then dir else cwd;
        case TurnContext(model, turnId) =>
          if model.Some? && |model.value| > 0 {
            currentModel := model.value;
          }
          if turnId.Some? {
            currentTurnId := turnId;
          }
        case TokenCount(stamp, last) =>
          if last.Some? && BearsUsage(last.value) {
            var timestamp := TimeOf(stamp, r.clock(line.offset));
            if timestamp.Some? {
              var st := State(currentModel, currentTurnId, sessionId, cwd);
              events := events + [EventAt(path, derive, pricing, st, last.value, line.offset, timestamp.value)];
            }
          }
        case OtherRow =>
      }
    }
    assert lines[..|lines|] == lines;
    EventsTell(parse, path, derive, pricing, lines, |lines|, r.clock);
    Remember(fileCache, path, r);
  }
}
