/** Local usage events and their wire form. */
module Redaction {
  import opened Wrappers
  import opened JoinedKeys
  import opened TeamModel

  /** One billable call as the desktop stores it. */
  datatype UsageEvent = UsageEvent(
    id: string, provider: string, providerRawTag: Option<string>, model: string, timestamp: int,
    project: Option<string>, projectRawSlug: Option<string>,
    sessionId: Option<string>, messageId: Option<string>,
    tokens: Tokens, toolCallCount: Option<int>, latencyMs: Option<int>,
    cost: int, pricing: string, sourceFile: string, sourceLineOffset: int)

  datatype Context = Context(teamId: string, userId: string, nodeId: string)

  function SyncEventIdFor(c: Context, localId: string): string {
    Sha256Hex(SyncEventIdInput(c.teamId, c.userId, c.nodeId, localId))
  }

  function OptionText(o: Option<int>): string { if o.Some? then IntText(o.value) else "" }

  /** The invariant parts of an event, in the order in which they are hashed. */
  function HashParts(e: UsageEvent): seq<string> {
    [e.id, e.provider, e.model, IntText(e.timestamp), OrElse(e.project, ""), OrElse(e.sessionId, ""),
     OrElse(e.messageId, ""), IntText(e.tokens.input), IntText(e.tokens.output), IntText(e.tokens.cacheRead),
     IntText(e.tokens.cache5m), IntText(e.tokens.cache1h), OptionText(e.tokens.reasoning), IntText(e.cost), e.pricing]
  }

  /** The invariant part of an event, as text. Null and empty are the same here. */
  function PayloadHashInput(e: UsageEvent): string {
    Join(HashParts(e))
  }

  function ProjectHash(teamId: string, project: Option<string>): Option<string> {
    if project.None? then None else Some(Sha256Hex(Join(["project", teamId, project.value])))
  }

  /** The upload of one event. `full` keeps project, session, message and latency; `redacted` drops them and
      keeps the hash of the project. */
  function RedactEvent(e: UsageEvent, level: Privacy, c: Context): SyncedEvent
    requires level != AggregateOnly
  {
    var full := level == Full;
    SyncedEvent(
      SyncEventIdFor(c, e.id), c.teamId, c.userId, c.nodeId, e.id,
      Sha256Hex(PayloadHashInput(e)), level,
      e.provider, e.providerRawTag, e.model, e.timestamp,
      if full then e.project else None, ProjectHash(c.teamId, e.project),
      if full then e.sessionId else None, if full then e.messageId else None,
      e.tokens, e.toolCallCount, if full then e.latencyMs else None,
      e.cost, e.pricing)
  }

  /** `p` is the upload of event `e`, field by field: names and ids of the sender, the billing facts as they are at
      either level, and of project, session, message and latency nothing below `full` but the project's hash. */
  predicate UploadOf(p: SyncedEvent, e: UsageEvent, level: Privacy, c: Context) {
    && p.teamId == c.teamId && p.userId == c.userId && p.nodeId == c.nodeId
    && p.localEventId == e.id && p.privacy == level
    && p.syncEventId == Sha256Hex(c.teamId + "|" + c.userId + "|" + c.nodeId + "|" + e.id)
    && p.provider == e.provider && p.providerRawTag == e.providerRawTag && p.model == e.model
    && p.timestamp == e.timestamp && p.tokens == e.tokens && p.toolCallCount == e.toolCallCount
    && p.cost == e.cost && p.pricing == e.pricing
    && p.projectHash == (if e.project.None? then None else Some(Sha256Hex("project|" + c.teamId + "|" + e.project.value)))
    && (level == Full ==>
          p.project == e.project && p.sessionId == e.sessionId && p.messageId == e.messageId && p.latencyMs == e.latencyMs)
    && (level == Redacted ==> p.project == None && p.sessionId == None && p.messageId == None && p.latencyMs == None)
  }

  lemma RedactsIntoUpload(e: UsageEvent, level: Privacy, c: Context)
    requires level != AggregateOnly
    ensures UploadOf(RedactEvent(e, level, c), e, level, c)
  {
    FourText(c.teamId, c.userId, c.nodeId, e.id);
    if e.project.Some? {
      ProjectText(c.teamId, e.project.value);
      assert "project|" == "project" + ['|'];
    }
  }

  /** The two events differ at most in project, session, message, latency and what never leaves the machine. */
  predicate AlikeInPublic(e: UsageEvent, f: UsageEvent) {
    && e.id == f.id && e.provider == f.provider && e.providerRawTag == f.providerRawTag && e.model == f.model
    && e.timestamp == f.timestamp && e.tokens == f.tokens && e.toolCallCount == f.toolCallCount
    && e.cost == f.cost && e.pricing == f.pricing
  }

  /** Redacted payloads tell such events apart by the two hashes alone. */
  lemma RedactedHides(e: UsageEvent, f: UsageEvent, c: Context)
    ensures AlikeInPublic(e, f) <==>
            RedactEvent(e, Redacted, c).(payloadHash := "", projectHash := None)
            == RedactEvent(f, Redacted, c).(payloadHash := "", projectHash := None)
  {
    RedactsIntoUpload(e, Redacted, c);
    RedactsIntoUpload(f, Redacted, c);
  }

  /** The event that a receiver reads off a payload, given what stays on the machine. */
  function ReadOff(p: SyncedEvent, rawSlug: Option<string>, sourceFile: string, offset: int): UsageEvent {
    UsageEvent(p.localEventId, p.provider, p.providerRawTag, p.model, p.timestamp, p.project, rawSlug, p.sessionId,
               p.messageId, p.tokens, p.toolCallCount, p.latencyMs, p.cost, p.pricing, sourceFile, offset)
  }

  /** At `full` the whole event arrives. */
  lemma FullIsLossless(e: UsageEvent, c: Context)
    ensures ReadOff(RedactEvent(e, Full, c), e.projectRawSlug, e.sourceFile, e.sourceLineOffset) == e
  {
    RedactsIntoUpload(e, Full, c);
  }

  /** What the payload hash covers: the billing facts and names, a missing project,
      session or message counting as an empty one. */
  predicate SamePayload(e: UsageEvent, f: UsageEvent) {
    && e.id == f.id && e.provider == f.provider && e.model == f.model && e.timestamp == f.timestamp
    && OrElse(e.project, "") == OrElse(f.project, "") && OrElse(e.sessionId, "") == OrElse(f.sessionId, "")
    && OrElse(e.messageId, "") == OrElse(f.messageId, "")
    && e.tokens == f.tokens && e.cost == f.cost && e.pricing == f.pricing
  }

  predicate BarFreeTexts(e: UsageEvent) {
    && NoBar(e.id) && NoBar(e.provider) && NoBar(e.model) && NoBar(OrElse(e.project, ""))
    && NoBar(OrElse(e.sessionId, "")) && NoBar(OrElse(e.messageId, ""))
  }

  /** With bar-free texts two uploads carry one payload hash, at whatever levels and for whatever accounts they
      are sent, if and only if these facts agree. */
  lemma PayloadHashIff(e: UsageEvent, f: UsageEvent, l: Privacy, m: Privacy, c: Context, d: Context)
    requires BarFreeTexts(e) && BarFreeTexts(f) && l != AggregateOnly && m != AggregateOnly
    ensures RedactEvent(e, l, c).payloadHash == RedactEvent(f, m, d).payloadHash <==> SamePayload(e, f)
  {
    if RedactEvent(e, l, c).payloadHash == RedactEvent(f, m, d).payloadHash {
      Sha256Injective(PayloadHashInput(e), PayloadHashInput(f));
      HashInputInjective(e, f);
    }
  }

  lemma HashInputInjective(e: UsageEvent, f: UsageEvent)
    requires BarFreeTexts(e) && BarFreeTexts(f) && PayloadHashInput(e) == PayloadHashInput(f)
    ensures SamePayload(e, f)
  {
    hide Join, IntText;
    var p, q := HashParts(e), HashParts(f);
    JoinInjective(p, q);
    assert forall i :: 0 <= i < 15 ==> p[i] == q[i];
    SameParts(e, f);
  }

  lemma SameParts(e: UsageEvent, f: UsageEvent)
    requires HashParts(e) == HashParts(f)
    ensures SamePayload(e, f)
  {
    hide IntText;
    var p, q := HashParts(e), HashParts(f);
    assert p[0] == q[0] && p[1] == q[1] && p[2] == q[2] && p[3] == q[3] && p[4] == q[4] && p[5] == q[5] && p[6] == q[6];
    assert p[7] == q[7] && p[8] == q[8] && p[9] == q[9] && p[10] == q[10] && p[11] == q[11] && p[12] == q[12];
    assert p[13] == q[13] && p[14] == q[14];
    IntTextInjective(e.timestamp, f.timestamp);
    IntTextInjective(e.tokens.input, f.tokens.input);
    IntTextInjective(e.tokens.output, f.tokens.output);
    IntTextInjective(e.tokens.cacheRead, f.tokens.cacheRead);
    IntTextInjective(e.tokens.cache5m, f.tokens.cache5m);
    IntTextInjective(e.tokens.cache1h, f.tokens.cache1h);
    IntTextInjective(e.cost, f.cost);
    if e.tokens.reasoning.Some? && f.tokens.reasoning.Some? {
      IntTextInjective(e.tokens.reasoning.value, f.tokens.reasoning.value);
    }
  }

  /** Two nodes of one team agree on the hash of a project, and two projects of one team never share one. */
  lemma ProjectHashInjective(teamId: string, a: string, b: string)
    requires ProjectHash(teamId, Some(a)) == ProjectHash(teamId, Some(b))
    ensures a == b
  {
    Sha256Injective(Join(["project", teamId, a]), Join(["project", teamId, b]));
    ProjectText(teamId, a);
    ProjectText(teamId, b);
    var front := "project" + ['|'] + teamId + ['|'];
    assert a == (front + a)[|front|..] && b == (front + b)[|front|..];
  }

  lemma ProjectText(teamId: string, a: string)
    ensures Join(["project", teamId, a]) == "project" + ['|'] + teamId + ['|'] + a
  {
    assert ["project", teamId, a][1..] == [teamId, a] && [teamId, a][1..] == [a];
    assert Join([teamId, a]) == teamId + ['|'] + a;
  }
}
