/** Event prices in whole micro-USD, over real-valued rates. */
module PricingTables {
  import opened Wrappers
  import opened TeamModel
  import opened Redaction

  /** USD per million tokens. */
  datatype ModelPrice = ModelPrice(
    inputPerM: real, outputPerM: real, cacheReadPerM: Option<real>, cacheCreationPerM: Option<real>,
    cacheCreation5mPerM: Option<real>, cacheCreation1hPerM: Option<real>, reasoningPerM: Option<real>,
    contextWindow: Option<int>, provider: Option<string>)

  const FALLBACK := ModelPrice(3.0, 15.0, Some(0.3), Some(3.75), Some(3.75), Some(6.0), None, Some(200000), Some("fallback"))

  const LOCAL_PROVIDERS: set<string> := {"local", "ollama", "lmstudio", "lm_studio", "llama_cpp", "llamacpp"}

  const PROVIDER_PREFIXES := ["anthropic/", "openai/", "google/", "vertex_ai/", "bedrock/"]

  const SUPPLEMENTAL_PREFIXES :=
    ["anthropic.", "global.anthropic.", "us.anthropic.", "eu.anthropic.", "au.anthropic."] + PROVIDER_PREFIXES

  /** `Math.round`: halves go up. */
  function Round(x: real): int { (x + 0.5).Floor }

  function TokensTimesPerMillion(tokens: int, perMillion: real): int {
    if tokens <= 0 || perMillion <= 0.0 then 0 else Round(tokens as real * perMillion)
  }

  /** The rates of the six kinds of tokens of an event, in the order they are charged. */
  function Rates(p: ModelPrice): (rates: seq<real>)
    ensures |rates| == 6
  {
    [p.inputPerM, p.outputPerM, OrElse(p.cacheReadPerM, 0.0),
     OrElse(p.cacheCreation5mPerM, OrElse(p.cacheCreationPerM, 0.0)),
     OrElse(p.cacheCreation1hPerM, OrElse(p.cacheCreationPerM, 0.0)),
     OrElse(p.reasoningPerM, p.outputPerM)]
  }

  function Counts(t: Tokens): (counts: seq<int>)
    ensures |counts| == 6
  {
    [t.input, t.output, t.cacheRead, t.cache5m, t.cache1h, OrElse(t.reasoning, 0)]
  }

  /** What the tokens cost without rounding; negative counts and rates cost nothing. */
  function Exact(tokens: int, perMillion: real): real {
    if tokens <= 0 || perMillion <= 0.0 then 0.0 else tokens as real * perMillion
  }

  function ExactOf(counts: seq<int>, rates: seq<real>): real
    requires |counts| == |rates|
    decreases |counts|
  {
    if counts == [] then 0.0
    else ExactOf(counts[..|counts| - 1], rates[..|rates| - 1]) + Exact(counts[|counts| - 1], rates[|rates| - 1])
  }

  function CostOf(counts: seq<int>, rates: seq<real>): int
    requires |counts| == |rates|
    decreases |counts|
  {
    if counts == [] then 0
    else CostOf(counts[..|counts| - 1], rates[..|rates| - 1]) + TokensTimesPerMillion(counts[|counts| - 1], rates[|rates| - 1])
  }

  // ---- supplemental prices -------------------------------------------------

  /** The first value that is there. */
  function FirstSome<T>(os: seq<Option<T>>): Option<T>
    decreases |os|
  {
    if os == [] then None
    else if FirstSome(os[..|os| - 1]).Some? then FirstSome(os[..|os| - 1])
    else os[|os| - 1]
  }

  function MergeMissingPrice(base: ModelPrice, supplement: ModelPrice): ModelPrice {
    ModelPrice(base.inputPerM, base.outputPerM,
               if base.cacheReadPerM.Some? then base.cacheReadPerM else supplement.cacheReadPerM,
               if base.cacheCreationPerM.Some? then base.cacheCreationPerM else supplement.cacheCreationPerM,
               if base.cacheCreation5mPerM.Some? then base.cacheCreation5mPerM else supplement.cacheCreation5mPerM,
               if base.cacheCreation1hPerM.Some? then base.cacheCreation1hPerM else supplement.cacheCreation1hPerM,
               if base.reasoningPerM.Some? then base.reasoningPerM else supplement.reasoningPerM,
               if base.contextWindow.Some? then base.contextWindow else supplement.contextWindow,
               if base.provider.Some? then base.provider else supplement.provider)
  }

  /** The entry itself, then those under the prefixed names that exist, in prefix order. */
  function Sources(entries: map<string, ModelPrice>, base: ModelPrice, model: string, prefixes: seq<string>): (ps: seq<ModelPrice>)
    ensures |ps| > 0 && ps[0] == base
    decreases |prefixes|
  {
    if prefixes == [] then [base]
    else
      var key := prefixes[|prefixes| - 1] + model;
      Sources(entries, base, model, prefixes[..|prefixes| - 1]) + if key in entries then [entries[key]] else []
  }

  function Field<T>(ps: seq<ModelPrice>, get: ModelPrice -> Option<T>): (os: seq<Option<T>>)
    ensures |os| == |ps|
  {
    seq(|ps|, i requires 0 <= i < |ps| => get(ps[i]))
  }

  lemma FieldMore<T>(ps: seq<ModelPrice>, p: ModelPrice, get: ModelPrice -> Option<T>)
    ensures FirstSome(Field(ps + [p], get)) == if FirstSome(Field(ps, get)).Some? then FirstSome(Field(ps, get)) else get(p)
  {
    assert Field(ps + [p], get)[..|ps|] == Field(ps, get);
  }

  /** Every nullable field is the first value among the sources, the two plain rates are the base's. */
  ghost predicate FirstOf(out: ModelPrice, ps: seq<ModelPrice>)
    requires |ps| > 0
  {
    && out.inputPerM == ps[0].inputPerM && out.outputPerM == ps[0].outputPerM
    && out.cacheReadPerM == FirstSome(Field(ps, (p: ModelPrice) => p.cacheReadPerM))
    && out.cacheCreationPerM == FirstSome(Field(ps, (p: ModelPrice) => p.cacheCreationPerM))
    && out.cacheCreation5mPerM == FirstSome(Field(ps, (p: ModelPrice) => p.cacheCreation5mPerM))
    && out.cacheCreation1hPerM == FirstSome(Field(ps, (p: ModelPrice) => p.cacheCreation1hPerM))
    && out.reasoningPerM == FirstSome(Field(ps, (p: ModelPrice) => p.reasoningPerM))
    && out.contextWindow == FirstSome(Field(ps, (p: ModelPrice) => p.contextWindow))
    && out.provider == FirstSome(Field(ps, (p: ModelPrice) => p.provider))
  }

  lemma BaseAlone(base: ModelPrice)
    ensures FirstOf(base, [base])
  {
    FieldMore([], base, (p: ModelPrice) => p.cacheReadPerM);
    FieldMore([], base, (p: ModelPrice) => p.cacheCreationPerM);
    FieldMore([], base, (p: ModelPrice) => p.cacheCreation5mPerM);
    FieldMore([], base, (p: ModelPrice) => p.cacheCreation1hPerM);
    FieldMore([], base, (p: ModelPrice) => p.reasoningPerM);
    FieldMore([], base, (p: ModelPrice) => p.contextWindow);
    FieldMore([], base, (p: ModelPrice) => p.provider);
    assert [] + [base] == [base];
  }

  lemma OneMoreSource(out: ModelPrice, ps: seq<ModelPrice>, p: ModelPrice)
    requires |ps| > 0 && FirstOf(out, ps)
    ensures FirstOf(MergeMissingPrice(out, p), ps + [p])
  {
    FieldMore(ps, p, (p: ModelPrice) => p.cacheReadPerM);
    FieldMore(ps, p, (p: ModelPrice) => p.cacheCreationPerM);
    FieldMore(ps, p, (p: ModelPrice) => p.cacheCreation5mPerM);
    FieldMore(ps, p, (p: ModelPrice) => p.cacheCreation1hPerM);
    FieldMore(ps, p, (p: ModelPrice) => p.reasoningPerM);
    FieldMore(ps, p, (p: ModelPrice) => p.contextWindow);
    FieldMore(ps, p, (p: ModelPrice) => p.provider);
  }

  /** The entry under the first provider prefix that has one. */
  function PrefixedHit(entries: map<string, ModelPrice>, model: string, prefixes: seq<string>): Option<ModelPrice>
    decreases |prefixes|
  {
    if prefixes == [] then None
    else
      var earlier := PrefixedHit(entries, model, prefixes[..|prefixes| - 1]);
      var key := prefixes[|prefixes| - 1] + model;
      if earlier.Some? then earlier else if key in entries then Some(entries[key]) else None
  }

  // ---- the sweeps ----------------------------------------------------------

  const KEYWORDS :=
    ["opus", "sonnet", "haiku", "gpt", "gemini", "o1", "o3", "o4", "kimi", "qwen", "deepseek", "glm", "grok",
     "mistral", "mixtral", "llama"]

  predicate Contains(s: string, part: string) { exists i :: 0 <= i <= |s| && part <= s[i..] }

  /** One name is a prefix of the other. */
  predicate Overlaps(lowered: string, key: string) { key <= lowered || lowered <= key }

  predicate Speaks(entries: map<string, ModelPrice>, word: string, key: string) {
    key in entries && Contains(key, word) && entries[key].outputPerM > 0.0
  }

  /** The first of the names that will do. */
  function FirstIn(keys: seq<string>, ok: string -> bool): (k: Option<string>)
    ensures k.None? <==> forall i :: 0 <= i < |keys| ==> !ok(keys[i])
    ensures k.Some? ==> exists i :: 0 <= i < |keys| && keys[i] == k.value && ok(k.value) && forall j :: 0 <= j < i ==> !ok(keys[j])
    decreases |keys|
  {
    if keys == [] then None
    else
      var earlier, last := FirstIn(keys[..|keys| - 1], ok), keys[|keys| - 1];
      if earlier.Some? then earlier else if ok(last) then Some(last) else None
  }

  /** The first priced entry with the first keyword of the model that has one. */
  function KeywordHit(entries: map<string, ModelPrice>, keys: seq<string>, lowered: string, words: seq<string>): (k: Option<string>)
    ensures k.None? <==> forall w <- words | Contains(lowered, w) :: forall i :: 0 <= i < |keys| ==> !Speaks(entries, w, keys[i])
    ensures k.Some? ==> k.value in keys && exists w :: w in words && Contains(lowered, w) && Speaks(entries, w, k.value)
    decreases |words|
  {
    if words == [] then None
    else
      var earlier, word := KeywordHit(entries, keys, lowered, words[..|words| - 1]), words[|words| - 1];
      if earlier.Some? then earlier
      else if Contains(lowered, word) then FirstIn(keys, (k: string) => Speaks(entries, word, k))
      else None
  }

  // ---- what a look-up finds, told from the table ---------------------------

  /** The value of a nullable field after supplementing: the base's own, else that of the first prefixed entry, in the
      order of the prefixes, that has one. */
  ghost predicate Supplied<T(!new)>(v: Option<T>, entries: map<string, ModelPrice>, base: ModelPrice, model: string,
                                    prefixes: seq<string>, get: ModelPrice -> Option<T>)
  {
    if get(base).Some? then v == get(base)
    else || (v == None && forall i :: 0 <= i < |prefixes| ==> !HasValue(entries, prefixes[i] + model, get))
         || (exists i :: 0 <= i < |prefixes| && FirstValue(v, entries, model, prefixes, i, get))
  }

  predicate HasValue<T>(entries: map<string, ModelPrice>, key: string, get: ModelPrice -> Option<T>) {
    key in entries && get(entries[key]).Some?
  }

  ghost predicate FirstValue<T>(v: Option<T>, entries: map<string, ModelPrice>, model: string, prefixes: seq<string>, i: nat,
                                get: ModelPrice -> Option<T>)
    requires i < |prefixes|
  {
    && HasValue(entries, prefixes[i] + model, get) && v == get(entries[prefixes[i] + model])
    && forall j :: 0 <= j < i ==> !HasValue(entries, prefixes[j] + model, get)
  }

  lemma {:induction false} SourcesSupply<T(!new)>(entries: map<string, ModelPrice>, base: ModelPrice, model: string,
                                                  prefixes: seq<string>, get: ModelPrice -> Option<T>)
    ensures Supplied(FirstSome(Field(Sources(entries, base, model, prefixes), get)), entries, base, model, prefixes, get)
    decreases |prefixes|
  {
    if prefixes == [] {
      FieldMore([], base, get);
      assert [] + [base] == [base];
    } else {
      var before, n := prefixes[..|prefixes| - 1], |prefixes| - 1;
      var ps := Sources(entries, base, model, before);
      SourcesSupply(entries, base, model, before, get);
      if prefixes[n] + model in entries {
        FieldMore(ps, entries[prefixes[n] + model], get);
      } else {
        assert ps + [] == ps;
      }
      SuppliedMore(FirstSome(Field(ps, get)), entries, base, model, before, prefixes[n], prefixes, get);
    }
  }

  lemma SuppliedMore<T(!new)>(v: Option<T>, entries: map<string, ModelPrice>, base: ModelPrice, model: string,
                              before: seq<string>, prefix: string, prefixes: seq<string>, get: ModelPrice -> Option<T>)
    requires prefixes == before + [prefix] && Supplied(v, entries, base, model, before, get)
    ensures var key := prefix + model;
            Supplied(if v.None? && key in entries then get(entries[key]) else v, entries, base, model, prefixes, get)
  {
    var n := |before|;
    assert prefixes[n] == prefix && forall i :: 0 <= i < n ==> prefixes[i] == before[i];
    if get(base).None? {
      if v.Some? {
        var i :| 0 <= i < n && FirstValue(v, entries, model, before, i, get);
        assert FirstValue(v, entries, model, prefixes, i, get);
      } else {
        assert forall i :: 0 <= i < n ==> !HasValue(entries, before[i] + model, get);
        if HasValue(entries, prefix + model, get) {
          assert FirstValue(get(entries[prefix + model]), entries, model, prefixes, n, get);
        }
      }
    }
  }

  /** Field by field, the entry supplemented under the model's other names. */
  ghost predicate IsSupplemented(out: ModelPrice, entries: map<string, ModelPrice>, base: ModelPrice, model: string, prefixes: seq<string>) {
    && out.inputPerM == base.inputPerM && out.outputPerM == base.outputPerM
    && Supplied(out.cacheReadPerM, entries, base, model, prefixes, (p: ModelPrice) => p.cacheReadPerM)
    && Supplied(out.cacheCreationPerM, entries, base, model, prefixes, (p: ModelPrice) => p.cacheCreationPerM)
    && Supplied(out.cacheCreation5mPerM, entries, base, model, prefixes, (p: ModelPrice) => p.cacheCreation5mPerM)
    && Supplied(out.cacheCreation1hPerM, entries, base, model, prefixes, (p: ModelPrice) => p.cacheCreation1hPerM)
    && Supplied(out.reasoningPerM, entries, base, model, prefixes, (p: ModelPrice) => p.reasoningPerM)
    && Supplied(out.contextWindow, entries, base, model, prefixes, (p: ModelPrice) => p.contextWindow)
    && Supplied(out.provider, entries, base, model, prefixes, (p: ModelPrice) => p.provider)
  }

  lemma SupplementedIs(out: ModelPrice, entries: map<string, ModelPrice>, base: ModelPrice, model: string, prefixes: seq<string>)
    requires FirstOf(out, Sources(entries, base, model, prefixes))
    ensures IsSupplemented(out, entries, base, model, prefixes)
  {
    hide Supplied, Sources, FirstSome, Field;
    SourcesSupply(entries, base, model, prefixes, (p: ModelPrice) => p.cacheReadPerM);
    SourcesSupply(entries, base, model, prefixes, (p: ModelPrice) => p.cacheCreationPerM);
    SourcesSupply(entries, base, model, prefixes, (p: ModelPrice) => p.cacheCreation5mPerM);
    SourcesSupply(entries, base, model, prefixes, (p: ModelPrice) => p.cacheCreation1hPerM);
    SourcesSupply(entries, base, model, prefixes, (p: ModelPrice) => p.reasoningPerM);
    SourcesSupply(entries, base, model, prefixes, (p: ModelPrice) => p.contextWindow);
    SourcesSupply(entries, base, model, prefixes, (p: ModelPrice) => p.provider);
  }

  /** `part` stands somewhere in `s`. */
  ghost predicate Mentions(s: string, part: string) { exists before, after :: s == before + part + after }

  lemma MentionsIff(s: string, part: string)
    ensures Mentions(s, part) <==> Contains(s, part)
  {
    if Mentions(s, part) {
      var before, after :| s == before + part + after;
      assert s[|before|..] == part + after;
    }
    if Contains(s, part) {
      var i :| 0 <= i <= |s| && part <= s[i..];
      assert s == s[..i] + part + s[i..][|part|..];
    }
  }

  predicate Prefixing(a: string, b: string) { a <= b || b <= a }

  /** Place `i` holds the first name that is a prefix of the model's or has it as a prefix. */
  ghost predicate FirstOverlap(keys: seq<string>, lowered: string, i: int) {
    0 <= i < |keys| && Prefixing(keys[i], lowered) && forall j :: 0 <= j < i ==> !Prefixing(keys[j], lowered)
  }

  /** The entry mentions the word and has an output price. */
  ghost predicate Offers(entries: map<string, ModelPrice>, key: string, word: string) {
    key in entries && Mentions(key, word) && entries[key].outputPerM > 0.0
  }

  /** Word `w` is the first one in the model's name that any entry offers, and place `i` the first to offer it. */
  ghost predicate FirstKeyword(entries: map<string, ModelPrice>, keys: seq<string>, lowered: string, words: seq<string>, w: int, i: int) {
    && 0 <= w < |words| && 0 <= i < |keys| && Mentions(lowered, words[w]) && Offers(entries, keys[i], words[w])
    && NoOffer(entries, keys, i, words[w])
    && (forall v :: 0 <= v < w && Mentions(lowered, words[v]) ==> NoOffer(entries, keys, |keys|, words[v]))
  }

  /** None of the first `n` entries offers the word. */
  ghost predicate NoOffer(entries: map<string, ModelPrice>, keys: seq<string>, n: nat, word: string)
    requires n <= |keys|
  {
    forall j :: 0 <= j < n ==> !Offers(entries, keys[j], word)
  }

  ghost predicate Finds(entries: map<string, ModelPrice>, keys: seq<string>, lowered: string, p: Option<ModelPrice>) {
    if lowered in entries then p.Some? && IsSupplemented(p.value, entries, entries[lowered], lowered, SUPPLEMENTAL_PREFIXES)
    else if "anthropic/" + lowered in entries then p == Some(entries["anthropic/" + lowered])
    else if "openai/" + lowered in entries then p == Some(entries["openai/" + lowered])
    else if "google/" + lowered in entries then p == Some(entries["google/" + lowered])
    else if "vertex_ai/" + lowered in entries then p == Some(entries["vertex_ai/" + lowered])
    else if "bedrock/" + lowered in entries then p == Some(entries["bedrock/" + lowered])
    else
      || (exists i :: FirstOverlap(keys, lowered, i) && keys[i] in entries && p == Some(entries[keys[i]]))
      || ((forall i :: !FirstOverlap(keys, lowered, i)) && FindsByKeyword(entries, keys, lowered, p))
  }

  ghost predicate FindsByKeyword(entries: map<string, ModelPrice>, keys: seq<string>, lowered: string, p: Option<ModelPrice>) {
    || (exists w, i :: FirstKeyword(entries, keys, lowered, KEYWORDS, w, i) && p == Some(entries[keys[i]]))
    || (p == None && forall w, i :: !FirstKeyword(entries, keys, lowered, KEYWORDS, w, i))
  }

  lemma PrefixedIs(entries: map<string, ModelPrice>, lowered: string)
    ensures PrefixedHit(entries, lowered, PROVIDER_PREFIXES)
            == if "anthropic/" + lowered in entries then Some(entries["anthropic/" + lowered])
               else if "openai/" + lowered in entries then Some(entries["openai/" + lowered])
               else if "google/" + lowered in entries then Some(entries["google/" + lowered])
               else if "vertex_ai/" + lowered in entries then Some(entries["vertex_ai/" + lowered])
               else if "bedrock/" + lowered in entries then Some(entries["bedrock/" + lowered]) else None
  {
    var p := PROVIDER_PREFIXES;
    assert p[..5] == p && p[..5][..4] == p[..4] && p[..4][..3] == p[..3] && p[..3][..2] == p[..2] && p[..2][..1] == p[..1] && p[..1][..0] == [];
    PrefixedMore(entries, lowered, p, 0);
    PrefixedMore(entries, lowered, p, 1);
    PrefixedMore(entries, lowered, p, 2);
    PrefixedMore(entries, lowered, p, 3);
    PrefixedMore(entries, lowered, p, 4);
  }

  lemma PrefixedMore(entries: map<string, ModelPrice>, lowered: string, prefixes: seq<string>, k: nat)
    requires k < |prefixes|
    ensures var earlier := PrefixedHit(entries, lowered, prefixes[..k]);
            PrefixedHit(entries, lowered, prefixes[..k + 1])
            == if earlier.Some? then earlier
               else if prefixes[k] + lowered in entries then Some(entries[prefixes[k] + lowered]) else None
  {
    assert prefixes[..k + 1][..k] == prefixes[..k];
  }

  lemma OverlapIs(keys: seq<string>, lowered: string, k: Option<string>)
    requires k == FirstIn(keys, (x: string) => Overlaps(lowered, x))
    ensures k.Some? ==> exists i :: FirstOverlap(keys, lowered, i) && keys[i] == k.value
    ensures k.None? ==> forall i :: !FirstOverlap(keys, lowered, i)
  {
    if k.Some? {
      var i :| 0 <= i < |keys| && keys[i] == k.value && Overlaps(lowered, k.value) && forall j :: 0 <= j < i ==> !Overlaps(lowered, keys[j]);
      assert FirstOverlap(keys, lowered, i);
    }
  }

  lemma OffersIff(entries: map<string, ModelPrice>, key: string, word: string)
    ensures Offers(entries, key, word) <==> Speaks(entries, word, key)
  {
    MentionsIff(key, word);
    hide Mentions, Contains;
  }

  lemma NoOfferIff(entries: map<string, ModelPrice>, keys: seq<string>, n: nat, word: string)
    requires n <= |keys|
    ensures NoOffer(entries, keys, n, word) <==> forall j :: 0 <= j < n ==> !Speaks(entries, word, keys[j])
  {
    forall j | 0 <= j < n ensures Offers(entries, keys[j], word) <==> Speaks(entries, word, keys[j]) {
      OffersIff(entries, keys[j], word);
    }
    hide Offers, Speaks;
  }

  lemma NoKeyword(entries: map<string, ModelPrice>, keys: seq<string>, lowered: string, words: seq<string>, w: int)
    requires KeywordHit(entries, keys, lowered, words) == None && 0 <= w < |words| && Mentions(lowered, words[w])
    ensures NoOffer(entries, keys, |keys|, words[w])
  {
    MentionsIff(lowered, words[w]);
    NoOfferIff(entries, keys, |keys|, words[w]);
    assert words[w] in words;
    hide Mentions, Contains, NoOffer, Speaks;
  }

  lemma {:induction false} KeywordIs(entries: map<string, ModelPrice>, keys: seq<string>, lowered: string, words: seq<string>)
    returns (w: nat, i: nat)
    requires KeywordHit(entries, keys, lowered, words).Some?
    ensures FirstKeyword(entries, keys, lowered, words, w, i) && keys[i] == KeywordHit(entries, keys, lowered, words).value
    decreases |words|
  {
    var n := |words| - 1;
    var before, k := words[..n], KeywordHit(entries, keys, lowered, words);
    var earlier := KeywordHit(entries, keys, lowered, before);
    if earlier.Some? {
      w, i := KeywordIs(entries, keys, lowered, before);
      FirstKeywordStays(entries, keys, lowered, before, words, w, i);
    } else {
      var j: nat :| j < |keys| && keys[j] == k.value && Speaks(entries, words[n], k.value)
                    && forall x :: 0 <= x < j ==> !Speaks(entries, words[n], keys[x]);
      w, i := n, j;
      MentionsIff(lowered, words[n]);
      OffersIff(entries, keys[j], words[n]);
      NoOfferIff(entries, keys, j, words[n]);
      hide Mentions, Contains, Offers, Speaks, NoOffer, KeywordHit;
      forall v | 0 <= v < n && Mentions(lowered, words[v]) ensures NoOffer(entries, keys, |keys|, words[v]) {
        NoKeyword(entries, keys, lowered, before, v);
      }
    }
  }

  lemma FirstKeywordStays(entries: map<string, ModelPrice>, keys: seq<string>, lowered: string,
                          before: seq<string>, words: seq<string>, w: int, i: int)
    requires before <= words && FirstKeyword(entries, keys, lowered, before, w, i)
    ensures FirstKeyword(entries, keys, lowered, words, w, i)
  {
    hide Mentions, Offers, NoOffer;
    assert forall v :: 0 <= v < |before| ==> words[v] == before[v];
  }

  /** A price table; `keys` are its names in the order in which they were filed. */
  class PricingTable {
    const entries: map<string, ModelPrice>
    const keys: seq<string>
    const snapshotVersion: string

    constructor (snapshotVersion: string, entries: map<string, ModelPrice>, keys: seq<string>)
      requires forall k :: k in keys <==> k in entries
      ensures this.snapshotVersion == snapshotVersion && this.entries == entries && this.keys == keys
      ensures Valid()
    {
      this.snapshotVersion, this.entries, this.keys := snapshotVersion, entries, keys;
    }

    ghost predicate Valid() { forall k :: k in keys <==> k in entries }

    method WithSupplementalAliases(model: string, base: ModelPrice) returns (out: ModelPrice)
      ensures FirstOf(out, Sources(entries, base, model, SUPPLEMENTAL_PREFIXES))
      ensures IsSupplemented(out, entries, base, model, SUPPLEMENTAL_PREFIXES)
    {
      hide FirstOf, IsSupplemented;
      out := base;
      BaseAlone(base);
      var prefixes := SUPPLEMENTAL_PREFIXES;
      for i := 0 to |prefixes|
        invariant FirstOf(out, Sources(entries, base, model, prefixes[..i]))
      {
        assert prefixes[..i + 1][..i] == prefixes[..i];
        var key := prefixes[i] + model;
        ghost var before := Sources(entries, base, model, prefixes[..i]);
        if key in entries {
          OneMoreSource(out, before, entries[key]);
          out := MergeMissingPrice(out, entries[key]);
        } else {
          assert before + [] == before;
        }
      }
      assert prefixes[..|prefixes|] == prefixes;
      SupplementedIs(out, entries, base, model, prefixes);
    }

    /** The look-up by lower-case name: exact, prefixed, by overlap of names, by keyword, in this order. */
    method Price(lowered: string) returns (p: Option<ModelPrice>)
      requires Valid()
      ensures Finds(entries, keys, lowered, p)
    {
      hide IsSupplemented, FirstOverlap, FindsByKeyword, FirstIn, KeywordHit, PrefixedHit;
      if lowered in entries {
        var merged := WithSupplementalAliases(lowered, entries[lowered]);
        return Some(merged);
      }
      var hit := PriceByPrefix(lowered);
      PrefixedIs(entries, lowered);
      if hit.Some? {
        return hit;
      }
      var overlap := Sweep((k: string) => Overlaps(lowered, k));
      OverlapIs(keys, lowered, overlap);
      if overlap.Some? {
        return Some(entries[overlap.value]);
      }
      var keyword := PriceByKeyword(lowered);
      KeywordFinds(entries, keys, lowered, keyword);
      return if keyword.Some? then Some(entries[keyword.value]) else None;
    }

    method PriceByPrefix(lowered: string) returns (hit: Option<ModelPrice>)
      ensures hit == PrefixedHit(entries, lowered, PROVIDER_PREFIXES)
    {
      var prefixes := PROVIDER_PREFIXES;
      for i := 0 to |prefixes|
        invariant PrefixedHit(entries, lowered, prefixes[..i]) == None
      {
        assert prefixes[..i + 1][..i] == prefixes[..i];
        if prefixes[i] + lowered in entries {
          HitStays(entries, lowered, prefixes, i + 1);
          return Some(entries[prefixes[i] + lowered]);
        }
      }
      assert prefixes[..|prefixes|] == prefixes;
      return None;
    }

    /** The loop over the entries that stops at the first one that will do. */
    method Sweep(ok: string -> bool) returns (k: Option<string>)
      ensures k == FirstIn(keys, ok)
      ensures k.Some? ==> k.value in keys
    {
      for i := 0 to |keys|
        invariant FirstIn(keys[..i], ok) == None
      {
        assert keys[..i + 1][..i] == keys[..i];
        if ok(keys[i]) {
          FirstStays(keys, ok, i + 1);
          return Some(keys[i]);
        }
      }
      assert keys[..|keys|] == keys;
      return None;
    }

    method PriceByKeyword(lowered: string) returns (k: Option<string>)
      ensures k == KeywordHit(entries, keys, lowered, KEYWORDS)
    {
      hide KeywordHit, Speaks, FirstIn;
      KeywordStart(entries, keys, lowered);
      var words := KEYWORDS;
      for i := 0 to |words|
        invariant KeywordHit(entries, keys, lowered, words[..i]) == None
      {
        KeywordStep(entries, keys, lowered, words, i);
        if !Contains(lowered, words[i]) {
          continue;
        }
        k := Sweep((key: string) => Speaks(entries, words[i], key));
        if k.Some? {
          KeywordStays(entries, keys, lowered, words, i + 1);
          return;
        }
      }
      assert words[..|words|] == words;
      return None;
    }
  }

  lemma KeywordFinds(entries: map<string, ModelPrice>, keys: seq<string>, lowered: string, keyword: Option<string>)
    requires keyword == KeywordHit(entries, keys, lowered, KEYWORDS) && (keyword.Some? ==> keyword.value in entries)
    ensures FindsByKeyword(entries, keys, lowered, if keyword.Some? then Some(entries[keyword.value]) else None)
  {
    hide KeywordHit, Offers, Mentions;
    if keyword.Some? {
      var w, i := KeywordIs(entries, keys, lowered, KEYWORDS);
    } else {
      forall w, i ensures !FirstKeyword(entries, keys, lowered, KEYWORDS, w, i) {
        if FirstKeyword(entries, keys, lowered, KEYWORDS, w, i) {
          NoKeyword(entries, keys, lowered, KEYWORDS, w);
        }
      }
    }
  }

  lemma {:induction false} FirstStays(keys: seq<string>, ok: string -> bool, k: nat)
    requires k <= |keys| && FirstIn(keys[..k], ok).Some?
    ensures FirstIn(keys, ok) == FirstIn(keys[..k], ok)
    decreases |keys|
  {
    if k == |keys| {
      assert keys[..k] == keys;
    } else {
      assert keys[..|keys| - 1][..k] == keys[..k];
      FirstStays(keys[..|keys| - 1], ok, k);
    }
  }

  lemma KeywordStart(entries: map<string, ModelPrice>, keys: seq<string>, lowered: string)
    ensures KeywordHit(entries, keys, lowered, []) == None
  {}

  lemma KeywordStep(entries: map<string, ModelPrice>, keys: seq<string>, lowered: string, words: seq<string>, i: nat)
    requires i < |words| && KeywordHit(entries, keys, lowered, words[..i]) == None
    ensures KeywordHit(entries, keys, lowered, words[..i + 1])
            == if Contains(lowered, words[i]) then FirstIn(keys, (k: string) => Speaks(entries, words[i], k)) else None
  {
    assert words[..i + 1][..i] == words[..i];
  }

  lemma {:induction false} KeywordStays(entries: map<string, ModelPrice>, keys: seq<string>, lowered: string, words: seq<string>, k: nat)
    requires k <= |words| && KeywordHit(entries, keys, lowered, words[..k]).Some?
    ensures KeywordHit(entries, keys, lowered, words) == KeywordHit(entries, keys, lowered, words[..k])
    decreases |words|
  {
    if k == |words| {
      assert words[..k] == words;
    } else {
      assert words[..|words| - 1][..k] == words[..k];
      KeywordStays(entries, keys, lowered, words[..|words| - 1], k);
    }
  }

  lemma {:induction false} HitStays(entries: map<string, ModelPrice>, model: string, prefixes: seq<string>, k: nat)
    requires k <= |prefixes| && PrefixedHit(entries, model, prefixes[..k]).Some?
    ensures PrefixedHit(entries, model, prefixes) == PrefixedHit(entries, model, prefixes[..k])
    decreases |prefixes|
  {
    if k < |prefixes| {
      assert prefixes[..|prefixes| - 1][..k] == prefixes[..k];
      HitStays(entries, model, prefixes[..|prefixes| - 1], k);
    } else {
      assert prefixes[..k] == prefixes;
    }
  }

  // ---- the cost of an event ------------------------------------------------

  /** The charge for one kind of tokens in whole micro-USD: the product rounded, halves up; nothing without both a
      positive count and a positive rate. */
  predicate IsCharge(c: int, tokens: int, perMillion: real) {
    if tokens > 0 && perMillion > 0.0
    then c as real - 0.5 <= tokens as real * perMillion < c as real + 0.5
    else c == 0
  }

  /** The cost of an event is the sum of six charges, each at the rate of its kind. */
  ghost predicate Charges(total: int, t: Tokens, p: ModelPrice) {
    exists input: int, output: int, read: int, five: int, hour: int, thought: int ::
      && IsCharge(input, t.input, p.inputPerM)
      && IsCharge(output, t.output, p.outputPerM)
      && IsCharge(read, t.cacheRead, OrElse(p.cacheReadPerM, 0.0))
      && IsCharge(five, t.cache5m, OrElse(p.cacheCreation5mPerM, OrElse(p.cacheCreationPerM, 0.0)))
      && IsCharge(hour, t.cache1h, OrElse(p.cacheCreation1hPerM, OrElse(p.cacheCreationPerM, 0.0)))
      && IsCharge(thought, OrElse(t.reasoning, 0), OrElse(p.reasoningPerM, p.outputPerM))
      && total == input + output + read + five + hour + thought
  }

  lemma TimesIsCharge(tokens: int, perMillion: real)
    ensures IsCharge(TokensTimesPerMillion(tokens, perMillion), tokens, perMillion)
  {
    RoundIsClose(tokens as real * perMillion);
  }

  lemma CostCharges(t: Tokens, p: ModelPrice)
    ensures Charges(CostOf(Counts(t), Rates(p)), t, p)
  {
    var c, r := Counts(t), Rates(p);
    CostMore(c, r, 5);
    CostMore(c, r, 4);
    CostMore(c, r, 3);
    CostMore(c, r, 2);
    CostMore(c, r, 1);
    CostMore(c, r, 0);
    assert c[..6] == c && r[..6] == r;
    forall i | 0 <= i < 6 ensures IsCharge(TokensTimesPerMillion(c[i], r[i]), c[i], r[i]) {
      TimesIsCharge(c[i], r[i]);
    }
    hide IsCharge, TokensTimesPerMillion;
    assert forall i :: 0 <= i < 6 ==> IsCharge(TokensTimesPerMillion(c[i], r[i]), c[i], r[i]);
    assert IsCharge(TokensTimesPerMillion(c[0], r[0]), c[0], r[0]) && IsCharge(TokensTimesPerMillion(c[1], r[1]), c[1], r[1]);
    assert IsCharge(TokensTimesPerMillion(c[2], r[2]), c[2], r[2]) && IsCharge(TokensTimesPerMillion(c[3], r[3]), c[3], r[3]);
    assert IsCharge(TokensTimesPerMillion(c[4], r[4]), c[4], r[4]) && IsCharge(TokensTimesPerMillion(c[5], r[5]), c[5], r[5]);
  }

  lemma CostMore(c: seq<int>, r: seq<real>, k: nat)
    requires |c| == |r| && k < |c|
    ensures CostOf(c[..k + 1], r[..k + 1]) == CostOf(c[..k], r[..k]) + TokensTimesPerMillion(c[k], r[k])
  {
    assert c[..k + 1][..k] == c[..k] && r[..k + 1][..k] == r[..k];
  }

  /** `lowered` is the provider in lower case, `price` what the look-up of the model finds. A model without a price is
      charged 3 USD for a million input tokens, 15 for output and reasoning, 0.30 for cache reads, 3.75 and 6 for
      the two kinds of cache writes. */
  method Cost(lowered: string, t: Tokens, price: Option<ModelPrice>) returns (total: int)
    ensures total == if lowered in LOCAL_PROVIDERS then 0 else CostOf(Counts(t), Rates(OrElse(price, FALLBACK)))
    ensures lowered in {"local", "ollama", "lmstudio", "lm_studio", "llama_cpp", "llamacpp"} ==> total == 0
    ensures lowered !in {"local", "ollama", "lmstudio", "lm_studio", "llama_cpp", "llamacpp"} ==>
              Charges(total, t, if price.Some? then price.value
                                else ModelPrice(3.0, 15.0, Some(0.3), Some(3.75), Some(3.75), Some(6.0), None, Some(200000), Some("fallback")))
  {
    CostCharges(t, OrElse(price, FALLBACK));
    hide Charges;
    if lowered in LOCAL_PROVIDERS {
      return 0;
    }
    var counts, rates := Counts(t), Rates(OrElse(price, FALLBACK));
    total := 0;
    for i := 0 to 6
      invariant total == CostOf(counts[..i], rates[..i])
    {
      assert counts[..i + 1][..i] == counts[..i] && rates[..i + 1][..i] == rates[..i];
      total := total + TokensTimesPerMillion(counts[i], rates[i]);
    }
    assert counts[..6] == counts && rates[..6] == rates;
  }

  lemma RoundIsClose(x: real)
    ensures x - 0.5 < Round(x) as real <= x + 0.5
  {}

  /** Rounding once per kind of token costs at most half a micro-USD each. */
  lemma {:induction false} CostIsClose(counts: seq<int>, rates: seq<real>)
    requires |counts| == |rates|
    ensures -0.5 * |counts| as real <= CostOf(counts, rates) as real - ExactOf(counts, rates) <= 0.5 * |counts| as real
    decreases |counts|
  {
    if counts == [] {
    } else {
      CostIsClose(counts[..|counts| - 1], rates[..|rates| - 1]);
      RoundIsClose(Exact(counts[|counts| - 1], rates[|rates| - 1]));
    }
  }

  datatype Priced = Priced(tokens: Tokens, price: ModelPrice)

  function TotalCost(es: seq<Priced>): int
    decreases |es|
  {
    if es == [] then 0
    else TotalCost(es[..|es| - 1]) + CostOf(Counts(es[|es| - 1].tokens), Rates(es[|es| - 1].price))
  }

  function TotalExact(es: seq<Priced>): real
    decreases |es|
  {
    if es == [] then 0.0
    else TotalExact(es[..|es| - 1]) + ExactOf(Counts(es[|es| - 1].tokens), Rates(es[|es| - 1].price))
  }

  /** Summed over `n` events the stored costs are within `3 n` micro-USD of the exact ones. */
  lemma {:induction false} TotalIsClose(es: seq<Priced>)
    ensures -3.0 * |es| as real <= TotalCost(es) as real - TotalExact(es) <= 3.0 * |es| as real
    decreases |es|
  {
    hide CostOf, ExactOf, Counts, Rates;
    if es == [] {
    } else {
      TotalIsClose(es[..|es| - 1]);
      CostIsClose(Counts(es[|es| - 1].tokens), Rates(es[|es| - 1].price));
    }
  }

  lemma MoreTokensCostMore(a: int, b: int, rate: real)
    requires a <= b
    ensures 0 <= TokensTimesPerMillion(a, rate) <= TokensTimesPerMillion(b, rate)
  {
    if a > 0 && rate > 0.0 {
      assert (b - a) as real * rate >= 0.0;
      assert b as real * rate == a as real * rate + (b - a) as real * rate;
    }
  }

  /** Which tokens are charged at which rate: cache writes fall back to the undivided cache rate, reasoning to the
      output rate, and a kind without any rate is free. */
  lemma ExactByKind(t: Tokens, p: ModelPrice)
    ensures ExactOf(Counts(t), Rates(p))
            == Exact(t.input, p.inputPerM) + Exact(t.output, p.outputPerM)
             + (if p.cacheReadPerM.Some? then Exact(t.cacheRead, p.cacheReadPerM.value) else 0.0)
             + Exact(t.cache5m, OrElse(p.cacheCreation5mPerM, OrElse(p.cacheCreationPerM, 0.0)))
             + Exact(t.cache1h, OrElse(p.cacheCreation1hPerM, OrElse(p.cacheCreationPerM, 0.0)))
             + (if t.reasoning.Some? then Exact(t.reasoning.value, OrElse(p.reasoningPerM, p.outputPerM)) else 0.0)
  {
    var c, r := Counts(t), Rates(p);
    ExactMore(c, r, 5);
    ExactMore(c, r, 4);
    ExactMore(c, r, 3);
    ExactMore(c, r, 2);
    ExactMore(c, r, 1);
    ExactMore(c, r, 0);
    assert c[..6] == c && r[..6] == r;
  }

  lemma ExactMore(c: seq<int>, r: seq<real>, k: nat)
    requires |c| == |r| && k < |c|
    ensures ExactOf(c[..k + 1], r[..k + 1]) == ExactOf(c[..k], r[..k]) + Exact(c[k], r[k])
  {
    assert c[..k + 1][..k] == c[..k] && r[..k + 1][..k] == r[..k];
  }

  /** More tokens of any kind never cost less. */
  lemma {:induction false} CostIsMonotone(a: seq<int>, b: seq<int>, rates: seq<real>)
    requires |a| == |b| == |rates| && forall i :: 0 <= i < |a| ==> a[i] <= b[i]
    ensures 0 <= CostOf(a, rates) <= CostOf(b, rates)
    decreases |a|
  {
    if a == [] {
    } else {
      CostIsMonotone(a[..|a| - 1], b[..|b| - 1], rates[..|rates| - 1]);
      MoreTokensCostMore(a[|a| - 1], b[|b| - 1], rates[|rates| - 1]);
    }
  }
}
