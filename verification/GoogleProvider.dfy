/** A refresh of the Gemini provider: parse, then upsert. The parser has already moved the cache on when the upsert runs. */
module GoogleProviders {
  import opened Wrappers
  import opened LocalDb
  import opened Jsonl
  import opened Ingestion
  import opened FileCaches
  import opened GeminiParser
  import opened GeminiResume
  import opened Redaction
  import SyncClient

  /** The events a refresh parses, given the cached row. */
  function Found(parse: Parse, f: string, src: LogFile, pricing: Pricing, cached: Option<FileCacheRow>, r: Refresh): seq<UsageEvent>
    requires r.visible <= |f|
  {
    if Skips(cached, r.stat) then [] else Events(parse, f, src, pricing, ResumeAt(cached, r.stat), r.visible, r.clock)
  }

  class GoogleProvider {
    const fileCache: FileCache
    const events: SyncClient.EventRepository

    constructor (fileCache: FileCache, events: SyncClient.EventRepository)
      ensures this.fileCache == fileCache && this.events == events
    {
      this.fileCache, this.events := fileCache, events;
    }

    method RefreshImpl(parse: Parse, f: string, src: LogFile, pricing: Pricing, r: Refresh, fault: nat) returns (ok: bool)
      requires r.visible <= |f|
      modifies fileCache, events.pool`events, events.pool`rows, events.pool`nextSeq
      ensures var cached := old(Lookup(fileCache.rows, src.path));
              && Lookup(fileCache.rows, src.path) == Remembered(cached, src.path, r)
              && (ok ==> events.pool.Contents() == PutAll(old(events.pool.Contents()), Found(parse, f, src, pricing, cached, r), r.now))
              && (!ok ==> events.pool.events == old(events.pool.events) && events.pool.rows == old(events.pool.rows))
    {
      var found := ParseGeminiFile(parse, f, src, pricing, fileCache, r);
      ok := true;
      if |found| > 0 {
        ok := events.UpsertMany(found, r.now, fault);
      }
    }
  }

  /** Refresh after refresh, the store is the one that the windows of the run leave. */
  lemma RunOfRefreshes(parse: Parse, f: string, src: LogFile, pricing: Pricing, s: Store, rs: seq<Refresh>, r: Refresh)
    requires r.visible <= |f|
    ensures Ingested(parse, f, src, pricing, s, Windows(true, src.path, rs + [r]))
            == PutAll(Ingested(parse, f, src, pricing, s, Windows(true, src.path, rs)),
                      Found(parse, f, src, pricing, RememberedAll(src.path, rs), r), r.now)
    ensures RememberedAll(src.path, rs + [r]) == Remembered(RememberedAll(src.path, rs), src.path, r)
  {
    var ws, cached := Windows(true, src.path, rs), RememberedAll(src.path, rs);
    assert (rs + [r])[..|rs|] == rs;
    if Skips(cached, r.stat) {
      assert ws + [] == ws;
    } else {
      var w := Window(ResumeAt(cached, r.stat), r.visible, r.clock, r.now);
      assert (ws + [w])[..|ws|] == ws;
    }
  }
}
