/** The per-file offset cache, and which bytes of a growing log a parser reads because of it. */
module FileCaches {
  import opened Wrappers
  import opened Jsonl

  datatype FileCacheRow = FileCacheRow(path: string, mtime: int, lastParsedAt: int, lastOffset: nat)

  function Lookup(rows: map<string, FileCacheRow>, path: string): Option<FileCacheRow> {
    if path in rows then Some(rows[path]) else None
  }

  class FileCache {
    var rows: map<string, FileCacheRow>

    constructor ()
      ensures rows == map[]
    {
      rows := map[];
    }

    method Get(path: string) returns (row: Option<FileCacheRow>)
      ensures row == Lookup(rows, path)
    {
      row := if path in rows then Some(rows[path]) else None;
    }

    /** What was put under a path is what is found there next; other paths keep theirs. */
    method Upsert(row: FileCacheRow)
      modifies this
      ensures Lookup(rows, row.path) == Some(row)
      ensures forall p | p != row.path :: Lookup(rows, p) == old(Lookup(rows, p))
    {
      rows := rows[row.path := row];
    }
  }

  datatype FileStat = FileStat(size: nat, mtime: int)

  /** One refresh of one file: what `stat` reports (nothing if it fails), how many bytes can be read by the time
      the lines are read, the clock at each line, at the cache write and at the upsert. */
  datatype Refresh = Refresh(stat: Option<FileStat>, visible: nat, clock: nat -> int, parsedAt: int, now: int)

  /** Same size and time as remembered: the file is not opened. */
  predicate Skips(cached: Option<FileCacheRow>, stat: Option<FileStat>) {
    && stat.Some? && cached.Some?
    && cached.value.mtime == stat.value.mtime && cached.value.lastOffset == stat.value.size
  }

  function ResumeAt(cached: Option<FileCacheRow>, stat: Option<FileStat>): nat {
    if stat.Some? && cached.Some? && 0 < cached.value.lastOffset <= stat.value.size then cached.value.lastOffset else 0
  }

  /** The cache row after a refresh. */
  function Remembered(cached: Option<FileCacheRow>, path: string, r: Refresh): Option<FileCacheRow> {
    if Skips(cached, r.stat) || r.stat.None? || r.stat.value.size == 0 then cached
    else Some(FileCacheRow(path, r.stat.value.mtime, r.parsedAt, r.stat.value.size))
  }

  function RememberedAll(path: string, rs: seq<Refresh>): Option<FileCacheRow>
    decreases |rs|
  {
    if rs == [] then None else Remembered(RememberedAll(path, rs[..|rs| - 1]), path, rs[|rs| - 1])
  }

  /** Where to start reading, or that there is nothing to read. */
  method Consult(fileCache: FileCache, path: string, stat: Option<FileStat>) returns (skip: bool, offset: nat)
    ensures skip == Skips(Lookup(fileCache.rows, path), stat)
    ensures offset == ResumeAt(Lookup(fileCache.rows, path), stat)
  {
    skip, offset := false, 0;
    if stat.Some? {
      var cached := fileCache.Get(path);
      if cached.Some? && cached.value.mtime == stat.value.mtime && cached.value.lastOffset == stat.value.size {
        skip := true;
      }
      if cached.Some? && cached.value.lastOffset > 0 && cached.value.lastOffset <= stat.value.size {
        offset := cached.value.lastOffset;
      }
    }
  }

  /** Leaves the size and time `stat` reported in the cache; without them, nothing. */
  method Remember(fileCache: FileCache, path: string, r: Refresh)
    requires !Skips(Lookup(fileCache.rows, path), r.stat)
    modifies fileCache
    ensures Lookup(fileCache.rows, path) == Remembered(old(Lookup(fileCache.rows, path)), path, r)
    ensures forall p | p != path :: Lookup(fileCache.rows, p) == old(Lookup(fileCache.rows, p))
  {
    var fileSize, fileMtime := 0, 0;
    if r.stat.Some? {
      fileSize, fileMtime := r.stat.value.size, r.stat.value.mtime;
    }
    if fileSize > 0 {
      fileCache.Upsert(FileCacheRow(path, fileMtime, r.parsedAt, fileSize));
    }
  }

  /** Place `k` holds the last refresh for which `stat` reported a size other than zero. */
  ghost predicate LastSize(rs: seq<Refresh>, k: int) {
    && 0 <= k < |rs| && rs[k].stat.Some? && rs[k].stat.value.size > 0
    && forall j :: k < j < |rs| ==> rs[j].stat.None? || rs[j].stat.value.size == 0
  }

  predicate NoSize(rs: seq<Refresh>) { forall j :: 0 <= j < |rs| ==> rs[j].stat.None? || rs[j].stat.value.size == 0 }

  lemma {:induction false} RunRemembersNone(path: string, rs: seq<Refresh>)
    requires NoSize(rs)
    ensures RememberedAll(path, rs) == None
    decreases |rs|
  {
    if rs == [] {
    } else {
      RunRemembersNone(path, rs[..|rs| - 1]);
    }
  }

  lemma {:induction false} RemembersPath(path: string, rs: seq<Refresh>)
    ensures var cached := RememberedAll(path, rs); cached.Some? ==> cached.value.path == path
    decreases |rs|
  {
    if rs == [] {
    } else {
      RemembersPath(path, rs[..|rs| - 1]);
    }
  }

  /** What a run of refreshes of a file remembers: size and time of the last one to report a size. */
  lemma {:induction false} RunRemembers(path: string, rs: seq<Refresh>, k: int)
    requires LastSize(rs, k)
    ensures var cached := RememberedAll(path, rs);
            && cached.Some? && cached.value.path == path
            && cached.value.lastOffset == rs[k].stat.value.size && cached.value.mtime == rs[k].stat.value.mtime
    decreases |rs|
  {
    RemembersPath(path, rs);
    if k < |rs| - 1 {
      assert LastSize(rs[..|rs| - 1], k);
      RunRemembers(path, rs[..|rs| - 1], k);
    }
  }

  /** After a run, a refresh passes a file over exactly if the last size and time reported are those reported now, and
      a parser that resumes starts at that size unless the file has shrunk below it; without one, at the start. */
  lemma RunConsults(path: string, rs: seq<Refresh>, stat: FileStat)
    ensures NoSize(rs) ==> !Skips(RememberedAll(path, rs), Some(stat)) && ResumeAt(RememberedAll(path, rs), Some(stat)) == 0
    ensures forall k :: LastSize(rs, k) ==>
              && (Skips(RememberedAll(path, rs), Some(stat)) <==>
                    rs[k].stat.value.size == stat.size && rs[k].stat.value.mtime == stat.mtime)
              && ResumeAt(RememberedAll(path, rs), Some(stat)) == if rs[k].stat.value.size <= stat.size then rs[k].stat.value.size else 0
  {
    hide RememberedAll;
    if NoSize(rs) {
      RunRemembersNone(path, rs);
    }
    forall k | LastSize(rs, k)
      ensures (Skips(RememberedAll(path, rs), Some(stat)) <==> rs[k].stat.value.size == stat.size && rs[k].stat.value.mtime == stat.mtime)
      ensures ResumeAt(RememberedAll(path, rs), Some(stat)) == if rs[k].stat.value.size <= stat.size then rs[k].stat.value.size else 0
    {
      RunRemembers(path, rs, k);
    }
  }

  /** A stretch of the file that is read and upserted. */
  datatype Window = Window(start: nat, end: nat, clock: nat -> int, now: int)

  function Read(resumes: bool, cached: Option<FileCacheRow>, r: Refresh): seq<Window> {
    if Skips(cached, r.stat) then []
    else [Window(if resumes then ResumeAt(cached, r.stat) else 0, r.visible, r.clock, r.now)]
  }

  /** What a run of refreshes reads. `resumes` tells parsers that go on at the cached offset
      from those that always start over. */
  function Windows(resumes: bool, path: string, rs: seq<Refresh>): seq<Window>
    decreases |rs|
  {
    if rs == [] then []
    else Windows(resumes, path, rs[..|rs| - 1]) + Read(resumes, RememberedAll(path, rs[..|rs| - 1]), rs[|rs| - 1])
  }

  /** The file only grows, and a refresh sees at least what the one before saw. */
  ghost predicate Grows(f: string, rs: seq<Refresh>) {
    && (forall r <- rs :: r.visible <= |f| && (r.stat.Some? ==> r.stat.value.size <= r.visible))
    && (forall i :: 0 < i < |rs| ==> rs[i - 1].visible <= rs[i].visible
                                     && (rs[i].stat.Some? ==> rs[i - 1].visible <= rs[i].stat.value.size))
  }

  /** Whenever its size is taken, the file ends with a whole line. */
  ghost predicate WholeLines(f: string, rs: seq<Refresh>) {
    forall r <- rs | r.stat.Some? :: AtLineEnd(f, r.stat.value.size)
  }

  /** The last refresh sees the whole file. */
  ghost predicate CaughtUp(f: string, rs: seq<Refresh>) {
    rs != [] && var r := rs[|rs| - 1]; r.visible == |f| && (r.stat.Some? ==> r.stat.value.size == |f|)
  }

  /** Windows that cover the file from its start without a gap. */
  ghost predicate Tiles(f: string, ws: seq<Window>) {
    && (forall w <- ws :: w.start <= w.end <= |f|)
    && (ws != [] ==> ws[0].start == 0)
    && (forall i :: 0 < i < |ws| ==> ws[i].start <= ws[i - 1].end <= ws[i].end)
  }

  ghost predicate StartAtLines(f: string, ws: seq<Window>) { forall w <- ws :: AtLineEnd(f, w.start) }

  function Covered(ws: seq<Window>): nat { if ws == [] then 0 else ws[|ws| - 1].end }

  lemma TilesMore(f: string, ws: seq<Window>, w: Window)
    requires Tiles(f, ws) && w.start <= Covered(ws) <= w.end <= |f|
    ensures Tiles(f, ws + [w])
  {
    var all := ws + [w];
    forall i | 0 < i < |all| ensures all[i].start <= all[i - 1].end <= all[i].end {
      assert i < |ws| ==> all[i] == ws[i] && all[i - 1] == ws[i - 1];
    }
    forall v <- all ensures v.start <= v.end <= |f| {
      assert v in ws || v == w;
    }
  }

  lemma TilesBefore(f: string, ws: seq<Window>)
    requires Tiles(f, ws) && ws != []
    ensures Tiles(f, ws[..|ws| - 1]) && Covered(ws[..|ws| - 1]) <= ws[|ws| - 1].end <= |f|
    ensures ws[|ws| - 1].start <= Covered(ws[..|ws| - 1])
  {
    assert ws[|ws| - 1] in ws;
  }

  lemma GrowsBefore(f: string, rs: seq<Refresh>)
    requires Grows(f, rs) && rs != []
    ensures Grows(f, rs[..|rs| - 1])
    ensures |rs| > 1 ==> rs[|rs| - 2].visible <= rs[|rs| - 1].visible
                         && (rs[|rs| - 1].stat.Some? ==> rs[|rs| - 2].visible <= rs[|rs| - 1].stat.value.size)
    ensures var r := rs[|rs| - 1]; r.visible <= |f| && (r.stat.Some? ==> r.stat.value.size <= r.visible)
  {
    var r := rs[|rs| - 1];
    assert r in rs;
  }

  /** The cached offset lies within what was read. */
  predicate Within(cached: Option<FileCacheRow>, ws: seq<Window>) {
    cached.Some? ==> 0 < cached.value.lastOffset <= Covered(ws)
  }

  lemma ReadMore(resumes: bool, f: string, path: string, ws: seq<Window>, cached: Option<FileCacheRow>, r: Refresh)
    requires Tiles(f, ws) && Within(cached, ws)
    requires Covered(ws) <= r.visible <= |f| && (r.stat.Some? ==> Covered(ws) <= r.stat.value.size <= r.visible)
    ensures var more := ws + Read(resumes, cached, r);
            Tiles(f, more) && Within(Remembered(cached, path, r), more) && Covered(more) <= r.visible
  {
    if Skips(cached, r.stat) {
      assert ws + [] == ws;
    } else {
      TilesMore(f, ws, Window(if resumes then ResumeAt(cached, r.stat) else 0, r.visible, r.clock, r.now));
    }
  }

  lemma {:induction false} WindowsTile(resumes: bool, f: string, path: string, rs: seq<Refresh>)
    requires Grows(f, rs)
    ensures Tiles(f, Windows(resumes, path, rs))
    ensures Within(RememberedAll(path, rs), Windows(resumes, path, rs))
    ensures Covered(Windows(resumes, path, rs)) <= if rs == [] then 0 else rs[|rs| - 1].visible
    decreases |rs|
  {
    if rs == [] {
    } else {
      var before := rs[..|rs| - 1];
      GrowsBefore(f, rs);
      WindowsTile(resumes, f, path, before);
      ReadMore(resumes, f, path, Windows(resumes, path, before), RememberedAll(path, before), rs[|rs| - 1]);
    }
  }

  lemma {:induction false} WindowsStartAtLines(resumes: bool, f: string, path: string, rs: seq<Refresh>)
    requires WholeLines(f, rs)
    ensures StartAtLines(f, Windows(resumes, path, rs))
    ensures var cached := RememberedAll(path, rs); cached.Some? ==> AtLineEnd(f, cached.value.lastOffset)
    decreases |rs|
  {
    if rs == [] {
    } else {
      WindowsStartAtLines(resumes, f, path, rs[..|rs| - 1]);
    }
  }

  /** Once caught up, everything has been read, even if the last refresh itself skipped the file. */
  lemma WindowsCover(resumes: bool, f: string, path: string, rs: seq<Refresh>)
    requires Grows(f, rs) && CaughtUp(f, rs)
    ensures Covered(Windows(resumes, path, rs)) == |f|
  {
    WindowsTile(resumes, f, path, rs);
    WindowsTile(resumes, f, path, rs[..|rs| - 1]);
  }

  /** Cached offsets only rise while `stat` works. */
  lemma {:induction false} OffsetRises(f: string, path: string, rs: seq<Refresh>, i: nat)
    requires Grows(f, rs) && i < |rs| && rs[i].stat.Some? && rs[i].stat.value.size > 0
    ensures var cached := RememberedAll(path, rs); cached.Some? && rs[i].stat.value.size <= cached.value.lastOffset
    decreases |rs|
  {
    GrowsBefore(f, rs);
    if i == |rs| - 1 {
    } else {
      OffsetRises(f, path, rs[..|rs| - 1], i);
      WindowsTile(true, f, path, rs[..|rs| - 1]);
    }
  }

  /** What was below a file size that made it into the cache is never read again by a parser that resumes,
      whether or not the upsert that followed went through: the cache is written first. */
  lemma NoSecondRead(f: string, path: string, rs: seq<Refresh>, i: nat, next: Refresh)
    requires Grows(f, rs + [next]) && i < |rs| && rs[i].stat.Some? && rs[i].stat.value.size > 0 && next.stat.Some?
    ensures ResumeAt(RememberedAll(path, rs), next.stat) >= rs[i].stat.value.size
  {
    var all := rs + [next];
    assert all[..|all| - 1] == rs;
    GrowsBefore(f, all);
    OffsetRises(f, path, rs, i);
    WindowsTile(true, f, path, rs);
  }

  lemma TwoReads(path: string, a: Refresh, b: Refresh)
    requires a.stat.Some? && b.stat.Some? && 0 < a.stat.value.size < b.stat.value.size
    ensures Windows(true, path, [a, b])
            == [Window(0, a.visible, a.clock, a.now), Window(a.stat.value.size, b.visible, b.clock, b.now)]
  {
    assert [a, b][..1] == [a] && [a][..0] == [];
    assert RememberedAll(path, [a]) == Some(FileCacheRow(path, a.stat.value.mtime, a.parsedAt, a.stat.value.size));
    assert Windows(true, path, [a]) == [] + [Window(0, a.visible, a.clock, a.now)];
  }

  /** The file is read once, by a refresh whose `stat` fails. */
  function OneRefresh(f: string, clock: nat -> int): seq<Refresh> { [Refresh(None, |f|, clock, 0, 0)] }

  lemma OneRefreshRun(resumes: bool, f: string, path: string, clock: nat -> int)
    ensures var rs := OneRefresh(f, clock);
            && Grows(f, rs) && WholeLines(f, rs) && CaughtUp(f, rs)
            && Windows(resumes, path, rs) == [Window(0, |f|, clock, 0)]
  {
    var rs := OneRefresh(f, clock);
    assert rs[..|rs| - 1] == [];
    assert Windows(resumes, path, []) == [];
  }
}
