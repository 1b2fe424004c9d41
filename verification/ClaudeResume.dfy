/** For Claude logs a resumed read may see only some rows of a message. It still ends with the table of a full parse
    exactly when the rows of each message agree on their time. */
module ClaudeResume {
  import opened Wrappers
  import opened JoinedKeys
  import opened Redaction
  import opened LocalDb
  import opened Jsonl
  import opened Ingestion
  import opened FileCaches
  import opened ClaudeParser

  // ---- logs ----------------------------------------------------------------

  /** Offsets rise along a log. */
  ghost predicate Ordered(hs: seq<Held>) { forall i, j :: 0 <= i < j < |hs| ==> hs[i].offset < hs[j].offset }

  /** Every row that counts has a `timestamp` field. */
  predicate Stamped(hs: seq<Held>) { forall h <- hs | HasUsage(h.row) :: !h.row.timestamp.Missing? }

  /** No message id looks like the stand-in for a missing one. */
  predicate Plain(hs: seq<Held>) { forall h <- hs | MessageOf(h).Some? :: !("noid:" <= MessageOf(h).value) }

  ghost predicate LogOk(hs: seq<Held>) { Ordered(hs) && Stamped(hs) && Plain(hs) }

  /** The event of a row of a log whose times are all written down. */
  function Out(cfg: Setup, h: Held): seq<UsageEvent> { Finalize(cfg, h, Noon) }

  lemma ClockFree(cfg: Setup, h: Held, clock: nat -> int)
    requires HasUsage(h.row) ==> !h.row.timestamp.Missing?
    ensures Finalize(cfg, h, clock) == Out(cfg, h)
  {}

  /** Within a log a name belongs to one message or one row. */
  lemma SameName(hs: seq<Held>, g: Held, h: Held)
    requires LogOk(hs) && g in hs && h in hs
    ensures NameOf(g) == NameOf(h) ==> MessageOf(g) == MessageOf(h) && (MessageOf(g).None? ==> g == h)
  {
    if MessageOf(g).None? && MessageOf(h).None? && NameOf(g) == NameOf(h) {
      NoIdNames(g.offset, h.offset);
      var i :| 0 <= i < |hs| && hs[i] == g;
      var j :| 0 <= j < |hs| && hs[j] == h;
      assert i == j;
    }
  }

  lemma NoIdNames(a: nat, b: nat)
    requires "noid:" + NatText(a) == "noid:" + NatText(b)
    ensures a == b
  {
    assert NatText(a) == ("noid:" + NatText(a))[5..] && NatText(b) == ("noid:" + NatText(b))[5..];
    ParseNatText(a);
    ParseNatText(b);
  }

  /** Two rows with one event id have one name and one time. */
  lemma SameId(cfg: Setup, hs: seq<Held>, g: Held, h: Held)
    requires LogOk(hs) && g in hs && h in hs && Out(cfg, g) != [] && Out(cfg, h) != []
    ensures Out(cfg, g)[0].id == Out(cfg, h)[0].id <==> NameOf(g) == NameOf(h) && g.row.timestamp == h.row.timestamp
  {
    if Out(cfg, g)[0].id == Out(cfg, h)[0].id {
      EventIdInjective("anthropic", cfg.src.sessionId, NameOf(g), g.row.timestamp.ms, NameOf(h), h.row.timestamp.ms);
    }
  }

  // ---- what an upserted read leaves -----------------------------------------

  /** The id is that of some row. */
  ghost predicate Source(cfg: Setup, hs: seq<Held>, id: string) {
    exists h :: h in hs && Out(cfg, h) != [] && Out(cfg, h)[0].id == id
  }

  /** A store that has taken in the first `k` rows of a log, in whatever reads: ids of no row are as before,
      and the rows that count in the whole log are there. */
  ghost predicate TookIn(cfg: Setup, log: seq<Held>, k: nat, before: View, v: View)
    requires k <= |log|
  {
    && (forall id | !Source(cfg, log[..k], id) :: SameAt(before, v, id))
    && (forall h | Kept(log, h) && h in log[..k] && Out(cfg, h) != [] :: Holds(v, Out(cfg, h)[0]))
  }

  lemma {:induction false} LastAt(hs: seq<Held>, m: string, q: nat)
    requires q < |hs| && MessageOf(hs[q]) == Some(m) && forall r :: q < r < |hs| ==> MessageOf(hs[r]) != Some(m)
    ensures LastOf(hs, m) == Some(hs[q])
    decreases |hs|
  {
    if q == |hs| - 1 {
    } else {
      LastAt(hs[..|hs| - 1], m, q);
    }
  }

  lemma {:induction false} WhereLast(hs: seq<Held>, m: string) returns (q: nat)
    requires LastOf(hs, m).Some?
    ensures q < |hs| && LastOf(hs, m) == Some(hs[q]) && MessageOf(hs[q]) == Some(m)
    ensures forall r :: q < r < |hs| ==> MessageOf(hs[r]) != Some(m)
    decreases |hs|
  {
    if MessageOf(hs[|hs| - 1]) == Some(m) {
      q := |hs| - 1;
    } else {
      q := WhereLast(hs[..|hs| - 1], m);
    }
  }

  /** Where a row stands in its log. */
  lemma Where(log: seq<Held>, i: nat, j: nat, h: Held) returns (q: nat)
    requires i <= j <= |log| && h in log[i..j]
    ensures i <= q < j && log[q] == h
  {
    q :| i <= q < j && log[q] == h;
  }

  /** What counts in the log counts in every part of it that it is in. */
  lemma KeptInPart(log: seq<Held>, i: nat, j: nat, h: Held)
    requires Ordered(log) && i <= j <= |log| && h in log[i..j] && Kept(log, h)
    ensures Kept(log[i..j], h)
  {
    if MessageOf(h).Some? {
      var q := WhereLast(log, MessageOf(h).value);
      var p := Where(log, i, j, h);
      assert p == q;
      LastAt(log[i..j], MessageOf(h).value, q - i);
    }
  }

  /** After the row that counts for its message there is no row with the same event id. */
  lemma NoneAfter(cfg: Setup, log: seq<Held>, i: nat, j: nat, h: Held, g: Held)
    requires LogOk(log) && i <= j <= |log| && Kept(log, h) && h in log[..i] && g in log[i..j]
    requires Out(cfg, g) != [] && Out(cfg, h) != []
    ensures Out(cfg, g)[0].id != Out(cfg, h)[0].id
  {
    var p := Where(log, 0, i, h);
    var q := Where(log, i, j, g);
    SameId(cfg, log, g, h);
    SameName(log, g, h);
    if MessageOf(h).Some? {
      var r := WhereLast(log, MessageOf(h).value);
      assert r == p;
    }
  }

  // ---- reading on ----------------------------------------------------------

  /** What is emitted is what some row of the read puts out. */
  lemma EmittedOut(cfg: Setup, log: seq<Held>, i: nat, j: nat, clock: nat -> int, e: UsageEvent) returns (h: Held)
    requires LogOk(log) && i <= j <= |log| && e in Emitted(cfg, log[i..j], clock)
    ensures Kept(log[i..j], h) && Out(cfg, h) == [e]
  {
    EmittedIs(cfg, log[i..j], clock, e);
    h :| Kept(log[i..j], h) && Finalize(cfg, h, clock) == [e];
    ClockFree(cfg, h, clock);
  }

  lemma OutEmitted(cfg: Setup, log: seq<Held>, i: nat, j: nat, clock: nat -> int, h: Held)
    requires LogOk(log) && i <= j <= |log| && Kept(log[i..j], h) && Out(cfg, h) != []
    ensures Out(cfg, h)[0] in Emitted(cfg, log[i..j], clock)
  {
    ClockFree(cfg, h, clock);
    EmittedIs(cfg, log[i..j], clock, Out(cfg, h)[0]);
  }

  /** One read emits no id twice. */
  lemma EmittedOnce(cfg: Setup, log: seq<Held>, i: nat, j: nat, clock: nat -> int, g: Held, h: Held)
    requires LogOk(log) && i <= j <= |log| && Kept(log[i..j], g) && Kept(log[i..j], h)
    requires Out(cfg, g) != [] && Out(cfg, h) != [] && Out(cfg, g)[0].id == Out(cfg, h)[0].id
    ensures g == h
  {
    SameId(cfg, log, g, h);
    SameName(log, g, h);
  }

  /** Taking in one more read that starts no later than where the last one stopped. */
  lemma TakeInMore(cfg: Setup, log: seq<Held>, i: nat, k: nat, j: nat, clock: nat -> int, before: View, v: View)
    requires LogOk(log) && i <= k <= j <= |log| && TookIn(cfg, log, k, before, v)
    ensures TookIn(cfg, log, j, before, AbsorbAll(v, Emitted(cfg, log[i..j], clock)))
  {
    forall id | !Source(cfg, log[..j], id) ensures SameAt(before, AbsorbAll(v, Emitted(cfg, log[i..j], clock)), id) {
      OthersStay(cfg, log, i, k, j, clock, before, v, id);
    }
    forall h | Kept(log, h) && h in log[..j] && Out(cfg, h) != []
      ensures Holds(AbsorbAll(v, Emitted(cfg, log[i..j], clock)), Out(cfg, h)[0])
    {
      if h in log[i..j] {
        ReadHolds(cfg, log, i, j, clock, v, h);
      } else {
        assert log[..j] == log[..i] + log[i..j];
        EarlierHolds(cfg, log, i, k, j, clock, v, h);
      }
    }
  }

  lemma OthersStay(cfg: Setup, log: seq<Held>, i: nat, k: nat, j: nat, clock: nat -> int, before: View, v: View, id: string)
    requires LogOk(log) && i <= k <= j <= |log| && !Source(cfg, log[..j], id)
    requires forall x | !Source(cfg, log[..k], x) :: SameAt(before, v, x)
    ensures SameAt(before, AbsorbAll(v, Emitted(cfg, log[i..j], clock)), id)
  {
    NotFromRead(cfg, log, i, j, clock, id);
    AbsorbNone(v, Emitted(cfg, log[i..j], clock), id);
    SourceGrows(cfg, log, k, j, id);
  }

  lemma SourceGrows(cfg: Setup, log: seq<Held>, k: nat, j: nat, id: string)
    requires k <= j <= |log|
    ensures Source(cfg, log[..k], id) ==> Source(cfg, log[..j], id)
  {
    if Source(cfg, log[..k], id) {
      var h :| h in log[..k] && Out(cfg, h) != [] && Out(cfg, h)[0].id == id;
      assert h in log[..j];
    }
  }

  lemma NotFromRead(cfg: Setup, log: seq<Held>, i: nat, j: nat, clock: nat -> int, id: string)
    requires LogOk(log) && i <= j <= |log| && !Source(cfg, log[..j], id)
    ensures forall e <- Emitted(cfg, log[i..j], clock) :: e.id != id
  {
    forall e <- Emitted(cfg, log[i..j], clock) ensures e.id != id {
      var h := EmittedOut(cfg, log, i, j, clock, e);
      assert h in log[..j];
    }
  }

  lemma ReadHolds(cfg: Setup, log: seq<Held>, i: nat, j: nat, clock: nat -> int, v: View, h: Held)
    requires LogOk(log) && i <= j <= |log| && Kept(log, h) && h in log[i..j] && Out(cfg, h) != []
    ensures Holds(AbsorbAll(v, Emitted(cfg, log[i..j], clock)), Out(cfg, h)[0])
  {
    var es, e := Emitted(cfg, log[i..j], clock), Out(cfg, h)[0];
    KeptInPart(log, i, j, h);
    OutEmitted(cfg, log, i, j, clock, h);
    forall x <- es | x.id == e.id ensures x == e {
      var g := EmittedOut(cfg, log, i, j, clock, x);
      EmittedOnce(cfg, log, i, j, clock, g, h);
    }
    AbsorbThe(v, es, e);
  }

  lemma EarlierHolds(cfg: Setup, log: seq<Held>, i: nat, k: nat, j: nat, clock: nat -> int, v: View, h: Held)
    requires LogOk(log) && i <= k <= j <= |log| && Kept(log, h) && h in log[..i] && Out(cfg, h) != []
    requires forall g | Kept(log, g) && g in log[..k] && Out(cfg, g) != [] :: Holds(v, Out(cfg, g)[0])
    ensures Holds(AbsorbAll(v, Emitted(cfg, log[i..j], clock)), Out(cfg, h)[0])
  {
    var es, e := Emitted(cfg, log[i..j], clock), Out(cfg, h)[0];
    assert h in log[..k];
    forall x <- es ensures x.id != e.id {
      var g := EmittedOut(cfg, log, i, j, clock, x);
      NoneAfter(cfg, log, i, j, h, g);
    }
    AbsorbNone(v, es, e.id);
  }

  // ---- when any way of reading comes to the same ---------------------------

  predicate Counts(h: Held) { HasUsage(h.row) && h.row.timestamp.At? }

  /** For every row that counts, the last row of its message counts too and bears the same time. */
  predicate Settled(log: seq<Held>) {
    forall h <- log | Counts(h) && MessageOf(h).Some? :: Outlived(log, h)
  }

  predicate Outlived(log: seq<Held>, h: Held)
    requires MessageOf(h).Some?
  {
    var g := LastOf(log, MessageOf(h).value);
    g.Some? && Counts(g.value) && g.value.row.timestamp == h.row.timestamp
  }

  lemma SourceIsKept(cfg: Setup, log: seq<Held>, id: string)
    requires LogOk(log) && Settled(log) && Source(cfg, log, id)
    ensures exists g :: Kept(log, g) && Out(cfg, g) != [] && Out(cfg, g)[0].id == id
  {
    var h :| h in log && Out(cfg, h) != [] && Out(cfg, h)[0].id == id;
    if MessageOf(h).None? {
      assert Kept(log, h);
    } else {
      assert Outlived(log, h);
      var g := LastOf(log, MessageOf(h).value).value;
      LastOfIs(log, MessageOf(h).value);
      SameId(cfg, log, g, h);
      assert Kept(log, g);
    }
  }

  /** A settled log determines what a store that took all of it in holds. */
  lemma TookAllIn(cfg: Setup, log: seq<Held>, before: View, v: View, w: View)
    requires LogOk(log) && Settled(log)
    requires TookIn(cfg, log, |log|, before, v) && TookIn(cfg, log, |log|, before, w)
    ensures Same(v, w)
  {
    assert log[..|log|] == log;
    forall id ensures SameAt(v, w, id) {
      if Source(cfg, log, id) {
        SourceIsKept(cfg, log, id);
        var g :| Kept(log, g) && Out(cfg, g) != [] && Out(cfg, g)[0].id == id;
        assert Holds(v, Out(cfg, g)[0]) && Holds(w, Out(cfg, g)[0]);
      } else {
        assert SameAt(before, v, id) && SameAt(before, w, id);
      }
    }
    SameEverywhere(v, w);
  }

  /** One read of everything takes everything in. */
  lemma FullRead(cfg: Setup, log: seq<Held>, clock: nat -> int, before: View)
    requires LogOk(log)
    ensures TookIn(cfg, log, |log|, before, AbsorbAll(before, Emitted(cfg, log, clock)))
  {
    assert log[0..|log|] == log && log[..0] == [];
    assert TookIn(cfg, log, 0, before, before);
    TakeInMore(cfg, log, 0, 0, |log|, clock, before, before);
  }

  // ---- when it does not ----------------------------------------------------

  /** A log whose first part ends with a row that its message outlives with another time, or without counting:
      the event of that row is stored by the first read, and a full parse never emits it. */
  lemma SplitShows(cfg: Setup, log: seq<Held>, q: nat, clock: nat -> int)
    requires LogOk(log) && q < |log| && Counts(log[q]) && MessageOf(log[q]).Some? && !Outlived(log, log[q])
    ensures Out(cfg, log[q]) != [] && Out(cfg, log[q])[0] in Emitted(cfg, log[0..q + 1], clock)
    ensures forall e <- Emitted(cfg, log, clock) :: e.id != Out(cfg, log[q])[0].id
  {
    var h := log[q];
    LastAt(log[0..q + 1], MessageOf(h).value, q);
    OutEmitted(cfg, log, 0, q + 1, clock, h);
    assert log[0..|log|] == log;
    forall e <- Emitted(cfg, log, clock) ensures e.id != Out(cfg, h)[0].id {
      var g := EmittedOut(cfg, log, 0, |log|, clock, e);
      SameId(cfg, log, g, h);
      SameName(log, g, h);
    }
  }
}
