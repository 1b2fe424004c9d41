/** Drains make progress, and a drain on its own is a run of the protocol. */
module SyncProgress {
  import opened Wrappers
  import opened TeamModel
  import opened Redaction
  import opened LocalDb
  import opened SyncProtocol
  import TeamBatch

  // ---- how an acknowledged drain changes the unsent rows -------------------

  lemma {:induction false} UnsentCut(rows: map<nat, OutboxRow>, after: nat, mid: nat, end: nat)
    requires after <= mid < end
    ensures Unsent(rows, after, end) == Unsent(rows, after, mid + 1) + Unsent(rows, mid, end)
    decreases end
  {
    if mid + 1 < end {
      UnsentCut(rows, after, mid, end - 1);
    } else {
      assert Unsent(rows, mid, end) == [];
    }
  }

  lemma {:induction false} UnsentAbove(rows: map<nat, OutboxRow>, mid: nat, end: nat, at: int)
    ensures Unsent(MarkSent(rows, mid, at), mid, end) == Unsent(rows, mid, end)
    decreases end
  {
    if end <= mid + 1 {
    } else {
      UnsentAbove(rows, mid, end - 1, at);
    }
  }

  lemma {:induction false} UnsentRange(rows: map<nat, OutboxRow>, after: nat, end: nat)
    ensures forall s <- Unsent(rows, after, end) :: after < s < end
  {
    UnsentIs(rows, after, end);
  }

  lemma CutAt(rows: map<nat, OutboxRow>, after: nat, end: nat, k: nat)
    requires 0 < k <= |Unsent(rows, after, end)|
    ensures var m := Unsent(rows, after, end)[k - 1];
            after < m < end && Unsent(rows, after, m + 1) == Unsent(rows, after, end)[..k]
  {
    var all := Unsent(rows, after, end);
    var m := all[k - 1];
    UnsentIs(rows, after, end);
    assert m in all;
    UnsentCut(rows, after, m, end);
    UnsentRange(rows, after, m + 1);
    UnsentRange(rows, m, end);
    SameCut(all, Unsent(rows, after, m + 1), Unsent(rows, m, end), k);
  }

  /** A batch is all unsent rows up to its last one. */
  lemma BatchIsPrefix(o: Outbox, after: nat, limit: nat)
    requires Pending(o, after, limit) != []
    ensures var b := Pending(o, after, limit);
            after < Last(b) < o.nextSeq && Unsent(o.rows, after, Last(b) + 1) == b
  {
    CutAt(o.rows, after, o.nextSeq, |Pending(o, after, limit)|);
  }

  /** An ascending list is cut at a value in only one place. */
  lemma SameCut(all: seq<nat>, low: seq<nat>, high: seq<nat>, k: nat)
    requires Ascending(all) && all == low + high && 0 < k <= |all|
    requires (forall s <- low :: s <= all[k - 1]) && forall s <- high :: s > all[k - 1]
    ensures all[..k] == low
  {
    if low != [] {
      assert low[|low| - 1] in low && all[|low| - 1] == low[|low| - 1];
    }
    if high != [] {
      assert high[0] in high && all[|low|] == high[0];
    }
  }

  // ---- serial drains of one account ----------------------------------------

  datatype Client = Client(outbox: Outbox, cursors: Cursors)

  datatype Attempt = Acked(ms: int, at: int) | Lost(message: string)

  function PendingOf(c: Client, a: Account): nat { PendingCount(c.outbox, SentSeq(c.cursors, a)) }

  /** What one drain of an account does to the tables; `x` is how its upload went. */
  function Drain(c: Client, a: Account, x: Attempt): Client {
    var batch := Pending(c.outbox, SentSeq(c.cursors, a), MAX_BATCH_SIZE);
    if batch == [] then c
    else if x.Acked? then
      Client(c.outbox.(rows := MarkSent(c.outbox.rows, Last(batch), x.at)), Advance(c.cursors, a, Last(batch), x.ms, x.at))
    else c.(cursors := RecordError(c.cursors, a, x.message))
  }

  /** An acknowledged drain lowers the pending count by the size of a full batch, or to zero. */
  lemma AckedDrain(c: Client, a: Account, x: Attempt)
    requires x.Acked?
    ensures PendingOf(Drain(c, a, x), a) == PendingOf(c, a) - Min(500, PendingOf(c, a))
  {
    var after := SentSeq(c.cursors, a);
    var all, batch := Unsent(c.outbox.rows, after, c.outbox.nextSeq), Pending(c.outbox, after, MAX_BATCH_SIZE);
    if batch != [] {
      BatchIsPrefix(c.outbox, after, MAX_BATCH_SIZE);
      UnsentCut(c.outbox.rows, after, Last(batch), c.outbox.nextSeq);
      UnsentAbove(c.outbox.rows, Last(batch), c.outbox.nextSeq, x.at);
    }
  }

  /** A failed drain leaves the pending count alone. */
  lemma LostDrain(c: Client, a: Account, x: Attempt)
    requires x.Lost?
    ensures PendingOf(Drain(c, a, x), a) == PendingOf(c, a) && Drain(c, a, x).outbox == c.outbox
  {}

  function Drains(c: Client, a: Account, xs: seq<Attempt>): Client
    decreases |xs|
  {
    if xs == [] then c else Drain(Drains(c, a, xs[..|xs| - 1]), a, xs[|xs| - 1])
  }

  function Acks(xs: seq<Attempt>): nat
    decreases |xs|
  {
    if xs == [] then 0 else Acks(xs[..|xs| - 1]) + if xs[|xs| - 1].Acked? then 1 else 0
  }

  /** After any mix of failed and acknowledged drains, what is pending is what the acknowledged ones could
      not carry: `ceil(n / 500)` of them empty an outbox of `n` rows. */
  lemma {:induction false} Progresses(c: Client, a: Account, xs: seq<Attempt>)
    ensures PendingOf(Drains(c, a, xs), a) == Max(0, PendingOf(c, a) - 500 * Acks(xs))
    decreases |xs|
  {
    if xs == [] {
    } else {
      var before, x := xs[..|xs| - 1], xs[|xs| - 1];
      Progresses(c, a, before);
      if x.Acked? {
        AckedDrain(Drains(c, a, before), a, x);
      } else {
        LostDrain(Drains(c, a, before), a, x);
      }
    }
  }

  lemma EnoughDrainsEmpty(c: Client, a: Account, xs: seq<Attempt>)
    ensures PendingOf(Drains(c, a, xs), a) == 0 <==> Acks(xs) >= (PendingOf(c, a) + 499) / 500
  {
    Progresses(c, a, xs);
  }

  /** An attempt with something to send: a failure moves neither watermark nor outbox, a success lifts both watermarks
      of the account to the last row and the time of the batch, no sequence watermark of any account falls, and marks
      as sent the rows of the batch and, of the unsent ones, none above. */
  lemma DrainIs(c: Client, a: Account, x: Attempt)
    requires PendingOf(c, a) > 0
    ensures var d, after := Drain(c, a, x), SentSeq(c.cursors, a);
            var last := Last(Pending(c.outbox, after, MAX_BATCH_SIZE));
            && (x.Acked? ==>
                  && SentSeq(d.cursors, a) == last > after && AckedMs(d.cursors, a) >= x.ms && d.cursors[a].error == None
                  && forall q <- c.outbox.rows :: q in d.outbox.rows
                       && (d.outbox.rows[q].sentAt.Some? <==> q <= last || c.outbox.rows[q].sentAt.Some?))
            && (x.Lost? ==>
                  && d.outbox == c.outbox && SentSeq(d.cursors, a) == after && AckedMs(d.cursors, a) == AckedMs(c.cursors, a)
                  && d.cursors[a].error == Some(x.message))
            && forall b :: SentSeq(d.cursors, b) >= SentSeq(c.cursors, b) && (b != a ==> AckedMs(d.cursors, b) == AckedMs(c.cursors, b))
  {
    BatchIsPrefix(c.outbox, SentSeq(c.cursors, a), MAX_BATCH_SIZE);
  }

  /** What the watermark becomes when the batch that is pending for an account is acknowledged. */
  function BatchMs(s: Store, cursors: Cursors, a: Account): int
    requires Sane(s)
  {
    PendingIs(s.outbox, SentSeq(cursors, a), MAX_BATCH_SIZE);
    MaxTimestamp(EventsAt(s, Pending(s.outbox, SentSeq(cursors, a), MAX_BATCH_SIZE)), AckedMs(cursors, a))
  }

  // ---- a drain on its own, as steps of the protocol ------------------------

  /** A run that starts in state `s`. */
  ghost function From(env: Env, s: System, actions: seq<Action>): (t: System)
    requires Sane(s.store)
    ensures Sane(t.store)
    decreases |actions|
  {
    if actions == [] then s else Step(env, From(env, s, actions[..|actions| - 1]), actions[|actions| - 1])
  }

  lemma FromMore(env: Env, s: System, before: seq<Action>, x: Action, all: seq<Action>)
    requires Sane(s.store) && all == before + [x]
    ensures From(env, s, all) == Step(env, From(env, s, before), x)
  {
    assert all[..|all| - 1] == before;
  }

  /** Going on from a reachable state is part of a run. */
  lemma {:induction false} ExecThen(env: Env, before: seq<Action>, more: seq<Action>)
    ensures Exec(env, before + more) == From(env, Exec(env, before), more)
    decreases |more|
  {
    hide Step;
    var all := before + more;
    if more == [] {
      assert all == before;
    } else {
      assert all[..|all| - 1] == before + more[..|more| - 1];
      ExecThen(env, before, more[..|more| - 1]);
    }
  }

  lemma {:induction false} FromThen(env: Env, s: System, before: seq<Action>, more: seq<Action>)
    requires Sane(s.store)
    ensures From(env, s, before + more) == From(env, From(env, s, before), more)
    decreases |more|
  {
    hide Step;
    var all := before + more;
    if more == [] {
      assert all == before;
    } else {
      assert all[..|all| - 1] == before + more[..|more| - 1];
      FromThen(env, s, before, more[..|more| - 1]);
    }
  }

  /** A drain up to the request. */
  function SendActions(d: nat, a: Account, level: Privacy): seq<Action> { [Peek(d, a), Pull(d, level), Send(d)] }

  /** The actions of a drain that nothing disturbs; `r` is the number its request gets. */
  function DrainActions(d: nat, a: Account, level: Privacy, r: nat, now: int, at: int): seq<Action> {
    SendActions(d, a, level) + [Commit(r, now)] + [Receive(d), Mark(d, at), Finish(d, at)]
  }

  /** Those of a drain whose upload fails. */
  function FailureActions(d: nat, a: Account, level: Privacy, message: string): seq<Action> {
    SendActions(d, a, level) + [Fail(d)] + [Note(d, message)]
  }

  function ClientOf(s: System): Client { Client(s.store.outbox, s.cursors) }

  /** The payloads of the pending batch. */
  function PayloadsOf(env: Env, s: System, a: Account, level: Privacy): seq<Payload>
    requires Sane(s.store) && level != AggregateOnly
  {
    PendingIs(s.store.outbox, SentSeq(s.cursors, a), MAX_BATCH_SIZE);
    Redacts(EventsAt(s.store, Pending(s.store.outbox, SentSeq(s.cursors, a), MAX_BATCH_SIZE)), level, ContextOf(env, a))
  }

  lemma AtAgain(s: System, d: nat, x: Pc, y: Pc)
    ensures At(At(s, d, x), d, y) == At(s, d, y)
  {}

  lemma PullStep(env: Env, s: System, d: nat, a: Account, level: Privacy)
    requires Sane(s.store) && d in s.drainers && level != AggregateOnly
    requires s.drainers[d] == Peeked(a, SentSeq(s.cursors, a), AckedMs(s.cursors, a))
    ensures var batch := Pending(s.store.outbox, SentSeq(s.cursors, a), MAX_BATCH_SIZE);
            PullTo(env, s, d, level)
            == if batch == [] then Idle(s, d)
               else At(s, d, Pulled(a, batch, PayloadsOf(env, s, a, level), BatchMs(s.store, s.cursors, a)))
  {}

  /** The state in which a drain awaits its answer. */
  function Sent(env: Env, s: System, d: nat, a: Account, level: Privacy): System
    requires Sane(s.store) && level != AggregateOnly
  {
    var batch := Pending(s.store.outbox, SentSeq(s.cursors, a), MAX_BATCH_SIZE);
    At(s, d, Waiting(a, batch, |s.requests|, BatchMs(s.store, s.cursors, a))).(
      requests := s.requests + [Request(a, PayloadsOf(env, s, a, level))])
  }

  lemma SentIs(env: Env, s: System, d: nat, a: Account, level: Privacy)
    requires Sane(s.store) && d !in s.drainers && level != AggregateOnly
    ensures var sent := Sent(env, s, d, a, level);
            sent.store == s.store && sent.cursors == s.cursors && sent.server == s.server && Idle(sent, d).drainers == s.drainers
  {
    hide BatchMs, PayloadsOf, Pending, Sane;
    assert Idle(Sent(env, s, d, a, level), d).drainers == s.drainers;
  }

  lemma UpToSend(env: Env, s: System, d: nat, a: Account, level: Privacy)
    requires Sane(s.store) && d !in s.drainers && level != AggregateOnly
    requires Pending(s.store.outbox, SentSeq(s.cursors, a), MAX_BATCH_SIZE) != []
    ensures SendTo(PullTo(env, PeekTo(s, d, a), d, level), d) == Sent(env, s, d, a, level)
  {
    hide BatchMs, PayloadsOf, PullTo;
    var batch := Pending(s.store.outbox, SentSeq(s.cursors, a), MAX_BATCH_SIZE);
    var ms, payloads := BatchMs(s.store, s.cursors, a), PayloadsOf(env, s, a, level);
    var peeked := Peeked(a, SentSeq(s.cursors, a), AckedMs(s.cursors, a));
    var s1 := At(s, d, peeked);
    PullStep(env, s1, d, a, level);
    SameUpload(env, s, s1, a, level);
    AtAgain(s, d, peeked, Pulled(a, batch, payloads, ms));
    AtAgain(s, d, Pulled(a, batch, payloads, ms), Waiting(a, batch, |s.requests|, ms));
  }

  lemma SameUpload(env: Env, s: System, t: System, a: Account, level: Privacy)
    requires Sane(s.store) && t.store == s.store && t.cursors == s.cursors && level != AggregateOnly
    ensures PayloadsOf(env, t, a, level) == PayloadsOf(env, s, a, level)
  {}

  /** What each action of a drain does. */
  lemma StepsAre(env: Env, s: System, d: nat, a: Account, level: Privacy, r: nat, now: int, at: int)
    requires Sane(s.store)
    ensures Step(env, s, Peek(d, a)) == PeekTo(s, d, a) && Step(env, s, Pull(d, level)) == PullTo(env, s, d, level)
    ensures Step(env, s, Send(d)) == SendTo(s, d) && Step(env, s, Commit(r, now)) == CommitTo(env, s, r, now)
    ensures Step(env, s, Receive(d)) == ReceiveTo(s, d) && Step(env, s, Mark(d, at)) == MarkTo(s, d, at)
    ensures Step(env, s, Finish(d, at)) == FinishTo(s, d, at)
  {
    hide PeekTo, PullTo, SendTo, CommitTo, ReceiveTo, MarkTo, FinishTo, PutAll, Served, Sane;
  }

  lemma FromThree(env: Env, s: System, x: Action, y: Action, z: Action)
    requires Sane(s.store)
    ensures From(env, s, [x, y, z]) == Step(env, Step(env, Step(env, s, x), y), z)
  {
    FromMore(env, s, [], x, [x]);
    FromMore(env, s, [x], y, [x, y]);
    FromMore(env, s, [x, y], z, [x, y, z]);
    hide Step, From;
    assert From(env, s, []) == s by { FromNone(env, s); }
  }

  lemma FromNone(env: Env, s: System)
    requires Sane(s.store)
    ensures From(env, s, []) == s
  {}

  /** The first three actions, as a run. */
  lemma SendRun(env: Env, s: System, d: nat, a: Account, level: Privacy)
    requires Sane(s.store) && d !in s.drainers && level != AggregateOnly
    requires Pending(s.store.outbox, SentSeq(s.cursors, a), MAX_BATCH_SIZE) != []
    ensures From(env, s, SendActions(d, a, level)) == Sent(env, s, d, a, level)
  {
    UpToSend(env, s, d, a, level);
    FromThree(env, s, Peek(d, a), Pull(d, level), Send(d));
    assert SendActions(d, a, level) == [Peek(d, a), Pull(d, level), Send(d)];
    hide *;
    var peeked := PeekTo(s, d, a);
    assert Step(env, s, Peek(d, a)) == peeked by { StepsAre(env, s, d, a, level, 0, 0, 0); }
    assert Step(env, peeked, Pull(d, level)) == PullTo(env, peeked, d, level) by { StepsAre(env, peeked, d, a, level, 0, 0, 0); }
    var pulled := PullTo(env, peeked, d, level);
    assert Step(env, pulled, Send(d)) == SendTo(pulled, d) by { StepsAre(env, pulled, d, a, level, 0, 0, 0); }
  }

  /** From the answer on. */
  lemma FromReceipt(s: System, d: nat, a: Account, batch: seq<nat>, ms: int, at: int)
    requires Sane(s.store) && batch != []
    requires d in s.drainers && s.drainers[d].Waiting? && s.drainers[d].account == a && s.drainers[d].batch == batch
    requires s.drainers[d].ms == ms && s.drainers[d].request in s.committed
    ensures FinishTo(MarkTo(ReceiveTo(s, d), d, at), d, at)
            == Idle(Marking(s, a, batch, at).(cursors := Advance(s.cursors, a, Last(batch), ms, at)), d)
  {
    var s1 := At(s, d, Acknowledged(a, batch, ms));
    assert ReceiveTo(s, d) == s1;
    assert MarkTo(s1, d, at) == At(Marking(s1, a, batch, at), d, Marked(a, batch, ms));
  }

  lemma SettleRun(env: Env, s: System, d: nat, a: Account, at: int)
    requires Sane(s.store)
    ensures From(env, s, [Receive(d), Mark(d, at), Finish(d, at)]) == FinishTo(MarkTo(ReceiveTo(s, d), d, at), d, at)
  {
    FromThree(env, s, Receive(d), Mark(d, at), Finish(d, at));
    assert ReceiveTo(s, d).store == s.store;
    hide *;
    var received := ReceiveTo(s, d);
    assert Step(env, s, Receive(d)) == received by { StepsAre(env, s, d, a, Full, 0, 0, at); }
    var marked := MarkTo(received, d, at);
    assert Step(env, received, Mark(d, at)) == marked by { StepsAre(env, received, d, a, Full, 0, 0, at); }
    assert Step(env, marked, Finish(d, at)) == FinishTo(marked, d, at) by { StepsAre(env, marked, d, a, Full, 0, 0, at); }
  }

  /** The request of the drain is committed, and everything else is as it was when it was sent. */
  lemma CommitOwn(env: Env, s: System, d: nat, a: Account, level: Privacy, now: int)
    requires Sane(s.store) && level != AggregateOnly
    ensures var sent := Sent(env, s, d, a, level);
            var t := CommitTo(env, sent, |s.requests|, now);
            && |s.requests| in t.committed && t.store == s.store && t.cursors == s.cursors && t.drainers == sent.drainers
            && t.server == TeamBatch.Batch(s.server, a.0, PayloadsOf(env, s, a, level), now, env.cap)
  {
    hide PayloadsOf, BatchMs;
  }

  lemma DrainRun(env: Env, s: System, d: nat, a: Account, level: Privacy, now: int, at: int)
    requires Sane(s.store) && d !in s.drainers && level != AggregateOnly
    requires Pending(s.store.outbox, SentSeq(s.cursors, a), MAX_BATCH_SIZE) != []
    ensures var t := CommitTo(env, Sent(env, s, d, a, level), |s.requests|, now);
            && Sane(t.store)
            && From(env, s, DrainActions(d, a, level, |s.requests|, now, at)) == FinishTo(MarkTo(ReceiveTo(t, d), d, at), d, at)
  {
    var (send, settle) := (SendActions(d, a, level), [Receive(d), Mark(d, at), Finish(d, at)]);
    var commit := Commit(|s.requests|, now);
    var sent := Sent(env, s, d, a, level);
    var t := CommitTo(env, sent, |s.requests|, now);
    CommitOwn(env, s, d, a, level, now);
    assert DrainActions(d, a, level, |s.requests|, now, at) == send + [commit] + settle;
    hide *;
    SendRun(env, s, d, a, level);
    FromMore(env, s, send, commit, send + [commit]);
    assert Step(env, sent, commit) == t by { StepsAre(env, sent, d, a, level, |s.requests|, now, at); }
    FromThen(env, s, send + [commit], settle);
    SettleRun(env, t, d, a, at);
  }

  /** What the drain leaves once its answer is in. */
  lemma Settled(env: Env, s: System, t: System, d: nat, a: Account, level: Privacy, at: int)
    requires Sane(s.store) && d !in s.drainers && level != AggregateOnly && t.store == s.store && t.cursors == s.cursors
    requires t.drainers == Sent(env, s, d, a, level).drainers && |s.requests| in t.committed
    requires Pending(s.store.outbox, SentSeq(s.cursors, a), MAX_BATCH_SIZE) != []
    ensures var u := FinishTo(MarkTo(ReceiveTo(t, d), d, at), d, at);
            && ClientOf(u) == Drain(ClientOf(s), a, Acked(BatchMs(s.store, s.cursors, a), at))
            && u.store.events == s.store.events && u.drainers == s.drainers && u.server == t.server
  {
    hide ReceiveTo, MarkTo, FinishTo, BatchMs, PayloadsOf, Pending, Sane, MarkSent, Advance;
    var batch := Pending(s.store.outbox, SentSeq(s.cursors, a), MAX_BATCH_SIZE);
    FromReceipt(t, d, a, batch, BatchMs(s.store, s.cursors, a), at);
    assert (map e | e in t.drainers && e != d :: t.drainers[e]) == s.drainers;
  }

  /** An undisturbed drain is a run of the protocol: seven actions that leave the local tables as
      SyncQueue.DrainImpl does, one batch on the server, and the drainer idle. */
  lemma DrainIsRun(env: Env, s: System, d: nat, a: Account, level: Privacy, now: int, at: int)
    requires Sane(s.store) && d !in s.drainers && level != AggregateOnly
    requires Pending(s.store.outbox, SentSeq(s.cursors, a), MAX_BATCH_SIZE) != []
    ensures var t := From(env, s, DrainActions(d, a, level, |s.requests|, now, at));
            && ClientOf(t) == Drain(ClientOf(s), a, Acked(BatchMs(s.store, s.cursors, a), at))
            && t.store.events == s.store.events && t.drainers == s.drainers
            && t.server == TeamBatch.Batch(s.server, a.0, PayloadsOf(env, s, a, level), now, env.cap)
  {
    var sent := Sent(env, s, d, a, level);
    var t := CommitTo(env, sent, |s.requests|, now);
    DrainRun(env, s, d, a, level, now, at);
    CommitOwn(env, s, d, a, level, now);
    hide *;
    Settled(env, s, t, d, a, level, at);
  }

  lemma FailAndNote(env: Env, s: System, d: nat, a: Account, message: string)
    requires Sane(s.store) && d in s.drainers && s.drainers[d].Waiting? && s.drainers[d].account == a
    ensures Step(env, Step(env, s, Fail(d)), Note(d, message)) == Idle(s, d).(cursors := RecordError(s.cursors, a, message))
  {}

  lemma FailureRun(env: Env, s: System, d: nat, a: Account, level: Privacy, message: string)
    requires Sane(s.store) && d !in s.drainers && level != AggregateOnly
    requires Pending(s.store.outbox, SentSeq(s.cursors, a), MAX_BATCH_SIZE) != []
    ensures var sent := Sent(env, s, d, a, level);
            From(env, s, FailureActions(d, a, level, message)) == Idle(sent, d).(cursors := RecordError(sent.cursors, a, message))
  {
    var sent, send := Sent(env, s, d, a, level), SendActions(d, a, level);
    assert FailureActions(d, a, level, message) == send + [Fail(d)] + [Note(d, message)];
    assert Sane(sent.store) && sent.drainers[d].Waiting? && sent.drainers[d].account == a;
    hide *;
    SendRun(env, s, d, a, level);
    FromMore(env, s, send, Fail(d), send + [Fail(d)]);
    FromMore(env, s, send + [Fail(d)], Note(d, message), send + [Fail(d)] + [Note(d, message)]);
    FailAndNote(env, sent, d, a, message);
  }

  /** So is a drain whose upload fails: five actions that leave the tables as a failing SyncQueue.DrainImpl does,
      and the server untouched. */
  lemma FailureIsRun(env: Env, s: System, d: nat, a: Account, level: Privacy, message: string)
    requires Sane(s.store) && d !in s.drainers && level != AggregateOnly
    requires Pending(s.store.outbox, SentSeq(s.cursors, a), MAX_BATCH_SIZE) != []
    ensures var t := From(env, s, FailureActions(d, a, level, message));
            && ClientOf(t) == Drain(ClientOf(s), a, Lost(message))
            && t.store == s.store && t.drainers == s.drainers && t.server == s.server
  {
    FailureRun(env, s, d, a, level, message);
    SentIs(env, s, d, a, level);
    hide From, FailureActions, Sent, BatchMs, PayloadsOf, Pending, Sane, PeekTo, PullTo;
  }

  /** With nothing pending, looking is all a drain does. */
  lemma IdleIsRun(env: Env, s: System, d: nat, a: Account, level: Privacy)
    requires Sane(s.store) && d !in s.drainers && level != AggregateOnly
    requires Pending(s.store.outbox, SentSeq(s.cursors, a), MAX_BATCH_SIZE) == []
    ensures From(env, s, [Peek(d, a), Pull(d, level)]) == s
    ensures forall x :: Drain(ClientOf(s), a, x) == ClientOf(s)
  {
    var peeked := Peeked(a, SentSeq(s.cursors, a), AckedMs(s.cursors, a));
    FromMore(env, s, [], Peek(d, a), [Peek(d, a)]);
    FromMore(env, s, [Peek(d, a)], Pull(d, level), [Peek(d, a), Pull(d, level)]);
    PullStep(env, At(s, d, peeked), d, a, level);
    assert Idle(At(s, d, peeked), d).drainers == s.drainers;
  }
}
