/** Safety of the sync protocol over every run. */
module SyncSafety {
  import opened Wrappers
  import opened JoinedKeys
  import opened TeamModel
  import opened Redaction
  import opened LocalDb
  import opened SyncProtocol
  import TeamBatch
  import TeamRollup
  import TeamReplay
  import TeamMembership

  // ---- steps that only add -------------------------------------------------

  ghost predicate SameSent(o: Outbox, p: Outbox) {
    forall q <- p.rows | p.rows[q].sentAt.Some? :: q in o.rows && o.rows[q].sentAt.Some? && o.rows[q].eventId == p.rows[q].eventId
  }

  lemma SentStaysSettled(env: Env, s: System, t: System)
    requires SentIsSettled(env, s) && Grows(s, t) && SameSent(s.store.outbox, t.store.outbox) && t.via == s.via
    ensures SentIsSettled(env, t)
  {
    forall q <- t.store.outbox.rows | t.store.outbox.rows[q].sentAt.Some?
      ensures q in t.via && Settled(t, t.via[q], IdFor(env, t.via[q], t.store.outbox.rows[q].eventId))
    {
      SettledStays(s, t, s.via[q], IdFor(env, s.via[q], s.store.outbox.rows[q].eventId));
    }
  }

  lemma CommittedStaysSettled(s: System, t: System)
    requires CommittedIsSettled(s) && Grows(s, t) && t.committed == s.committed
    ensures CommittedIsSettled(t)
  {
    forall r <- t.committed
      ensures r < |t.requests| && forall p <- t.requests[r].payloads | p.Event? :: Settled(t, t.requests[r].account, p.Id())
    {
      assert t.requests[r] == s.requests[r];
      forall p <- t.requests[r].payloads | p.Event? ensures Settled(t, t.requests[r].account, p.Id()) {
        SettledStays(s, t, s.requests[r].account, p.Id());
      }
    }
  }

  /** What has been settled stays so: for steps that mark nothing and commit nothing. */
  lemma AllStaySettled(env: Env, s: System, t: System)
    requires SentIsSettled(env, s) && CommittedIsSettled(s) && Grows(s, t) && SameSent(s.store.outbox, t.store.outbox)
    requires t.committed == s.committed && t.via == s.via
    ensures SentIsSettled(env, t) && CommittedIsSettled(t)
  {
    SentStaysSettled(env, s, t);
    CommittedStaysSettled(s, t);
  }

  lemma GrowthKeeps(env: Env, s: System, t: System)
    requires Inv(env, s) && Grows(s, t) && Sane(t.store) && SameSent(s.store.outbox, t.store.outbox)
    requires t.cursors == s.cursors && t.drainers == s.drainers && t.committed == s.committed && t.via == s.via
    requires forall r <- t.requests :: forall p <- r.payloads :: p.Event?
    ensures Inv(env, t)
  {
    forall d <- t.drainers ensures PcOk(env, t, t.drainers[d]) {
      PcStays(env, s, t, s.drainers[d]);
    }
    CursorsStay(s, t);
    AllStaySettled(env, s, t);
  }

  lemma WriteKeeps(env: Env, s: System, events: seq<UsageEvent>, now: int)
    requires Inv(env, s)
    ensures Inv(env, s.(store := PutAll(s.store, events, now)))
  {
    PutAllSane(s.store, events, now);
    PutAllAppends(s.store, events, now);
    GrowthKeeps(env, s, s.(store := PutAll(s.store, events, now)));
  }

  lemma ServedGrows(env: Env, s: System, teamId: string, payloads: seq<Payload>, now: int)
    ensures Grows(s, Served(env, s, teamId, payloads, now))
  {
    TeamReplay.RowsImmutable(s.server, teamId, payloads, now, env.cap);
  }

  lemma ServedKeeps(env: Env, s: System, teamId: string, payloads: seq<Payload>, now: int)
    requires Inv(env, s)
    ensures Inv(env, Served(env, s, teamId, payloads, now))
  {
    ServedGrows(env, s, teamId, payloads, now);
    GrowthKeeps(env, s, Served(env, s, teamId, payloads, now));
  }

  /** After a commit every event of the request is stored or refused in the answer to it. */
  lemma CommitSettles(env: Env, s: System, r: nat, now: int)
    requires r < |s.requests|
    ensures var t := CommitTo(env, s, r, now);
            forall p <- s.requests[r].payloads | p.Event? :: Settled(t, s.requests[r].account, p.Id())
  {
    var a, payloads := s.requests[r].account, s.requests[r].payloads;
    var t := CommitTo(env, s, r, now);
    TeamReplay.AllAnswered(s.server, a.0, payloads, now, env.cap);
    var reply := TeamBatch.Reply(s.server, a.0, payloads, now, env.cap);
    forall p <- payloads | p.Event? ensures Settled(t, a, p.Id()) {
      if reason :| Rejection(p.Id(), reason) in reply.rejected {
        assert (r, Rejection(p.Id(), reason).id) in RejectedIds(r, reply);
        assert RefusedIn(t, r, a, p.Id());
      }
    }
  }

  lemma CommitKeeps(env: Env, s: System, r: nat, now: int)
    requires Inv(env, s) && r < |s.requests|
    ensures Inv(env, CommitTo(env, s, r, now))
  {
    var t := CommitTo(env, s, r, now);
    ServedGrows(env, s, s.requests[r].account.0, s.requests[r].payloads, now);
    CommitSettles(env, s, r, now);
    GrowthKeeps(env, s, t.(committed := s.committed));
    var u := t.(committed := s.committed);
    assert Grows(u, t);
    forall d <- t.drainers ensures PcOk(env, t, t.drainers[d]) {
      PcStays(env, u, t, u.drainers[d]);
    }
    SentStaysSettled(env, u, t);
    forall x <- t.committed
      ensures x < |t.requests| && forall p <- t.requests[x].payloads | p.Event? :: Settled(t, t.requests[x].account, p.Id())
    {
      if x in u.committed {
        forall p <- t.requests[x].payloads | p.Event? ensures Settled(t, t.requests[x].account, p.Id()) {
          SettledStays(u, t, u.requests[x].account, p.Id());
        }
      }
    }
  }

  // ---- steps of one drainer ------------------------------------------------

  lemma MoveKeeps(env: Env, s: System, d: nat, pc: Pc)
    requires Inv(env, s) && PcOk(env, s, pc)
    requires pc.Pulled? ==> forall p <- pc.payloads :: p.Event?
    ensures Inv(env, At(s, d, pc))
  {
    var t := At(s, d, pc);
    assert Grows(s, t);
    AllStaySettled(env, s, t);
    forall e <- t.drainers ensures PcOk(env, t, t.drainers[e]) {
      PcStays(env, s, t, t.drainers[e]);
    }
  }

  lemma IdleKeeps(env: Env, s: System, d: nat)
    requires Inv(env, s)
    ensures Inv(env, Idle(s, d))
  {
    var t := Idle(s, d);
    assert Grows(s, t);
    AllStaySettled(env, s, t);
    forall e <- t.drainers ensures PcOk(env, t, t.drainers[e]) {
      PcStays(env, s, t, t.drainers[e]);
    }
  }

  lemma PullHolds(o: Outbox, after: nat)
    requires SentUpTo(o, after) && (forall q <- o.rows :: q < o.nextSeq)
    ensures var b := Pending(o, after, MAX_BATCH_SIZE); b != [] ==> Holds(o, b)
  {
    PendingIs(o, after, MAX_BATCH_SIZE);
    var b := Pending(o, after, MAX_BATCH_SIZE);
    if b != [] {
      assert Last(b) in b;
      forall q <- o.rows | q <= Last(b) ensures o.rows[q].sentAt.Some? || q in b {
        assert q <= after || after < q <= b[|b| - 1];
      }
    }
  }

  lemma PullKeeps(env: Env, s: System, d: nat, level: Privacy)
    requires Inv(env, s) && d in s.drainers && s.drainers[d].Peeked? && level != AggregateOnly
    ensures Inv(env, Step(env, s, Pull(d, level)))
  {
    var pc := s.drainers[d];
    var o := s.store.outbox;
    var batch := Pending(o, pc.after, MAX_BATCH_SIZE);
    PendingIs(o, pc.after, MAX_BATCH_SIZE);
    assert PcOk(env, s, pc);
    PullHolds(o, pc.after);
    if batch == [] {
      IdleKeeps(env, s, d);
    } else {
      var es := EventsAt(s.store, batch);
      var payloads := Redacts(es, level, ContextOf(env, pc.account));
      EventIds(env, s, pc.account, batch, level);
      MoveKeeps(env, s, d, Pulled(pc.account, batch, payloads, MaxTimestamp(es, pc.ms)));
    }
  }

  lemma EventIds(env: Env, s: System, a: Account, batch: seq<nat>, level: Privacy)
    requires Sane(s.store) && level != AggregateOnly && forall q <- batch :: q in s.store.outbox.rows
    ensures Matches(env, a, s.store.outbox, batch, Redacts(EventsAt(s.store, batch), level, ContextOf(env, a)))
  {
    var es := EventsAt(s.store, batch);
    var ps := Redacts(es, level, ContextOf(env, a));
    forall i | 0 <= i < |batch|
      ensures batch[i] in s.store.outbox.rows && ps[i].Id() == IdFor(env, a, s.store.outbox.rows[batch[i]].eventId)
    {
      assert batch[i] in batch;
      UploadId(es[i], level, ContextOf(env, a));
    }
  }

  lemma UploadId(e: UsageEvent, level: Privacy, c: Context)
    requires level != AggregateOnly
    ensures Event(RedactEvent(e, level, c)).Id() == SyncEventIdFor(c, e.id)
  {}

  lemma SendKeeps(env: Env, s: System, d: nat)
    requires Inv(env, s) && d in s.drainers && s.drainers[d].Pulled?
    ensures var pc := s.drainers[d];
            Inv(env, At(s, d, Waiting(pc.account, pc.batch, |s.requests|, pc.ms)).(requests := s.requests + [Request(pc.account, pc.payloads)]))
  {
    var pc := s.drainers[d];
    assert PcOk(env, s, pc);
    var t := s.(requests := s.requests + [Request(pc.account, pc.payloads)]);
    GrowthKeeps(env, s, t);
    MoveKeeps(env, t, d, Waiting(pc.account, pc.batch, |s.requests|, pc.ms));
  }

  lemma ReceiveKeeps(env: Env, s: System, d: nat)
    requires Inv(env, s) && d in s.drainers && s.drainers[d].Waiting? && s.drainers[d].request in s.committed
    ensures var pc := s.drainers[d]; Inv(env, At(s, d, Acknowledged(pc.account, pc.batch, pc.ms)))
  {
    var pc := s.drainers[d];
    assert PcOk(env, s, pc);
    ReceivedIsSettled(env, s, pc);
    MoveKeeps(env, s, d, Acknowledged(pc.account, pc.batch, pc.ms));
  }

  lemma ReceivedIsSettled(env: Env, s: System, pc: Pc)
    requires pc.Waiting? && PcOk(env, s, pc) && pc.request in s.committed
    requires CommittedIsSettled(s) && RequestsAreEvents(s)
    ensures forall q <- pc.batch :: Settled(s, pc.account, IdFor(env, pc.account, s.store.outbox.rows[q].eventId))
  {
    var payloads := s.requests[pc.request].payloads;
    forall q <- pc.batch ensures Settled(s, pc.account, IdFor(env, pc.account, s.store.outbox.rows[q].eventId)) {
      var i :| 0 <= i < |pc.batch| && pc.batch[i] == q;
      assert payloads[i] in payloads && s.requests[pc.request] in s.requests;
    }
  }

  lemma MarkProgress(o: Outbox, n: nat, at: int)
    ensures Progress(o, o.(rows := MarkSent(o.rows, n, at)))
  {}

  lemma MarkSettles(env: Env, s: System, pc: Pc, at: int)
    requires Inv(env, s) && pc.Acknowledged? && PcOk(env, s, pc)
    ensures var t := Marking(s, pc.account, pc.batch, at);
            SentIsSettled(env, t) && SentUpTo(t.store.outbox, Last(pc.batch))
  {
    var t := Marking(s, pc.account, pc.batch, at);
    MarkProgress(s.store.outbox, Last(pc.batch), at);
    forall q <- t.store.outbox.rows | t.store.outbox.rows[q].sentAt.Some?
      ensures q in t.via && Settled(t, t.via[q], IdFor(env, t.via[q], t.store.outbox.rows[q].eventId))
    {
      SettledStays(s, t, t.via[q], IdFor(env, t.via[q], s.store.outbox.rows[q].eventId));
    }
  }

  lemma MarkKeeps(env: Env, s: System, d: nat, at: int)
    requires Inv(env, s) && d in s.drainers && s.drainers[d].Acknowledged?
    ensures Inv(env, Step(env, s, Mark(d, at)))
  {
    var pc := s.drainers[d];
    assert PcOk(env, s, pc);
    MarkSentSane(s.store, Last(pc.batch), at);
    MarkProgress(s.store.outbox, Last(pc.batch), at);
    MarkSettles(env, s, pc, at);
    var t := Marking(s, pc.account, pc.batch, at);
    assert Grows(s, t);
    CommittedStaysSettled(s, t);
    forall e <- t.drainers ensures PcOk(env, t, t.drainers[e]) {
      PcStays(env, s, t, s.drainers[e]);
    }
    CursorsStay(s, t);
    MoveKeeps(env, t, d, Marked(pc.account, pc.batch, pc.ms));
  }

  /** Changing cursors only. */
  lemma CursorKeeps(env: Env, s: System, cursors: Cursors)
    requires Inv(env, s) && forall a <- cursors :: SentUpTo(s.store.outbox, cursors[a].sentSeq)
    ensures Inv(env, s.(cursors := cursors))
  {
    var t := s.(cursors := cursors);
    assert Grows(s, t);
    AllStaySettled(env, s, t);
    forall e <- t.drainers ensures PcOk(env, t, t.drainers[e]) {
      PcStays(env, s, t, s.drainers[e]);
    }
  }

  lemma FinishKeeps(env: Env, s: System, d: nat, at: int)
    requires Inv(env, s) && d in s.drainers && s.drainers[d].Marked?
    ensures Inv(env, Step(env, s, Finish(d, at)))
  {
    var pc := s.drainers[d];
    assert PcOk(env, s, pc);
    CursorKeeps(env, s, Advance(s.cursors, pc.account, Last(pc.batch), pc.ms, at));
    IdleKeeps(env, s.(cursors := Advance(s.cursors, pc.account, Last(pc.batch), pc.ms, at)), d);
  }

  lemma ErrorMovesNoCursor(o: Outbox, cursors: Cursors, a: Account, message: string)
    requires o.nextSeq >= 1 && 0 !in o.rows && forall c <- cursors :: SentUpTo(o, cursors[c].sentSeq)
    ensures forall c <- RecordError(cursors, a, message) :: SentUpTo(o, RecordError(cursors, a, message)[c].sentSeq)
  {}

  lemma NoteKeeps(env: Env, s: System, d: nat, message: string)
    requires Inv(env, s) && d in s.drainers && s.drainers[d].Failing?
    ensures Inv(env, Idle(s, d).(cursors := RecordError(s.cursors, s.drainers[d].account, message)))
  {
    var account := s.drainers[d].account;
    ErrorMovesNoCursor(s.store.outbox, s.cursors, account, message);
    CursorKeeps(env, s, RecordError(s.cursors, account, message));
    IdleKeeps(env, s.(cursors := RecordError(s.cursors, account, message)), d);
  }

  lemma MembershipKeeps(env: Env, s: System, change: TeamMembership.Change)
    requires Inv(env, s)
    ensures Inv(env, Step(env, s, Membership(change)))
  {
    GrowthKeeps(env, s, Step(env, s, Membership(change)));
  }

  // ---- all runs ------------------------------------------------------------

  lemma StepKeeps(env: Env, s: System, a: Action)
    requires Inv(env, s)
    ensures Inv(env, Step(env, s, a))
  {
    hide PutAll, EventsAt, Redacts, MarkSent, Advance, Served, MaxTimestamp;
    if Step(env, s, a) == s {
      return;
    }
    match a
    case Write(events, now) => WriteKeeps(env, s, events, now);
    case Peek(d, account) =>
      MoveKeeps(env, s, d, Peeked(account, SentSeq(s.cursors, account), AckedMs(s.cursors, account)));
    case Pull(d, level) => PullKeeps(env, s, d, level);
    case Send(d) => SendKeeps(env, s, d);
    case Commit(r, now) => CommitKeeps(env, s, r, now);
    case Receive(d) => ReceiveKeeps(env, s, d);
    case Fail(d) => MoveKeeps(env, s, d, Failing(s.drainers[d].account));
    case Mark(d, at) => MarkKeeps(env, s, d, at);
    case Finish(d, at) => FinishKeeps(env, s, d, at);
    case Note(d, message) => NoteKeeps(env, s, d, message);
    case Crash(d) => IdleKeeps(env, s, d);
    case OtherUpload(teamId, payloads, now) => ServedKeeps(env, s, teamId, payloads, now);
    case Membership(change) => MembershipKeeps(env, s, change);
  }

  lemma {:induction false} Safety(env: Env, actions: seq<Action>)
    ensures Inv(env, Exec(env, actions))
    decreases |actions|
  {
    if actions == [] {
    } else {
      Safety(env, actions[..|actions| - 1]);
      StepKeeps(env, Exec(env, actions[..|actions| - 1]), actions[|actions| - 1]);
    }
  }

  /** Every outbox row marked sent has its id, for the account it was marked for, stored by the server or
      refused in the answer to an upload this client made for that account. */
  lemma SentMeansSettled(env: Env, actions: seq<Action>, q: nat)
    requires var s := Exec(env, actions); q in s.store.outbox.rows && s.store.outbox.rows[q].sentAt.Some?
    ensures var s := Exec(env, actions);
            q in s.via && Settled(s, s.via[q], IdFor(env, s.via[q], s.store.outbox.rows[q].eventId))
  {
    Safety(env, actions);
  }

  /** Whoever a drain runs for, asks for or marks rows for is among these accounts. */
  ghost predicate Among(s: System, accounts: set<Account>) {
    && (forall d <- s.drainers :: s.drainers[d].account in accounts)
    && (forall r <- s.requests :: r.account in accounts)
    && (forall q <- s.via :: s.via[q] in accounts)
  }

  /** A step puts a drainer on the account it has, or on the one it peeks for. */
  lemma StepDrainers(env: Env, s: System, x: Action, accounts: set<Account>)
    requires Sane(s.store) && (x.Peek? ==> x.account in accounts) && forall d <- s.drainers :: s.drainers[d].account in accounts
    ensures forall d <- Step(env, s, x).drainers :: Step(env, s, x).drainers[d].account in accounts
  {
    hide PutAll, EventsAt, Redacts, MarkSent, Advance, TeamBatch.Batch, TeamBatch.Reply, MaxTimestamp, Pending;
    match x
    case Pull(d, _) => if d in s.drainers { assert s.drainers[d].account in accounts; }
    case Send(d) => if d in s.drainers { assert s.drainers[d].account in accounts; }
    case Receive(d) => if d in s.drainers { assert s.drainers[d].account in accounts; }
    case Fail(d) => if d in s.drainers { assert s.drainers[d].account in accounts; }
    case Mark(d, _) => if d in s.drainers { assert s.drainers[d].account in accounts; }
    case _ =>
  }

  lemma StepRequests(env: Env, s: System, x: Action, accounts: set<Account>)
    requires Sane(s.store) && Among(s, accounts)
    ensures forall r <- Step(env, s, x).requests :: r.account in accounts
  {
    hide PutAll, EventsAt, Redacts, MarkSent, Advance, TeamBatch.Batch, TeamBatch.Reply, MaxTimestamp, Pending;
    if x.Send? && x.d in s.drainers {
      assert s.drainers[x.d].account in accounts;
    }
  }

  lemma StepVia(env: Env, s: System, x: Action, accounts: set<Account>)
    requires Sane(s.store) && Among(s, accounts)
    ensures forall q <- Step(env, s, x).via :: Step(env, s, x).via[q] in accounts
  {
    hide PutAll, EventsAt, Redacts, MarkSent, Advance, TeamBatch.Batch, TeamBatch.Reply, MaxTimestamp, Pending;
    if x.Mark? && x.d in s.drainers {
      assert s.drainers[x.d].account in accounts;
    }
  }

  /** No account turns up that no drain has started for. */
  lemma {:induction false} OnlyPeeked(env: Env, actions: seq<Action>, accounts: set<Account>)
    requires forall x <- actions | x.Peek? :: x.account in accounts
    ensures Among(Exec(env, actions), accounts)
    decreases |actions|
  {
    hide Step;
    if actions == [] {
    } else {
      var before, x := actions[..|actions| - 1], actions[|actions| - 1];
      assert x in actions && forall y <- before :: y in actions;
      OnlyPeeked(env, before, accounts);
      StepDrainers(env, Exec(env, before), x, accounts);
      StepRequests(env, Exec(env, before), x, accounts);
      StepVia(env, Exec(env, before), x, accounts);
    }
  }

  /** One team, one user: every row marked sent is settled for them, and nothing is skipped: no cursor is
      at or beyond a row that is still unsent. */
  lemma SentForOneAccount(env: Env, actions: seq<Action>, a: Account, q: nat)
    requires forall x <- actions | x.Peek? :: x.account == a
    requires q in Exec(env, actions).store.outbox.rows
    ensures var s := Exec(env, actions);
            && (s.store.outbox.rows[q].sentAt.Some? ==> Settled(s, a, IdFor(env, a, s.store.outbox.rows[q].eventId)))
            && (s.store.outbox.rows[q].sentAt.None? ==> forall c <- s.cursors :: s.cursors[c].sentSeq < q)
  {
    OnlyPeeked(env, actions, {a});
    Safety(env, actions);
  }

  /** Both watermarks of a cursor only ever move forward, and no cursor disappears. */
  lemma WatermarksRise(env: Env, s: System, x: Action, a: Account)
    requires Sane(s.store) && a in s.cursors
    ensures var t := Step(env, s, x);
            a in t.cursors && t.cursors[a].sentSeq >= s.cursors[a].sentSeq && t.cursors[a].ackedMs >= s.cursors[a].ackedMs
  {}

  /** Over whole runs: whatever happens later, no watermark falls behind what it was. */
  lemma {:induction false} WatermarksNeverFall(env: Env, actions: seq<Action>, i: nat, a: Account)
    requires i <= |actions| && a in Exec(env, actions[..i]).cursors
    ensures var s, t := Exec(env, actions[..i]), Exec(env, actions);
            a in t.cursors && t.cursors[a].sentSeq >= s.cursors[a].sentSeq && t.cursors[a].ackedMs >= s.cursors[a].ackedMs
    decreases |actions|
  {
    hide Step;
    if i < |actions| {
      var before := actions[..|actions| - 1];
      assert before[..i] == actions[..i];
      WatermarksNeverFall(env, before, i, a);
      WatermarksRise(env, Exec(env, before), actions[|actions| - 1], a);
    } else {
      assert actions[..i] == actions;
    }
  }

  /** No cursor is ever at or beyond a row that is not marked sent. */
  lemma NothingSkipped(env: Env, actions: seq<Action>, a: Account, q: nat)
    requires var s := Exec(env, actions); a in s.cursors && q in s.store.outbox.rows && q <= s.cursors[a].sentSeq
    ensures Exec(env, actions).store.outbox.rows[q].sentAt.Some?
  {
    Safety(env, actions);
  }

  /** Only the marking step changes an outbox row. */
  lemma OthersLeaveStore(env: Env, s: System, x: Action)
    requires Sane(s.store) && !x.Mark? && !x.Write?
    ensures Step(env, s, x).store == s.store
  {
    hide PutAll, EventsAt, Redacts, MarkSent, Advance, TeamBatch.Batch, TeamBatch.Reply;
  }

  lemma OthersMarkNothing(env: Env, s: System, x: Action)
    requires Sane(s.store) && !x.Mark?
    ensures var t := Step(env, s, x);
            forall q <- s.store.outbox.rows :: q in t.store.outbox.rows && t.store.outbox.rows[q] == s.store.outbox.rows[q]
  {
    if x.Write? {
      PutAllAppends(s.store, x.events, x.now);
    } else {
      hide Step;
      OthersLeaveStore(env, s, x);
    }
  }

  lemma MarkMarksOwn(env: Env, s: System, d: nat, at: int, q: nat)
    requires Inv(env, s) && q in s.store.outbox.rows && s.store.outbox.rows[q].sentAt.None?
    requires q in MarkTo(s, d, at).store.outbox.rows && MarkTo(s, d, at).store.outbox.rows[q].sentAt.Some?
    ensures d in s.drainers && s.drainers[d].Acknowledged? && q in s.drainers[d].batch
  {
    if d in s.drainers {
      assert PcOk(env, s, s.drainers[d]);
    }
  }

  /** Whoever marks rows sent marks rows of the batch it uploaded, and no other. */
  lemma MarksOwnBatch(env: Env, s: System, x: Action, q: nat)
    requires Inv(env, s) && q in s.store.outbox.rows && s.store.outbox.rows[q].sentAt.None?
    requires var t := Step(env, s, x); q in t.store.outbox.rows && t.store.outbox.rows[q].sentAt.Some?
    ensures x.Mark? && x.d in s.drainers && s.drainers[x.d].Acknowledged? && q in s.drainers[x.d].batch
  {
    if x.Mark? {
      hide Inv, MarkTo;
      MarkMarksOwn(env, s, x.d, x.at, q);
    } else {
      hide Step;
      OthersMarkNothing(env, s, x);
    }
  }
}
