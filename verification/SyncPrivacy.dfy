/** What the sync protocol discloses: in every run each payload on the wire is the upload of an event once written,
    at a level at which a batch was pulled. */
module SyncPrivacy {
  import opened Wrappers
  import opened TeamModel
  import opened Redaction
  import opened LocalDb
  import opened SyncProtocol
  import TeamBatch
  import TeamMembership

  /** The event was written by some action of the run. */
  ghost predicate Written(actions: seq<Action>, e: UsageEvent) { exists x :: x in actions && x.Write? && e in x.events }

  /** Some action of the run pulled a batch at this level. */
  ghost predicate PulledAt(actions: seq<Action>, level: Privacy) { exists x :: x in actions && x.Pull? && x.level == level }

  /** The payload tells an account's server of one written event, field by field, at a level that was asked for. */
  ghost predicate Told(env: Env, actions: seq<Action>, a: Account, p: Payload) {
    && p.Event? && p.e.privacy != AggregateOnly && PulledAt(actions, p.e.privacy)
    && exists e :: Written(actions, e) && UploadOf(p.e, e, p.e.privacy, Context(a.0, a.1, env.nodeId))
  }

  ghost predicate AllTold(env: Env, actions: seq<Action>, a: Account, payloads: seq<Payload>) {
    forall p <- payloads :: Told(env, actions, a, p)
  }

  ghost predicate Discloses(env: Env, actions: seq<Action>, s: System) {
    && (forall id <- s.store.events :: Written(actions, s.store.events[id]))
    && (forall r <- s.requests :: AllTold(env, actions, r.account, r.payloads))
    && (forall d <- s.drainers | s.drainers[d].Pulled? :: AllTold(env, actions, s.drainers[d].account, s.drainers[d].payloads))
  }

  lemma WrittenMore(actions: seq<Action>, x: Action, e: UsageEvent)
    requires Written(actions, e) || (x.Write? && e in x.events)
    ensures Written(actions + [x], e)
  {
    if Written(actions, e) {
      var w :| w in actions && w.Write? && e in w.events;
      assert w in actions + [x];
    } else {
      assert x in actions + [x];
    }
  }

  lemma PulledMore(actions: seq<Action>, x: Action, level: Privacy)
    requires PulledAt(actions, level) || (x.Pull? && x.level == level)
    ensures PulledAt(actions + [x], level)
  {
    if PulledAt(actions, level) {
      var w :| w in actions && w.Pull? && w.level == level;
      assert w in actions + [x];
    } else {
      assert x in actions + [x];
    }
  }

  lemma ToldMore(env: Env, actions: seq<Action>, x: Action, a: Account, ps: seq<Payload>)
    requires AllTold(env, actions, a, ps)
    ensures AllTold(env, actions + [x], a, ps)
  {
    hide UploadOf;
    forall p <- ps ensures Told(env, actions + [x], a, p) {
      assert Told(env, actions, a, p);
      var e :| Written(actions, e) && UploadOf(p.e, e, p.e.privacy, Context(a.0, a.1, env.nodeId));
      WrittenMore(actions, x, e);
      PulledMore(actions, x, p.e.privacy);
    }
  }

  lemma DisclosesMore(env: Env, actions: seq<Action>, x: Action, s: System)
    requires Discloses(env, actions, s)
    ensures Discloses(env, actions + [x], s)
  {
    hide AllTold, Written;
    forall id <- s.store.events ensures Written(actions + [x], s.store.events[id]) {
      WrittenMore(actions, x, s.store.events[id]);
    }
    forall r <- s.requests ensures AllTold(env, actions + [x], r.account, r.payloads) {
      ToldMore(env, actions, x, r.account, r.payloads);
    }
    forall d <- s.drainers | s.drainers[d].Pulled? ensures AllTold(env, actions + [x], s.drainers[d].account, s.drainers[d].payloads) {
      ToldMore(env, actions, x, s.drainers[d].account, s.drainers[d].payloads);
    }
  }

  lemma {:induction false} PutAllFrom(s: Store, es: seq<UsageEvent>, now: int)
    ensures forall id <- PutAll(s, es, now).events ::
              PutAll(s, es, now).events[id] in es || (id in s.events && PutAll(s, es, now).events[id] == s.events[id])
    decreases |es|
  {
    hide Enqueue;
    if es == [] {
    } else {
      PutAllFrom(s, es[..|es| - 1], now);
      assert es[|es| - 1] in es && forall e <- es[..|es| - 1] :: e in es;
    }
  }

  lemma PullTells(env: Env, actions: seq<Action>, s: Store, a: Account, batch: seq<nat>, level: Privacy)
    requires Sane(s) && forall q <- batch :: q in s.outbox.rows
    requires level != AggregateOnly && PulledAt(actions, level) && forall id <- s.events :: Written(actions, s.events[id])
    ensures AllTold(env, actions, a, Redacts(EventsAt(s, batch), level, ContextOf(env, a)))
  {
    hide PulledAt, Written, RedactEvent, UploadOf;
    var es := EventsAt(s, batch);
    var ps := Redacts(es, level, ContextOf(env, a));
    forall p <- ps ensures Told(env, actions, a, p) {
      var i :| 0 <= i < |ps| && ps[i] == p;
      RedactsIntoUpload(es[i], level, ContextOf(env, a));
      LevelKept(es[i], level, ContextOf(env, a));
      assert Written(actions, es[i]);
    }
  }

  lemma LevelKept(e: UsageEvent, level: Privacy, c: Context)
    requires level != AggregateOnly
    ensures RedactEvent(e, level, c).privacy == level
  {}

  lemma PullDiscloses(env: Env, actions: seq<Action>, s: System, d: nat, level: Privacy)
    requires Sane(s.store) && PulledAt(actions, level) && Discloses(env, actions, s)
    ensures Discloses(env, actions, PullTo(env, s, d, level))
  {
    if d in s.drainers && s.drainers[d].Peeked? && level != AggregateOnly {
      var pc := s.drainers[d];
      var batch := Pending(s.store.outbox, pc.after, MAX_BATCH_SIZE);
      PendingIs(s.store.outbox, pc.after, MAX_BATCH_SIZE);
      PullTells(env, actions, s.store, pc.account, batch, level);
    }
    hide AllTold, Written, PulledAt, EventsAt, Redacts, Pending, MaxTimestamp, Sane, Ascending;
  }

  lemma StepDiscloses(env: Env, actions: seq<Action>, s: System, x: Action)
    requires Sane(s.store) && Discloses(env, actions, s)
    ensures Discloses(env, actions + [x], Step(env, s, x))
  {
    DisclosesMore(env, actions, x, s);
    var all := actions + [x];
    assert x in all;
    if x.Pull? {
      PulledMore(actions, x, x.level);
      PullDiscloses(env, all, s, x.d, x.level);
    } else if x.Write? {
      PutAllFrom(s.store, x.events, x.now);
      WriteDiscloses(env, all, s, x);
    } else {
      hide AllTold, Written, PulledAt, EventsAt, Redacts, Pending, MaxTimestamp, PullTo, PutAll, MarkSent, Advance, RecordError,
           TeamBatch.Batch, TeamBatch.Reply, Sane, TeamMembership.Apply;
    }
  }

  lemma WriteDiscloses(env: Env, all: seq<Action>, s: System, x: Action)
    requires Sane(s.store) && x.Write? && x in all && Discloses(env, all, s)
    ensures Discloses(env, all, Step(env, s, x))
  {
    PutAllFrom(s.store, x.events, x.now);
    hide AllTold, PutAll, Sane;
    var t := Step(env, s, x);
    forall id <- t.store.events ensures Written(all, t.store.events[id]) {
      if t.store.events[id] in x.events {
        assert x in all;
      }
    }
  }

  /** In every run each payload of each request is, field by field, the upload of a written event. */
  lemma {:induction false} OnlyWrittenIsSent(env: Env, actions: seq<Action>)
    ensures Discloses(env, actions, Exec(env, actions))
    decreases |actions|
  {
    if actions == [] {
    } else {
      var before, x := actions[..|actions| - 1], actions[|actions| - 1];
      OnlyWrittenIsSent(env, before);
      StepDiscloses(env, before, Exec(env, before), x);
      assert actions == before + [x];
    }
  }

  /** A client that only ever pulls at `redacted` sends no project, session, message or latency, however its
      drains interleave, fail and repeat. */
  lemma RedactedSendsNothingPrivate(env: Env, actions: seq<Action>)
    requires forall x <- actions | x.Pull? :: x.level == Redacted
    ensures forall r <- Exec(env, actions).requests :: forall p <- r.payloads ::
              p.Event? && p.e.project == None && p.e.sessionId == None && p.e.messageId == None && p.e.latencyMs == None
  {
    OnlyWrittenIsSent(env, actions);
    hide Exec, Written;
    forall r <- Exec(env, actions).requests
      ensures forall p <- r.payloads ::
                p.Event? && p.e.project == None && p.e.sessionId == None && p.e.messageId == None && p.e.latencyMs == None
    {
      assert AllTold(env, actions, r.account, r.payloads);
      forall p <- r.payloads
        ensures p.Event? && p.e.project == None && p.e.sessionId == None && p.e.messageId == None && p.e.latencyMs == None
      {
        assert Told(env, actions, r.account, p);
      }
    }
  }
}
