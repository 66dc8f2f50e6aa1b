/** Where the timed guarantees end: runs that show what an outlived lease costs, and that a FAILED
    reply can be overtaken by a successful send of the same mail. */
module NotificationLimits {
  import opened Messages
  import opened Notification
  import opened NotificationRuns
  import opened NotificationTiming
  import opened NotificationDone

  // ---------- Composing runs ----------

  lemma {:induction false} TimelyRunsCompose(s: State, a: seq<Step>, b: seq<Step>)
    requires CanRun(s, a) && CanRun(Exec(s, a), b) && TimelyRun(s, a) && TimelyRun(Exec(s, a), b)
    ensures CanRun(s, a + b) && TimelyRun(s, a + b)
    decreases |a|
  {
    RunsCompose(s, a, b);
    if a == [] {
      assert a + b == b;
    } else {
      TimelyRunsCompose(Apply(s, a[0]), a[1..], b);
      assert (a + b)[1..] == a[1..] + b;
    }
  }

  lemma OneTimelyStep(s: State, step: Step)
    requires Enabled(s, step)
    ensures CanRun(s, [step]) && Exec(s, [step]) == Apply(s, step)
    ensures Timely(s, step) ==> TimelyRun(s, [step])
  {
    OneStep(s, step);
    assert [step][1..] == [];
  }

  /** `after` is reached from `before` by some run, a timely one if asked for. */
  ghost predicate Reaches(before: State, after: State, timely: bool) {
    exists steps :: CanRun(before, steps) && Exec(before, steps) == after && (timely ==> TimelyRun(before, steps))
  }

  lemma ReachStep(s0: State, s: State, step: Step, timely: bool)
    requires Reaches(s0, s, timely) && Enabled(s, step) && (timely ==> Timely(s, step))
    ensures Reaches(s0, Apply(s, step), timely)
  {
    var steps :| CanRun(s0, steps) && Exec(s0, steps) == s && (timely ==> TimelyRun(s0, steps));
    OneTimelyStep(s, step);
    RunsCompose(s0, steps, [step]);
    if timely {
      TimelyRunsCompose(s0, steps, [step]);
    }
  }

  lemma ReachSelf(s: State, timely: bool)
    ensures Reaches(s, s, timely)
  {
    assert CanRun(s, []) && Exec(s, []) == s && TimelyRun(s, []);
  }

  // ---------- An outlived lease ----------

  lemma {:induction false} ReachTicks(s0: State, s: State, n: nat)
    requires Reaches(s0, s, false)
    ensures Reaches(s0, s.(now := s.now + n), false)
    decreases n
  {
    if n > 0 {
      ReachStep(s0, s, Tick, false);
      ReachTicks(s0, Apply(s, Tick), n - 1);
    }
  }

  /** Two messages asking for the same mail, each with a handler that has not claimed yet. */
  function TwoHandlers(cfg: Config, m: EmailMessage): State {
    State(cfg, 0, map[],
          Broker(map[], map[], map[], map[], map[1 := Valid(m), 2 := Valid(m)]),
          map[1 := Received(Job(m, FromQueue(1, 0))), 2 := Received(Job(m, FromQueue(2, 0)))],
          Log([], [], {}, {}))
  }

  lemma ReachTwoHandlers(cfg: Config, m: EmailMessage, timely: bool)
    ensures Reaches(Init(cfg), TwoHandlers(cfg, m), timely)
  {
    var s0 := Init(cfg);
    ReachSelf(s0, timely);
    ReachStep(s0, s0, Publish(1, Valid(m)), timely);
    var s1 := Apply(s0, Publish(1, Valid(m)));
    ReachStep(s0, s1, Publish(2, Valid(m)), timely);
    var s2 := Apply(s1, Publish(2, Valid(m)));
    ReachStep(s0, s2, Take(1, 1), timely);
    var s3 := Apply(s2, Take(1, 1));
    ReachStep(s0, s3, Take(2, 2), timely);
    assert Apply(s3, Take(2, 2)).broker == TwoHandlers(cfg, m).broker;
    assert Apply(s3, Take(2, 2)) == TwoHandlers(cfg, m);
  }

  /** The first handler wins the key, the lease runs out, the second wins it too. */
  lemma ReachTwoHolders(cfg: Config, m: EmailMessage) returns (s: State)
    ensures Reaches(Init(cfg), s, false) && s.cfg == cfg && s.now == cfg.lease && s.log.sent == []
    ensures 1 in s.procs && s.procs[1].Claimed? && s.procs[1].job.m == m
    ensures 2 in s.procs && s.procs[2].Claimed? && s.procs[2].job.m == m
  {
    ReachTwoHandlers(cfg, m, false);
    var s0 := Init(cfg);
    s := TwoHandlers(cfg, m);
    ReachStep(s0, s, ClaimNx(1), false);
    s := Apply(s, ClaimNx(1));
    ReachTicks(s0, s, cfg.lease);
    s := s.(now := s.now + cfg.lease);
    assert !Live(s.store, s.now, m.key);
    ReachStep(s0, s, ClaimNx(2), false);
    s := Apply(s, ClaimNx(2));
  }

  /** Whatever the lease and the done TTL: two handlers of the same mail, one of which outlives its
      lease, send it twice at the same moment. So at-most-once needs the lease assumption. */
  lemma OutlivedLeaseSendsTwice(cfg: Config, m: EmailMessage) returns (s: State)
    requires cfg.doneTtl > 0
    ensures Reaches(Init(cfg), s, false) && !Spaced(s.log.sent, cfg.doneTtl)
    ensures s.log.sent == [Mail(m, cfg.lease), Mail(m, cfg.lease)]
  {
    s := ReachTwoHolders(cfg, m);
    ReachStep(Init(cfg), s, SendOk(1), false);
    s := Apply(s, SendOk(1));
    ReachStep(Init(cfg), s, SendOk(2), false);
    s := Apply(s, SendOk(2));
    assert s.log.sent[0].m.key == s.log.sent[1].m.key;
  }

  // ---------- A lost confirmation ----------

  /** No holder outlives its lease in the run; confirmations may be lost. */
  ghost predicate KeepsLeases(s: State, steps: seq<Step>)
    requires CanRun(s, steps)
    decreases |steps|
  {
    InLease(s) && (steps == [] || KeepsLeases(Apply(s, steps[0]), steps[1..]))
  }

  ghost predicate ReachesLeased(before: State, after: State) {
    exists steps :: CanRun(before, steps) && Exec(before, steps) == after && KeepsLeases(before, steps)
  }

  lemma {:induction false} TimelyKeepsLeases(s: State, steps: seq<Step>)
    requires CanRun(s, steps) && TimelyRun(s, steps) && InLease(s)
    ensures KeepsLeases(s, steps)
    decreases |steps|
  {
    if steps != [] {
      TimelyKeepsLeases(Apply(s, steps[0]), steps[1..]);
    }
  }

  lemma {:induction false} LeasedExtend(s: State, steps: seq<Step>, step: Step)
    requires CanRun(s, steps) && KeepsLeases(s, steps) && Enabled(Exec(s, steps), step) && InLease(Apply(Exec(s, steps), step))
    ensures CanRun(s, steps + [step]) && KeepsLeases(s, steps + [step])
    ensures Exec(s, steps + [step]) == Apply(Exec(s, steps), step)
    decreases |steps|
  {
    AppendStep(s, steps, step);
    if steps == [] {
      assert ([] + [step])[1..] == [];
    } else {
      assert (steps + [step])[1..] == steps[1..] + [step];
      LeasedExtend(Apply(s, steps[0]), steps[1..], step);
    }
  }

  lemma ReachLeasedStep(s0: State, s: State, step: Step)
    requires ReachesLeased(s0, s) && Enabled(s, step) && InLease(Apply(s, step))
    ensures ReachesLeased(s0, Apply(s, step))
  {
    var steps :| CanRun(s0, steps) && Exec(s0, steps) == s && KeepsLeases(s0, steps);
    LeasedExtend(s0, steps, step);
  }

  lemma {:induction false} ReachLeasedTicks(s0: State, s: State, n: nat)
    requires ReachesLeased(s0, s) && forall p :: p in s.procs ==> !Holder(s.procs[p])
    ensures ReachesLeased(s0, s.(now := s.now + n))
    decreases n
  {
    if n > 0 {
      ReachLeasedStep(s0, s, Tick);
      ReachLeasedTicks(s0, Apply(s, Tick), n - 1);
    }
  }

  /** The first of two handlers sends, and its confirmation is lost. */
  lemma ReachLostConfirm(cfg: Config, m: EmailMessage) returns (s: State)
    requires cfg.lease > 0
    ensures ReachesLeased(Init(cfg), s) && s.cfg == cfg && s.now == 0 && s.log.sent == [Mail(m, 0)]
    ensures s.store == map[m.key := Entry(Pending, cfg.lease)]
    ensures s.procs.Keys == {1, 2} && s.procs[1].Announcing? && s.procs[2] == Received(Job(m, FromQueue(2, 0)))
  {
    var s0 := Init(cfg);
    ReachTwoHandlers(cfg, m, true);
    s := TwoHandlers(cfg, m);
    var steps :| CanRun(s0, steps) && Exec(s0, steps) == s && TimelyRun(s0, steps);
    TimelyKeepsLeases(s0, steps);
    ReachLeasedStep(s0, s, ClaimNx(1));
    s := Apply(s, ClaimNx(1));
    ReachLeasedStep(s0, s, SendOk(1));
    s := Apply(s, SendOk(1));
    ReachLeasedStep(s0, s, Confirm(1, false));
    s := Apply(s, Confirm(1, false));
  }

  /** The other exclusion is needed as well: with every lease kept, a lost confirmation alone lets the mail go out a
      second time one lease later, however long the done TTL. */
  lemma LostConfirmSendsTwice(cfg: Config, m: EmailMessage) returns (s: State)
    requires 0 < cfg.lease < cfg.doneTtl
    ensures ReachesLeased(Init(cfg), s) && s.log.sent == [Mail(m, 0), Mail(m, cfg.lease)]
    ensures !Spaced(s.log.sent, cfg.doneTtl)
  {
    var s0 := Init(cfg);
    s := ReachLostConfirm(cfg, m);
    ReachLeasedTicks(s0, s, cfg.lease);
    s := s.(now := s.now + cfg.lease);
    assert !Live(s.store, s.now, m.key);
    ReachLeasedStep(s0, s, ClaimNx(2));
    s := Apply(s, ClaimNx(2));
    ReachLeasedStep(s0, s, SendOk(2));
    s := Apply(s, SendOk(2));
    assert s.log.sent[0].m.key == s.log.sent[1].m.key;
  }

  // ---------- An overtaken FAILED reply ----------

  /** A failed attempt that is not the last: the message is back in the main queue with one more
      attempt counted, and nothing else has changed. */
  lemma FailedAttempt(s0: State, s: State, id: nat, m: EmailMessage, r: nat)
    requires Reaches(s0, s, true) && s.cfg.lease > 0 && r < MAX_RETRIES
    requires s.procs == map[] && m.key !in s.store && id !in s.broker.retry
    requires id in s.broker.main && s.broker.main[id] == Letter(Valid(m), r)
    ensures Reaches(s0, s.(broker := s.broker.(main := s.broker.main[id := Letter(Valid(m), r + 1)])), true)
  {
    var s2 := s.(broker := s.broker.(main := s.broker.main - {id}, retry := s.broker.retry[id := Letter(Valid(m), r + 1)]));
    ReachRetryQueue(s0, s, id, m, r);
    ReachStep(s0, s2, Expire(id), true);
    assert s2.broker.retry - {id} == s.broker.retry;
    assert Apply(s2, Expire(id)) == s.(broker := s.broker.(main := s.broker.main[id := Letter(Valid(m), r + 1)]));
  }

  lemma ReachRetryQueue(s0: State, s: State, id: nat, m: EmailMessage, r: nat)
    requires Reaches(s0, s, true) && s.cfg.lease > 0 && r < MAX_RETRIES
    requires s.procs == map[] && m.key !in s.store
    requires id in s.broker.main && s.broker.main[id] == Letter(Valid(m), r)
    ensures Reaches(s0, s.(broker := s.broker.(main := s.broker.main - {id}, retry := s.broker.retry[id := Letter(Valid(m), r + 1)])), true)
  {
    var s1 := ReachSendFailed(s0, s, id, m, r);
    ReachStep(s0, s1, Release(1, true), true);
    assert Delete(s1.store, m.key) == s.store;
    assert s1.procs - {1} == s.procs;
  }

  lemma ReachSendFailed(s0: State, s: State, id: nat, m: EmailMessage, r: nat) returns (s3: State)
    requires Reaches(s0, s, true) && s.cfg.lease > 0
    requires s.procs == map[] && m.key !in s.store
    requires id in s.broker.main && s.broker.main[id] == Letter(Valid(m), r)
    ensures Reaches(s0, s3, true)
    ensures s3 == s.(store := s.store[m.key := Entry(Pending, s.now + s.cfg.lease)],
                     broker := s.broker.(main := s.broker.main - {id}),
                     procs := map[1 := SendFailed(Job(m, FromQueue(id, r)), s.now)])
  {
    ReachStep(s0, s, Take(1, id), true);
    var s1 := Apply(s, Take(1, id));
    ReachStep(s0, s1, ClaimNx(1), true);
    var s2 := Apply(s1, ClaimNx(1));
    ReachStep(s0, s2, SendError(1), true);
    s3 := Apply(s2, SendError(1));
  }

  /** The state in which two messages for one confirmation mail wait in the main queue. */
  function TwoWaiting(cfg: Config, m1: EmailMessage, m2: EmailMessage, r: nat): State {
    State(cfg, 0, map[],
          Broker(map[1 := Letter(Valid(m1), r), 2 := Letter(Valid(m2), 0)], map[], map[], map[],
                 map[1 := Valid(m1), 2 := Valid(m2)]),
          map[], Log([], [], {}, {}))
  }

  lemma {:induction false} ReachTwoWaiting(cfg: Config, m1: EmailMessage, m2: EmailMessage, r: nat)
    requires cfg.lease > 0 && r <= MAX_RETRIES
    ensures Reaches(Init(cfg), TwoWaiting(cfg, m1, m2, r), true)
    decreases r
  {
    var s0 := Init(cfg);
    if r == 0 {
      ReachSelf(s0, true);
      ReachStep(s0, s0, Publish(1, Valid(m1)), true);
      var s1 := Apply(s0, Publish(1, Valid(m1)));
      ReachStep(s0, s1, Publish(2, Valid(m2)), true);
      assert Apply(s1, Publish(2, Valid(m2))) == TwoWaiting(cfg, m1, m2, 0);
    } else {
      ReachTwoWaiting(cfg, m1, m2, r - 1);
      var s := TwoWaiting(cfg, m1, m2, r - 1);
      FailedAttempt(s0, s, 1, m1, r - 1);
      assert s.broker.main[1 := Letter(Valid(m1), r)] == TwoWaiting(cfg, m1, m2, r).broker.main;
    }
  }

  /** Two subscribe requests for one pending row ask for the same confirmation mail. Saga 1's message
      spends its attempts and is dead-lettered; saga 2's message is sent and confirmed; only then is
      saga 1's FAILED reply published, in a run that keeps every lease. */
  lemma FailedReplyOvertaken(cfg: Config, m1: EmailMessage, m2: EmailMessage) returns (s: State)
    requires cfg.lease > 0 && cfg.doneTtl > 0 && m1.ConfirmationMail? && m1.key == m2.key
    ensures Reaches(Init(cfg), s, true) && Enabled(s, Report(1, true)) && s.procs[1].job.m == m1
    ensures ConfirmedRecently(s, m1.key) && IsDone(s.store, s.now, m1.key)
  {
    var s0 := Init(cfg);
    ReachTwoWaiting(cfg, m1, m2, MAX_RETRIES);
    s := ReachSendFailed(s0, TwoWaiting(cfg, m1, m2, MAX_RETRIES), 1, m1, MAX_RETRIES);
    ReachStep(s0, s, Release(1, true), true);
    s := Apply(s, Release(1, true));
    s := ReachSecondSend(s0, s, m1, m2);
  }

  lemma ReachSecondClaim(s0: State, s: State, m1: EmailMessage, m2: EmailMessage) returns (s2: State)
    requires Reaches(s0, s, true) && s.cfg.lease > 0
    requires m2.key !in s.store && 2 in s.broker.main && s.broker.main[2] == Letter(Valid(m2), 0)
    requires s.procs.Keys == {1} && s.procs[1].Reporting?
    ensures Reaches(s0, s2, true) && s2.cfg == s.cfg
    ensures s2.procs == s.procs[2 := Claimed(Job(m2, FromQueue(2, 0)), s2.now)]
  {
    ReachStep(s0, s, Take(2, 2), true);
    var s1 := Apply(s, Take(2, 2));
    ReachStep(s0, s1, ClaimNx(2), true);
    s2 := Apply(s1, ClaimNx(2));
  }

  lemma ReachSecondSend(s0: State, s: State, m1: EmailMessage, m2: EmailMessage) returns (s4: State)
    requires Reaches(s0, s, true) && s.cfg.lease > 0 && s.cfg.doneTtl > 0 && m1.key == m2.key
    requires m2.key !in s.store && 2 in s.broker.main && s.broker.main[2] == Letter(Valid(m2), 0)
    requires s.procs.Keys == {1} && s.procs[1].Reporting? && Enabled(s, Report(1, true)) && s.procs[1].job.m == m1
    ensures Reaches(s0, s4, true) && Enabled(s4, Report(1, true)) && s4.procs[1].job.m == m1
    ensures ConfirmedRecently(s4, m1.key) && IsDone(s4.store, s4.now, m1.key)
  {
    var s2 := ReachSecondClaim(s0, s, m1, m2);
    ReachStep(s0, s2, SendOk(2), true);
    var s3 := Apply(s2, SendOk(2));
    ReachStep(s0, s3, Confirm(2, true), true);
    s4 := Apply(s3, Confirm(2, true));
    assert s4.log.confirmed[|s3.log.confirmed|] == Stamp(m1.key, s4.now);
  }
}
