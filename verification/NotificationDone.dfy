/** What a done key means: it is exactly a confirmation younger than the done TTL, it rules out
    further sends, and it decides whether a FAILED reply is right. */
module NotificationDone {
  import opened Notification
  import opened NotificationTiming

  // ---------- A done key is a young confirmation ----------

  /** Every done entry was written by a confirmation. */
  ghost predicate DoneStamped(s: State) {
    forall key :: key in s.store && s.store[key].value.Done? ==>
      exists i :: 0 <= i < |s.log.confirmed| && s.log.confirmed[i].key == key
                  && s.log.confirmed[i].at + s.cfg.doneTtl == s.store[key].expiresAt
  }

  ghost predicate ConfirmedRecently(s: State, key: string) {
    exists i :: 0 <= i < |s.log.confirmed| && s.log.confirmed[i].key == key && s.now < s.log.confirmed[i].at + s.cfg.doneTtl
  }

  lemma StampsPersist(s: State, s': State)
    requires DoneStamped(s) && s'.cfg == s.cfg && s.log.confirmed <= s'.log.confirmed
    requires forall key :: key in s'.store && s'.store[key].value.Done? ==> key in s.store && s'.store[key] == s.store[key]
    ensures DoneStamped(s')
  {
    forall key | key in s'.store && s'.store[key].value.Done?
      ensures exists i :: 0 <= i < |s'.log.confirmed| && s'.log.confirmed[i].key == key
                          && s'.log.confirmed[i].at + s'.cfg.doneTtl == s'.store[key].expiresAt
    {
      var i :| 0 <= i < |s.log.confirmed| && s.log.confirmed[i].key == key
               && s.log.confirmed[i].at + s.cfg.doneTtl == s.store[key].expiresAt;
      assert s'.log.confirmed[i] == s.log.confirmed[i];
    }
  }

  lemma ConfirmStamps(s: State, p: nat)
    requires DoneStamped(s) && Enabled(s, Confirm(p, true))
    ensures DoneStamped(ApplyConfirm(s, p, true))
  {
    var s' := ApplyConfirm(s, p, true);
    var n := |s.log.confirmed|;
    forall key | key in s'.store && s'.store[key].value.Done?
      ensures exists i :: 0 <= i < |s'.log.confirmed| && s'.log.confirmed[i].key == key
                          && s'.log.confirmed[i].at + s'.cfg.doneTtl == s'.store[key].expiresAt
    {
      if key == s.procs[p].job.m.key {
        assert s'.log.confirmed[n] == Stamp(key, s.now);
      } else {
        var i :| 0 <= i < |s.log.confirmed| && s.log.confirmed[i].key == key
                 && s.log.confirmed[i].at + s.cfg.doneTtl == s.store[key].expiresAt;
        assert s'.log.confirmed[i] == s.log.confirmed[i];
      }
    }
  }

  lemma StampStep(s: State, step: Step)
    requires DoneStamped(s) && Enabled(s, step)
    ensures DoneStamped(Apply(s, step))
  {
    if step.Confirm? && step.ok {
      ConfirmStamps(s, step.p);
    } else {
      StampsPersist(s, Apply(s, step));
    }
  }

  /** A key reads as done exactly while some confirmation of it is younger than the done TTL. */
  lemma DoneIffConfirmedRecently(s: State, key: string)
    requires AtMostOnce(s) && DoneStamped(s)
    ensures IsDone(s.store, s.now, key) <==> ConfirmedRecently(s, key)
  {
    if IsDone(s.store, s.now, key) {
      var i :| 0 <= i < |s.log.confirmed| && s.log.confirmed[i].key == key
               && s.log.confirmed[i].at + s.cfg.doneTtl == s.store[key].expiresAt;
    }
  }

  /** The invariant of timely runs, with the meaning of done entries. */
  lemma {:induction false} DoneExactAlongRuns(s: State, steps: seq<Step>, key: string)
    requires AtMostOnce(s) && DoneStamped(s) && CanRun(s, steps) && TimelyRun(s, steps)
    ensures var s' := Exec(s, steps);
            DoneStamped(s') && AtMostOnce(s') && (IsDone(s'.store, s'.now, key) <==> ConfirmedRecently(s', key))
    decreases |steps|
  {
    if steps == [] {
      DoneIffConfirmedRecently(s, key);
    } else {
      TimelyStep(s, steps[0]);
      StampStep(s, steps[0]);
      DoneExactAlongRuns(Apply(s, steps[0]), steps[1..], key);
    }
  }

  // ---------- FAILED replies ----------

  /** When a delivery fails for the last time, no mail with that key went out in the last done TTL. */
  lemma DeadLetteringIsRight(s: State, p: nat, ok: bool)
    requires AtMostOnce(s) && Enabled(s, Release(p, ok))
    ensures Unblocked(s, s.procs[p].job.m.key)
  {
    HeldKeyIsUnblocked(s, p, s.procs[p].job.m.key);
  }

  /** A confirmation of the reported key is no older than the dead-lettering, or had run out by then. */
  ghost predicate ReportKept(pc: Pc, s: State) {
    pc.Reporting? ==>
      && pc.since <= s.now
      && forall i :: 0 <= i < |s.log.confirmed| && s.log.confirmed[i].key == pc.job.m.key ==>
           pc.since <= s.log.confirmed[i].at || s.log.confirmed[i].at + s.cfg.doneTtl <= pc.since
  }

  ghost predicate ReportsKept(s: State) {
    forall p :: p in s.procs ==> ReportKept(s.procs[p], s)
  }

  /** Steps that neither dead-letter nor confirm leave reports and confirmations alone. */
  lemma ReportsMove(s: State, s': State)
    requires ReportsKept(s) && s'.cfg == s.cfg && s.now <= s'.now && s'.log.confirmed == s.log.confirmed
    requires forall p :: p in s'.procs && s'.procs[p].Reporting? ==> p in s.procs && s'.procs[p] == s.procs[p]
    ensures ReportsKept(s')
  {
    forall p | p in s'.procs ensures ReportKept(s'.procs[p], s') {
      assert p in s.procs ==> ReportKept(s.procs[p], s);
    }
  }

  lemma ReleaseReports(s: State, p: nat, ok: bool)
    requires AtMostOnce(s) && ReportsKept(s) && Enabled(s, Release(p, ok))
    ensures ReportsKept(ApplyRelease(s, p, ok))
  {
    HeldKeyIsUnblocked(s, p, s.procs[p].job.m.key);
    var s' := ApplyRelease(s, p, ok);
    forall q | q in s'.procs ensures ReportKept(s'.procs[q], s') {
      assert q in s.procs && ReportKept(s.procs[q], s);
    }
  }

  lemma ConfirmReports(s: State, p: nat, ok: bool)
    requires ReportsKept(s) && Enabled(s, Confirm(p, ok))
    ensures ReportsKept(ApplyConfirm(s, p, ok))
  {
    var s' := ApplyConfirm(s, p, ok);
    forall q | q in s'.procs ensures ReportKept(s'.procs[q], s') {
      assert q in s.procs && ReportKept(s.procs[q], s);
    }
  }

  lemma OnlyReleaseReports(s: State, step: Step)
    requires Enabled(s, step) && !step.Release? && !step.Confirm?
    ensures var s' := Apply(s, step);
            && s'.cfg == s.cfg && s.now <= s'.now && s'.log.confirmed == s.log.confirmed
            && forall p :: p in s'.procs && s'.procs[p].Reporting? ==> p in s.procs && s'.procs[p] == s.procs[p]
  {
  }

  lemma ReportsStep(s: State, step: Step)
    requires AtMostOnce(s) && ReportsKept(s) && Enabled(s, step)
    ensures ReportsKept(Apply(s, step))
  {
    match step
    case Release(p, ok) => ReleaseReports(s, p, ok);
    case Confirm(p, ok) => ConfirmReports(s, p, ok);
    case _ =>
      OnlyReleaseReports(s, step);
      ReportsMove(s, Apply(s, step));
  }

  lemma {:induction false} ReportsAlongRuns(s: State, steps: seq<Step>)
    requires AtMostOnce(s) && ReportsKept(s) && CanRun(s, steps) && TimelyRun(s, steps)
    ensures AtMostOnce(Exec(s, steps)) && ReportsKept(Exec(s, steps))
    decreases |steps|
  {
    if steps != [] {
      TimelyStep(s, steps[0]);
      ReportsStep(s, steps[0]);
      ReportsAlongRuns(Apply(s, steps[0]), steps[1..]);
    }
  }

  /** The key was confirmed at or after `since`, and that confirmation has not run out. */
  ghost predicate ConfirmedSince(s: State, key: string, since: nat) {
    exists i :: 0 <= i < |s.log.confirmed| && s.log.confirmed[i].key == key
      && since <= s.log.confirmed[i].at && s.now < s.log.confirmed[i].at + s.cfg.doneTtl
  }

  /** In every timely run, when a FAILED reply is published: it is wrong (its key was confirmed less than the done TTL
      ago) exactly when another order with the key was confirmed between the dead-lettering and now, and exactly when
      the key reads as done, which a GET before publishing would tell. */
  lemma FailedReplyWrongIffOvertaken(cfg: Config, steps: seq<Step>, p: nat, stored: bool)
    requires CanRun(Init(cfg), steps) && TimelyRun(Init(cfg), steps) && Enabled(Exec(Init(cfg), steps), Report(p, stored))
    ensures var s := Exec(Init(cfg), steps);
            var key := s.procs[p].job.m.key;
            && (ConfirmedRecently(s, key) <==> ConfirmedSince(s, key, s.procs[p].since))
            && (ConfirmedRecently(s, key) <==> IsDone(s.store, s.now, key))
  {
    var s := Exec(Init(cfg), steps);
    var key := s.procs[p].job.m.key;
    ReportsAlongRuns(Init(cfg), steps);
    DoneExactAlongRuns(Init(cfg), steps, key);
    assert ReportKept(s.procs[p], s);
    if ConfirmedRecently(s, key) {
      var i :| 0 <= i < |s.log.confirmed| && s.log.confirmed[i].key == key && s.now < s.log.confirmed[i].at + s.cfg.doneTtl;
      assert s.procs[p].since <= s.log.confirmed[i].at;
    }
  }

  // ---------- A done key sends nothing ----------

  /** `key` is done until `until` and no handler is past its claim on it. */
  ghost predicate Quiet(s: State, key: string, until: nat) {
    key in s.store && s.store[key] == Entry(Done, until) && forall p :: !HoldsKey(s, p, key)
  }

  /** The log of mails grew by mails with other keys only. */
  ghost predicate NoSendOf(before: seq<Mail>, after: seq<Mail>, key: string) {
    before <= after && forall i :: |before| <= i < |after| ==> after[i].m.key != key
  }

  lemma ClockGrows(s: State, steps: seq<Step>)
    requires CanRun(s, steps)
    ensures s.now <= Exec(s, steps).now
    decreases |steps|
  {
    if steps != [] {
      ClockGrows(Apply(s, steps[0]), steps[1..]);
    }
  }

  lemma DoneKeyStep(s: State, step: Step, key: string, until: nat)
    requires Quiet(s, key, until) && Enabled(s, step) && s.now < until
    ensures Quiet(Apply(s, step), key, until) && NoSendOf(s.log.sent, Apply(s, step).log.sent, key)
  {
    var s' := Apply(s, step);
    assert forall p :: HoldsKey(s, p, key) == false;
    if step.Release? || step.SendOk? || step.SendError? || step.Confirm? {
      assert !HoldsKey(s, step.p, key);
    }
    forall p ensures !HoldsKey(s', p, key) {
      assert !HoldsKey(s, p, key);
    }
  }

  /** While a key is done and unclaimed, no step of any run sends a mail with it: re-scans, duplicate
      messages, retries, crashes and late calls included. No assumption on leases is needed. */
  lemma {:induction false} DoneKeySendsNothing(s: State, steps: seq<Step>, key: string, until: nat)
    requires Quiet(s, key, until) && CanRun(s, steps) && Exec(s, steps).now < until
    ensures Quiet(Exec(s, steps), key, until) && NoSendOf(s.log.sent, Exec(s, steps).log.sent, key)
    decreases |steps|
  {
    if steps != [] {
      var s' := Apply(s, steps[0]);
      ClockGrows(s', steps[1..]);
      DoneKeyStep(s, steps[0], key, until);
      DoneKeySendsNothing(s', steps[1..], key, until);
    }
  }
}
