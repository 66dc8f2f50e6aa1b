/** What each step of the notification service answers and publishes, and what that means for a call that comes again. */
module NotificationAnswers {
  import opened Messages
  import opened Notification
  import opened NotificationTiming
  import opened NotificationDone
  import opened NotificationKeys

  /** The step is a gRPC handler's own, and not its death. */
  predicate ByCall(s: State, step: Step) {
    !step.Tick? && !step.Publish? && !step.Expire? && !step.Crash? && step.p in s.procs && s.procs[step.p].job.origin.FromRpc?
  }

  /** How a gRPC handler ends. It answers once: SENT only after its own mail went out, DUPLICATE exactly when its key
      reads as done, ABORTED when the key is shown in progress or gone, INTERNAL after a failed delivery, UNAVAILABLE
      after an error of the store. */
  lemma AnswersExactly(s: State, step: Step)
    requires Enabled(s, step) && ByCall(s, step)
    ensures var s' := Apply(s, step);
            var p, m := step.p, s.procs[step.p].job.m;
            if step.ReadKey? && Shown(s, m.key) && s.store[m.key].value == Done
            then p !in s'.procs && s'.log.responses == s.log.responses + {Response(m, Code.Duplicate)}
            else if step.ReadKey? then p !in s'.procs && s'.log.responses == s.log.responses + {Response(m, Aborted)}
            else if step.Confirm? then p !in s'.procs && s'.log.responses == s.log.responses + {Response(m, Code.Sent)}
            else if step.Release? then p !in s'.procs && s'.log.responses == s.log.responses + {Response(m, Internal)}
            else if step.ClaimError? || step.ReadError?
            then p !in s'.procs && s'.log.responses == s.log.responses + {Response(m, Unavailable)}
            else s'.log.responses == s.log.responses
  {
  }

  /** Other steps answer nobody: queue handlers, producers, timers, crashes; an arriving call is refused exactly when a
      field is empty. */
  lemma AnswersElsewhere(s: State, step: Step)
    requires Enabled(s, step)
    requires !ByCall(s, step)
    ensures var s' := Apply(s, step);
            if step.Call? && (step.req.email == "" || step.req.repo == "" || step.req.tag == "" || step.req.unsubscribeToken == ""
                              || step.req.idempotencyKey == "")
            then step.p !in s'.procs && s'.log.responses == s.log.responses + {Response(RequestMail(step.req), InvalidArgument)}
            else s'.log.responses == s.log.responses
  {
  }

  /** No answer about the key but DUPLICATE, or an error before the key was read. */
  ghost predicate OnlyDuplicates(before: set<Response>, after: set<Response>, key: string) {
    && before <= after
    && forall r :: r in after && r !in before && r.m.key == key ==>
         r.code == Code.Duplicate || r.code == Unavailable || r.code == InvalidArgument
  }

  lemma DoneKeyAnswers(s: State, step: Step, key: string, until: nat)
    requires Quiet(s, key, until) && Enabled(s, step) && s.now < until
    ensures OnlyDuplicates(s.log.responses, Apply(s, step).log.responses, key)
  {
    if ByCall(s, step) {
      AnswersExactly(s, step);
      assert !HoldsKey(s, step.p, key);
    } else {
      AnswersElsewhere(s, step);
    }
  }

  lemma {:induction false} DoneKeyAlongRuns(s: State, steps: seq<Step>, key: string, until: nat)
    requires Quiet(s, key, until) && CanRun(s, steps) && Exec(s, steps).now < until
    ensures Quiet(Exec(s, steps), key, until) && OnlyDuplicates(s.log.responses, Exec(s, steps).log.responses, key)
    decreases |steps|
  {
    if steps != [] {
      var s1 := Apply(s, steps[0]);
      ClockGrows(s1, steps[1..]);
      ClockStep(s, steps[0]);
      DoneKeyStep(s, steps[0], key, until);
      DoneKeyAnswers(s, steps[0], key, until);
      DoneKeyAlongRuns(s1, steps[1..], key, until);
    }
  }

  lemma ConfirmedIsQuiet(s: State, p: nat)
    requires Enabled(s, Confirm(p, true)) && forall r :: r != p ==> !HoldsKey(s, r, s.procs[p].job.m.key)
    ensures Quiet(Apply(s, Confirm(p, true)), s.procs[p].job.m.key, s.now + s.cfg.doneTtl)
  {
    var key := s.procs[p].job.m.key;
    var s1 := Apply(s, Confirm(p, true));
    KeyChanges(s, Confirm(p, true), key);
    forall r ensures !HoldsKey(s1, r, key) {
      if r != p {
        HoldersComeByClaim(s, Confirm(p, true), r, key);
      }
    }
  }

  /** In every timely run, once a delivery is confirmed, over the queue or over gRPC: until the done time is over a call
      with its key is answered DUPLICATE if the store answers, and no mail with the key goes out. */
  lemma RepeatedCallIsDuplicate(cfg: Config, before: seq<Step>, p: nat, steps: seq<Step>)
    requires CanRun(Init(cfg), before) && TimelyRun(Init(cfg), before) && Enabled(Exec(Init(cfg), before), Confirm(p, true))
    requires var s := Exec(Init(cfg), before);
             CanRun(Apply(s, Confirm(p, true)), steps) && Exec(Apply(s, Confirm(p, true)), steps).now < s.now + cfg.doneTtl
    ensures var s := Exec(Init(cfg), before);
            var key := s.procs[p].job.m.key;
            var s1 := Apply(s, Confirm(p, true));
            var s2 := Exec(s1, steps);
            && OnlyDuplicates(s1.log.responses, s2.log.responses, key) && NoSendOf(s1.log.sent, s2.log.sent, key)
            && forall q :: Enabled(s2, ReadKey(q)) && s2.procs[q].job.m.key == key && s2.procs[q].job.origin.FromRpc? ==>
                 Response(s2.procs[q].job.m, Code.Duplicate) in Apply(s2, ReadKey(q)).log.responses
  {
    TimedAtMostOnce(Init(cfg), before);
    ConfigStays(Init(cfg), before);
    var s := Exec(Init(cfg), before);
    var key := s.procs[p].job.m.key;
    assert HoldsKey(s, p, key);
    ConfirmedIsQuiet(s, p);
    var s1 := Apply(s, Confirm(p, true));
    DoneKeyAlongRuns(s1, steps, key, s.now + cfg.doneTtl);
    DoneKeySendsNothing(s1, steps, key, s.now + cfg.doneTtl);
    var s2 := Exec(s1, steps);
    forall q | Enabled(s2, ReadKey(q)) && s2.procs[q].job.m.key == key && s2.procs[q].job.origin.FromRpc?
      ensures Response(s2.procs[q].job.m, Code.Duplicate) in Apply(s2, ReadKey(q)).log.responses
    {
      AnswersExactly(s2, ReadKey(q));
    }
  }

  // ---------- SENT means sent ----------

  ghost predicate Mailed(sent: seq<Mail>, m: EmailMessage) {
    exists i :: 0 <= i < |sent| && sent[i].m == m
  }

  ghost predicate OwnMails(s: State) {
    && (forall p :: p in s.procs && s.procs[p].SendDone? ==> Mailed(s.log.sent, s.procs[p].job.m))
    && (forall r :: r in s.log.responses && r.code == Code.Sent ==> Mailed(s.log.sent, r.m))
  }

  lemma SentPersist(s: State, step: Step)
    requires Enabled(s, step)
    ensures var s' := Apply(s, step);
            if step.SendOk? then s'.log.sent == s.log.sent + [Mail(s.procs[step.p].job.m, s.now)] else s'.log.sent == s.log.sent
  {
  }

  lemma DoneSendersSent(s: State, step: Step, p: nat)
    requires Enabled(s, step) && p in Apply(s, step).procs && Apply(s, step).procs[p].SendDone?
    ensures p in s.procs && s.procs[p].job == Apply(s, step).procs[p].job
    ensures s.procs[p].SendDone? || (step.SendOk? && step.p == p)
  {
  }

  lemma OwnMailsStep(s: State, step: Step)
    requires OwnMails(s) && Enabled(s, step)
    ensures OwnMails(Apply(s, step))
  {
    var s' := Apply(s, step);
    SentPersist(s, step);
    forall m | Mailed(s.log.sent, m) ensures Mailed(s'.log.sent, m) {
      var i :| 0 <= i < |s.log.sent| && s.log.sent[i].m == m;
      assert s'.log.sent[i].m == m;
    }
    forall p | p in s'.procs && s'.procs[p].SendDone? ensures Mailed(s'.log.sent, s'.procs[p].job.m) {
      DoneSendersSent(s, step, p);
      if step.SendOk? && step.p == p {
        assert s'.log.sent[|s.log.sent|].m == s'.procs[p].job.m;
      }
    }
    if ByCall(s, step) {
      AnswersExactly(s, step);
    } else {
      AnswersElsewhere(s, step);
    }
  }

  lemma {:induction false} OwnMailsAlongRuns(s: State, steps: seq<Step>)
    requires OwnMails(s) && CanRun(s, steps)
    ensures OwnMails(Exec(s, steps))
    decreases |steps|
  {
    if steps != [] {
      OwnMailsStep(s, steps[0]);
      OwnMailsAlongRuns(Apply(s, steps[0]), steps[1..]);
    }
  }

  /** In every run a call answered SENT had the very mail it asked for sent, in every field. */
  lemma SentAnswerMeansOwnMail(cfg: Config, steps: seq<Step>, r: Response)
    requires CanRun(Init(cfg), steps) && r in Exec(Init(cfg), steps).log.responses && r.code == Code.Sent
    ensures exists i :: 0 <= i < |Exec(Init(cfg), steps).log.sent| && Exec(Init(cfg), steps).log.sent[i].m == r.m
  {
    OwnMailsAlongRuns(Init(cfg), steps);
    assert Mailed(Exec(Init(cfg), steps).log.sent, r.m);
  }

  // ---------- Notices ----------

  /** A delivered event or a SENT reply is published by an announcement, a FAILED reply by a report, each about the
      handler's own message; an announcement whose publish failed may have got through. */
  lemma NoticesExactly(s: State, step: Step)
    requires Enabled(s, step)
    ensures step.Announce? || (step.AnnounceError? && step.stored) ==>
              var job := s.procs[step.p].job;
              && job.origin.FromQueue?
              && Apply(s, step).log.notices
                 == s.log.notices + {if job.m.ReleaseMail? then Delivered(job.origin.id, job.m.email, job.m.repo, job.m.tag)
                                     else ReplySent(job.origin.id, job.m.sagaId)}
    ensures step.Report? && step.stored ==>
              var job := s.procs[step.p].job;
              && job.origin.FromQueue? && job.m.ConfirmationMail?
              && Apply(s, step).log.notices == s.log.notices + {ReplyFailed(job.origin.id, job.m.sagaId)}
    ensures !step.Announce? && !(step.AnnounceError? && step.stored) && !(step.Report? && step.stored) ==>
              Apply(s, step).log.notices == s.log.notices
  {
  }
}
