/** What the logs of the notification service mean: who may acknowledge, announce or answer. */
module NotificationContent {
  import opened Messages
  import opened Notification

  // ---------- Content and attempts ----------

  predicate LetterKept(published: map<nat, Body>, id: nat, letter: Letter) {
    id in published && letter.body == published[id] && letter.retries <= MAX_RETRIES
  }

  predicate DeadKept(published: map<nat, Body>, id: nat, letter: Letter) {
    LetterKept(published, id, letter) && (letter.body.Valid? ==> letter.retries == MAX_RETRIES)
  }

  /** A message keeps its content wherever it lies, and its attempts stay within bounds. A valid
      message is dead only with every attempt spent; only valid ones are acknowledged. */
  ghost predicate LettersKept(b: Broker) {
    && (forall id :: id in b.main ==> LetterKept(b.published, id, b.main[id]))
    && (forall id :: id in b.retry ==> LetterKept(b.published, id, b.retry[id]))
    && (forall id :: id in b.dead ==> DeadKept(b.published, id, b.dead[id]))
    && (forall id :: id in b.acked ==> LetterKept(b.published, id, b.acked[id]) && b.acked[id].body.Valid?)
  }

  /** Handlers work on the published content. */
  ghost predicate JobKept(b: Broker, job: Job) {
    job.origin.FromQueue? ==>
      && job.origin.id in b.published && b.published[job.origin.id] == Valid(job.m)
      && job.origin.retries <= MAX_RETRIES
  }

  ghost predicate ContentKept(s: State) {
    LettersKept(s.broker) && forall p :: p in s.procs ==> JobKept(s.broker, s.procs[p].job)
  }

  lemma RetryKeepsLetters(b: Broker, job: Job)
    requires LettersKept(b) && JobKept(b, job) && job.origin.FromQueue?
    ensures LettersKept(HandleRetry(b, job)) && HandleRetry(b, job).published == b.published
  {
  }

  /** Handlers may come, go and change state while the published bodies stay. */
  lemma JobsStayKept(s: State, s': State)
    requires ContentKept(s) && LettersKept(s'.broker) && s'.broker.published == s.broker.published
    requires forall q :: q in s'.procs ==> q in s.procs && s'.procs[q].job == s.procs[q].job
    ensures ContentKept(s')
  {
  }

  lemma GiveUpKeepsContent(s: State, p: nat, code: Code)
    requires ContentKept(s) && p in s.procs
    ensures ContentKept(GiveUp(s, p, s.procs[p].job, code))
  {
    var job := s.procs[p].job;
    if job.origin.FromQueue? {
      RetryKeepsLetters(s.broker, job);
    }
    JobsStayKept(s, GiveUp(s, p, job, code));
  }

  lemma ReleaseKeepsContent(s: State, p: nat, ok: bool)
    requires ContentKept(s) && Enabled(s, Release(p, ok))
    ensures ContentKept(ApplyRelease(s, p, ok))
  {
    var job := s.procs[p].job;
    if job.origin.FromQueue? {
      RetryKeepsLetters(s.broker, job);
    }
    JobsStayKept(s, ApplyRelease(s, p, ok));
  }

  lemma PublishKeepsContent(s: State, id: nat, body: Body)
    requires ContentKept(s) && Enabled(s, Publish(id, body))
    ensures ContentKept(ApplyPublish(s, id, body))
  {
  }

  lemma TakeKeepsContent(s: State, p: nat, id: nat)
    requires ContentKept(s) && Enabled(s, Take(p, id))
    ensures ContentKept(ApplyTake(s, p, id))
  {
  }

  lemma QueueKeepsContent(s: State, step: Step)
    requires ContentKept(s) && Enabled(s, step)
    requires step.Expire? || step.Ack? || step.Crash?
    ensures ContentKept(Apply(s, step))
  {
    var s' := Apply(s, step);
    if !step.Expire? {
      assert JobKept(s.broker, s.procs[step.p].job);
    }
    assert LettersKept(s'.broker);
    JobsStayKept(s, s');
  }

  lemma WorkKeepsContent(s: State, step: Step)
    requires ContentKept(s) && Enabled(s, step)
    requires step.Tick? || step.Call? || step.ClaimNx? || step.SendOk? || step.SendError? || step.Confirm?
             || step.Announce? || step.Report?
    ensures ContentKept(Apply(s, step))
  {
  }

  lemma ContentStep(s: State, step: Step)
    requires ContentKept(s) && Enabled(s, step)
    ensures ContentKept(Apply(s, step))
  {
    match step
    case Publish(id, body) => PublishKeepsContent(s, id, body);
    case Take(p, id) => TakeKeepsContent(s, p, id);
    case Expire(_) | Ack(_) | Crash(_) => QueueKeepsContent(s, step);
    case Release(p, ok) => ReleaseKeepsContent(s, p, ok);
    case ClaimError(p, applied) =>
      var store' := if applied then SetPendingNx(s.store, s.now, s.procs[p].job.m.key, s.cfg.lease) else s.store;
      GiveUpKeepsContent(s.(store := store'), p, Unavailable);
    case ReadKey(p) =>
      if IsDone(s.store, s.now, s.procs[p].job.m.key) {
        JobsStayKept(s, ApplyReadKey(s, p));
      } else {
        GiveUpKeepsContent(s, p, Aborted);
      }
    case ReadError(p) => GiveUpKeepsContent(s, p, Unavailable);
    case AnnounceError(p, stored) =>
      var job := s.procs[p].job;
      GiveUpKeepsContent(if stored then Notify(s, NoticeOf(job.origin.id, job.m)) else s, p, Internal);
    case _ => WorkKeepsContent(s, step);
  }

  // ---------- Nothing counts as delivered before a mail went out ----------

  /** Some mail with this key was sent. */
  ghost predicate SentKey(sent: seq<Mail>, key: string) {
    exists i :: 0 <= i < |sent| && sent[i].m.key == key
  }

  lemma SentGrows(sent: seq<Mail>, mail: Mail)
    ensures forall key :: SentKey(sent, key) ==> SentKey(sent + [mail], key)
    ensures SentKey(sent + [mail], mail.m.key)
  {
    var sent' := sent + [mail];
    assert sent'[|sent|] == mail;
    forall key | SentKey(sent, key) ensures SentKey(sent', key) {
      var i :| 0 <= i < |sent| && sent[i].m.key == key;
      assert sent'[i].m.key == key;
    }
  }

  ghost predicate StoreSound(store: Store, sent: seq<Mail>) {
    forall key :: key in store && store[key].value.Done? ==> SentKey(sent, key)
  }

  /** A handler past the send has a mail to show for it, and a handler that has announced has published. */
  ghost predicate PcSound(pc: Pc, b: Broker, log: Log) {
    && (pc.SendDone? || pc.Announcing? ==> SentKey(log.sent, pc.job.m.key))
    && (pc.Announcing? ==>
          && pc.job.origin.FromQueue? && pc.left <= Announcements(pc.job.m)
          && (pc.left < Announcements(pc.job.m) ==> NoticeOf(pc.job.origin.id, pc.job.m) in log.notices))
    && (pc.Reporting? ==> pc.job.origin.FromQueue? && pc.job.m.ConfirmationMail? && pc.job.origin.id in b.dead)
  }

  /** A notice names a published order of its own kind. A delivery notice has a sent mail behind it,
      a failure notice a dead message. */
  ghost predicate NoticeSound(notice: Notice, b: Broker, sent: seq<Mail>) {
    && notice.id in b.published && b.published[notice.id].Valid?
    && var m := b.published[notice.id].m;
    match notice
    case Delivered(id, email, repo, tag) =>
      m.ReleaseMail? && m.email == email && m.repo == repo && m.tag == tag && SentKey(sent, m.key)
    case ReplySent(id, sagaId) => m.ConfirmationMail? && m.sagaId == sagaId && SentKey(sent, m.key)
    case ReplyFailed(id, sagaId) => m.ConfirmationMail? && m.sagaId == sagaId && id in b.dead
  }

  ghost predicate AckSound(id: nat, letter: Letter, log: Log) {
    letter.body.Valid? && SentKey(log.sent, letter.body.m.key) && NoticeOf(id, letter.body.m) in log.notices
  }

  ghost predicate ResponseSound(r: Response, sent: seq<Mail>) {
    r.code.Sent? || r.code.Duplicate? ==> SentKey(sent, r.m.key)
  }

  ghost predicate LogSound(s: State) {
    && StoreSound(s.store, s.log.sent)
    && (forall p :: p in s.procs ==> PcSound(s.procs[p], s.broker, s.log))
    && (forall notice :: notice in s.log.notices ==> NoticeSound(notice, s.broker, s.log.sent))
    && (forall id :: id in s.broker.acked ==> AckSound(id, s.broker.acked[id], s.log))
    && (forall r :: r in s.log.responses ==> ResponseSound(r, s.log.sent))
  }

  lemma GiveUpSound(s: State, p: nat, job: Job, code: Code)
    requires LogSound(s) && !code.Sent? && !code.Duplicate?
    ensures LogSound(GiveUp(s, p, job, code))
  {
    var s' := GiveUp(s, p, job, code);
    forall notice | notice in s'.log.notices ensures NoticeSound(notice, s'.broker, s'.log.sent) {
      assert NoticeSound(notice, s.broker, s.log.sent);
    }
  }

  lemma SendOkSound(s: State, p: nat)
    requires LogSound(s) && Enabled(s, SendOk(p))
    ensures LogSound(ApplySendOk(s, p))
  {
    var s' := ApplySendOk(s, p);
    SentGrows(s.log.sent, Mail(s.procs[p].job.m, s.now));
    forall notice | notice in s'.log.notices ensures NoticeSound(notice, s'.broker, s'.log.sent) {
      assert NoticeSound(notice, s.broker, s.log.sent);
    }
    forall id | id in s'.broker.acked ensures AckSound(id, s'.broker.acked[id], s'.log) {
      assert AckSound(id, s.broker.acked[id], s.log);
    }
    forall q | q in s'.procs ensures PcSound(s'.procs[q], s'.broker, s'.log) {
      assert q != p ==> PcSound(s.procs[q], s.broker, s.log);
    }
    forall r | r in s'.log.responses ensures ResponseSound(r, s'.log.sent) {
      assert ResponseSound(r, s.log.sent);
    }
  }

  lemma NotifySound(s: State, notice: Notice)
    requires LogSound(s) && NoticeSound(notice, s.broker, s.log.sent)
    ensures LogSound(Notify(s, notice))
  {
    var s' := Notify(s, notice);
    forall id | id in s'.broker.acked ensures AckSound(id, s'.broker.acked[id], s'.log) {
      assert AckSound(id, s.broker.acked[id], s.log);
    }
    forall q | q in s'.procs ensures PcSound(s'.procs[q], s'.broker, s'.log) {
      assert PcSound(s.procs[q], s.broker, s.log);
    }
  }

  /** The notice a handler announces is sound. */
  lemma AnnounceSound(s: State, p: nat)
    requires LogSound(s) && ContentKept(s) && p in s.procs && MustAnnounce(s.procs[p])
    ensures var job := s.procs[p].job;
            LogSound(Notify(s, NoticeOf(job.origin.id, job.m)))
  {
    var job := s.procs[p].job;
    assert PcSound(s.procs[p], s.broker, s.log) && JobKept(s.broker, job);
    NotifySound(s, NoticeOf(job.origin.id, job.m));
  }

  lemma PublishSound(s: State, id: nat, body: Body)
    requires LogSound(s) && Enabled(s, Publish(id, body))
    ensures LogSound(ApplyPublish(s, id, body))
  {
    var s' := ApplyPublish(s, id, body);
    forall notice | notice in s'.log.notices ensures NoticeSound(notice, s'.broker, s'.log.sent) {
      assert NoticeSound(notice, s.broker, s.log.sent);
    }
  }

  lemma QueueSound(s: State, step: Step)
    requires LogSound(s) && Enabled(s, step)
    requires step.Expire? || step.Take? || step.Ack? || step.Crash? || step.Tick? || step.Call?
    ensures LogSound(Apply(s, step))
  {
    var s' := Apply(s, step);
    if step.Ack? {
      assert PcSound(s.procs[step.p], s.broker, s.log);
    }
    forall notice | notice in s'.log.notices ensures NoticeSound(notice, s'.broker, s'.log.sent) {
      assert NoticeSound(notice, s.broker, s.log.sent);
    }
  }

  lemma ClaimSound(s: State, p: nat)
    requires LogSound(s) && Enabled(s, ClaimNx(p))
    ensures LogSound(ApplyClaimNx(s, p))
  {
  }

  lemma ReadSound(s: State, p: nat)
    requires LogSound(s) && Enabled(s, ReadKey(p))
    ensures LogSound(ApplyReadKey(s, p))
  {
    if !IsDone(s.store, s.now, s.procs[p].job.m.key) {
      GiveUpSound(s, p, s.procs[p].job, Aborted);
    }
  }

  lemma ReleaseSound(s: State, p: nat, ok: bool)
    requires LogSound(s) && Enabled(s, Release(p, ok))
    ensures LogSound(ApplyRelease(s, p, ok))
  {
    var job := s.procs[p].job;
    var s1 := if ok then s.(store := Delete(s.store, job.m.key)) else s;
    GiveUpSound(s1, p, job, Internal);
    var s' := ApplyRelease(s, p, ok);
    forall notice | notice in s'.log.notices ensures NoticeSound(notice, s'.broker, s'.log.sent) {
      assert NoticeSound(notice, s.broker, s.log.sent);
    }
  }

  lemma ConfirmSound(s: State, p: nat, ok: bool)
    requires LogSound(s) && Enabled(s, Confirm(p, ok))
    ensures LogSound(ApplyConfirm(s, p, ok))
  {
    var s' := ApplyConfirm(s, p, ok);
    assert PcSound(s.procs[p], s.broker, s.log);
    forall id | id in s'.broker.acked ensures AckSound(id, s'.broker.acked[id], s'.log) {
      assert AckSound(id, s.broker.acked[id], s.log);
    }
    forall q | q in s'.procs ensures PcSound(s'.procs[q], s'.broker, s'.log) {
      assert q in s.procs && PcSound(s.procs[q], s.broker, s.log);
    }
  }

  lemma ReportSound(s: State, p: nat, stored: bool)
    requires LogSound(s) && ContentKept(s) && Enabled(s, Report(p, stored))
    ensures LogSound(ApplyReport(s, p, stored))
  {
    var job := s.procs[p].job;
    assert JobKept(s.broker, job);
    if stored {
      NotifySound(s, ReplyFailed(job.origin.id, job.m.sagaId));
    }
  }

  lemma AnnounceStepSound(s: State, step: Step)
    requires LogSound(s) && ContentKept(s) && Enabled(s, step) && (step.Announce? || step.AnnounceError?)
    ensures LogSound(Apply(s, step))
  {
    var job := s.procs[step.p].job;
    assert PcSound(s.procs[step.p], s.broker, s.log);
    AnnounceSound(s, step.p);
    var s1 := Notify(s, NoticeOf(job.origin.id, job.m));
    if step.AnnounceError? {
      GiveUpSound(if step.stored then s1 else s, step.p, job, Internal);
    }
  }

  lemma SoundStep(s: State, step: Step)
    requires LogSound(s) && ContentKept(s) && Enabled(s, step)
    ensures LogSound(Apply(s, step))
  {
    match step
    case Publish(id, body) => PublishSound(s, id, body);
    case Expire(_) | Take(_, _) | Ack(_) | Crash(_) | Tick | Call(_, _) => QueueSound(s, step);
    case ClaimNx(p) => ClaimSound(s, p);
    case ClaimError(p, applied) =>
      var store' := if applied then SetPendingNx(s.store, s.now, s.procs[p].job.m.key, s.cfg.lease) else s.store;
      GiveUpSound(s.(store := store'), p, s.procs[p].job, Unavailable);
    case ReadKey(p) => ReadSound(s, p);
    case ReadError(p) => GiveUpSound(s, p, s.procs[p].job, Unavailable);
    case SendOk(p) => SendOkSound(s, p);
    case SendError(p) =>
    case Release(p, ok) => ReleaseSound(s, p, ok);
    case Confirm(p, ok) => ConfirmSound(s, p, ok);
    case Announce(_) | AnnounceError(_, _) => AnnounceStepSound(s, step);
    case Report(p, stored) => ReportSound(s, p, stored);
  }

  /** In every run: content is kept, and every acknowledgement, delivered event, SENT reply and
      SENT or DUPLICATE answer has a sent mail with its key behind it. */
  lemma {:induction false} SoundAlongRuns(s: State, steps: seq<Step>)
    requires LogSound(s) && ContentKept(s) && CanRun(s, steps)
    ensures LogSound(Exec(s, steps)) && ContentKept(Exec(s, steps))
    decreases |steps|
  {
    if steps != [] {
      SoundStep(s, steps[0]);
      ContentStep(s, steps[0]);
      SoundAlongRuns(Apply(s, steps[0]), steps[1..]);
    }
  }
}
