/** What the two services guarantee together, in every run: tags and completed sagas speak the truth
    about mails. */
module PipelineSafety {
  import opened Messages
  import opened Keys
  import N = Notification
  import C = NotificationContent

  // ---------- The notification service: logs grow, orders stay well keyed ----------

  ghost predicate Grown(n: N.State, n': N.State) {
    && n.log.sent <= n'.log.sent && n.log.notices <= n'.log.notices && n.log.responses <= n'.log.responses
    && (forall id :: id in n.broker.published ==> id in n'.broker.published && n'.broker.published[id] == n.broker.published[id])
  }

  /** Every order of the service, published, in hands, mailed or answered, is among `good`. */
  ghost predicate OrdersIn(n: N.State, good: iset<EmailMessage>) {
    && (forall id :: id in n.broker.published && n.broker.published[id].Valid? ==> n.broker.published[id].m in good)
    && (forall p :: p in n.procs ==> n.procs[p].job.m in good)
    && (forall i :: 0 <= i < |n.log.sent| ==> n.log.sent[i].m in good)
    && (forall r :: r in n.log.responses ==> r.m in good)
  }

  ghost function KeyedMails(): iset<EmailMessage> {
    iset m | WellKeyed(m)
  }

  ghost predicate OrdersKeyed(n: N.State) {
    OrdersIn(n, KeyedMails())
  }

  ghost predicate ServiceKept(n: N.State) {
    C.ContentKept(n) && C.LogSound(n) && OrdersKeyed(n)
  }

  lemma ReleaseGrows(n: N.State, p: nat, ok: bool, good: iset<EmailMessage>)
    requires N.Enabled(n, N.Release(p, ok)) && OrdersIn(n, good)
    ensures Grown(n, N.ApplyRelease(n, p, ok)) && OrdersIn(N.ApplyRelease(n, p, ok), good)
  {
  }

  lemma GiveUpGrows(n: N.State, p: nat, code: Code, good: iset<EmailMessage>)
    requires p in n.procs && OrdersIn(n, good)
    ensures Grown(n, N.GiveUp(n, p, n.procs[p].job, code)) && OrdersIn(N.GiveUp(n, p, n.procs[p].job, code), good)
  {
  }

  lemma QueueGrows(n: N.State, step: N.Step, good: iset<EmailMessage>)
    requires N.Enabled(n, step) && OrdersIn(n, good)
    requires step.Tick? || step.Expire? || step.Ack? || step.Report? || step.Crash?
    ensures Grown(n, N.Apply(n, step)) && OrdersIn(N.Apply(n, step), good)
  {
  }

  lemma TakeGrows(n: N.State, p: nat, id: nat, good: iset<EmailMessage>)
    requires N.Enabled(n, N.Take(p, id)) && OrdersIn(n, good) && C.ContentKept(n)
    ensures Grown(n, N.ApplyTake(n, p, id)) && OrdersIn(N.ApplyTake(n, p, id), good)
  {
    assert C.LetterKept(n.broker.published, id, n.broker.main[id]);
  }

  lemma SendGrows(n: N.State, step: N.Step, good: iset<EmailMessage>)
    requires N.Enabled(n, step) && OrdersIn(n, good) && (step.ClaimNx? || step.SendOk? || step.SendError?)
    ensures Grown(n, N.Apply(n, step)) && OrdersIn(N.Apply(n, step), good)
  {
  }

  lemma ConfirmGrows(n: N.State, step: N.Step, good: iset<EmailMessage>)
    requires N.Enabled(n, step) && OrdersIn(n, good) && (step.Confirm? || step.Announce?)
    ensures Grown(n, N.Apply(n, step)) && OrdersIn(N.Apply(n, step), good)
  {
  }

  lemma ServeGrows(n: N.State, step: N.Step, good: iset<EmailMessage>)
    requires N.Enabled(n, step) && OrdersIn(n, good) && C.ContentKept(n) && !step.Publish? && !step.Call?
    ensures Grown(n, N.Apply(n, step)) && OrdersIn(N.Apply(n, step), good)
  {
    match step
    case Take(p, id) => TakeGrows(n, p, id, good);
    case Release(p, ok) => ReleaseGrows(n, p, ok, good);
    case ClaimError(p, applied) =>
      var store' := if applied then N.SetPendingNx(n.store, n.now, n.procs[p].job.m.key, n.cfg.lease) else n.store;
      GiveUpGrows(n.(store := store'), p, Unavailable, good);
    case ReadKey(p) => GiveUpGrows(n, p, Aborted, good);
    case ReadError(p) => GiveUpGrows(n, p, Unavailable, good);
    case AnnounceError(p, stored) =>
      var job := n.procs[p].job;
      GiveUpGrows(if stored then N.Notify(n, N.NoticeOf(job.origin.id, job.m)) else n, p, Internal, good);
    case ClaimNx(_) | SendOk(_) | SendError(_) => SendGrows(n, step, good);
    case Confirm(_, _) | Announce(_) => ConfirmGrows(n, step, good);
    case _ => QueueGrows(n, step, good);
  }

  lemma PublishGrows(n: N.State, id: nat, m: EmailMessage, good: iset<EmailMessage>)
    requires N.Enabled(n, N.Publish(id, Valid(m))) && OrdersIn(n, good) && m in good
    ensures Grown(n, N.ApplyPublish(n, id, Valid(m))) && OrdersIn(N.ApplyPublish(n, id, Valid(m)), good)
  {
  }

  lemma CallGrows(n: N.State, q: nat, req: Request, good: iset<EmailMessage>)
    requires N.Enabled(n, N.Call(q, req)) && OrdersIn(n, good) && RequestMail(req) in good
    ensures Grown(n, N.ApplyCall(n, q, req)) && OrdersIn(N.ApplyCall(n, q, req), good)
  {
  }

  // ---------- Sent mails, by content ----------

  ghost predicate ReleaseMailed(sent: seq<N.Mail>, email: string, repo: string, tag: string) {
    exists i :: 0 <= i < |sent| && sent[i].m.ReleaseMail? && sent[i].m.email == email && sent[i].m.repo == repo && sent[i].m.tag == tag
  }

  ghost predicate ConfirmationMailed(sent: seq<N.Mail>, email: string, repo: string, token: string) {
    exists i :: 0 <= i < |sent| && sent[i].m.ConfirmationMail? && sent[i].m.email == email && sent[i].m.repo == repo
                && sent[i].m.confirmToken == token
  }

  /** A sent mail with an order's key is the mail the order asks for: keys are injective. */
  lemma SentKeyIsSentMail(n: N.State, m: EmailMessage)
    requires OrdersKeyed(n) && WellKeyed(m) && C.SentKey(n.log.sent, m.key)
    ensures m.ReleaseMail? ==> ReleaseMailed(n.log.sent, m.email, m.repo, m.tag)
    ensures m.ConfirmationMail? ==> ConfirmationMailed(n.log.sent, m.email, m.repo, m.confirmToken)
  {
    var i :| 0 <= i < |n.log.sent| && n.log.sent[i].m.key == m.key;
    SameKeyIffSameMail(n.log.sent[i].m, m);
  }

  lemma MailedPersists(a: seq<N.Mail>, b: seq<N.Mail>, email: string, repo: string, x: string)
    requires a <= b
    ensures ReleaseMailed(a, email, repo, x) ==> ReleaseMailed(b, email, repo, x)
    ensures ConfirmationMailed(a, email, repo, x) ==> ConfirmationMailed(b, email, repo, x)
  {
    if ReleaseMailed(a, email, repo, x) {
      var i :| 0 <= i < |a| && a[i].m.ReleaseMail? && a[i].m.email == email && a[i].m.repo == repo && a[i].m.tag == x;
      assert b[i] == a[i];
    }
    if ConfirmationMailed(a, email, repo, x) {
      var i :| 0 <= i < |a| && a[i].m.ConfirmationMail? && a[i].m.email == email && a[i].m.repo == repo && a[i].m.confirmToken == x;
      assert b[i] == a[i];
    }
  }

  lemma DeliveredMeansMailed(n: N.State, notice: N.Notice)
    requires ServiceKept(n) && notice in n.log.notices && notice.Delivered?
    ensures ReleaseMailed(n.log.sent, notice.email, notice.repo, notice.tag)
  {
    assert C.NoticeSound(notice, n.broker, n.log.sent);
    SentKeyIsSentMail(n, n.broker.published[notice.id].m);
  }

  lemma ResponseMeansMailed(n: N.State, r: N.Response)
    requires ServiceKept(n) && r in n.log.responses && r.m.ReleaseMail? && (r.code.Sent? || r.code.Duplicate?)
    ensures ReleaseMailed(n.log.sent, r.m.email, r.m.repo, r.m.tag)
  {
    assert C.ResponseSound(r, n.log.sent);
    SentKeyIsSentMail(n, r.m);
  }
}
