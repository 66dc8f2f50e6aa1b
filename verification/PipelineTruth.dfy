/** End to end: a recorded tag means its mail went out, a completed saga means its confirmation did. */
module PipelineTruth {
  import opened Messages
  import opened Keys
  import opened Pipeline
  import opened PipelineSafety
  import N = Notification
  import C = NotificationContent
  import B = Backend
  import opened BackendRuns
  import opened BackendEffects
  import T = Tables

  // ---------- What a back-end step can do to what the world relies on ----------

  ghost predicate PcNamed(pc: B.Pc) {
    match pc
    case Checked(email, repo, _) => ValidPair(email, repo)
    case Upserted(_, email, repo, _) => ValidPair(email, repo)
    case Created(_, email, repo, _) => ValidPair(email, repo)
    case Notifying(repo, _, todo) => forall r :: r in todo ==> ValidPair(r.email, repo)
    case _ => true
  }

  /** Only validated names are in the tables and in the callers' hands. */
  ghost predicate NamesKept(b: B.State) {
    && (forall id :: id in b.subs ==> ValidPair(b.subs[id].email, b.subs[id].repo))
    && (forall p :: p in b.procs ==> PcNamed(b.procs[p]))
  }

  /** Who subscribed to what in saga `g`, and with which token, is fixed. */
  predicate SameIdentity(b: B.State, b': B.State, g: SagaId) {
    && g in b.sagas && g in b'.sagas && b'.sagas[g].email == b.sagas[g].email && b'.sagas[g].repo == b.sagas[g].repo
    && (g in b.log.tokens ==> g in b'.log.tokens && b'.log.tokens[g] == b.log.tokens[g])
  }

  predicate CreatedKnown(pc: B.Pc, b: B.State) {
    pc.Created? ==>
      && pc.saga in b.sagas && b.sagas[pc.saga].email == pc.email && b.sagas[pc.saga].repo == pc.repo
      && pc.saga in b.log.tokens && b.log.tokens[pc.saga] == pc.confirmToken
  }

  ghost predicate IdentitiesKept(b: B.State) {
    forall p :: p in b.procs ==> CreatedKnown(b.procs[p], b)
  }

  ghost predicate IdentitiesPersist(b: B.State, b': B.State) {
    forall g :: g in b.sagas ==> SameIdentity(b, b', g)
  }

  /** A row's tag comes from before or from this very advance. */
  predicate TagFrom(id: nat, sub: T.Subscription, subs: T.Subscriptions, step: B.Step) {
    sub.lastSeenTag.Some? ==>
      || (id in subs && T.IsPair(subs[id], sub.email, sub.repo) && subs[id].lastSeenTag == sub.lastSeenTag)
      || (step.Advance? && T.IsPair(sub, step.email, step.repo) && sub.lastSeenTag == Some(step.tag))
  }

  ghost predicate TagsFrom(b: B.State, step: B.Step, b': B.State) {
    forall id :: id in b'.subs ==> TagFrom(id, b'.subs[id], b.subs, step)
  }

  predicate HasCompleted(b: B.State, g: SagaId) {
    g in b.log.hist && T.Completed in b.log.hist[g]
  }

  /** A completion comes from a handler that was told the mail was sent. */
  ghost predicate CompletionsFrom(b: B.State, step: B.Step, b': B.State) {
    forall g :: HasCompleted(b', g) ==>
      HasCompleted(b, g) || (step.Complete? && step.p in b.procs && b.procs[step.p] == B.Completing(g))
  }

  ghost predicate CompletersFrom(b: B.State, step: B.Step, b': B.State) {
    forall p :: p in b'.procs && b'.procs[p].Completing? ==>
      (p in b.procs && b.procs[p] == b'.procs[p]) || (step.FindForReply? && step.sent && b'.procs[p].saga == step.saga)
  }

  // ---------- Names ----------

  lemma NamesOfRows(b: B.State, step: B.Step)
    requires NamesKept(b) && B.Enabled(b, step)
    ensures forall id :: id in B.Apply(b, step).subs ==> ValidPair(B.Apply(b, step).subs[id].email, B.Apply(b, step).subs[id].repo)
  {
    if TouchesRows(step) {
      if step.Upsert? {
        assert PcNamed(b.procs[step.p]);
      }
    } else {
      RowsUntouched(b, step);
    }
  }

  lemma NameOfMover(b: B.State, step: B.Step)
    requires NamesKept(b) && B.Enabled(b, step) && !step.Tick? && !step.Advance?
    requires step.CheckActive? ==> ValidPair(step.email, step.repo)
    ensures step.p in B.Apply(b, step).procs ==> PcNamed(B.Apply(b, step).procs[step.p])
  {
    if step.CheckActive? || step.Upsert? || step.CreateSaga? || step.ReadOutdated? || step.NotifyOne? {
      NameOfCaller(b, step);
    } else {
      NoNameNeeded(b, step);
    }
  }

  lemma NameOfCaller(b: B.State, step: B.Step)
    requires NamesKept(b) && B.Enabled(b, step) && (step.CheckActive? ==> ValidPair(step.email, step.repo))
    requires step.CheckActive? || step.Upsert? || step.CreateSaga? || step.ReadOutdated? || step.NotifyOne?
    ensures step.p in B.Apply(b, step).procs && PcNamed(B.Apply(b, step).procs[step.p])
  {
    if step.p in b.procs {
      assert PcNamed(b.procs[step.p]);
    }
  }

  lemma NoNameNeeded(b: B.State, step: B.Step)
    requires B.Enabled(b, step) && !step.Tick? && !step.Advance?
    requires !(step.CheckActive? || step.Upsert? || step.CreateSaga? || step.ReadOutdated? || step.NotifyOne?)
    requires step.p in b.procs ==> PcNamed(b.procs[step.p])
    ensures step.p in B.Apply(b, step).procs ==> PcNamed(B.Apply(b, step).procs[step.p])
  {
  }

  lemma NamesStep(b: B.State, step: B.Step)
    requires NamesKept(b) && B.Enabled(b, step)
    requires step.CheckActive? ==> ValidPair(step.email, step.repo)
    ensures NamesKept(B.Apply(b, step))
  {
    NamesOfRows(b, step);
    OthersUntouched(b, step);
    if !step.Tick? && !step.Advance? {
      NameOfMover(b, step);
    }
  }

  // ---------- Identities, tags, completions ----------

  lemma IdentityStep(b: B.State, step: B.Step)
    requires B.Enabled(b, step)
    ensures IdentitiesPersist(b, B.Apply(b, step))
  {
    if !TouchesSagas(step) {
      SagasUntouched(b, step);
    }
  }

  lemma CreatedMover(b: B.State, step: B.Step)
    requires B.Enabled(b, step) && !step.Tick? && !step.Advance?
    ensures step.p in B.Apply(b, step).procs ==> CreatedKnown(B.Apply(b, step).procs[step.p], B.Apply(b, step))
  {
  }

  lemma IdentitiesStep(b: B.State, step: B.Step)
    requires IdentitiesKept(b) && B.Enabled(b, step)
    ensures IdentitiesKept(B.Apply(b, step)) && IdentitiesPersist(b, B.Apply(b, step))
  {
    IdentityStep(b, step);
    OthersUntouched(b, step);
    var b' := B.Apply(b, step);
    forall q | q in b'.procs ensures CreatedKnown(b'.procs[q], b') {
      if StepOf(step, q) {
        CreatedMover(b, step);
      } else if b.procs[q].Created? {
        assert CreatedKnown(b.procs[q], b) && SameIdentity(b, b', b.procs[q].saga);
      }
    }
  }

  lemma TagsStep(b: B.State, step: B.Step)
    requires B.Enabled(b, step)
    ensures TagsFrom(b, step, B.Apply(b, step))
  {
    if !TouchesRows(step) {
      RowsUntouched(b, step);
    }
  }

  lemma CompletionStep(b: B.State, step: B.Step)
    requires B.Enabled(b, step)
    ensures CompletionsFrom(b, step, B.Apply(b, step))
  {
    if !TouchesSagas(step) {
      SagasUntouched(b, step);
    }
  }

  lemma CompleterStep(b: B.State, step: B.Step)
    requires B.Enabled(b, step)
    ensures CompletersFrom(b, step, B.Apply(b, step))
  {
  }

  // ---------- The world's invariant ----------

  /** Every recorded tag is a mailed tag. */
  ghost predicate TagsTrue(subs: T.Subscriptions, sent: seq<N.Mail>) {
    forall id :: id in subs && subs[id].lastSeenTag.Some? ==>
      ReleaseMailed(sent, subs[id].email, subs[id].repo, subs[id].lastSeenTag.value)
  }

  /** A confirmation order speaks of its own saga. */
  ghost predicate OrderKnown(m: EmailMessage, b: B.State) {
    m.ConfirmationMail? ==>
      && m.sagaId in b.sagas && b.sagas[m.sagaId].email == m.email && b.sagas[m.sagaId].repo == m.repo
      && m.sagaId in b.log.tokens && b.log.tokens[m.sagaId] == m.confirmToken
  }

  ghost predicate OrdersKnown(published: map<nat, Body>, b: B.State) {
    forall id :: id in published && published[id].Valid? ==> OrderKnown(published[id].m, b)
  }

  /** Some handler reported the saga's confirmation as sent. */
  ghost predicate ReportedSent(notices: set<N.Notice>, g: SagaId) {
    exists id :: N.ReplySent(id, g) in notices
  }

  ghost predicate CompletionsTrue(b: B.State, notices: set<N.Notice>) {
    && (forall g :: HasCompleted(b, g) ==> ReportedSent(notices, g))
    && (forall p :: p in b.procs && b.procs[p].Completing? ==> ReportedSent(notices, b.procs[p].saga))
  }

  ghost predicate Truthful(w: World) {
    && ServiceKept(w.n) && NamesKept(w.b) && IdentitiesKept(w.b)
    && TagsTrue(w.b.subs, w.n.log.sent)
    && OrdersKnown(w.n.broker.published, w.b)
    && CompletionsTrue(w.b, w.n.log.notices)
  }

  lemma InitTruthful(cfg: N.Config)
    ensures Truthful(Init(cfg))
  {
  }

  lemma ServeStep(w: World, step: N.Step)
    requires Truthful(w) && Enabled(w, Serve(step))
    ensures Truthful(Apply(w, Serve(step)))
  {
    C.SoundStep(w.n, step);
    C.ContentStep(w.n, step);
    ServeGrows(w.n, step, KeyedMails());
    var n' := N.Apply(w.n, step);
    PublishedServed(w.n, step);
    forall id | id in w.b.subs && w.b.subs[id].lastSeenTag.Some?
      ensures ReleaseMailed(n'.log.sent, w.b.subs[id].email, w.b.subs[id].repo, w.b.subs[id].lastSeenTag.value)
    {
      MailedPersists(w.n.log.sent, n'.log.sent, w.b.subs[id].email, w.b.subs[id].repo, w.b.subs[id].lastSeenTag.value);
    }
    NoticesPersist(w.b, w.n.log.notices, n'.log.notices);
  }

  lemma PublishedServed(n: N.State, step: N.Step)
    requires N.Enabled(n, step) && !step.Publish?
    ensures N.Apply(n, step).broker.published == n.broker.published
  {
    if step.Release? || step.Confirm? || step.ReadKey? {
      OutcomesKeepPublished(n, step);
    } else if step.AnnounceError? || step.ClaimError? {
      ErrorsKeepPublished(n, step);
    }
  }

  lemma OutcomesKeepPublished(n: N.State, step: N.Step)
    requires N.Enabled(n, step) && (step.Release? || step.Confirm? || step.ReadKey?)
    ensures N.Apply(n, step).broker.published == n.broker.published
  {
  }

  lemma ErrorsKeepPublished(n: N.State, step: N.Step)
    requires N.Enabled(n, step) && (step.AnnounceError? || step.ClaimError?)
    ensures N.Apply(n, step).broker.published == n.broker.published
  {
  }

  lemma NoticesPersist(b: B.State, a: set<N.Notice>, c: set<N.Notice>)
    requires CompletionsTrue(b, a) && a <= c
    ensures CompletionsTrue(b, c)
  {
    forall g | ReportedSent(a, g) ensures ReportedSent(c, g) {
      var id :| N.ReplySent(id, g) in a;
      assert N.ReplySent(id, g) in c;
    }
  }

  /** A back-end step keeps the invariant if an advance is backed by a mail and a SENT reply by a notice. */
  lemma BackEndStep(n: N.State, b: B.State, step: B.Step)
    requires Truthful(World(n, b)) && B.Enabled(b, step)
    requires step.CheckActive? ==> ValidPair(step.email, step.repo)
    requires step.Advance? ==> ReleaseMailed(n.log.sent, step.email, step.repo, step.tag)
    requires step.FindForReply? && step.sent ==> ReportedSent(n.log.notices, step.saga)
    ensures Truthful(World(n, B.Apply(b, step)))
  {
    var b' := B.Apply(b, step);
    NamesStep(b, step);
    IdentitiesStep(b, step);
    TagsStep(b, step);
    CompletionStep(b, step);
    CompleterStep(b, step);
    forall id | id in b'.subs && b'.subs[id].lastSeenTag.Some?
      ensures ReleaseMailed(n.log.sent, b'.subs[id].email, b'.subs[id].repo, b'.subs[id].lastSeenTag.value)
    {
      assert TagFrom(id, b'.subs[id], b.subs, step);
    }
    forall id | id in n.broker.published && n.broker.published[id].Valid? ensures OrderKnown(n.broker.published[id].m, b') {
      var m := n.broker.published[id].m;
      assert OrderKnown(m, b);
      assert m.ConfirmationMail? ==> SameIdentity(b, b', m.sagaId);
    }
  }

  lemma PublishOrder(n: N.State, b: B.State, id: nat, m: EmailMessage)
    requires Truthful(World(n, b)) && N.Enabled(n, N.Publish(id, Valid(m))) && WellKeyed(m) && OrderKnown(m, b)
    ensures Truthful(World(N.Apply(n, N.Publish(id, Valid(m))), b))
  {
    C.SoundStep(n, N.Publish(id, Valid(m)));
    C.ContentStep(n, N.Publish(id, Valid(m)));
    PublishGrows(n, id, m, KeyedMails());
  }

  lemma CallService(n: N.State, b: B.State, q: nat, req: Request)
    requires Truthful(World(n, b)) && N.Enabled(n, N.Call(q, req)) && WellKeyed(RequestMail(req))
    ensures Truthful(World(N.Apply(n, N.Call(q, req)), b))
  {
    C.SoundStep(n, N.Call(q, req));
    C.ContentStep(n, N.Call(q, req));
    CallGrows(n, q, req, KeyedMails());
    PublishedServed(n, N.Call(q, req));
  }

  lemma OrderConfirmationStep(w: World, p: nat, id: nat)
    requires Truthful(w) && Enabled(w, OrderConfirmation(p, id))
    ensures Truthful(Apply(w, OrderConfirmation(p, id)))
  {
    var m := ConfirmationOrder(w.b.procs[p]);
    assert PcNamed(w.b.procs[p]) && CreatedKnown(w.b.procs[p], w.b);
    RepoNameShape(m.repo);
    PublishOrder(w.n, w.b, id, m);
    BackEndStep(N.Apply(w.n, N.Publish(id, Valid(m))), w.b, B.OrderMail(p));
  }

  lemma NotifyStep(w: World, step: Step)
    requires Truthful(w) && Enabled(w, step) && (step.QueueRelease? || step.CallRelease?)
    ensures Truthful(Apply(w, step))
  {
    var pc := w.b.procs[step.p];
    var m := ReleaseOrder(pc, step.reader);
    assert PcNamed(pc);
    RepoNameShape(m.repo);
    if step.QueueRelease? {
      PublishOrder(w.n, w.b, step.id, m);
      BackEndStep(N.Apply(w.n, N.Publish(step.id, Valid(m))), w.b, B.NotifyOne(step.p, step.reader));
    } else {
      CallService(w.n, w.b, step.q, ReleaseRequest(pc, step.reader));
      BackEndStep(N.Apply(w.n, N.Call(step.q, ReleaseRequest(pc, step.reader))), w.b, B.NotifyOne(step.p, step.reader));
    }
  }

  lemma ConsumeStep(w: World, step: Step)
    requires Truthful(w) && Enabled(w, step)
    requires step.ConsumeReply? || step.ConsumeDelivered? || step.ConsumeResponse?
    ensures Truthful(Apply(w, step))
  {
    match step
    case ConsumeReply(p, notice) =>
      assert notice.ReplySent? ==> N.ReplySent(notice.id, notice.sagaId) in w.n.log.notices;
      BackEndStep(w.n, w.b, B.FindForReply(p, notice.sagaId, notice.ReplySent?));
    case ConsumeDelivered(notice) =>
      DeliveredMeansMailed(w.n, notice);
      BackEndStep(w.n, w.b, B.Advance(notice.email, notice.repo, notice.tag));
    case ConsumeResponse(r) =>
      ResponseMeansMailed(w.n, r);
      BackEndStep(w.n, w.b, B.Advance(r.m.email, r.m.repo, r.m.tag));
  }

  lemma WorldStep(w: World, step: Step)
    requires Truthful(w) && Enabled(w, step)
    ensures Truthful(Apply(w, step))
  {
    match step
    case Serve(st) => ServeStep(w, st);
    case Local(st) => BackEndStep(w.n, w.b, st);
    case OrderConfirmation(p, id) => OrderConfirmationStep(w, p, id);
    case QueueRelease(_, _, _) | CallRelease(_, _, _) => NotifyStep(w, step);
    case _ => ConsumeStep(w, step);
  }

  lemma {:induction false} TruthfulAlongRuns(w: World, steps: seq<Step>)
    requires Truthful(w) && CanRun(w, steps)
    ensures Truthful(Exec(w, steps))
    decreases |steps|
  {
    if steps != [] {
      WorldStep(w, steps[0]);
      TruthfulAlongRuns(Apply(w, steps[0]), steps[1..]);
    }
  }

  // ---------- The end-to-end theorems ----------

  /** In every run, crashes, late and duplicated events included: a row's last seen tag T means that a
      release mail for the row's own address, repository and T was sent. */
  lemma TagSoundness(cfg: N.Config, steps: seq<Step>, id: nat)
    requires CanRun(Init(cfg), steps)
    requires id in Exec(Init(cfg), steps).b.subs && Exec(Init(cfg), steps).b.subs[id].lastSeenTag.Some?
    ensures var w := Exec(Init(cfg), steps);
            ReleaseMailed(w.n.log.sent, w.b.subs[id].email, w.b.subs[id].repo, w.b.subs[id].lastSeenTag.value)
  {
    InitTruthful(cfg);
    TruthfulAlongRuns(Init(cfg), steps);
  }

  lemma OutdatedIsListed(subs: T.Subscriptions, id: nat, tag: string)
    requires id in subs
    ensures T.Outdated(subs[id], subs[id].repo, tag) ==> B.Reader(subs[id].email, subs[id].unsubscribeToken) in B.OutdatedRows(subs, subs[id].repo, tag)
  {
  }

  /** So a scan that finds `tag` leaves an ACTIVE subscriber out only if that very mail went out. */
  lemma ScanSkipsOnlyMailed(cfg: N.Config, steps: seq<Step>, id: nat, tag: string)
    requires CanRun(Init(cfg), steps)
    requires var subs := Exec(Init(cfg), steps).b.subs;
             id in subs && subs[id].status.ActiveRow?
             && B.Reader(subs[id].email, subs[id].unsubscribeToken) !in B.OutdatedRows(subs, subs[id].repo, tag)
    ensures var w := Exec(Init(cfg), steps);
            ReleaseMailed(w.n.log.sent, w.b.subs[id].email, w.b.subs[id].repo, tag)
  {
    var subs := Exec(Init(cfg), steps).b.subs;
    OutdatedIsListed(subs, id, tag);
    TagSoundness(cfg, steps, id);
  }

  /** In every run: a saga that has ever been COMPLETED had a confirmation mail sent with its own
      address, repository and confirm token. */
  lemma CompletionSoundness(cfg: N.Config, steps: seq<Step>, g: SagaId)
    requires CanRun(Init(cfg), steps) && HasCompleted(Exec(Init(cfg), steps).b, g)
    ensures var w := Exec(Init(cfg), steps);
            g in w.b.sagas && g in w.b.log.tokens
            && ConfirmationMailed(w.n.log.sent, w.b.sagas[g].email, w.b.sagas[g].repo, w.b.log.tokens[g])
  {
    InitTruthful(cfg);
    TruthfulAlongRuns(Init(cfg), steps);
    var w := Exec(Init(cfg), steps);
    var id :| N.ReplySent(id, g) in w.n.log.notices;
    assert C.NoticeSound(N.ReplySent(id, g), w.n.broker, w.n.log.sent);
    var m := w.n.broker.published[id].m;
    assert OrderKnown(m, w.b);
    SentKeyIsSentMail(w.n, m);
  }
}
