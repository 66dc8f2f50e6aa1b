/** Who is mailed: every release order and every release mail was written for a reader whose row was ACTIVE, and did not
    show the tag, when a scan read it. */
module PipelineDue {
  import opened Messages
  import opened Keys
  import opened Pipeline
  import opened PipelineSafety
  import N = Notification
  import B = Backend
  import R = BackendRuns
  import T = Tables
  import P = PipelineTags
  import C = NotificationContent
  import Truth = PipelineTruth

  // ---------- What a scan reads ----------

  /** In every state, a scan of `repo` that found `tag` will notify a reader exactly when some ACTIVE row of that very
      repository has that address and unsubscribe token and does not show the tag. */
  lemma ScanSelects(w: World, p: nat, repo: string, tag: string, r: B.Reader)
    requires Enabled(w, Local(B.ReadOutdated(p, repo, tag)))
    ensures var pc := Apply(w, Local(B.ReadOutdated(p, repo, tag))).b.procs[p];
            && pc.Notifying? && pc.repo == repo && pc.tag == tag
            && (r in pc.todo <==> exists id :: id in w.b.subs && w.b.subs[id].status == T.ActiveRow && w.b.subs[id].repo == repo
                                    && w.b.subs[id].email == r.email && w.b.subs[id].unsubscribeToken == r.unsubscribeToken
                                    && w.b.subs[id].lastSeenTag != Some(tag))
  {
    var todo := Apply(w, Local(B.ReadOutdated(p, repo, tag))).b.procs[p].todo;
    if r in todo {
      var id :| id in w.b.subs && T.Outdated(w.b.subs[id], repo, tag) && r == B.Reader(w.b.subs[id].email, w.b.subs[id].unsubscribeToken);
      assert w.b.subs[id].status == T.ActiveRow && w.b.subs[id].repo == repo && w.b.subs[id].lastSeenTag != Some(tag);
    }
    if id :| id in w.b.subs && w.b.subs[id].status == T.ActiveRow && w.b.subs[id].repo == repo
             && w.b.subs[id].email == r.email && w.b.subs[id].unsubscribeToken == r.unsubscribeToken
             && w.b.subs[id].lastSeenTag != Some(tag) {
      assert T.Outdated(w.b.subs[id], repo, tag);
      assert B.Reader(w.b.subs[id].email, w.b.subs[id].unsubscribeToken) in B.OutdatedRows(w.b.subs, repo, tag);
    }
  }

  /** The step is a scan's read that finds `m` due: an ACTIVE row of the mail's own repository, address and unsubscribe
      token does not show the mail's tag. */
  ghost predicate DueAt(w: World, step: Step, m: EmailMessage) {
    && step.Local? && step.local.ReadOutdated? && m.ReleaseMail? && m.repo == step.local.repo && m.tag == step.local.tag
    && m.key == ReleaseKey(m.email, m.repo, m.tag)
    && exists id :: id in w.b.subs && w.b.subs[id].status == T.ActiveRow && w.b.subs[id].repo == m.repo
         && w.b.subs[id].email == m.email && w.b.subs[id].unsubscribeToken == m.unsubscribeToken
         && w.b.subs[id].lastSeenTag != Some(m.tag)
  }

  ghost function DueMails(w: World, step: Step): iset<EmailMessage> {
    iset m | DueAt(w, step, m)
  }

  /** The mails that some scan of the run found due. */
  ghost function AllDue(w: World, steps: seq<Step>): iset<EmailMessage>
    requires CanRun(w, steps)
    decreases |steps|
  {
    if steps == [] then iset{} else DueMails(w, steps[0]) + AllDue(Apply(w, steps[0]), steps[1..])
  }

  // ---------- Orders ----------

  /** The release orders among `due`, and all others. */
  ghost function Allowed(due: iset<EmailMessage>): iset<EmailMessage> {
    iset m: EmailMessage | m.ReleaseMail? ==> m in due
  }

  /** So were all the readers that scans have still to notify. */
  ghost predicate ReadersDue(b: B.State, due: iset<EmailMessage>) {
    forall p, r :: p in b.procs && b.procs[p].Notifying? && r in b.procs[p].todo ==> ReleaseOrder(b.procs[p], r) in due
  }

  ghost predicate Backed(w: World, due: iset<EmailMessage>) {
    OrdersIn(w.n, Allowed(due)) && ReadersDue(w.b, due)
  }

  lemma MoreDue(w: World, a: iset<EmailMessage>, b: iset<EmailMessage>)
    requires Backed(w, a) && a <= b
    ensures Backed(w, b)
  {
  }

  // ---------- Readers ----------

  /** Only a scan's read adds readers. */
  lemma ReadersMove(b: B.State, step: B.Step, due: iset<EmailMessage>)
    requires B.Enabled(b, step) && ReadersDue(b, due) && !step.ReadOutdated?
    ensures ReadersDue(B.Apply(b, step), due)
  {
    R.OthersUntouched(b, step);
    var b' := B.Apply(b, step);
    forall p, r | p in b'.procs && b'.procs[p].Notifying? && r in b'.procs[p].todo ensures ReleaseOrder(b'.procs[p], r) in due {
      if R.StepOf(step, p) {
        OnlyNotifiersStay(b, step);
      }
      assert p in b.procs && b.procs[p].Notifying? && r in b.procs[p].todo;
      assert ReleaseOrder(b.procs[p], r) in due;
    }
  }

  lemma OnlyNotifiersStay(b: B.State, step: B.Step)
    requires B.Enabled(b, step) && !step.ReadOutdated? && !step.Tick? && !step.Advance?
    ensures var b' := B.Apply(b, step);
            step.p in b'.procs && b'.procs[step.p].Notifying? ==>
              && step.NotifyOne? && b.procs[step.p].Notifying? && b'.procs[step.p].todo == b.procs[step.p].todo - {step.sub}
              && b'.procs[step.p].repo == b.procs[step.p].repo && b'.procs[step.p].tag == b.procs[step.p].tag
  {
  }

  lemma ReadDue(w: World, p: nat, repo: string, tag: string, due: iset<EmailMessage>)
    requires Enabled(w, Local(B.ReadOutdated(p, repo, tag))) && Backed(w, due)
    ensures Backed(Apply(w, Local(B.ReadOutdated(p, repo, tag))), due + DueMails(w, Local(B.ReadOutdated(p, repo, tag))))
  {
    var step := Local(B.ReadOutdated(p, repo, tag));
    var w' := Apply(w, step);
    MoreDue(w, due, due + DueMails(w, step));
    forall q, r | q in w'.b.procs && w'.b.procs[q].Notifying? && r in w'.b.procs[q].todo
      ensures ReleaseOrder(w'.b.procs[q], r) in due + DueMails(w, step)
    {
      if q == p {
        ScanSelects(w, p, repo, tag, r);
        assert DueAt(w, step, ReleaseOrder(w'.b.procs[q], r));
      }
    }
  }

  // ---------- Along runs ----------

  lemma NotifyDue(w: World, step: Step, due: iset<EmailMessage>)
    requires Enabled(w, step) && Backed(w, due) && (step.QueueRelease? || step.CallRelease?)
    ensures Backed(Apply(w, step), due)
  {
    var pc := w.b.procs[step.p];
    assert ReleaseOrder(pc, step.reader) in due;
    if step.QueueRelease? {
      PublishGrows(w.n, step.id, ReleaseOrder(pc, step.reader), Allowed(due));
    } else {
      CallGrows(w.n, step.q, ReleaseRequest(pc, step.reader), Allowed(due));
    }
    ReadersMove(w.b, B.NotifyOne(step.p, step.reader), due);
  }

  lemma OrderDue(w: World, p: nat, id: nat, due: iset<EmailMessage>)
    requires Enabled(w, OrderConfirmation(p, id)) && Backed(w, due)
    ensures Backed(Apply(w, OrderConfirmation(p, id)), due)
  {
    PublishGrows(w.n, id, ConfirmationOrder(w.b.procs[p]), Allowed(due));
    ReadersMove(w.b, B.OrderMail(p), due);
  }

  lemma ConsumeDue(w: World, step: Step, due: iset<EmailMessage>)
    requires Enabled(w, step) && Backed(w, due) && (step.ConsumeReply? || step.ConsumeDelivered? || step.ConsumeResponse?)
    ensures Backed(Apply(w, step), due)
  {
    match step
    case ConsumeReply(p, notice) => ReadersMove(w.b, B.FindForReply(p, notice.sagaId, notice.ReplySent?), due);
    case ConsumeDelivered(notice) => ReadersMove(w.b, B.Advance(notice.email, notice.repo, notice.tag), due);
    case ConsumeResponse(r) => ReadersMove(w.b, B.Advance(r.m.email, r.m.repo, r.m.tag), due);
  }

  lemma QuietStep(w: World, step: Step, due: iset<EmailMessage>)
    requires Enabled(w, step) && Backed(w, due) && C.ContentKept(w.n) && !(step.Local? && step.local.ReadOutdated?)
    ensures Backed(Apply(w, step), due)
  {
    match step
    case Serve(st) => ServeGrows(w.n, st, Allowed(due));
    case Local(st) => ReadersMove(w.b, st, due);
    case OrderConfirmation(p, id) => OrderDue(w, p, id, due);
    case ConsumeReply(_, _) | ConsumeDelivered(_) | ConsumeResponse(_) => ConsumeDue(w, step, due);
    case QueueRelease(_, _, _) | CallRelease(_, _, _) => NotifyDue(w, step, due);
  }

  lemma BackedStep(w: World, step: Step, due: iset<EmailMessage>)
    requires Enabled(w, step) && Backed(w, due) && C.ContentKept(w.n)
    ensures Backed(Apply(w, step), due + DueMails(w, step))
  {
    if step.Local? && step.local.ReadOutdated? {
      ReadDue(w, step.local.p, step.local.repo, step.local.tag, due);
    } else {
      QuietStep(w, step, due);
      MoreDue(Apply(w, step), due, due + DueMails(w, step));
    }
  }

  lemma {:induction false} BackedAlongRuns(w: World, steps: seq<Step>, due: iset<EmailMessage>)
    requires Truth.Truthful(w) && Backed(w, due) && CanRun(w, steps)
    ensures Backed(Exec(w, steps), due + AllDue(w, steps))
    decreases |steps|
  {
    if steps == [] {
      assert due + AllDue(w, steps) == due;
    } else {
      Truth.WorldStep(w, steps[0]);
      BackedStep(w, steps[0], due);
      BackedAlongRuns(Apply(w, steps[0]), steps[1..], due + DueMails(w, steps[0]));
      assert due + AllDue(w, steps) == due + DueMails(w, steps[0]) + AllDue(Apply(w, steps[0]), steps[1..]);
    }
  }

  /** Some scan of the run, at its step `k`, found the mail due. */
  ghost predicate WasDue(w: World, steps: seq<Step>, m: EmailMessage, k: nat) {
    k < |steps| && CanRun(w, steps[..k]) && DueAt(Exec(w, steps[..k]), steps[k], m)
  }

  lemma {:induction false} DueSomewhere(w: World, steps: seq<Step>, m: EmailMessage) returns (k: nat)
    requires CanRun(w, steps) && m in AllDue(w, steps)
    ensures WasDue(w, steps, m, k)
    decreases |steps|
  {
    if m in DueMails(w, steps[0]) {
      k := 0;
      assert steps[..0] == [];
    } else {
      var j := DueSomewhere(Apply(w, steps[0]), steps[1..], m);
      k := j + 1;
      assert steps[..k][1..] == steps[1..][..j] && steps[..k][0] == steps[0];
    }
  }

  lemma InitBacked(cfg: N.Config)
    ensures Backed(Init(cfg), iset{})
  {
  }

  /** In every run of both services, whichever transport carried it: every release mail sent went to the address of a
      row that was ACTIVE, with that row's unsubscribe token, and about a tag the row did not show, when a scan of that
      repository read it. */
  lemma MailedWasDue(cfg: N.Config, steps: seq<Step>, i: nat) returns (k: nat)
    requires CanRun(Init(cfg), steps)
    requires var sent := Exec(Init(cfg), steps).n.log.sent; i < |sent| && sent[i].m.ReleaseMail?
    ensures WasDue(Init(cfg), steps, Exec(Init(cfg), steps).n.log.sent[i].m, k)
  {
    InitBacked(cfg);
    Truth.InitTruthful(cfg);
    BackedAlongRuns(Init(cfg), steps, iset{});
    k := DueSomewhere(Init(cfg), steps, Exec(Init(cfg), steps).n.log.sent[i].m);
  }

  /** The same of every order published, in a handler's hands, or answered over gRPC. */
  lemma OrderedWasDue(cfg: N.Config, steps: seq<Step>, m: EmailMessage) returns (k: nat)
    requires CanRun(Init(cfg), steps) && m.ReleaseMail?
    requires var n := Exec(Init(cfg), steps).n;
             || (exists id :: id in n.broker.published && n.broker.published[id] == Valid(m))
             || (exists p :: p in n.procs && n.procs[p].job.m == m)
             || (exists r :: r in n.log.responses && r.m == m)
    ensures WasDue(Init(cfg), steps, m, k)
  {
    InitBacked(cfg);
    Truth.InitTruthful(cfg);
    BackedAlongRuns(Init(cfg), steps, iset{});
    k := DueSomewhere(Init(cfg), steps, m);
  }

  // ---------- One order per reader ----------

  /** The steps of the back end's process `p`. */
  predicate StepOf(step: Step, p: nat) {
    match step
    case Serve(_) => false
    case Local(st) => R.StepOf(st, p)
    case OrderConfirmation(q, _) => q == p
    case ConsumeReply(q, _) => q == p
    case ConsumeDelivered(_) => false
    case ConsumeResponse(_) => false
    case QueueRelease(q, _, _) => q == p
    case CallRelease(q, _, _) => q == p
  }

  /** The readers that scan `p` ordered mails for, one entry an order. */
  function Notified(steps: seq<Step>, p: nat): seq<B.Reader> {
    if steps == [] then []
    else (if (steps[0].QueueRelease? || steps[0].CallRelease?) && steps[0].p == p then [steps[0].reader] else [])
         + Notified(steps[1..], p)
  }

  /** As long as scan `p` only writes orders, whoever else runs: it writes at most one for each reader it had left to
      notify, none for anybody else, and is left with exactly the others. */
  lemma {:induction false} EachReaderOnce(w: World, steps: seq<Step>, p: nat)
    requires CanRun(w, steps) && p in w.b.procs && w.b.procs[p].Notifying?
    requires forall i :: 0 <= i < |steps| && StepOf(steps[i], p) ==> steps[i].QueueRelease? || steps[i].CallRelease?
    ensures var done := Notified(steps, p);
            var todo := w.b.procs[p].todo;
            var w' := Exec(w, steps);
            && (forall i, j :: 0 <= i < j < |done| ==> done[i] != done[j]) && (forall r :: r in done ==> r in todo)
            && p in w'.b.procs && w'.b.procs[p] == B.Notifying(w.b.procs[p].repo, w.b.procs[p].tag, set r | r in todo && r !in done)
    decreases |steps|
  {
    if steps != [] {
      NotifierStep(w, steps[0], p);
      EachReaderOnce(Apply(w, steps[0]), steps[1..], p);
    }
  }

  lemma NotifierStep(w: World, step: Step, p: nat)
    requires Enabled(w, step) && p in w.b.procs && w.b.procs[p].Notifying?
    requires StepOf(step, p) ==> step.QueueRelease? || step.CallRelease?
    ensures var w' := Apply(w, step);
            && p in w'.b.procs
            && w'.b.procs[p] == if StepOf(step, p) then w.b.procs[p].(todo := w.b.procs[p].todo - {step.reader}) else w.b.procs[p]
    ensures StepOf(step, p) ==> step.reader in w.b.procs[p].todo
  {
    P.BackRun(w, step);
    if !StepOf(step, p) && P.BackSteps(step) != [] {
      R.StayStep(w.b, P.BackSteps(step)[0], p);
    }
  }
}
