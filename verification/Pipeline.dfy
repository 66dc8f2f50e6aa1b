/** Both services together: the tables and their callers, the mail queue and its handlers, the
    replies and delivered events between them. A published notice may be consumed late, repeatedly
    or never; an answered call may be acted on late, repeatedly or never. */
module Pipeline {
  import opened Messages
  import opened Keys
  import N = Notification
  import B = Backend

  datatype World = World(n: N.State, b: B.State)

  function Init(cfg: N.Config): World {
    World(N.Init(cfg), B.Init())
  }

  datatype Step =
    | Serve(serve: N.Step)                             // a step inside the notification service
    | Local(local: B.Step)                             // a step inside the back end
    | OrderConfirmation(p: nat, id: nat)               // start publishes its confirmation order
    | ConsumeReply(p: nat, notice: N.Notice)           // the reply consumer takes a reply
    | ConsumeDelivered(notice: N.Notice)               // the delivered consumer advances the tag
    | ConsumeResponse(response: N.Response)            // GrpcNotifier advances the tag
    | QueueRelease(p: nat, reader: B.Reader, id: nat)  // QueueNotifier publishes a release order
    | CallRelease(p: nat, reader: B.Reader, q: nat)    // GrpcNotifier calls the notification service

  /** What subscribe requests must look like to pass validation. */
  predicate ValidPair(email: string, repo: string) {
    ColonFree(email) && RepoName(repo)
  }

  function ConfirmationOrder(pc: B.Pc): EmailMessage
    requires pc.Created?
  {
    ConfirmationMail(ConfirmationKey(pc.email, pc.repo, pc.confirmToken), pc.email, pc.repo, pc.confirmToken, pc.saga)
  }

  function ReleaseOrder(pc: B.Pc, reader: B.Reader): EmailMessage
    requires pc.Notifying?
  {
    ReleaseMail(ReleaseKey(reader.email, pc.repo, pc.tag), reader.email, pc.repo, pc.tag, reader.unsubscribeToken)
  }

  function ReleaseRequest(pc: B.Pc, reader: B.Reader): Request
    requires pc.Notifying?
  {
    Request(reader.email, pc.repo, pc.tag, reader.unsubscribeToken, ReleaseKey(reader.email, pc.repo, pc.tag))
  }

  ghost predicate Enabled(w: World, step: Step) {
    match step
    case Serve(st) => !st.Publish? && !st.Call? && N.Enabled(w.n, st)
    case Local(st) =>
      && !st.OrderMail? && !st.FindForReply? && !st.Advance? && !st.NotifyOne?
      && B.Enabled(w.b, st) && (st.CheckActive? ==> ValidPair(st.email, st.repo))
    case OrderConfirmation(p, id) => B.Enabled(w.b, B.OrderMail(p)) && id !in w.n.broker.published
    case ConsumeReply(p, notice) => p !in w.b.procs && notice in w.n.log.notices && !notice.Delivered?
    case ConsumeDelivered(notice) => notice in w.n.log.notices && notice.Delivered?
    case ConsumeResponse(r) => r in w.n.log.responses && (r.code.Sent? || r.code.Duplicate?) && r.m.ReleaseMail?
    case QueueRelease(p, reader, id) => B.Enabled(w.b, B.NotifyOne(p, reader)) && id !in w.n.broker.published
    case CallRelease(p, reader, q) => B.Enabled(w.b, B.NotifyOne(p, reader)) && q !in w.n.procs
  }

  ghost function Apply(w: World, step: Step): World
    requires Enabled(w, step)
  {
    match step
    case Serve(st) => w.(n := N.Apply(w.n, st))
    case Local(st) => w.(b := B.Apply(w.b, st))
    case OrderConfirmation(p, id) =>
      World(N.Apply(w.n, N.Publish(id, Valid(ConfirmationOrder(w.b.procs[p])))), B.Apply(w.b, B.OrderMail(p)))
    case ConsumeReply(p, notice) => w.(b := B.Apply(w.b, B.FindForReply(p, notice.sagaId, notice.ReplySent?)))
    case ConsumeDelivered(notice) => w.(b := B.Apply(w.b, B.Advance(notice.email, notice.repo, notice.tag)))
    case ConsumeResponse(r) => w.(b := B.Apply(w.b, B.Advance(r.m.email, r.m.repo, r.m.tag)))
    case QueueRelease(p, reader, id) =>
      World(N.Apply(w.n, N.Publish(id, Valid(ReleaseOrder(w.b.procs[p], reader)))), B.Apply(w.b, B.NotifyOne(p, reader)))
    case CallRelease(p, reader, q) =>
      World(N.Apply(w.n, N.Call(q, ReleaseRequest(w.b.procs[p], reader))), B.Apply(w.b, B.NotifyOne(p, reader)))
  }

  ghost predicate CanRun(w: World, steps: seq<Step>)
    decreases |steps|
  {
    steps == [] || (Enabled(w, steps[0]) && CanRun(Apply(w, steps[0]), steps[1..]))
  }

  ghost function Exec(w: World, steps: seq<Step>): World
    requires CanRun(w, steps)
    decreases |steps|
  {
    if steps == [] then w else Exec(Apply(w, steps[0]), steps[1..])
  }
}
