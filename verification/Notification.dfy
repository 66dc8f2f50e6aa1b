/** The notification service as a step machine: any number of queue handlers and gRPC handlers
    compete for idempotency keys in one Redis store, around a main, a retry and a dead queue.

    One step is what happens between two awaits of the source. Whatever the environment decides
    (which handler runs, whether a call fails, whether a failed call took effect all the same) is
    part of the step's label, so that a run is determined by its list of steps. */
module Notification {
  import opened Messages

  const MAX_RETRIES: nat := 3

  // ---------- The key store ----------

  datatype Value = Pending | Done
  datatype Entry = Entry(value: Value, expiresAt: nat)
  type Store = map<string, Entry>

  /** Redis shows a key until its expiry. */
  predicate Live(store: Store, now: nat, key: string) {
    key in store && now < store[key].expiresAt
  }

  /** GET: whether the key reads as done. An expired key reads as absent. */
  predicate IsDone(store: Store, now: nat, key: string) {
    Live(store, now, key) && store[key].value.Done?
  }

  /** SET key pending EX lease NX. */
  function SetPendingNx(store: Store, now: nat, key: string, lease: nat): Store {
    if Live(store, now, key) then store else store[key := Entry(Pending, now + lease)]
  }

  /** SET key done EX ttl. */
  function SetDone(store: Store, now: nat, key: string, ttl: nat): Store {
    store[key := Entry(Done, now + ttl)]
  }

  /** DEL key. */
  function Delete(store: Store, key: string): Store {
    store - {key}
  }

  // ---------- State ----------

  /** A message as the broker keeps it: its content and the x-retry-count header. */
  datatype Letter = Letter(body: Body, retries: nat)

  /** Where a handler's work came from. */
  datatype Origin = FromQueue(id: nat, retries: nat) | FromRpc

  datatype Job = Job(m: EmailMessage, origin: Origin)

  /** How far a handler has got. */
  datatype Pc =
    | Received(job: Job)              // before SET NX
    | Checking(job: Job)              // SET NX refused, before GET
    | Claimed(job: Job, at: nat)      // the key was won at time `at`; the provider has not answered
    | SendFailed(job: Job, at: nat)   // the provider failed, before release
    | SendDone(job: Job, at: nat)     // the mail went out, before confirm
    | Announcing(job: Job, left: nat) // delivery to be announced `left` more times, then ack
    | Reporting(job: Job, since: nat) // dead-lettered at `since`, before the FAILED reply

  /** What handlers publish. `id` names the message whose handling published it. */
  datatype Notice =
    | Delivered(id: nat, email: string, repo: string, tag: string)
    | ReplySent(id: nat, sagaId: SagaId)
    | ReplyFailed(id: nat, sagaId: SagaId)

  datatype Mail = Mail(m: EmailMessage, at: nat)
  datatype Stamp = Stamp(key: string, at: nat)
  datatype Response = Response(m: EmailMessage, code: Code)

  datatype Config = Config(lease: nat, doneTtl: nat)

  /** The broker's queues, with what was acknowledged and, as history, all that was published. */
  datatype Broker = Broker(
    main: map<nat, Letter>,
    retry: map<nat, Letter>,
    dead: map<nat, Letter>,
    acked: map<nat, Letter>,
    published: map<nat, Body>)

  /** History: the mails sent, the keys confirmed, the notices published, the calls answered. */
  datatype Log = Log(sent: seq<Mail>, confirmed: seq<Stamp>, notices: set<Notice>, responses: set<Response>)

  datatype State = State(cfg: Config, now: nat, store: Store, broker: Broker, procs: map<nat, Pc>, log: Log)

  function Init(cfg: Config): State {
    State(cfg, 0, map[], Broker(map[], map[], map[], map[], map[]), map[], Log([], [], {}, {}))
  }

  /** A handler holds its key between winning it and confirming or releasing it. */
  predicate Holder(pc: Pc) {
    pc.Claimed? || pc.SendFailed? || pc.SendDone?
  }

  /** The handler still has an unacknowledged message of the queue. */
  predicate InFlight(pc: Pc) {
    !pc.Reporting? && pc.job.origin.FromQueue?
  }

  predicate Carries(s: State, p: nat, id: nat) {
    p in s.procs && InFlight(s.procs[p]) && s.procs[p].job.origin.id == id
  }

  function LetterOf(job: Job): Letter
    requires job.origin.FromQueue?
  {
    Letter(Valid(job.m), job.origin.retries)
  }

  // ---------- Effects shared by several steps ----------

  function Leave(s: State, p: nat): State {
    s.(procs := s.procs - {p})
  }

  function Goto(s: State, p: nat, pc: Pc): State {
    s.(procs := s.procs[p := pc])
  }

  function Notify(s: State, notice: Notice): State {
    s.(log := s.log.(notices := s.log.notices + {notice}))
  }

  /** The gRPC callback, which ends the handler. */
  function Respond(s: State, p: nat, m: EmailMessage, code: Code): State {
    Leave(s, p).(log := s.log.(responses := s.log.responses + {Response(m, code)}))
  }

  predicate DeadLetters(job: Job)
    requires job.origin.FromQueue?
  {
    job.origin.retries >= MAX_RETRIES
  }

  /** handleRetry: to the dead queue unchanged, or to the retry queue with one more attempt counted. */
  function HandleRetry(b: Broker, job: Job): Broker
    requires job.origin.FromQueue?
  {
    if DeadLetters(job) then
      b.(dead := b.dead[job.origin.id := LetterOf(job)])
    else
      b.(retry := b.retry[job.origin.id := Letter(Valid(job.m), job.origin.retries + 1)])
  }

  /** A handler that cannot go on: the queue handler retries, the gRPC handler answers with `code`. */
  function GiveUp(s: State, p: nat, job: Job, code: Code): State {
    if job.origin.FromQueue? then Leave(s, p).(broker := HandleRetry(s.broker, job))
    else Respond(s, p, job.m, code)
  }

  /** confirmDelivery: one delivered event, or two SENT replies (the source publishes the reply twice). */
  function Announcements(m: EmailMessage): nat {
    if m.ReleaseMail? then 1 else 2
  }

  function NoticeOf(id: nat, m: EmailMessage): Notice {
    if m.ReleaseMail? then Delivered(id, m.email, m.repo, m.tag) else ReplySent(id, m.sagaId)
  }

  predicate ValidRequest(req: Request) {
    req.email != "" && req.repo != "" && req.tag != "" && req.unsubscribeToken != "" && req.idempotencyKey != ""
  }

  // ---------- Steps ----------

  datatype Step =
    | Tick
    | Publish(id: nat, body: Body)          // a producer's message reaches the main queue
    | Expire(id: nat)                       // the retry queue's TTL returns a message to the main queue
    | Take(p: nat, id: nat)                 // the broker delivers a message to a new handler
    | Call(p: nat, req: Request)            // a gRPC call arrives
    | ClaimNx(p: nat)
    | ClaimError(p: nat, applied: bool)
    | ReadKey(p: nat)
    | ReadError(p: nat)
    | SendOk(p: nat)
    | SendError(p: nat)
    | Release(p: nat, ok: bool)
    | Confirm(p: nat, ok: bool)
    | Announce(p: nat)
    | AnnounceError(p: nat, stored: bool)
    | Ack(p: nat)
    | Report(p: nat, stored: bool)
    | Crash(p: nat)

  predicate Enabled(s: State, step: Step) {
    match step
    case Tick => true
    case Publish(id, _) => id !in s.broker.published
    case Expire(id) => id in s.broker.retry
    case Take(p, id) => p !in s.procs && id in s.broker.main
    case Call(p, _) => p !in s.procs
    case ClaimNx(p) => p in s.procs && s.procs[p].Received?
    case ClaimError(p, _) => p in s.procs && s.procs[p].Received?
    case ReadKey(p) => p in s.procs && s.procs[p].Checking?
    case ReadError(p) => p in s.procs && s.procs[p].Checking?
    case SendOk(p) => p in s.procs && s.procs[p].Claimed?
    case SendError(p) => p in s.procs && s.procs[p].Claimed?
    case Release(p, _) => p in s.procs && s.procs[p].SendFailed?
    case Confirm(p, _) => p in s.procs && s.procs[p].SendDone?
    case Announce(p) => p in s.procs && MustAnnounce(s.procs[p])
    case AnnounceError(p, _) => p in s.procs && MustAnnounce(s.procs[p])
    case Ack(p) => p in s.procs && s.procs[p].Announcing? && s.procs[p].job.origin.FromQueue? && s.procs[p].left == 0
    case Report(p, _) => p in s.procs && s.procs[p].Reporting? && s.procs[p].job.origin.FromQueue? && s.procs[p].job.m.ConfirmationMail?
    case Crash(p) => p in s.procs
  }

  predicate MustAnnounce(pc: Pc) {
    pc.Announcing? && pc.job.origin.FromQueue? && pc.left > 0
  }

  function Apply(s: State, step: Step): State
    requires Enabled(s, step)
  {
    match step
    case Tick => s.(now := s.now + 1)
    case Publish(id, body) => ApplyPublish(s, id, body)
    case Expire(id) => ApplyExpire(s, id)
    case Take(p, id) => ApplyTake(s, p, id)
    case Call(p, req) => ApplyCall(s, p, req)
    case ClaimNx(p) => ApplyClaimNx(s, p)
    case ClaimError(p, applied) => ApplyClaimError(s, p, applied)
    case ReadKey(p) => ApplyReadKey(s, p)
    case ReadError(p) => GiveUp(s, p, s.procs[p].job, Unavailable)
    case SendOk(p) => ApplySendOk(s, p)
    case SendError(p) => Goto(s, p, SendFailed(s.procs[p].job, s.procs[p].at))
    case Release(p, ok) => ApplyRelease(s, p, ok)
    case Confirm(p, ok) => ApplyConfirm(s, p, ok)
    case Announce(p) => ApplyAnnounce(s, p)
    case AnnounceError(p, stored) => ApplyAnnounceError(s, p, stored)
    case Ack(p) => ApplyAck(s, p)
    case Report(p, stored) => ApplyReport(s, p, stored)
    case Crash(p) => ApplyCrash(s, p)
  }

  function ApplyPublish(s: State, id: nat, body: Body): State {
    s.(broker := s.broker.(main := s.broker.main[id := Letter(body, 0)], published := s.broker.published[id := body]))
  }

  function ApplyExpire(s: State, id: nat): State
    requires id in s.broker.retry
  {
    s.(broker := s.broker.(retry := s.broker.retry - {id}, main := s.broker.main[id := s.broker.retry[id]]))
  }

  /** onMessage and parseMessage: what the schema refuses goes to the dead queue at once. */
  function ApplyTake(s: State, p: nat, id: nat): State
    requires id in s.broker.main
  {
    var letter := s.broker.main[id];
    var b := s.broker.(main := s.broker.main - {id});
    match letter.body
    case Invalid => s.(broker := b.(dead := b.dead[id := letter]))
    case Valid(m) => Goto(s.(broker := b), p, Received(Job(m, FromQueue(id, letter.retries))))
  }

  function ApplyCall(s: State, p: nat, req: Request): State {
    if ValidRequest(req) then Goto(s, p, Received(Job(RequestMail(req), FromRpc)))
    else Respond(s, p, RequestMail(req), InvalidArgument)
  }

  function ApplyClaimNx(s: State, p: nat): State
    requires p in s.procs
  {
    var job := s.procs[p].job;
    if Live(s.store, s.now, job.m.key) then Goto(s, p, Checking(job))
    else Goto(s.(store := SetPendingNx(s.store, s.now, job.m.key, s.cfg.lease)), p, Claimed(job, s.now))
  }

  /** The store did not answer; the write may have happened all the same. */
  function ApplyClaimError(s: State, p: nat, applied: bool): State
    requires p in s.procs
  {
    var job := s.procs[p].job;
    var s1 := if applied then s.(store := SetPendingNx(s.store, s.now, job.m.key, s.cfg.lease)) else s;
    GiveUp(s1, p, job, Unavailable)
  }

  function ApplyReadKey(s: State, p: nat): State
    requires p in s.procs
  {
    var job := s.procs[p].job;
    if !IsDone(s.store, s.now, job.m.key) then GiveUp(s, p, job, Aborted)
    else if job.origin.FromRpc? then Respond(s, p, job.m, Duplicate)
    else Goto(s, p, Announcing(job, Announcements(job.m)))
  }

  function ApplySendOk(s: State, p: nat): State
    requires p in s.procs && s.procs[p].Claimed?
  {
    var job := s.procs[p].job;
    Goto(s.(log := s.log.(sent := s.log.sent + [Mail(job.m, s.now)])), p, SendDone(job, s.procs[p].at))
  }

  /** After a failed delivery: give the key back, move the message, and report a dead confirmation. */
  function ApplyRelease(s: State, p: nat, ok: bool): State
    requires p in s.procs
  {
    var job := s.procs[p].job;
    var s1 := if ok then s.(store := Delete(s.store, job.m.key)) else s;
    if job.origin.FromQueue? && DeadLetters(job) && job.m.ConfirmationMail? then
      Goto(s1, p, Reporting(job, s.now)).(broker := HandleRetry(s.broker, job))
    else
      GiveUp(s1, p, job, Internal)
  }

  /** After a successful delivery: mark the key done (a failure here is only logged) and announce it. */
  function ApplyConfirm(s: State, p: nat, ok: bool): State
    requires p in s.procs
  {
    var job := s.procs[p].job;
    var s1 := if ok then s.(store := SetDone(s.store, s.now, job.m.key, s.cfg.doneTtl),
                            log := s.log.(confirmed := s.log.confirmed + [Stamp(job.m.key, s.now)]))
              else s;
    if job.origin.FromRpc? then Respond(s1, p, job.m, Sent)
    else Goto(s1, p, Announcing(job, Announcements(job.m)))
  }

  function ApplyAnnounce(s: State, p: nat): State
    requires p in s.procs && MustAnnounce(s.procs[p])
  {
    var job := s.procs[p].job;
    Goto(Notify(s, NoticeOf(job.origin.id, job.m)), p, Announcing(job, s.procs[p].left - 1))
  }

  function ApplyAnnounceError(s: State, p: nat, stored: bool): State
    requires p in s.procs && MustAnnounce(s.procs[p])
  {
    var job := s.procs[p].job;
    GiveUp(if stored then Notify(s, NoticeOf(job.origin.id, job.m)) else s, p, job, Internal)
  }

  function ApplyAck(s: State, p: nat): State
    requires p in s.procs && s.procs[p].job.origin.FromQueue?
  {
    var job := s.procs[p].job;
    Leave(s, p).(broker := s.broker.(acked := s.broker.acked[job.origin.id := LetterOf(job)]))
  }

  /** publishSagaFailure: errors are logged and dropped. */
  function ApplyReport(s: State, p: nat, stored: bool): State
    requires p in s.procs && s.procs[p].job.origin.FromQueue? && s.procs[p].job.m.ConfirmationMail?
  {
    var job := s.procs[p].job;
    Leave(if stored then Notify(s, ReplyFailed(job.origin.id, job.m.sagaId)) else s, p)
  }

  /** The broker redelivers what a dead handler had not acknowledged, with its headers unchanged. */
  function ApplyCrash(s: State, p: nat): State
    requires p in s.procs
  {
    var job := s.procs[p].job;
    if InFlight(s.procs[p]) then
      Leave(s, p).(broker := s.broker.(main := s.broker.main[job.origin.id := LetterOf(job)]))
    else
      Leave(s, p)
  }

  // ---------- Runs ----------

  predicate CanRun(s: State, steps: seq<Step>)
    decreases |steps|
  {
    steps == [] || (Enabled(s, steps[0]) && CanRun(Apply(s, steps[0]), steps[1..]))
  }

  function Exec(s: State, steps: seq<Step>): State
    requires CanRun(s, steps)
    decreases |steps|
  {
    if steps == [] then s else Exec(Apply(s, steps[0]), steps[1..])
  }
}
