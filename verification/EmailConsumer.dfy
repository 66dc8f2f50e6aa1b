/** The queue consumer as it runs: claim, send, confirm or release, announce, and move the message; with any
    other handler free to run at every await. */
module EmailConsumer {
  import opened Messages
  import opened Notification
  import opened NotificationRuns
  import opened Infrastructure
  import opened Traces
  import C = NotificationContent

  /** How announcing a delivery went: every notice published and the message acknowledged, or, after
      `published` notices, an error; `stored` tells whether that notice got through all the same. */
  datatype Tail = Whole | Broken(published: nat, stored: bool)

  /** The ways through processMessage. */
  datatype Path =
    | Refused                                                // the schema refuses the content
    | StoreThrew(applied: bool)
    | ReadThrew
    | Busy                                                   // in_progress
    | Duplicate(tail: Tail)                                  // done
    | DeliveryFailed(released: bool, reported: Option<bool>)
    | DeliverySent(confirmed: bool, tail: Tail)

  function Repeat(step: Step, n: nat): seq<Step> {
    if n == 0 then [] else Repeat(step, n - 1) + [step]
  }

  lemma RepeatTwice(step: Step)
    ensures Repeat(step, 1) == [step] && Repeat(step, 2) == [step, step]
  {
  }

  function TailOwn(p: nat, tail: Tail, count: nat): seq<Step> {
    match tail
    case Whole => Repeat(Announce(p), count) + [Ack(p)]
    case Broken(published, stored) => Repeat(Announce(p), published) + [AnnounceError(p, stored)]
  }

  /** The handler's own steps after its SET NX was answered. */
  function LaterOwn(p: nat, path: Path, count: nat): seq<Step> {
    match path
    case Refused => []
    case StoreThrew(_) => []
    case ReadThrew => [ReadError(p)]
    case Busy => [ReadKey(p)]
    case Duplicate(tail) => [ReadKey(p)] + TailOwn(p, tail, count)
    case DeliveryFailed(ok, reported) => [SendError(p)] + FailedOwn(p, ok, reported)
    case DeliverySent(ok, tail) => [SendOk(p)] + SentOwn(p, ok, tail, count)
  }

  /** The handler's own steps after the message was taken; `count` is the number of notices due. */
  function PathOwn(p: nat, path: Path, count: nat): seq<Step> {
    if path.Refused? then [] else if path.StoreThrew? then [ClaimError(p, path.applied)]
    else [ClaimNx(p)] + LaterOwn(p, path, count)
  }

  function FailedOwn(p: nat, released: bool, reported: Option<bool>): seq<Step> {
    [Release(p, released)] + (if reported.Some? then [Report(p, reported.value)] else [])
  }

  function SentOwn(p: nat, confirmed: bool, tail: Tail, count: nat): seq<Step> {
    [Confirm(p, confirmed)] + TailOwn(p, tail, count)
  }

  /** Only a tail that was announced to its end acknowledges. */
  predicate Acknowledges(path: Path) {
    (path.Duplicate? || path.DeliverySent?) && path.tail.Whole?
  }

  /** Where a message that was not acknowledged lies: once more in the retry queue, or dead. */
  ghost predicate Requeued(b: Broker, id: nat, m: EmailMessage, retries: nat) {
    if retries >= MAX_RETRIES then id in b.dead && b.dead[id] == Letter(Body.Valid(m), retries)
    else id in b.retry && b.retry[id] == Letter(Body.Valid(m), retries + 1)
  }

  /** What stands behind an acknowledgement: a mail with the message's key, and its notice. */
  ghost predicate Vouched(shared: Shared, id: nat, m: EmailMessage)
    reads shared
  {
    && id in shared.broker.acked && C.SentKey(shared.sent, m.key) && NoticeOf(id, m) in shared.notices
  }

  lemma AckedIsVouched(shared: Shared, id: nat, m: EmailMessage)
    requires shared.Valid() && id in shared.broker.acked && shared.broker.acked[id].body == Body.Valid(m)
    ensures Vouched(shared, id, m)
  {
    C.SoundAlongRuns(Init(shared.cfg), shared.trace);
    assert C.AckSound(id, shared.model.broker.acked[id], shared.model.log);
  }

  /** Where the handling left the message. */
  ghost predicate Ended(shared: Shared, path: Path, id: nat, m: EmailMessage, retries: nat)
    reads shared
  {
    if Acknowledges(path) then Vouched(shared, id, m)
    else Requeued(shared.broker, id, m, retries)
  }

  function JobOf(id: nat, m: EmailMessage, retries: nat): Job {
    Job(m, FromQueue(id, retries))
  }

  /** consumer/handlers.ts: move the message on and drop it from the queue it came from. */
  class Handlers {
    const shared: Shared

    constructor (shared: Shared)
      ensures this.shared == shared
    {
      this.shared := shared;
    }

    /** handleRetry: dead with its headers unchanged once every retry is spent, else to the retry queue with
        one more counted. */
    method HandleRetry(id: nat, m: EmailMessage, retries: nat) returns (deadLettered: bool)
      modifies shared`broker
      ensures deadLettered <==> retries >= MAX_RETRIES
      ensures shared.broker == Notification.HandleRetry(old(shared.broker), JobOf(id, m, retries))
      ensures Requeued(shared.broker, id, m, retries)
    {
      var b := shared.broker;
      deadLettered := retries >= MAX_RETRIES;
      if deadLettered {
        shared.broker := b.(dead := b.dead[id := Letter(Body.Valid(m), retries)]);
      } else {
        shared.broker := b.(retry := b.retry[id := Letter(Body.Valid(m), retries + 1)]);
      }
    }

    method DeadLetterInvalid(id: nat, letter: Letter)
      modifies shared`broker
      ensures shared.broker == old(shared.broker).(dead := old(shared.broker).dead[id := letter])
    {
      shared.broker := shared.broker.(dead := shared.broker.dead[id := letter]);
    }
  }

  class Consumer {
    const shared: Shared
    const idempotency: RedisIdempotencyStore
    const handlers: Handlers

    ghost predicate Valid()
      reads shared
    {
      idempotency.shared == shared && handlers.shared == shared && shared.Valid()
    }

    constructor (shared: Shared, idempotency: RedisIdempotencyStore, handlers: Handlers)
      requires shared.Valid() && idempotency.shared == shared && handlers.shared == shared
      ensures Valid() && this.shared == shared
    {
      this.shared := shared;
      this.idempotency := idempotency;
      this.handlers := handlers;
    }

    // ---------- Announcing ----------

    /** One publish of the delivered event or of the SENT reply; an error requeues the message. */
    method PublishOnce(ghost p: nat, id: nat, m: EmailMessage, retries: nat, ghost left: nat)
      returns (ok: bool, stored: bool)
      requires Valid() && left > 0 && At(shared.model, p, Announcing(JobOf(id, m, retries), left))
      modifies shared
      ensures Valid()
      ensures ok ==>
                && shared.Took(p, old(shared.trace), [Announce(p)], 0)
                && At(shared.model, p, Announcing(JobOf(id, m, retries), left - 1))
                && (if m.ReleaseMail? then Delivered(id, m.email, m.repo, m.tag) else ReplySent(id, m.sagaId)) in shared.notices
      ensures !ok ==>
                && shared.Took(p, old(shared.trace), [AnnounceError(p, stored)], 0)
                && p !in shared.model.procs && Requeued(shared.broker, id, m, retries)
    {
      ok, stored := *, *;
      if ok {
        shared.notices := shared.notices + {NoticeOf(id, m)};
        shared.Record(p, Announce(p));
      } else {
        if stored {
          shared.notices := shared.notices + {NoticeOf(id, m)};
        }
        var _ := handlers.HandleRetry(id, m, retries);
        shared.Record(p, AnnounceError(p, stored));
      }
    }

    method AckMessage(ghost p: nat, id: nat, m: EmailMessage, retries: nat)
      requires Valid() && At(shared.model, p, Announcing(JobOf(id, m, retries), 0))
      modifies shared
      ensures Valid() && shared.Took(p, old(shared.trace), [Ack(p)], 0) && p !in shared.model.procs
      ensures Vouched(shared, id, m)
    {
      shared.broker := shared.broker.(acked := shared.broker.acked[id := Letter(Body.Valid(m), retries)]);
      shared.Record(p, Ack(p));
      AckedIsVouched(shared, id, m);
    }

    method PublishAndAwait(ghost p: nat, id: nat, m: EmailMessage, retries: nat, ghost left: nat)
      returns (ok: bool, stored: bool, ghost noise: nat)
      requires Valid() && left > 0 && At(shared.model, p, Announcing(JobOf(id, m, retries), left))
      modifies shared
      ensures Valid()
      ensures ok ==>
                && shared.Took(p, old(shared.trace), [Announce(p)], noise)
                && At(shared.model, p, Announcing(JobOf(id, m, retries), left - 1))
      ensures !ok ==>
                && shared.Took(p, old(shared.trace), [AnnounceError(p, stored)], noise)
                && p !in shared.model.procs && Requeued(shared.broker, id, m, retries)
    {
      ok, stored := PublishOnce(p, id, m, retries, left);
      noise := 0;
      if ok {
        noise := shared.Await(p);
      }
    }

    /** confirmDelivery and the ack after it: one delivered event for a release, the SENT reply twice over for
        a confirmation; the first error requeues the message. */
    method ConfirmDelivery(ghost p: nat, id: nat, m: EmailMessage, retries: nat) returns (tail: Tail, ghost noise: nat)
      requires Valid() && At(shared.model, p, Announcing(JobOf(id, m, retries), Announcements(m)))
      modifies shared
      ensures Valid() && p !in shared.model.procs
      ensures shared.Took(p, old(shared.trace), TailOwn(p, tail, Announcements(m)), noise)
      ensures tail.Broken? ==> tail.published < Announcements(m) && Requeued(shared.broker, id, m, retries)
      ensures tail.Whole? ==> Vouched(shared, id, m)
      ensures tail.Whole? ==> shared.Took(p, old(shared.trace), if m.ReleaseMail? then [Announce(p), Ack(p)]
                                                                else [Announce(p), Announce(p), Ack(p)], noise)
    {
      RepeatTwice(Announce(p));
      var ok, stored;
      ok, stored, noise := PublishAndAwait(p, id, m, retries, Announcements(m));
      if !ok {
        return Broken(0, stored), noise;
      }
      if m.ConfirmationMail? {
        ghost var more;
        ok, stored, more := PublishAndAwait(p, id, m, retries, 1);
        noise := noise + more;
        if !ok {
          return Broken(1, stored), noise;
        }
      }
      AckMessage(p, id, m, retries);
      tail := Whole;
    }

    // ---------- Sending ----------

    /** deliver: the provider takes the mail or throws. */
    method Deliver(ghost p: nat, id: nat, m: EmailMessage, ghost retries: nat, ghost at: nat) returns (ok: bool)
      requires Valid() && At(shared.model, p, Claimed(JobOf(id, m, retries), at))
      modifies shared
      ensures Valid() && shared.Took(p, old(shared.trace), [if ok then SendOk(p) else SendError(p)], 0)
      ensures At(shared.model, p, if ok then SendDone(JobOf(id, m, retries), at) else SendFailed(JobOf(id, m, retries), at))
      ensures shared.sent == old(shared.sent) + if ok then [Mail(m, shared.now)] else []
    {
      ok := *;
      if ok {
        shared.sent := shared.sent + [Mail(m, shared.now)];
        shared.Record(p, SendOk(p));
      } else {
        shared.Record(p, SendError(p));
      }
    }

    /** confirm, whose failure is only logged. */
    method ConfirmKey(ghost p: nat, id: nat, m: EmailMessage, ghost retries: nat, ghost at: nat) returns (ok: bool)
      requires Valid() && At(shared.model, p, SendDone(JobOf(id, m, retries), at))
      modifies shared
      ensures Valid() && shared.Took(p, old(shared.trace), [Confirm(p, ok)], 0)
      ensures At(shared.model, p, Announcing(JobOf(id, m, retries), Announcements(m)))
      ensures shared.store == if ok then old(shared.store)[m.key := Entry(Done, shared.now + shared.cfg.doneTtl)] else old(shared.store)
    {
      ok := *;
      if ok {
        shared.store := shared.store[m.key := Entry(Done, shared.now + shared.cfg.doneTtl)];
      }
      shared.Record(p, Confirm(p, ok));
    }

    /** release, whose failure is only logged, and at once handleRetry. */
    method ReleaseAndRetry(ghost p: nat, id: nat, m: EmailMessage, retries: nat, ghost at: nat)
      returns (ok: bool, deadLettered: bool)
      requires Valid() && At(shared.model, p, SendFailed(JobOf(id, m, retries), at))
      modifies shared
      ensures Valid() && shared.Took(p, old(shared.trace), [Release(p, ok)], 0)
      ensures deadLettered <==> retries >= MAX_RETRIES
      ensures shared.store == if ok then old(shared.store) - {m.key} else old(shared.store)
      ensures Requeued(shared.broker, id, m, retries)
      ensures if deadLettered && m.ConfirmationMail?
              then At(shared.model, p, Reporting(JobOf(id, m, retries), shared.now)) else p !in shared.model.procs
    {
      ok := *;
      if ok {
        shared.store := shared.store - {m.key};
      }
      deadLettered := handlers.HandleRetry(id, m, retries);
      shared.Record(p, Release(p, ok));
    }

    /** publishSagaFailure for a confirmation; its errors are logged and dropped. */
    method PublishSagaFailure(ghost p: nat, id: nat, m: EmailMessage, ghost retries: nat, ghost since: nat)
      returns (stored: bool)
      requires Valid() && m.ConfirmationMail? && At(shared.model, p, Reporting(JobOf(id, m, retries), since))
      modifies shared
      ensures Valid() && shared.Took(p, old(shared.trace), [Report(p, stored)], 0) && p !in shared.model.procs
      ensures shared.broker == old(shared.broker) && (stored ==> ReplyFailed(id, m.sagaId) in shared.notices)
    {
      stored := *;
      if stored {
        shared.notices := shared.notices + {ReplyFailed(id, m.sagaId)};
      }
      shared.Record(p, Report(p, stored));
    }

    /** The branch of a delivery that threw. */
    method HandleFailure(ghost p: nat, id: nat, m: EmailMessage, retries: nat, ghost at: nat)
      returns (released: bool, reported: Option<bool>, ghost noise: nat)
      requires Valid() && At(shared.model, p, SendFailed(JobOf(id, m, retries), at))
      modifies shared
      ensures Valid() && p !in shared.model.procs
      ensures shared.Took(p, old(shared.trace), FailedOwn(p, released, reported), noise)
      ensures reported.Some? <==> retries >= MAX_RETRIES && m.ConfirmationMail?
      ensures Requeued(shared.broker, id, m, retries)
    {
      var deadLettered;
      released, deadLettered := ReleaseAndRetry(p, id, m, retries, at);
      reported, noise := None, 0;
      if deadLettered && m.ConfirmationMail? {
        ghost var since := shared.now;
        noise := shared.Await(p);
        var stored := PublishSagaFailure(p, id, m, retries, since);
        reported := Some(stored);
      }
    }

    method DeliverAndAwait(ghost p: nat, id: nat, m: EmailMessage, ghost retries: nat, ghost at: nat)
      returns (ok: bool, ghost noise: nat)
      requires Valid() && At(shared.model, p, Claimed(JobOf(id, m, retries), at))
      modifies shared
      ensures Valid() && shared.Took(p, old(shared.trace), [if ok then SendOk(p) else SendError(p)], noise)
      ensures At(shared.model, p, if ok then SendDone(JobOf(id, m, retries), at) else SendFailed(JobOf(id, m, retries), at))
    {
      ok := Deliver(p, id, m, retries, at);
      noise := shared.Await(p);
    }

    /** The branch of a delivery that went through. */
    method HandleSuccess(ghost p: nat, id: nat, m: EmailMessage, retries: nat, ghost at: nat)
      returns (confirmed: bool, tail: Tail, ghost noise: nat)
      requires Valid() && At(shared.model, p, SendDone(JobOf(id, m, retries), at))
      modifies shared
      ensures Valid() && p !in shared.model.procs
      ensures shared.Took(p, old(shared.trace), SentOwn(p, confirmed, tail, Announcements(m)), noise)
      ensures tail.Broken? ==> tail.published < Announcements(m) && Requeued(shared.broker, id, m, retries)
      ensures tail.Whole? ==> Vouched(shared, id, m)
    {
      confirmed := ConfirmKey(p, id, m, retries, at);
      noise := shared.Await(p);
      ghost var more;
      tail, more := ConfirmDelivery(p, id, m, retries);
      noise := noise + more;
    }

    /** From a won claim to the end. */
    method DeliverAndFinish(ghost p: nat, id: nat, m: EmailMessage, retries: nat, ghost at: nat)
      returns (path: Path, ghost noise: nat)
      requires Valid() && At(shared.model, p, Claimed(JobOf(id, m, retries), at))
      modifies shared
      ensures Valid() && p !in shared.model.procs && (path.DeliveryFailed? || path.DeliverySent?)
      ensures shared.Took(p, old(shared.trace), LaterOwn(p, path, Announcements(m)), noise)
      ensures path.DeliveryFailed? ==> (path.reported.Some? <==> retries >= MAX_RETRIES && m.ConfirmationMail?)
      ensures Ended(shared, path, id, m, retries)
    {
      var sent;
      sent, noise := DeliverAndAwait(p, id, m, retries, at);
      ghost var mid, more := shared.trace, 0;
      if sent {
        var confirmed, tail;
        confirmed, tail, more := HandleSuccess(p, id, m, retries, at);
        TookThen(old(shared.trace), mid, shared.trace, Mine(p), [SendOk(p)], noise,
                 SentOwn(p, confirmed, tail, Announcements(m)), more);
        path := DeliverySent(confirmed, tail);
      } else {
        var released, reported;
        released, reported, more := HandleFailure(p, id, m, retries, at);
        TookThen(old(shared.trace), mid, shared.trace, Mine(p), [SendError(p)], noise,
                 FailedOwn(p, released, reported), more);
        path := DeliveryFailed(released, reported);
      }
      noise := noise + more;
    }

    // ---------- processMessage ----------

    /** onMessage and parseMessage: content that the schema refuses goes to the dead queue at once. */
    method TakeMessage(ghost p: nat, id: nat) returns (message: Option<EmailMessage>, retries: nat)
      requires Valid() && p !in shared.model.procs && id in shared.broker.main
      modifies shared
      ensures Valid() && shared.Took(p, old(shared.trace), [Take(p, id)], 0)
      ensures retries == old(shared.broker).main[id].retries
      ensures old(shared.broker).main[id].body == if message.Some? then Body.Valid(message.value) else Invalid
      ensures message.None? ==>
                p !in shared.model.procs && id in shared.broker.dead && shared.broker.dead[id] == old(shared.broker).main[id]
      ensures message.Some? ==> At(shared.model, p, Received(JobOf(id, message.value, retries)))
    {
      var letter := shared.broker.main[id];
      shared.broker := shared.broker.(main := shared.broker.main - {id});
      retries := letter.retries;
      if letter.body.Invalid? {
        handlers.DeadLetterInvalid(id, letter);
        message := None;
      } else {
        message := Some(letter.body.m);
      }
      shared.Record(p, Take(p, id));
    }

    method RequeueUnclaimed(ghost p: nat, id: nat, m: EmailMessage, retries: nat, ghost applied: bool)
      requires handlers.shared == shared && idempotency.shared == shared
      requires shared.Modelled() && At(shared.model, p, Received(JobOf(id, m, retries)))
      requires shared.now == shared.model.now && shared.broker == shared.model.broker && shared.LogAgrees()
      requires shared.store == if applied then SetPendingNx(shared.model.store, shared.now, m.key, shared.cfg.lease)
                               else shared.model.store
      modifies shared
      ensures Valid() && shared.Took(p, old(shared.trace), [ClaimError(p, applied)], 0) && p !in shared.model.procs
      ensures Requeued(shared.broker, id, m, retries)
    {
      var _ := handlers.HandleRetry(id, m, retries);
      shared.Record(p, ClaimError(p, applied));
    }

    /** GET threw, or the key is held by another: one more retry is spent. */
    method RequeueUnread(ghost p: nat, id: nat, m: EmailMessage, retries: nat, ghost threw: bool)
      requires Valid() && At(shared.model, p, Checking(JobOf(id, m, retries)))
      requires threw || !IsDone(shared.store, shared.now, m.key)
      modifies shared
      ensures Valid() && shared.Took(p, old(shared.trace), [if threw then ReadError(p) else ReadKey(p)], 0)
      ensures p !in shared.model.procs && Requeued(shared.broker, id, m, retries)
    {
      var _ := handlers.HandleRetry(id, m, retries);
      shared.Record(p, if threw then ReadError(p) else ReadKey(p));
    }

    method BeginDuplicate(ghost p: nat, id: nat, m: EmailMessage, ghost retries: nat)
      requires Valid() && At(shared.model, p, Checking(JobOf(id, m, retries))) && IsDone(shared.store, shared.now, m.key)
      modifies shared
      ensures Valid() && shared.Took(p, old(shared.trace), [ReadKey(p)], 0)
      ensures At(shared.model, p, Announcing(JobOf(id, m, retries), Announcements(m)))
    {
      shared.Record(p, ReadKey(p));
    }

    method HandleDuplicate(ghost p: nat, id: nat, m: EmailMessage, retries: nat) returns (tail: Tail, ghost noise: nat)
      requires Valid() && At(shared.model, p, Checking(JobOf(id, m, retries))) && IsDone(shared.store, shared.now, m.key)
      modifies shared
      ensures Valid() && p !in shared.model.procs
      ensures shared.Took(p, old(shared.trace), [ReadKey(p)] + TailOwn(p, tail, Announcements(m)), noise)
      ensures tail.Broken? ==> Requeued(shared.broker, id, m, retries)
      ensures tail.Whole? ==> Vouched(shared, id, m)
    {
      BeginDuplicate(p, id, m, retries);
      tail, noise := ConfirmDelivery(p, id, m, retries);
    }

    /** The branches of a claim that was not won. */
    method HandleLostClaim(ghost p: nat, id: nat, m: EmailMessage, retries: nat, r: ClaimResult)
      returns (path: Path, ghost noise: nat)
      requires Valid() && At(shared.model, p, Checking(JobOf(id, m, retries)))
      requires r.AlreadyDone? || r.InProgress? || r.GetThrew?
      requires r.AlreadyDone? ==> IsDone(shared.store, shared.now, m.key)
      requires r.InProgress? ==> !IsDone(shared.store, shared.now, m.key)
      modifies shared
      ensures Valid() && p !in shared.model.procs && Ended(shared, path, id, m, retries)
      ensures path == Busy || path == ReadThrew || path.Duplicate?
      ensures path == Busy <==> r.InProgress?
      ensures path.Duplicate? <==> r.AlreadyDone?
      ensures shared.Took(p, old(shared.trace), LaterOwn(p, path, Announcements(m)), noise)
    {
      noise := 0;
      if r.AlreadyDone? {
        var tail;
        tail, noise := HandleDuplicate(p, id, m, retries);
        path := Path.Duplicate(tail);
      } else {
        RequeueUnread(p, id, m, retries, r.GetThrew?);
        path := if r.GetThrew? then ReadThrew else Busy;
      }
    }

    /** The branches after a claim that did not throw on its SET. */
    method ProcessClaim(ghost p: nat, id: nat, m: EmailMessage, retries: nat, r: ClaimResult)
      returns (path: Path, ghost noise: nat)
      requires Valid() && !r.SetThrew?
      requires r.Won? ==> exists at :: At(shared.model, p, Claimed(JobOf(id, m, retries), at))
      requires !r.Won? ==> At(shared.model, p, Checking(JobOf(id, m, retries)))
      requires r.AlreadyDone? ==> IsDone(shared.store, shared.now, m.key)
      requires r.InProgress? ==> !IsDone(shared.store, shared.now, m.key)
      modifies shared
      ensures Valid() && p !in shared.model.procs && Ended(shared, path, id, m, retries)
      ensures path != Refused && !path.StoreThrew?
      ensures shared.Took(p, old(shared.trace), LaterOwn(p, path, Announcements(m)), noise)
    {
      if r.Won? {
        ghost var at :| At(shared.model, p, Claimed(JobOf(id, m, retries), at));
        path, noise := DeliverAndFinish(p, id, m, retries, at);
      } else {
        path, noise := HandleLostClaim(p, id, m, retries, r);
      }
    }

    /** From a parsed message to the end of its handling. */
    method ProcessParsed(ghost p: nat, id: nat, m: EmailMessage, retries: nat) returns (path: Path, ghost noise: nat)
      requires Valid() && At(shared.model, p, Received(JobOf(id, m, retries)))
      modifies shared
      ensures Valid() && p !in shared.model.procs && path != Refused && Ended(shared, path, id, m, retries)
      ensures shared.Took(p, old(shared.trace), PathOwn(p, path, Announcements(m)), noise)
    {
      var r;
      r, noise := idempotency.Claim(p, JobOf(id, m, retries), m.key);
      if r.SetThrew? {
        RequeueUnclaimed(p, id, m, retries, r.applied);
        return StoreThrew(r.applied), 0;
      }
      ghost var mid, more := shared.trace, 0;
      path, more := ProcessClaim(p, id, m, retries, r);
      TookThen(old(shared.trace), mid, shared.trace, Mine(p), [ClaimNx(p)], noise, LaterOwn(p, path, Announcements(m)), more);
      noise := noise + more;
    }

    /** processMessage. The handler's own steps are one of the listed paths, in that order. The message ends
        acknowledged only with a sent mail and a published notice behind it; refused content lies in the dead
        queue; anything else is in the retry queue with one more retry counted, or dead with all of them spent. */
    method ProcessMessage(ghost p: nat, id: nat) returns (path: Path, ghost noise: nat)
      requires Valid() && p !in shared.model.procs && id in shared.broker.main
      modifies shared
      ensures Valid() && p !in shared.model.procs
      ensures path == Refused <==> old(shared.broker).main[id].body.Invalid?
      ensures path == Refused ==>
                && shared.Took(p, old(shared.trace), [Take(p, id)], noise)
                && id in shared.broker.dead && shared.broker.dead[id] == old(shared.broker).main[id]
      ensures path != Refused ==>
                var letter := old(shared.broker).main[id];
                && shared.Took(p, old(shared.trace),
                               [Take(p, id)] + PathOwn(p, path, Announcements(letter.body.m)), noise)
                && Ended(shared, path, id, letter.body.m, letter.retries)
    {
      var message, retries := TakeMessage(p, id);
      if message.None? {
        return Refused, 0;
      }
      ghost var mid := shared.trace;
      path, noise := ProcessParsed(p, id, message.value, retries);
      TookThen(old(shared.trace), mid, shared.trace, Mine(p), [Take(p, id)], 0,
               PathOwn(p, path, Announcements(message.value)), noise);
    }
  }
}
