/** The gRPC handler as it runs, the second competitor for the keys of the queue consumer. */
module GrpcServer {
  import opened Messages
  import opened Notification
  import opened NotificationRuns
  import opened Infrastructure
  import opened Traces
  import C = NotificationContent

  /** The ways through handleSendReleaseNotification. */
  datatype Path =
    | Refused
    | StoreThrew(applied: bool)
    | ReadThrew
    | Busy
    | AlreadySent
    | DeliveryFailed(released: bool)
    | DeliverySent(confirmed: bool)

  /** What the callback receives on each. */
  function CodeOf(path: Path): Code {
    match path
    case Refused => InvalidArgument
    case StoreThrew(_) => Unavailable
    case ReadThrew => Unavailable
    case Busy => Aborted
    case AlreadySent => Code.Duplicate
    case DeliveryFailed(_) => Internal
    case DeliverySent(_) => Code.Sent
  }

  /** The handler's own steps after its SET NX was answered. */
  function LaterOwn(p: nat, path: Path): seq<Step> {
    match path
    case Refused => []
    case StoreThrew(_) => []
    case ReadThrew => [ReadError(p)]
    case Busy => [ReadKey(p)]
    case AlreadySent => [ReadKey(p)]
    case DeliveryFailed(ok) => [SendError(p), Release(p, ok)]
    case DeliverySent(ok) => [SendOk(p), Confirm(p, ok)]
  }

  /** The handler's own steps after a request that passed validation. */
  function PathOwn(p: nat, path: Path): seq<Step> {
    if path.Refused? then [] else if path.StoreThrew? then [ClaimError(p, path.applied)]
    else [ClaimNx(p)] + LaterOwn(p, path)
  }

  /** The call was answered, and SENT or DUPLICATE only with a mail of that key sent. */
  ghost predicate Answered(shared: Shared, m: EmailMessage, code: Code)
    reads shared
  {
    && Response(m, code) in shared.responses
    && (code.Sent? || code.Duplicate? ==> C.SentKey(shared.sent, m.key))
  }

  /** How a path leaves the key: given back after a failed delivery whose release went through, done for the done time
      after a confirmed one; a duplicate was found done, a busy key was not. */
  ghost predicate KeyLeft(shared: Shared, key: string, path: Path)
    reads shared
  {
    && (path == DeliveryFailed(true) ==> key !in shared.store)
    && (path == DeliverySent(true) ==> key in shared.store && shared.store[key] == Entry(Done, shared.now + shared.cfg.doneTtl))
    && (path == AlreadySent ==> key in shared.store && shared.now < shared.store[key].expiresAt && shared.store[key].value == Done)
    && (path == Busy ==> !(key in shared.store && shared.now < shared.store[key].expiresAt && shared.store[key].value == Done))
  }

  lemma AnswersAreSound(shared: Shared, m: EmailMessage, code: Code)
    requires shared.Valid() && Response(m, code) in shared.responses
    ensures Answered(shared, m, code)
  {
    C.SoundAlongRuns(Init(shared.cfg), shared.trace);
    assert C.ResponseSound(Response(m, code), shared.model.log.sent);
  }

  class Server {
    const shared: Shared
    const idempotency: RedisIdempotencyStore

    ghost predicate Valid()
      reads shared
    {
      idempotency.shared == shared && shared.Valid()
    }

    constructor (shared: Shared, idempotency: RedisIdempotencyStore)
      requires shared.Valid() && idempotency.shared == shared
      ensures Valid() && this.shared == shared
    {
      this.shared := shared;
      this.idempotency := idempotency;
    }

    /** The callback. */
    method Callback(m: EmailMessage, code: Code)
      modifies shared`responses
      ensures shared.responses == old(shared.responses) + {Response(m, code)}
    {
      shared.responses := shared.responses + {Response(m, code)};
    }

    /** The call arrives and its fields are checked. */
    method Receive(ghost p: nat, req: Request) returns (valid: bool)
      requires Valid() && p !in shared.model.procs
      modifies shared
      ensures Valid() && shared.Took(p, old(shared.trace), [Call(p, req)], 0)
      ensures valid <==> !(req.email == "" || req.repo == "" || req.tag == "" || req.unsubscribeToken == "" || req.idempotencyKey == "")
      ensures valid ==> At(shared.model, p, Received(Job(RequestMail(req), FromRpc)))
      ensures !valid ==>
                && p !in shared.model.procs && Answered(shared, RequestMail(req), InvalidArgument)
                && shared.store == old(shared.store) && shared.sent == old(shared.sent)
    {
      valid := req.email != "" && req.repo != "" && req.tag != "" && req.unsubscribeToken != "" && req.idempotencyKey != "";
      if !valid {
        Callback(RequestMail(req), InvalidArgument);
      }
      shared.Record(p, Call(p, req));
    }

    method AnswerUnclaimed(ghost p: nat, m: EmailMessage, ghost applied: bool)
      requires idempotency.shared == shared
      requires shared.Modelled() && At(shared.model, p, Received(Job(m, FromRpc)))
      requires shared.now == shared.model.now && shared.broker == shared.model.broker && shared.LogAgrees()
      requires shared.store == if applied then SetPendingNx(shared.model.store, shared.now, m.key, shared.cfg.lease)
                               else shared.model.store
      modifies shared
      ensures Valid() && shared.Took(p, old(shared.trace), [ClaimError(p, applied)], 0) && p !in shared.model.procs
      ensures Response(m, Unavailable) in shared.responses
    {
      Callback(m, Unavailable);
      shared.Record(p, ClaimError(p, applied));
    }

    /** done, in_progress, or a GET that threw. */
    method AnswerLostClaim(ghost p: nat, m: EmailMessage, r: ClaimResult) returns (path: Path)
      requires Valid() && At(shared.model, p, Checking(Job(m, FromRpc)))
      requires r.AlreadyDone? || r.InProgress? || r.GetThrew?
      requires r.AlreadyDone? ==> IsDone(shared.store, shared.now, m.key)
      requires r.InProgress? ==> !IsDone(shared.store, shared.now, m.key)
      modifies shared
      ensures Valid() && p !in shared.model.procs
      ensures path == if r.AlreadyDone? then AlreadySent else if r.InProgress? then Busy else ReadThrew
      ensures shared.Took(p, old(shared.trace), LaterOwn(p, path), 0)
      ensures Response(m, CodeOf(path)) in shared.responses && KeyLeft(shared, m.key, path)
    {
      path := if r.AlreadyDone? then AlreadySent else if r.InProgress? then Busy else ReadThrew;
      Callback(m, CodeOf(path));
      shared.Record(p, if r.GetThrew? then ReadError(p) else ReadKey(p));
    }

    method Deliver(ghost p: nat, m: EmailMessage, ghost at: nat) returns (ok: bool, ghost noise: nat)
      requires Valid() && At(shared.model, p, Claimed(Job(m, FromRpc), at))
      modifies shared
      ensures Valid() && shared.Took(p, old(shared.trace), [if ok then SendOk(p) else SendError(p)], noise)
      ensures At(shared.model, p, if ok then SendDone(Job(m, FromRpc), at) else SendFailed(Job(m, FromRpc), at))
    {
      ok := *;
      if ok {
        shared.sent := shared.sent + [Mail(m, shared.now)];
        shared.Record(p, SendOk(p));
      } else {
        shared.Record(p, SendError(p));
      }
      noise := shared.Await(p);
    }

    method ReleaseAndAnswer(ghost p: nat, m: EmailMessage, ghost at: nat) returns (ok: bool)
      requires Valid() && At(shared.model, p, SendFailed(Job(m, FromRpc), at))
      modifies shared
      ensures Valid() && p !in shared.model.procs && shared.Took(p, old(shared.trace), [Release(p, ok)], 0)
      ensures Response(m, Internal) in shared.responses
      ensures shared.store == if ok then old(shared.store) - {m.key} else old(shared.store)
    {
      ok := *;
      if ok {
        shared.store := shared.store - {m.key};
      }
      Callback(m, Internal);
      shared.Record(p, Release(p, ok));
    }

    method ConfirmAndAnswer(ghost p: nat, m: EmailMessage, ghost at: nat) returns (ok: bool)
      requires Valid() && At(shared.model, p, SendDone(Job(m, FromRpc), at))
      modifies shared
      ensures Valid() && p !in shared.model.procs && shared.Took(p, old(shared.trace), [Confirm(p, ok)], 0)
      ensures Response(m, Code.Sent) in shared.responses
      ensures shared.store == if ok then old(shared.store)[m.key := Entry(Done, shared.now + shared.cfg.doneTtl)] else old(shared.store)
    {
      ok := *;
      if ok {
        shared.store := shared.store[m.key := Entry(Done, shared.now + shared.cfg.doneTtl)];
      }
      Callback(m, Code.Sent);
      shared.Record(p, Confirm(p, ok));
    }

    method DeliverAndAnswer(ghost p: nat, m: EmailMessage, ghost at: nat) returns (path: Path, ghost noise: nat)
      requires Valid() && At(shared.model, p, Claimed(Job(m, FromRpc), at))
      modifies shared
      ensures Valid() && p !in shared.model.procs && (path.DeliverySent? || path.DeliveryFailed?)
      ensures shared.Took(p, old(shared.trace), LaterOwn(p, path), noise)
      ensures Response(m, CodeOf(path)) in shared.responses && KeyLeft(shared, m.key, path)
    {
      var sent;
      sent, noise := Deliver(p, m, at);
      if sent {
        var confirmed := ConfirmAndAnswer(p, m, at);
        path := DeliverySent(confirmed);
      } else {
        var released := ReleaseAndAnswer(p, m, at);
        path := DeliveryFailed(released);
      }
    }

    method ClaimAndServe(ghost p: nat, m: EmailMessage) returns (path: Path, ghost noise: nat)
      requires Valid() && At(shared.model, p, Received(Job(m, FromRpc)))
      modifies shared
      ensures Valid() && p !in shared.model.procs && path != Refused
      ensures shared.Took(p, old(shared.trace), PathOwn(p, path), noise)
      ensures Response(m, CodeOf(path)) in shared.responses && KeyLeft(shared, m.key, path)
    {
      var r;
      r, noise := idempotency.Claim(p, Job(m, FromRpc), m.key);
      if r.SetThrew? {
        AnswerUnclaimed(p, m, r.applied);
        return StoreThrew(r.applied), 0;
      }
      ghost var mid, more := shared.trace, 0;
      if r.Won? {
        ghost var at :| At(shared.model, p, Claimed(Job(m, FromRpc), at));
        path, more := DeliverAndAnswer(p, m, at);
      } else {
        path := AnswerLostClaim(p, m, r);
      }
      TookThen(old(shared.trace), mid, shared.trace, Mine(p), [ClaimNx(p)], noise, LaterOwn(p, path), more);
      noise := noise + more;
    }

    /** handleSendReleaseNotification: exactly one answer, by the path taken; an invalid request is refused
        before the store is touched; SENT and DUPLICATE are only said when a mail with the key has gone out; after a
        failed delivery the key is given back. */
    method HandleSendReleaseNotification(ghost p: nat, req: Request) returns (path: Path, ghost noise: nat)
      requires Valid() && p !in shared.model.procs
      modifies shared
      ensures Valid() && p !in shared.model.procs
      ensures path == Refused <==> req.email == "" || req.repo == "" || req.tag == "" || req.unsubscribeToken == "" || req.idempotencyKey == ""
      ensures path == Refused ==> shared.store == old(shared.store) && shared.sent == old(shared.sent)
      ensures shared.Took(p, old(shared.trace), [Call(p, req)] + PathOwn(p, path), noise)
      ensures Answered(shared, RequestMail(req), CodeOf(path)) && KeyLeft(shared, req.idempotencyKey, path)
      ensures path == DeliveryFailed(true) ==> req.idempotencyKey !in shared.store
      ensures var m := ReleaseMail(req.idempotencyKey, req.email, req.repo, req.tag, req.unsubscribeToken);
              match path
              case Refused => Response(m, InvalidArgument) in shared.responses
              case StoreThrew(_) => Response(m, Unavailable) in shared.responses
              case ReadThrew => Response(m, Unavailable) in shared.responses
              case Busy => Response(m, Aborted) in shared.responses
              case AlreadySent => Response(m, Code.Duplicate) in shared.responses
              case DeliveryFailed(_) => Response(m, Internal) in shared.responses
              case DeliverySent(_) => Response(m, Code.Sent) in shared.responses
    {
      var valid := Receive(p, req);
      if !valid {
        return Refused, 0;
      }
      ghost var mid := shared.trace;
      path, noise := ClaimAndServe(p, RequestMail(req));
      TookThen(old(shared.trace), mid, shared.trace, Mine(p), [Call(p, req)], 0, PathOwn(p, path), noise);
      AnswersAreSound(shared, RequestMail(req), CodeOf(path));
    }
  }
}
