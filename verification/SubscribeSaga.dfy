/** The saga orchestrator as it runs: its writes in order, with any other process free to run at every await.
    Each method says which steps of the machine it took, so the theorems about runs are theorems about it. */
module SubscribeSaga {
  import opened Messages
  import opened Keys
  import opened Tables
  import opened Backend
  import opened Repositories
  import opened SagaSweep
  import BackendRuns
  import SagaLifecycle
  import SagaTheorems
  import Traces

  /** `p` stands before the first of the targets left, or has finished. */
  ghost predicate AtTarget(s: State, p: nat, rest: seq<Target>) {
    if rest == [] then p !in s.procs
    else p in s.procs && s.procs[p] == Sweeping(ToClaim, rest[0], rest[1..])
  }

  ghost predicate At(s: State, p: nat, pc: Pc) {
    p in s.procs && s.procs[p] == pc
  }

  /** A claimed saga is still in the table. */
  lemma ClaimedIsThere(trace: seq<Step>, p: nat, target: Target, rest: seq<Target>)
    requires CanRun(Init(), trace) && At(Exec(Init(), trace), p, Sweeping(ToMark, target, rest))
    ensures target.saga in Exec(Init(), trace).sagas
  {
    SagaTheorems.InitKept();
    SagaLifecycle.SagasAlongRuns(Init(), trace);
    var s := Exec(Init(), trace);
    assert SagaLifecycle.WriterKept(s.procs[p], s.sagas, s.log);
    assert SagaLifecycle.ClaimOf(s.procs[p]) == Some(target.saga);
  }

  /** So is a saga that start has created. */
  lemma OrderedIsThere(trace: seq<Step>, p: nat, saga: SagaId)
    requires CanRun(Init(), trace) && At(Exec(Init(), trace), p, Ordered(saga))
    ensures saga in Exec(Init(), trace).sagas
  {
    SagaTheorems.InitKept();
    SagaLifecycle.SagasAlongRuns(Init(), trace);
    var s := Exec(Init(), trace);
    assert SagaLifecycle.WriterKept(s.procs[p], s.sagas, s.log);
    assert SagaLifecycle.StartOf(s.procs[p]) == Some(saga);
  }

  /** What a sweep's process does for each target: a lost claim, or a won one with its delete and mark. */
  function SweepOwn(p: nat, won: seq<Option<bool>>): seq<Step> {
    if won == [] then []
    else SweepOwn(p, won[..|won| - 1]) + CompensateOwn(p, won[|won| - 1])
  }

  function CompensateOwn(p: nat, won: Option<bool>): seq<Step> {
    match won
    case None => [Claim(p)]
    case Some(ok) => [Claim(p), DeletePending(p, ok), MarkCompensated(p)]
  }

  class Orchestrator {
    const db: Database
    const sagaRepository: SagaRepository
    const subscriptionRepository: SubscriptionRepository
    const emailQueue: EmailQueue

    ghost predicate Valid()
      reads db
    {
      sagaRepository.db == db && subscriptionRepository.db == db && db.Valid()
    }

    constructor (sagaRepository: SagaRepository, subscriptionRepository: SubscriptionRepository, emailQueue: EmailQueue)
      requires sagaRepository.db == subscriptionRepository.db && sagaRepository.db.Valid()
      ensures Valid() && db == sagaRepository.db
    {
      this.db := sagaRepository.db;
      this.sagaRepository := sagaRepository;
      this.subscriptionRepository := subscriptionRepository;
      this.emailQueue := emailQueue;
    }

    // ---------- compensate ----------

    method ClaimSaga(ghost p: nat, target: Target, ghost rest: seq<Target>) returns (claimed: bool)
      requires Valid() && At(db.model, p, Sweeping(ToClaim, target, rest))
      modifies db
      ensures Valid() && db.Took(p, old(db.trace), [Claim(p)], 0)
      ensures claimed == CanTransition(old(db.sagas), target.saga, OPEN)
      ensures db.sagas == if claimed then SetState(old(db.sagas), target.saga, Compensating, old(db.now)) else old(db.sagas)
      ensures db.subs == old(db.subs) && db.now == old(db.now)
      ensures if claimed then At(db.model, p, Sweeping(ToDelete, target, rest)) else AtTarget(db.model, p, rest)
    {
      claimed := sagaRepository.Transition(target.saga, OPEN, Compensating);
      db.Record(p, Claim(p));
    }

    /** removePendingSubscription: a delete that throws is logged and forgotten. */
    method RemovePendingSubscription(ghost p: nat, target: Target, ghost rest: seq<Target>) returns (ok: bool)
      requires Valid() && At(db.model, p, Sweeping(ToDelete, target, rest))
      modifies db
      ensures Valid() && db.Took(p, old(db.trace), [DeletePending(p, ok)], 0)
      ensures db.subs == if ok then DeleteIfPending(old(db.subs), target.subId) else old(db.subs)
      ensures db.sagas == old(db.sagas) && db.now == old(db.now)
      ensures At(db.model, p, Sweeping(ToMark, target, rest))
    {
      ok := *;
      if ok {
        var _ := subscriptionRepository.DeleteIfPending(target.subId);
      }
      db.Record(p, DeletePending(p, ok));
    }

    method MarkSaga(ghost p: nat, target: Target, ghost rest: seq<Target>)
      requires Valid() && At(db.model, p, Sweeping(ToMark, target, rest))
      modifies db
      ensures Valid() && db.Took(p, old(db.trace), [MarkCompensated(p)], 0)
      ensures target.saga in old(db.sagas) && db.sagas == SetState(old(db.sagas), target.saga, Compensated, old(db.now))
      ensures db.subs == old(db.subs) && db.now == old(db.now) && AtTarget(db.model, p, rest)
    {
      ClaimedIsThere(db.trace, p, target, rest);
      sagaRepository.UpdateState(target.saga, Compensated);
      db.Record(p, MarkCompensated(p));
    }

    /** compensate, once its claim is won. */
    method FinishCompensation(ghost p: nat, target: Target, ghost rest: seq<Target>)
      returns (ok: bool, ghost noise: nat)
      requires Valid() && At(db.model, p, Sweeping(ToDelete, target, rest))
      modifies db
      ensures Valid() && AtTarget(db.model, p, rest)
      ensures db.Took(p, old(db.trace), [DeletePending(p, ok), MarkCompensated(p)], noise)
      ensures noise == 0 && ok ==>
                && db.now == old(db.now) && target.saga in old(db.sagas)
                && db.sagas == SetState(old(db.sagas), target.saga, Compensated, old(db.now))
                && db.subs == DeleteIfPending(old(db.subs), target.subId)
    {
      ok := RemovePendingSubscription(p, target, rest);
      noise := db.Await(p);
      MarkSaga(p, target, rest);
    }

    method ClaimAndAwait(ghost p: nat, target: Target, ghost rest: seq<Target>) returns (claimed: bool, ghost noise: nat)
      requires Valid() && At(db.model, p, Sweeping(ToClaim, target, rest))
      modifies db
      ensures Valid() && db.Took(p, old(db.trace), [Claim(p)], noise)
      ensures claimed == CanTransition(old(db.sagas), target.saga, OPEN)
      ensures if claimed then At(db.model, p, Sweeping(ToDelete, target, rest)) else AtTarget(db.model, p, rest)
      ensures noise == 0 ==>
                && db.now == old(db.now) && db.subs == old(db.subs)
                && db.sagas == (if claimed then SetState(old(db.sagas), target.saga, Compensating, old(db.now)) else old(db.sagas))
    {
      claimed := ClaimSaga(p, target, rest);
      noise := 0;
      if claimed {
        noise := db.Await(p);
      }
    }

    /** compensate: `won` says whether the claim succeeded, and then whether the delete did not throw; `noise`
        counts the steps of others in between. */
    method Compensate(ghost p: nat, target: Target, ghost rest: seq<Target>)
      returns (won: Option<bool>, ghost noise: nat)
      requires Valid() && At(db.model, p, Sweeping(ToClaim, target, rest))
      modifies db
      ensures Valid() && AtTarget(db.model, p, rest)
      ensures db.Took(p, old(db.trace), CompensateOwn(p, won), noise)
      ensures won.Some? == CanTransition(old(db.sagas), target.saga, OPEN)
      ensures noise == 0 && won != Some(false) ==>
                && db.now == old(db.now)
                && db.sagas == (if won.Some? then CompensateSagas(old(db.sagas), target, old(db.now)) else old(db.sagas))
                && db.subs == (if won.Some? then DeleteIfPending(old(db.subs), target.subId) else old(db.subs))
    {
      var claimed;
      claimed, noise := ClaimAndAwait(p, target, rest);
      if !claimed {
        return None, noise;
      }
      var ok;
      ghost var more;
      ok, more := FinishCompensation(p, target, rest);
      won, noise := Some(ok), noise + more;
    }

    // ---------- start ----------

    method UpsertRow(ghost p: nat, email: string, repo: string, confirmToken: string, unsubscribeToken: string,
                     ghost at: nat) returns (id: nat, token: string)
      requires Valid() && At(db.model, p, Checked(email, repo, at))
      modifies db
      ensures Valid() && db.Took(p, old(db.trace), [Upsert(p, id, confirmToken, unsubscribeToken)], 0)
      ensures UpsertTarget(old(db.subs), id, email, repo)
      ensures token == if id in old(db.subs) then old(db.subs)[id].confirmToken else confirmToken
      ensures At(db.model, p, Upserted(id, email, repo, token))
    {
      id := subscriptionRepository.UpsertPending(email, repo, confirmToken, unsubscribeToken);
      token := db.subs[id].confirmToken;
      db.Record(p, Upsert(p, id, confirmToken, unsubscribeToken));
    }

    method CreateSaga(ghost p: nat, id: nat, email: string, repo: string, ghost token: string) returns (saga: SagaId)
      requires Valid() && At(db.model, p, Upserted(id, email, repo, token))
      modifies db
      ensures Valid() && db.Took(p, old(db.trace), [Backend.CreateSaga(p, saga)], 0)
      ensures saga !in old(db.sagas) && At(db.model, p, Created(saga, email, repo, token))
    {
      saga := sagaRepository.Create(id, email, repo);
      db.Record(p, Backend.CreateSaga(p, saga));
    }

    method OrderConfirmation(ghost p: nat, saga: SagaId, email: string, repo: string, token: string)
      requires Valid() && At(db.model, p, Created(saga, email, repo, token))
      modifies db, emailQueue
      ensures Valid() && db.Took(p, old(db.trace), [OrderMail(p)], 0) && At(db.model, p, Ordered(saga))
      ensures emailQueue.published
              == old(emailQueue.published) + [ConfirmationMail(ConfirmationKey(email, repo, token), email, repo, token, saga)]
    {
      emailQueue.Publish(ConfirmationMail(ConfirmationKey(email, repo, token), email, repo, token, saga));
      db.Record(p, OrderMail(p));
    }

    /** The write that looks at no state. */
    method MarkAwaitingEmail(ghost p: nat, saga: SagaId)
      requires Valid() && At(db.model, p, Ordered(saga))
      modifies db
      ensures Valid() && db.Took(p, old(db.trace), [MarkAwaiting(p)], 0) && p !in db.model.procs
      ensures saga in db.sagas && db.sagas[saga].state == AwaitingEmail
    {
      OrderedIsThere(db.trace, p, saga);
      sagaRepository.UpdateState(saga, AwaitingEmail);
      db.Record(p, MarkAwaiting(p));
    }

    method BeginSaga(ghost p: nat, email: string, repo: string, confirmToken: string, unsubscribeToken: string,
                     ghost at: nat) returns (id: nat, token: string, saga: SagaId, ghost noise: nat)
      requires Valid() && At(db.model, p, Checked(email, repo, at))
      modifies db
      ensures Valid() && At(db.model, p, Created(saga, email, repo, token))
      ensures db.Took(p, old(db.trace), [Upsert(p, id, confirmToken, unsubscribeToken), Backend.CreateSaga(p, saga)], noise)
      ensures UpsertTarget(old(db.subs), id, email, repo)
      ensures token == if id in old(db.subs) then old(db.subs)[id].confirmToken else confirmToken
    {
      id, token := UpsertRow(p, email, repo, confirmToken, unsubscribeToken, at);
      noise := db.Await(p);
      saga := CreateSaga(p, id, email, repo, token);
      ghost var more := db.Await(p);
      noise := noise + more;
    }

    method OrderAndMark(ghost p: nat, saga: SagaId, email: string, repo: string, token: string) returns (ghost noise: nat)
      requires Valid() && At(db.model, p, Created(saga, email, repo, token))
      modifies db, emailQueue
      ensures Valid() && db.Took(p, old(db.trace), [OrderMail(p), MarkAwaiting(p)], noise) && p !in db.model.procs
      ensures saga in db.sagas && db.sagas[saga].state == AwaitingEmail
      ensures emailQueue.published
              == old(emailQueue.published) + [ConfirmationMail(ConfirmationKey(email, repo, token), email, repo, token, saga)]
    {
      OrderConfirmation(p, saga, email, repo, token);
      noise := db.Await(p);
      MarkAwaitingEmail(p, saga);
    }

    /** start: upsert, saga row, order, mark, in this order; one order, under the row's own token. */
    method Start(ghost p: nat, email: string, repo: string, confirmToken: string, unsubscribeToken: string, ghost at: nat)
      returns (id: nat, ghost token: string, ghost saga: SagaId, ghost noise: nat)
      requires Valid() && At(db.model, p, Checked(email, repo, at))
      modifies db, emailQueue
      ensures Valid() && p !in db.model.procs
      ensures db.Took(p, old(db.trace), [Upsert(p, id, confirmToken, unsubscribeToken), Backend.CreateSaga(p, saga),
                                         OrderMail(p), MarkAwaiting(p)], noise)
      ensures UpsertTarget(old(db.subs), id, email, repo)
      ensures token == if id in old(db.subs) then old(db.subs)[id].confirmToken else confirmToken
      ensures saga in db.sagas && db.sagas[saga].state == AwaitingEmail
      ensures emailQueue.published
              == old(emailQueue.published) + [ConfirmationMail(ConfirmationKey(email, repo, token), email, repo, token, saga)]
    {
      var t, g;
      id, t, g, noise := BeginSaga(p, email, repo, confirmToken, unsubscribeToken, at);
      ghost var more := OrderAndMark(p, g, email, repo, t);
      token, saga, noise := t, g, noise + more;
    }

    // ---------- onReply ----------

    method FindForReply(ghost p: nat, id: SagaId, sent: bool) returns (saga: Option<Saga>)
      requires Valid() && p !in db.model.procs
      modifies db
      ensures Valid() && db.Took(p, old(db.trace), [Backend.FindForReply(p, id, sent)], 0)
      ensures db.now == old(db.now) && db.subs == old(db.subs) && db.sagas == old(db.sagas)
      ensures saga == if id in db.sagas then Some(db.sagas[id]) else None
      ensures if saga.None? || saga.value.state != AwaitingEmail then p !in db.model.procs
              else if sent then At(db.model, p, Completing(id))
              else At(db.model, p, Sweeping(ToClaim, Target(id, saga.value.subId), []))
    {
      saga := sagaRepository.FindById(id);
      db.Record(p, Backend.FindForReply(p, id, sent));
    }

    method CompleteSaga(ghost p: nat, id: SagaId) returns (completed: bool)
      requires Valid() && At(db.model, p, Completing(id))
      modifies db
      ensures Valid() && db.Took(p, old(db.trace), [Complete(p)], 0) && p !in db.model.procs
      ensures completed == CanTransition(old(db.sagas), id, {AwaitingEmail})
      ensures db.sagas == if completed then SetState(old(db.sagas), id, Completed, old(db.now)) else old(db.sagas)
      ensures db.subs == old(db.subs)
    {
      completed := sagaRepository.Transition(id, {AwaitingEmail}, Completed);
      db.Record(p, Complete(p));
    }

    /** The rest of onReply, for a saga that was found in AWAITING_EMAIL. */
    method ActOnReply(ghost p: nat, target: Target, sent: bool) returns (ghost own: seq<Step>, ghost noise: nat)
      requires Valid() && At(db.model, p, if sent then Completing(target.saga) else Sweeping(ToClaim, target, []))
      modifies db
      ensures Valid() && p !in db.model.procs && db.Took(p, old(db.trace), own, noise)
      ensures if sent then own == [Complete(p)] else exists won :: own == CompensateOwn(p, won)
      ensures sent && noise == 0 && CanTransition(old(db.sagas), target.saga, {AwaitingEmail}) ==>
                && db.sagas == SetState(old(db.sagas), target.saga, Completed, old(db.now)) && db.subs == old(db.subs)
    {
      noise := db.Await(p);
      ghost var mid := db.trace;
      if sent {
        var _ := CompleteSaga(p, target.saga);
        own := [Complete(p)];
        Traces.TookThen(old(db.trace), mid, db.trace, BackendRuns.Mine(p), [], noise, own, 0);
        return;
      }
      ghost var won, more := Compensate(p, target, []);
      own := CompensateOwn(p, won);
      Traces.TookThen(old(db.trace), mid, db.trace, BackendRuns.Mine(p), [], noise, own, more);
      noise := noise + more;
    }

    /** onReply: a reply for a saga that is unknown or not AWAITING_EMAIL does nothing; a SENT reply attempts
        the completion and never touches a subscription; any other reply compensates that saga. */
    method OnReply(ghost p: nat, id: SagaId, sent: bool) returns (ghost own: seq<Step>, ghost noise: nat)
      requires Valid() && p !in db.model.procs
      modifies db
      ensures Valid() && p !in db.model.procs && db.Took(p, old(db.trace), own, noise)
      ensures !CanTransition(old(db.sagas), id, {AwaitingEmail}) ==>
                && own == [Backend.FindForReply(p, id, sent)] && noise == 0
                && db.subs == old(db.subs) && db.sagas == old(db.sagas)
      ensures CanTransition(old(db.sagas), id, {AwaitingEmail}) ==>
                if sent then own == [Backend.FindForReply(p, id, sent), Complete(p)]
                else exists won :: own == [Backend.FindForReply(p, id, sent)] + CompensateOwn(p, won)
      ensures CanTransition(old(db.sagas), id, {AwaitingEmail}) && noise == 0 && sent ==>
                && db.sagas == SetState(old(db.sagas), id, Completed, old(db.now)) && db.subs == old(db.subs)
    {
      var saga := FindForReply(p, id, sent);
      own, noise := [Backend.FindForReply(p, id, sent)], 0;
      if saga.None? || saga.value.state != AwaitingEmail {
        return;
      }
      ghost var mid, rest := db.trace, [];
      rest, noise := ActOnReply(p, Target(id, saga.value.subId), sent);
      Traces.TookThen(old(db.trace), mid, db.trace, BackendRuns.Mine(p), own, 0, rest, noise);
      own := own + rest;
    }

    // ---------- compensateStuck ----------

    method FindStuckSagas(ghost p: nat, olderThan: nat) returns (found: seq<Target>)
      requires Valid() && p !in db.model.procs && olderThan <= db.now
      modifies db
      ensures Valid() && db.Took(p, old(db.trace), [FindStuck(p, olderThan, found)], 0)
      ensures StuckList(old(db.sagas), olderThan, found) && AtTarget(db.model, p, found)
      ensures db.now == old(db.now) && db.subs == old(db.subs) && db.sagas == old(db.sagas)
    {
      found := sagaRepository.FindStuck(olderThan);
      db.Record(p, FindStuck(p, olderThan, found));
    }

    method FindAndAwait(ghost p: nat, olderThan: nat) returns (found: seq<Target>, ghost noise: nat)
      requires Valid() && p !in db.model.procs && olderThan <= db.now
      modifies db
      ensures Valid() && db.Took(p, old(db.trace), [FindStuck(p, olderThan, found)], noise)
      ensures StuckList(old(db.sagas), olderThan, found) && AtTarget(db.model, p, found)
      ensures noise == 0 ==> db.now == old(db.now) && db.subs == old(db.subs) && db.sagas == old(db.sagas)
    {
      found := FindStuckSagas(p, olderThan);
      noise := db.Await(p);
    }

    /** One round of the sweep's loop, on what the rounds before it left. */
    method SweepRound(ghost p: nat, found: seq<Target>, i: nat, ghost base: (Subscriptions, Sagas, nat),
                      ghost won: seq<Option<bool>>, ghost undisturbed: bool)
      returns (ghost won': seq<Option<bool>>, ghost noise: nat)
      requires Valid() && i < |found| && AtTarget(db.model, p, found[i..])
      requires undisturbed ==> SweptTo(db, base, found[..i])
      modifies db
      ensures Valid() && AtTarget(db.model, p, found[i + 1..])
      ensures |won'| == |won| + 1 && won'[..|won|] == won
      ensures db.Took(p, old(db.trace), CompensateOwn(p, won'[|won|]), noise)
      ensures undisturbed && noise == 0 && won'[|won|] != Some(false) ==> SweptTo(db, base, found[..i + 1])
    {
      assert found[i..][0] == found[i] && found[i..][1..] == found[i + 1..];
      assert found[..i + 1][..i] == found[..i];
      var w;
      w, noise := Compensate(p, found[i], found[i + 1..]);
      won' := won + [w];
    }

    /** The same, with what the sweep has done since `before`. */
    method SweepNext(ghost p: nat, found: seq<Target>, i: nat, ghost base: (Subscriptions, Sagas, nat),
                     ghost before: seq<Step>, ghost won: seq<Option<bool>>, ghost noise: nat)
      returns (ghost won': seq<Option<bool>>, ghost noise': nat)
      requires Valid() && i == |won| < |found| && AtTarget(db.model, p, found[i..])
      requires db.Took(p, before, SweepOwn(p, won), noise)
      requires noise == 0 && NoneThrew(won) ==> SweptTo(db, base, found[..i])
      modifies db
      ensures Valid() && |won'| == i + 1 && AtTarget(db.model, p, found[i + 1..])
      ensures db.Took(p, before, SweepOwn(p, won'), noise')
      ensures noise' == 0 && NoneThrew(won') ==> SweptTo(db, base, found[..i + 1])
    {
      ghost var mid, more := db.trace, 0;
      won', more := SweepRound(p, found, i, base, won, noise == 0 && NoneThrew(won));
      SweepOwnGrows(p, won, won');
      Traces.TookThen(before, mid, db.trace, BackendRuns.Mine(p), SweepOwn(p, won), noise, CompensateOwn(p, won'[i]), more);
      noise' := noise + more;
    }

    /** The loop over the stuck sagas. */
    method CompensateAll(ghost p: nat, stuck: seq<Target>) returns (ghost won: seq<Option<bool>>, ghost noise: nat)
      requires Valid() && AtTarget(db.model, p, stuck)
      modifies db
      ensures Valid() && p !in db.model.procs
      ensures |won| == |stuck| && db.Took(p, old(db.trace), SweepOwn(p, won), noise)
      ensures noise == 0 && NoneThrew(won) ==> SweptTo(db, old((db.subs, db.sagas, db.now)), stuck)
    {
      ghost var base := (db.subs, db.sagas, db.now);
      won, noise := [], 0;
      var i := 0;
      while i < |stuck|
        invariant Valid() && 0 <= i <= |stuck| && |won| == i && AtTarget(db.model, p, stuck[i..])
        invariant db.Took(p, old(db.trace), SweepOwn(p, won), noise)
        invariant noise == 0 && NoneThrew(won) ==> SweptTo(db, base, stuck[..i])
      {
        won, noise := SweepNext(p, stuck, i, base, old(db.trace), won, noise);
        i := i + 1;
      }
      assert stuck[..i] == stuck;
    }

    /** The query and the loop, for a given threshold. */
    method CompensateSince(ghost p: nat, threshold: nat)
      returns (ghost found: seq<Target>, ghost won: seq<Option<bool>>, ghost noise: nat)
      requires Valid() && p !in db.model.procs && threshold <= db.now
      modifies db
      ensures Valid() && p !in db.model.procs
      ensures |won| == |found| && StuckList(old(db.sagas), threshold, found)
      ensures db.Took(p, old(db.trace), [FindStuck(p, threshold, found)] + SweepOwn(p, won), noise)
      ensures noise == 0 && NoneThrew(won) ==> SweptTo(db, old((db.subs, db.sagas, db.now)), found)
    {
      var stuck;
      stuck, noise := FindAndAwait(p, threshold);
      ghost var more;
      won, more := CompensateAll(p, stuck);
      found, noise := stuck, noise + more;
    }

    /** compensateStuck. Its own steps are the query and, target by target, a lost claim or a whole
        compensation. When nobody else took a step and no delete threw, exactly the open sagas last
        written more than `timeout` ago are COMPENSATED, exactly the PENDING rows they point to are gone, and nothing
        else changed. */
    method CompensateStuck(ghost p: nat, timeout: nat)
      returns (ghost olderThan: nat, ghost found: seq<Target>, ghost won: seq<Option<bool>>, ghost noise: nat)
      requires Valid() && p !in db.model.procs
      modifies db
      ensures Valid() && p !in db.model.procs
      ensures olderThan == if timeout <= old(db.now) then old(db.now) - timeout else 0
      ensures |won| == |found| && StuckList(old(db.sagas), olderThan, found)
      ensures db.Took(p, old(db.trace), [FindStuck(p, olderThan, found)] + SweepOwn(p, won), noise)
      ensures noise == 0 && NoneThrew(won) ==>
                && SagasSwept(old(db.sagas), db.sagas, olderThan, db.now)
                && SubsSwept(old(db.subs), db.subs, old(db.sagas), olderThan)
      ensures noise == 0 && NoneThrew(won) ==>
                && (forall g :: g in old(db.sagas) && old(db.now) <= old(db.sagas)[g].updatedAt + timeout ==>
                      g in db.sagas && db.sagas[g] == old(db.sagas)[g])
                && (forall g :: g in old(db.sagas) && old(db.sagas)[g].state in {Started, AwaitingEmail}
                                && old(db.sagas)[g].updatedAt + timeout < old(db.now) ==>
                      g in db.sagas && db.sagas[g].state == Compensated)
                && (forall id :: id in old(db.subs)
                                 && (forall g :: g in old(db.sagas) && old(db.sagas)[g].subId == id ==>
                                       old(db.now) <= old(db.sagas)[g].updatedAt + timeout) ==>
                      id in db.subs && db.subs[id] == old(db.subs)[id])
    {
      var threshold := if timeout <= db.now then db.now - timeout else 0;
      olderThan := threshold;
      found, won, noise := CompensateSince(p, threshold);
      SweepIsExact(old(db.subs), old(db.sagas), olderThan, found, old(db.now));
      if noise == 0 && NoneThrew(won) {
        SweptByAge(old(db.subs), db.subs, old(db.sagas), db.sagas, timeout, old(db.now));
      }
    }
  }

  ghost predicate SweptTo(db: Database, base: (Subscriptions, Sagas, nat), done: seq<Target>)
    reads db
  {
    && db.now == base.2 && db.sagas == SweepSagas(base.1, done, base.2)
    && db.subs == SweepSubs(base.0, base.1, done, base.2)
  }

  ghost predicate NoneThrew(won: seq<Option<bool>>) {
    forall i :: 0 <= i < |won| ==> won[i] != Some(false)
  }

  lemma SweepOwnGrows(p: nat, won: seq<Option<bool>>, won': seq<Option<bool>>)
    requires |won'| == |won| + 1 && won'[..|won|] == won
    ensures SweepOwn(p, won') == SweepOwn(p, won) + CompensateOwn(p, won'[|won|])
    ensures NoneThrew(won') <==> NoneThrew(won) && won'[|won|] != Some(false)
  {
  }
}
