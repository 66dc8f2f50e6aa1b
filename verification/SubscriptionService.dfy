/** The subscription service's check-then-act calls, with other processes free to run between the check and
    the act. */
module SubscriptionService {
  import opened Messages
  import opened Tables
  import opened Backend
  import opened Repositories
  import SubscribeSaga

  datatype Outcome = Done(id: nat) | AlreadySubscribed | RepositoryNotFound | InvalidToken | RowGone

  class Service {
    const db: Database
    const subscriptionRepository: SubscriptionRepository
    const saga: SubscribeSaga.Orchestrator

    ghost predicate Valid()
      reads db
    {
      saga.db == db && subscriptionRepository.db == db && saga.Valid()
    }

    constructor (subscriptionRepository: SubscriptionRepository, saga: SubscribeSaga.Orchestrator)
      requires saga.Valid() && subscriptionRepository.db == saga.db
      ensures Valid() && db == saga.db
    {
      this.db := saga.db;
      this.subscriptionRepository := subscriptionRepository;
      this.saga := saga;
    }

    method CheckActive(ghost p: nat, email: string, repo: string) returns (active: bool)
      requires Valid() && p !in db.model.procs
      modifies db
      ensures Valid() && active == ActiveExists(old(db.subs), email, repo)
      ensures active ==> p !in db.model.procs && db.Took(p, old(db.trace), [], 0)
      ensures !active ==>
                && SubscribeSaga.At(db.model, p, Checked(email, repo, old(db.model).log.stepNo))
                && db.Took(p, old(db.trace), [Backend.CheckActive(p, email, repo)], 0)
    {
      active := subscriptionRepository.CheckIfActiveExists(email, repo);
      if !active {
        db.Record(p, Backend.CheckActive(p, email, repo));
      }
    }

    method GiveUp(ghost p: nat)
      requires Valid() && p in db.model.procs
      modifies db
      ensures Valid() && p !in db.model.procs && db.Took(p, old(db.trace), [Abandon(p)], 0)
    {
      db.Record(p, Abandon(p));
    }

    /** The two checks of subscribeToRepo. */
    method CheckBoth(ghost p: nat, email: string, repo: string, repoExists: bool)
      returns (refused: Option<Outcome>, ghost noise: nat)
      requires Valid() && p !in db.model.procs
      modifies db
      ensures Valid() && refused in {None, Some(AlreadySubscribed), Some(RepositoryNotFound)}
      ensures refused == Some(AlreadySubscribed) <==> ActiveExists(old(db.subs), email, repo)
      ensures refused == Some(AlreadySubscribed) ==> db.Took(p, old(db.trace), [], noise)
      ensures refused != Some(AlreadySubscribed) ==> (refused == None <==> repoExists)
      ensures refused == Some(RepositoryNotFound) ==>
                db.Took(p, old(db.trace), [Backend.CheckActive(p, email, repo), Abandon(p)], noise)
      ensures refused == None ==>
                && db.Took(p, old(db.trace), [Backend.CheckActive(p, email, repo)], noise)
                && SubscribeSaga.At(db.model, p, Checked(email, repo, old(db.model).log.stepNo))
      ensures refused != None ==> p !in db.model.procs
    {
      var active := CheckActive(p, email, repo);
      if active {
        return Some(AlreadySubscribed), 0;
      }
      noise := db.Await(p);
      if !repoExists {
        GiveUp(p);
        return Some(RepositoryNotFound), noise;
      }
      refused := None;
    }

    /** subscribeToRepo: an ACTIVE row at the check refuses the call; whatever happens to the row afterwards,
        the upsert runs. */
    method SubscribeToRepo(ghost p: nat, email: string, repo: string, repoExists: bool,
                           confirmToken: string, unsubscribeToken: string)
      returns (r: Outcome, ghost own: seq<Step>, ghost noise: nat)
      requires Valid() && p !in db.model.procs
      modifies db, saga.emailQueue
      ensures Valid() && p !in db.model.procs && db.Took(p, old(db.trace), own, noise)
      ensures r == AlreadySubscribed <==>
                exists i :: (i in old(db.subs) && old(db.subs)[i].email == email && old(db.subs)[i].repo == repo
                             && old(db.subs)[i].status == ActiveRow)
      ensures r == AlreadySubscribed ==> own == []
      ensures r != AlreadySubscribed ==> (r.Done? <==> repoExists)
      ensures r == RepositoryNotFound ==> own == [Backend.CheckActive(p, email, repo), Abandon(p)]
      ensures r.Done? ==> exists g ::
                own == [Backend.CheckActive(p, email, repo), Upsert(p, r.id, confirmToken, unsubscribeToken),
                        CreateSaga(p, g), OrderMail(p), MarkAwaiting(p)]
      ensures !r.Done? ==> saga.emailQueue.published == old(saga.emailQueue.published)
    {
      var refused;
      refused, noise := CheckBoth(p, email, repo, repoExists);
      if refused == Some(AlreadySubscribed) {
        return AlreadySubscribed, [], noise;
      }
      if refused == Some(RepositoryNotFound) {
        return RepositoryNotFound, [Backend.CheckActive(p, email, repo), Abandon(p)], noise;
      }
      var id;
      ghost var token, g, more;
      id, token, g, more := saga.Start(p, email, repo, confirmToken, unsubscribeToken, old(db.model).log.stepNo);
      r, noise := Done(id), noise + more;
      own := [Backend.CheckActive(p, email, repo), Upsert(p, id, confirmToken, unsubscribeToken),
              CreateSaga(p, g), OrderMail(p), MarkAwaiting(p)];
    }

    method BeginConfirm(ghost p: nat, id: nat)
      requires Valid() && p !in db.model.procs && id in db.subs && db.subs[id].status.PendingRow?
      modifies db
      ensures Valid() && db.Took(p, old(db.trace), [FindConfirm(p, id)], 0) && SubscribeSaga.At(db.model, p, Confirming(id))
      ensures db.subs == old(db.subs)
    {
      db.Record(p, FindConfirm(p, id));
    }

    method ActivateRow(ghost p: nat, id: nat) returns (ok: bool)
      requires Valid() && SubscribeSaga.At(db.model, p, Confirming(id))
      modifies db
      ensures Valid() && p !in db.model.procs && ok == (id in old(db.subs))
      ensures db.Took(p, old(db.trace), [if ok then Backend.ActivateRow(p) else Abandon(p)], 0)
      ensures db.subs == if ok then Activate(old(db.subs), id) else old(db.subs)
    {
      ok := subscriptionRepository.Activate(id);
      if ok {
        db.Record(p, Backend.ActivateRow(p));
      } else {
        db.Record(p, Abandon(p));
      }
    }

    /** confirmSubscription: only a row found PENDING under the token is activated; if it is deleted in
        between, the call fails. */
    method ConfirmSubscription(ghost p: nat, token: string) returns (r: Outcome, ghost own: seq<Step>, ghost noise: nat)
      requires Valid() && p !in db.model.procs
      modifies db
      ensures Valid() && p !in db.model.procs && db.Took(p, old(db.trace), own, noise)
      ensures r == InvalidToken ==> own == [] && forall i :: i in old(db.subs) ==> old(db.subs)[i].confirmToken != token
      ensures r == AlreadySubscribed ==> own == [] && exists i ::
                i in old(db.subs) && old(db.subs)[i].confirmToken == token && old(db.subs)[i].status.ActiveRow?
      ensures r.Done? ==>
                && own == [FindConfirm(p, r.id), Backend.ActivateRow(p)]
                && r.id in old(db.subs) && old(db.subs)[r.id].confirmToken == token && old(db.subs)[r.id].status.PendingRow?
                && r.id in db.subs && db.subs[r.id].status.ActiveRow?
                && (noise == 0 ==> db.subs == Activate(old(db.subs), r.id))
      ensures r == RowGone ==> noise > 0
      ensures r != RepositoryNotFound
    {
      var row := subscriptionRepository.FindByConfirmToken(token);
      own, noise := [], 0;
      if row.None? {
        r := InvalidToken;
        return;
      }
      if db.subs[row.value].status.ActiveRow? {
        r := AlreadySubscribed;
        return;
      }
      BeginConfirm(p, row.value);
      noise := db.Await(p);
      var ok := ActivateRow(p, row.value);
      r := if ok then Done(row.value) else RowGone;
      own := [FindConfirm(p, row.value), if ok then Backend.ActivateRow(p) else Abandon(p)];
    }

    method BeginUnsubscribe(ghost p: nat, id: nat)
      requires Valid() && p !in db.model.procs && id in db.subs
      modifies db
      ensures Valid() && db.Took(p, old(db.trace), [FindUnsubscribe(p, id)], 0)
      ensures SubscribeSaga.At(db.model, p, Unsubscribing(id)) && db.subs == old(db.subs)
    {
      db.Record(p, FindUnsubscribe(p, id));
    }

    method DeleteRow(ghost p: nat, id: nat) returns (ok: bool)
      requires Valid() && SubscribeSaga.At(db.model, p, Unsubscribing(id))
      modifies db
      ensures Valid() && p !in db.model.procs && ok == (id in old(db.subs)) && db.subs == old(db.subs) - {id}
      ensures db.Took(p, old(db.trace), [if ok then Backend.DeleteRow(p) else Abandon(p)], 0)
    {
      ok := subscriptionRepository.Delete(id);
      db.Record(p, if ok then Backend.DeleteRow(p) else Abandon(p));
    }

    /** unsubscribeFromRepo: the row under the token goes, whatever its status. */
    method UnsubscribeFromRepo(ghost p: nat, token: string) returns (r: Outcome, ghost own: seq<Step>, ghost noise: nat)
      requires Valid() && p !in db.model.procs
      modifies db
      ensures Valid() && p !in db.model.procs && db.Took(p, old(db.trace), own, noise)
      ensures r == InvalidToken ==> own == [] && forall i :: i in old(db.subs) ==> old(db.subs)[i].unsubscribeToken != token
      ensures r.Done? ==>
                && own == [FindUnsubscribe(p, r.id), Backend.DeleteRow(p)]
                && r.id in old(db.subs) && old(db.subs)[r.id].unsubscribeToken == token && r.id !in db.subs
                && (noise == 0 ==> db.subs == old(db.subs) - {r.id})
      ensures r == RowGone ==> noise > 0
      ensures r.Done? || r == InvalidToken || r == RowGone
    {
      var row := subscriptionRepository.FindByUnsubscribeToken(token);
      own, noise := [], 0;
      if row.None? {
        r := InvalidToken;
        return;
      }
      BeginUnsubscribe(p, row.value);
      noise := db.Await(p);
      var ok := DeleteRow(p, row.value);
      r := if ok then Done(row.value) else RowGone;
      own := [FindUnsubscribe(p, row.value), if ok then Backend.DeleteRow(p) else Abandon(p)];
    }
  }
}
