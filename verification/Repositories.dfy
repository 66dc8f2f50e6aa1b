/** The database as the services hold it, and the repositories' statements on it. Beside the tables runs the
    step machine of Backend: every statement is recorded as the step it is, so that whatever holds of all runs
    holds of the tables. */
module Repositories {
  import opened Messages
  import opened Tables
  import T = Tables
  import opened Backend
  import opened BackendRuns
  import opened Traces

  class Database {
    var now: nat
    var subs: Subscriptions
    var sagas: Sagas
    var nextId: nat             // every id given out is below
    ghost var model: State
    ghost var trace: seq<Step>

    constructor ()
      ensures Valid() && trace == []
    {
      now, subs, sagas, nextId := 0, map[], map[], 0;
      model, trace := Init(), [];
    }

    ghost predicate Modelled()
      reads this
    {
      CanRun(Init(), trace) && Exec(Init(), trace) == model
    }

    ghost predicate Agrees()
      reads this
    {
      now == model.now && subs == model.subs && sagas == model.sagas
    }

    ghost predicate IdsBelow()
      reads this
    {
      && (forall id :: id in model.log.usedSubs ==> id < nextId)
      && (forall id :: id in model.subs ==> id < nextId)
      && (forall g :: g in model.sagas ==> g < nextId)
    }

    ghost predicate Valid()
      reads this
    {
      Modelled() && Agrees() && IdsBelow()
    }

    /** `p` has taken exactly these steps since `before`, and others `noise` of theirs. */
    ghost predicate Took(p: nat, before: seq<Step>, own: seq<Step>, noise: nat)
      reads this`trace
    {
      Traces.Took(before, trace, Mine(p), own, noise)
    }

    /** The statement just run was this step of `p`. */
    ghost method Record(p: nat, step: Step)
      requires Modelled() && Enabled(model, step) && StepOf(step, p)
      modifies this`model, this`trace
      ensures Modelled() && model == Apply(old(model), step) && Took(p, old(trace), [step], 0)
    {
      AppendStep(Init(), trace, step);
      OwnOfStep(trace, step, Mine(p));
      model, trace := Apply(model, step), trace + [step];
    }

    /** What other processes may do while `p` awaits: any run of steps that are not `p`'s. Callers know no
        more than this contract; the body is the run in which nothing happens. */
    method Others(ghost p: nat) returns (ghost env: seq<Step>)
      requires Valid()
      modifies this
      ensures Valid() && NoneMine(env, Mine(p)) && trace == old(trace) + env
      ensures CanRun(old(model), env) && model == Exec(old(model), env)
    {
      env := [];
      assert trace + [] == trace;
    }

    /** An await of `p`: its place in its own code stays; when nothing else ran, nothing has changed. */
    method Await(ghost p: nat) returns (ghost noise: nat)
      requires Valid()
      modifies this
      ensures Valid() && Took(p, old(trace), [], noise)
      ensures p in model.procs <==> p in old(model).procs
      ensures p in model.procs ==> model.procs[p] == old(model).procs[p]
      ensures noise == 0 ==> subs == old(subs) && sagas == old(sagas) && now == old(now)
    {
      ghost var env := Others(p);
      OthersKeepPc(old(model), env, p);
      OwnOfOthers(old(trace), env, Mine(p));
      noise := |env|;
    }
  }

  class SagaRepository {
    const db: Database

    constructor (db: Database)
      ensures this.db == db
    {
      this.db := db;
    }

    method Create(subId: nat, email: string, repo: string) returns (id: SagaId)
      requires forall g :: g in db.sagas ==> g < db.nextId
      modifies db`sagas, db`nextId
      ensures id == old(db.nextId) && db.nextId == id + 1
      ensures db.sagas == old(db.sagas)[id := Saga(Started, subId, email, repo, db.now)]
    {
      id := db.nextId;
      db.nextId := id + 1;
      db.sagas := db.sagas[id := Saga(Started, subId, email, repo, db.now)];
    }

    method FindById(id: SagaId) returns (saga: Option<Saga>)
      ensures saga == if id in db.sagas then Some(db.sagas[id]) else None
    {
      saga := if id in db.sagas then Some(db.sagas[id]) else None;
    }

    /** findMany gives each stuck row once, in no promised order. */
    method FindStuck(olderThan: nat) returns (found: seq<Target>)
      ensures StuckList(db.sagas, olderThan, found)
      ensures forall i :: 0 <= i < |found| ==>
                && found[i].saga in db.sagas && db.sagas[found[i].saga].subId == found[i].subId
                && db.sagas[found[i].saga].state in {Started, AwaitingEmail} && db.sagas[found[i].saga].updatedAt < olderThan
      ensures forall g :: g in db.sagas && db.sagas[g].state in {Started, AwaitingEmail} && db.sagas[g].updatedAt < olderThan ==>
                Target(g, db.sagas[g].subId) in found
    {
      found := [];
      ghost var done: set<SagaId> := {};
      var todo := set g | g in db.sagas && Stuck(db.sagas[g], olderThan);
      while todo != {}
        invariant todo !! done
        invariant forall g :: g in db.sagas && Stuck(db.sagas[g], olderThan) <==> g in todo + done
        invariant forall i :: 0 <= i < |found| ==>
                    found[i].saga in done && found[i].saga in db.sagas && found[i].subId == db.sagas[found[i].saga].subId
        invariant forall g :: g in done ==> g in db.sagas && Target(g, db.sagas[g].subId) in found
        invariant forall i, j :: 0 <= i < j < |found| ==> found[i].saga != found[j].saga
      {
        var g :| g in todo;
        found := found + [Target(g, db.sagas[g].subId)];
        todo, done := todo - {g}, done + {g};
      }
    }

    method UpdateState(id: SagaId, state: SagaState)
      requires id in db.sagas
      modifies db`sagas
      ensures db.sagas == SetState(old(db.sagas), id, state, db.now)
    {
      db.sagas := SetState(db.sagas, id, state, db.now);
    }

    /** The compare-and-set: whether a row in one of the `from` states was there to move. */
    method Transition(id: SagaId, from: set<SagaState>, to: SagaState) returns (moved: bool)
      modifies db`sagas
      ensures moved == CanTransition(old(db.sagas), id, from)
      ensures db.sagas == if moved then SetState(old(db.sagas), id, to, db.now) else old(db.sagas)
    {
      moved := id in db.sagas && db.sagas[id].state in from;
      if moved {
        db.sagas := SetState(db.sagas, id, to, db.now);
      }
    }
  }

  class SubscriptionRepository {
    const db: Database

    constructor (db: Database)
      ensures this.db == db
    {
      this.db := db;
    }

    /** A row of the pair is set to PENDING whatever it was; only without one is a row created. */
    method UpsertPending(email: string, repo: string, confirmToken: string, unsubscribeToken: string) returns (id: nat)
      requires forall i :: i in db.subs ==> i < db.nextId
      modifies db`subs, db`nextId
      ensures UpsertTarget(old(db.subs), id, email, repo)
      ensures id !in old(db.subs) ==> id == old(db.nextId)
      ensures db.nextId == old(db.nextId) + if id in old(db.subs) then 0 else 1
      ensures db.subs == T.UpsertPending(old(db.subs), id, email, repo, confirmToken, unsubscribeToken)
    {
      if row :| row in db.subs && IsPair(db.subs[row], email, repo) {
        id := row;
        db.subs := db.subs[row := db.subs[row].(status := PendingRow)];
      } else {
        id := db.nextId;
        db.nextId := id + 1;
        db.subs := db.subs[id := Subscription(email, repo, PendingRow, confirmToken, unsubscribeToken, None)];
      }
    }

    method CheckIfActiveExists(email: string, repo: string) returns (active: bool)
      ensures active == ActiveExists(db.subs, email, repo)
    {
      if id :| id in db.subs && IsPair(db.subs[id], email, repo) && db.subs[id].status.ActiveRow? {
        active := true;
      } else {
        active := false;
      }
    }

    method FindByConfirmToken(token: string) returns (id: Option<nat>)
      ensures id.Some? ==> id.value in db.subs && db.subs[id.value].confirmToken == token
      ensures id.None? ==> forall i :: i in db.subs ==> db.subs[i].confirmToken != token
    {
      if i :| i in db.subs && db.subs[i].confirmToken == token {
        id := Some(i);
      } else {
        id := None;
      }
    }

    method FindByUnsubscribeToken(token: string) returns (id: Option<nat>)
      ensures id.Some? ==> id.value in db.subs && db.subs[id.value].unsubscribeToken == token
      ensures id.None? ==> forall i :: i in db.subs ==> db.subs[i].unsubscribeToken != token
    {
      if i :| i in db.subs && db.subs[i].unsubscribeToken == token {
        id := Some(i);
      } else {
        id := None;
      }
    }

    /** update throws when the row is gone. */
    method Activate(id: nat) returns (ok: bool)
      modifies db`subs
      ensures ok == (id in old(db.subs))
      ensures db.subs == if ok then T.Activate(old(db.subs), id) else old(db.subs)
    {
      ok := id in db.subs;
      if ok {
        db.subs := db.subs[id := db.subs[id].(status := ActiveRow)];
      }
    }

    /** delete throws when the row is gone. */
    method Delete(id: nat) returns (ok: bool)
      modifies db`subs
      ensures ok == (id in old(db.subs))
      ensures db.subs == old(db.subs) - {id}
    {
      ok := id in db.subs;
      db.subs := db.subs - {id};
    }

    method DeleteIfPending(id: nat) returns (deleted: bool)
      modifies db`subs
      ensures deleted == (id in old(db.subs) && old(db.subs)[id].status.PendingRow?)
      ensures db.subs == T.DeleteIfPending(old(db.subs), id)
    {
      deleted := id in db.subs && db.subs[id].status.PendingRow?;
      if deleted {
        db.subs := db.subs - {id};
      }
    }
  }

  class EmailQueue {
    var published: seq<EmailMessage>

    constructor ()
      ensures published == []
    {
      published := [];
    }

    method Publish(m: EmailMessage)
      modifies this
      ensures published == old(published) + [m]
    {
      published := published + [m];
    }
  }
}
