/** What the notification service shares: the Redis key store, the broker's queues, the mail provider and the
    queues it publishes to. Beside them runs the step machine of Notification, as in Repositories. */
module Infrastructure {
  import opened Notification
  import opened NotificationRuns
  import S = NotificationSafety
  import opened Traces

  ghost predicate At(s: State, p: nat, pc: Pc) {
    p in s.procs && s.procs[p] == pc
  }

  class Shared {
    const cfg: Config
    var now: nat
    var store: Store
    var broker: Broker
    var sent: seq<Mail>
    var notices: set<Notice>
    var responses: set<Response>
    ghost var model: State
    ghost var trace: seq<Step>

    constructor (cfg: Config)
      ensures Valid() && trace == [] && this.cfg == cfg
    {
      this.cfg := cfg;
      now, store, broker := 0, map[], Broker(map[], map[], map[], map[], map[]);
      sent, notices, responses := [], {}, {};
      model, trace := Init(cfg), [];
    }

    ghost predicate Modelled()
      reads this
    {
      CanRun(Init(cfg), trace) && Exec(Init(cfg), trace) == model && model.cfg == cfg
    }

    ghost predicate LogAgrees()
      reads this
    {
      sent == model.log.sent && notices == model.log.notices && responses == model.log.responses
    }

    ghost predicate Valid()
      reads this
    {
      Modelled() && now == model.now && store == model.store && broker == model.broker && LogAgrees()
    }

    ghost predicate Took(p: nat, before: seq<Step>, own: seq<Step>, noise: nat)
      reads this`trace
    {
      Traces.Took(before, trace, Mine(p), own, noise)
    }

    /** What the handler has just done was this step. */
    ghost method Record(p: nat, step: Step)
      requires Modelled() && Enabled(model, step) && StepOf(step, p)
      modifies this`model, this`trace
      ensures Modelled() && model == Apply(old(model), step) && Took(p, old(trace), [step], 0)
    {
      AppendStep(Init(cfg), trace, step);
      OwnOfStep(trace, step, Mine(p));
      model, trace := Apply(model, step), trace + [step];
    }

    /** What other handlers, producers, timers and crashes may do while `p` awaits. Callers know no more than
        this contract; the body is the run in which nothing happens. */
    method Others(ghost p: nat) returns (ghost env: seq<Step>)
      requires Valid()
      modifies this
      ensures Valid() && NoneMine(env, Mine(p)) && trace == old(trace) + env
      ensures CanRun(old(model), env) && model == Exec(old(model), env)
    {
      env := [];
      assert trace + [] == trace;
    }

    /** An await of handler `p`. */
    method Await(ghost p: nat) returns (ghost noise: nat)
      requires Valid()
      modifies this
      ensures Valid() && Took(p, old(trace), [], noise)
      ensures p in model.procs <==> p in old(model).procs
      ensures p in model.procs ==> model.procs[p] == old(model).procs[p]
      ensures forall id :: id in old(broker).dead ==> id in broker.dead && broker.dead[id] == old(broker).dead[id]
    {
      S.ConservedAlongRuns(Init(cfg), trace);
      ghost var s := model;
      ghost var env := Others(p);
      forall id | id in s.broker.dead ensures id in broker.dead && broker.dead[id] == s.broker.dead[id] {
        S.DeadAlongRuns(s, env, id);
      }
      OthersKeepPc(old(model), env, p);
      OwnOfOthers(old(trace), env, Mine(p));
      noise := |env|;
    }
  }

  /** What claim resolves to, or which of its two calls threw. A SET that threw may have been applied. */
  datatype ClaimResult = Won | AlreadyDone | InProgress | SetThrew(applied: bool) | GetThrew

  class RedisIdempotencyStore {
    const shared: Shared

    constructor (shared: Shared)
      ensures this.shared == shared
    {
      this.shared := shared;
    }

    method SetNx(key: string) returns (won: bool)
      modifies shared`store
      ensures won <==> !Live(old(shared.store), shared.now, key)
      ensures shared.store == SetPendingNx(old(shared.store), shared.now, key, shared.cfg.lease)
    {
      won := !(key in shared.store && shared.now < shared.store[key].expiresAt);
      if won {
        shared.store := shared.store[key := Entry(Pending, shared.now + shared.cfg.lease)];
      }
    }

    method ReadsDone(key: string) returns (done: bool)
      ensures done <==> IsDone(shared.store, shared.now, key)
    {
      done := key in shared.store && shared.now < shared.store[key].expiresAt && shared.store[key].value == Done;
    }

    method TryClaim(ghost p: nat, ghost job: Job, key: string) returns (won: bool)
      requires shared.Valid() && At(shared.model, p, Received(job)) && key == job.m.key
      modifies shared
      ensures shared.Valid() && shared.Took(p, old(shared.trace), [ClaimNx(p)], 0)
      ensures At(shared.model, p, if won then Claimed(job, shared.now) else Checking(job))
      ensures won <==> !Live(old(shared.store), old(shared.now), key)
    {
      won := SetNx(key);
      shared.Record(p, ClaimNx(p));
    }

    /** claim: SET NX, and only when that is refused, after an await, GET. */
    method Claim(ghost p: nat, ghost job: Job, key: string) returns (r: ClaimResult, ghost noise: nat)
      requires shared.Valid() && At(shared.model, p, Received(job)) && key == job.m.key
      modifies shared
      ensures r.SetThrew? ==>
                && shared.Modelled() && shared.trace == old(shared.trace) && shared.model == old(shared.model)
                && shared.now == old(shared.now) && shared.broker == old(shared.broker) && shared.LogAgrees()
                && shared.store == if r.applied then SetPendingNx(old(shared.store), shared.now, key, shared.cfg.lease)
                                   else old(shared.store)
      ensures !r.SetThrew? ==> shared.Valid() && shared.Took(p, old(shared.trace), [ClaimNx(p)], noise)
      ensures !r.SetThrew? ==> (r.Won? <==> !Live(old(shared.store), old(shared.now), key))
      ensures r.Won? ==> exists at :: At(shared.model, p, Claimed(job, at))
      ensures r.AlreadyDone? || r.InProgress? || r.GetThrew? ==> At(shared.model, p, Checking(job))
      ensures r.AlreadyDone? ==> IsDone(shared.store, shared.now, key)
      ensures r.InProgress? ==> !IsDone(shared.store, shared.now, key)
    {
      noise := 0;
      var threw, applied := *, *;
      if threw {
        if applied {
          var _ := SetNx(key);
        }
        return SetThrew(applied), 0;
      }
      var won := TryClaim(p, job, key);
      noise := shared.Await(p);
      if won {
        return Won, noise;
      }
      threw := *;
      if threw {
        return GetThrew, noise;
      }
      var done := ReadsDone(key);
      r := if done then AlreadyDone else InProgress;
    }
  }
}
