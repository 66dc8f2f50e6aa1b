/** Runs of the scan machine process by process, and what its processes share: Redis and the two queues. */
module ScanRuns {
  import opened LockStore
  import opened ScanLocks
  import opened Traces

  /** The handler a step belongs to, if it belongs to one. */
  predicate StepOf(step: Step, p: nat) {
    !step.Tick? && !step.Expire? && step.p == p
  }

  function Mine(p: nat): Step -> bool {
    step => StepOf(step, p)
  }

  lemma StayStep(s: State, step: Step, p: nat)
    requires Enabled(s, step) && !StepOf(step, p)
    ensures p in Apply(s, step).procs <==> p in s.procs
    ensures p in s.procs ==> Apply(s, step).procs[p] == s.procs[p]
  {
  }

  lemma {:induction false} OthersKeepPc(s: State, env: seq<Step>, p: nat)
    requires CanRun(s, env) && NoneMine(env, Mine(p))
    ensures p in Exec(s, env).procs <==> p in s.procs
    ensures p in s.procs ==> Exec(s, env).procs[p] == s.procs[p]
    decreases |env|
  {
    if env != [] {
      assert !Mine(p)(env[0]);
      StayStep(s, env[0], p);
      OthersKeepPc(Apply(s, env[0]), env[1..], p);
    }
  }

  ghost predicate At(s: State, p: nat, pc: Pc) {
    p in s.procs && s.procs[p] == pc
  }

  /** Since `before`, the others have only let time pass. */
  ghost predicate Quiet(p: nat, before: seq<Step>, after: seq<Step>) {
    before <= after && forall i :: |before| <= i < |after| ==> after[i].Tick? || StepOf(after[i], p)
  }

  /** A run seen from a moment in it. */
  lemma {:induction false} RunsSplit(s: State, a: seq<Step>, b: seq<Step>)
    requires CanRun(s, a + b)
    ensures CanRun(s, a) && CanRun(Exec(s, a), b) && Exec(s, a + b) == Exec(Exec(s, a), b)
    decreases |a|
  {
    if a == [] {
      assert a + b == b;
    } else {
      assert (a + b)[1..] == a[1..] + b;
      RunsSplit(Apply(s, a[0]), a[1..], b);
    }
  }

  lemma {:induction false} OnlyTicks(s: State, env: seq<Step>)
    requires CanRun(s, env) && forall i :: 0 <= i < |env| ==> env[i].Tick?
    ensures Exec(s, env) == s.(now := s.now + |env|)
    decreases |env|
  {
    if env != [] {
      OnlyTicks(Apply(s, env[0]), env[1..]);
    }
  }

  /** Ids and tokens are given out in order. */
  ghost predicate IdsBelow(s: State, nextId: nat, nextToken: nat) {
    && (forall id :: id in s.main ==> id < nextId) && (forall id :: id in s.retry ==> id < nextId)
    && (forall p :: p in s.procs && Unsettled(s.procs[p]) ==> s.procs[p].id < nextId)
    && (forall token :: token in s.past.used ==> token < nextToken)
  }

  lemma IdsBelowAcquire(s: State, nextId: nat, p: nat, key: string, token: nat, ttl: nat)
    requires IdsBelow(s, nextId, token)
    ensures IdsBelow(ApplyAcquire(s, p, key, token, ttl), nextId, token + 1)
  {
  }

  /** Redis and the two queues of the scan, with the machine of ScanLocks beside them. */
  class Shared {
    var now: nat
    var locks: LockTable
    var main: map<nat, Copy>
    var retry: map<nat, Copy>
    var nextId: nat              // every delivery id is below
    var nextToken: nat           // and every lock token
    ghost var model: State
    ghost var trace: seq<Step>

    constructor ()
      ensures Valid() && trace == []
    {
      now, locks, main, retry, nextId, nextToken := 0, map[], map[], map[], 0, 0;
      model, trace := Init(), [];
    }

    ghost predicate Modelled()
      reads this
    {
      CanRun(Init(), trace) && Exec(Init(), trace) == model
    }

    ghost predicate Agrees()
      reads this
    {
      now == model.now && locks == model.locks && main == model.main && retry == model.retry
    }

    ghost predicate Valid()
      reads this
    {
      Modelled() && Agrees() && IdsBelow(model, nextId, nextToken)
    }

    ghost predicate Took(p: nat, before: seq<Step>, own: seq<Step>, noise: nat)
      reads this`trace
    {
      Traces.Took(before, trace, Mine(p), own, noise)
    }

    ghost method Record(p: nat, step: Step)
      requires Modelled() && Enabled(model, step) && StepOf(step, p)
      modifies this`model, this`trace
      ensures Modelled() && model == Apply(old(model), step) && Took(p, old(trace), [step], 0)
      ensures trace == old(trace) + [step]
    {
      RunsExtend(Init(), trace, step);
      OwnOfStep(trace, step, Mine(p));
      model, trace := Apply(model, step), trace + [step];
    }

    /** The same for an attempt to take a lock. */
    ghost method RecordAcquire(p: nat, key: string, token: nat, ttl: nat)
      requires Modelled() && p !in model.procs && token !in model.past.used
      modifies this`model, this`trace
      ensures Modelled() && model == ApplyAcquire(old(model), p, key, token, ttl)
      ensures model.now == old(model).now && model.main == old(model).main && model.retry == old(model).retry
      ensures Took(p, old(trace), [TryAcquire(p, key, token, ttl)], 0) && old(trace) <= trace
    {
      Record(p, TryAcquire(p, key, token, ttl));
    }

    /** What producers, other workers and timers may do while `p` awaits. Callers know no more than this
        contract; the body is the run in which nothing happens. */
    method Others(ghost p: nat) returns (ghost env: seq<Step>)
      requires Valid()
      modifies this
      ensures Valid() && NoneMine(env, Mine(p)) && trace == old(trace) + env
      ensures CanRun(old(model), env) && model == Exec(old(model), env)
    {
      env := [];
      assert trace + [] == trace;
    }

    method Await(ghost p: nat) returns (ghost noise: nat)
      requires Valid()
      modifies this
      ensures Valid() && Took(p, old(trace), [], noise)
      ensures p in model.procs <==> p in old(model).procs
      ensures p in model.procs ==> model.procs[p] == old(model).procs[p]
      ensures old(trace) <= trace && NoneMine(trace[|old(trace)|..], Mine(p))
      ensures Quiet(p, old(trace), trace) ==> now >= old(now) && model == old(model).(now := now)
    {
      ghost var env := Others(p);
      OthersKeepPc(old(model), env, p);
      OwnOfOthers(old(trace), env, Mine(p));
      noise := |env|;
      assert trace[|old(trace)|..] == env;
      if Quiet(p, old(trace), trace) {
        forall i | 0 <= i < |env| ensures env[i].Tick? {
          assert trace[|old(trace)| + i] == env[i] && !Mine(p)(env[i]);
        }
        OnlyTicks(old(model), env);
      }
    }
  }

  class RedisLockStore {
    const shared: Shared

    constructor (shared: Shared)
      ensures this.shared == shared
    {
      this.shared := shared;
    }

    /** SET key token EX ttl NX, with a token never used before. */
    method Acquire(key: string, ttl: nat) returns (acquired: bool, token: nat)
      modifies shared`locks, shared`nextToken
      ensures token == old(shared.nextToken) && shared.nextToken == token + 1
      ensures acquired <==> !Live(old(shared.locks), shared.now, key)
      ensures shared.locks == if acquired then LockStore.Acquire(old(shared.locks), shared.now, key, token, ttl)
                              else old(shared.locks)
    {
      token := shared.nextToken;
      shared.nextToken := token + 1;
      acquired := !(key in shared.locks && shared.now < shared.locks[key].expiresAt);
      if acquired {
        shared.locks := shared.locks[key := Lock(token, shared.now + ttl)];
      }
    }

    /** UNLOCK_IF_OWNER */
    method UnlockIfOwner(key: string, token: nat) returns (released: bool)
      modifies shared`locks
      ensures released <==> Live(old(shared.locks), shared.now, key) && old(shared.locks)[key].token == token
      ensures shared.locks == Unlock(old(shared.locks), shared.now, key, token)
    {
      released := key in shared.locks && shared.now < shared.locks[key].expiresAt && shared.locks[key].token == token;
      if released {
        shared.locks := shared.locks - {key};
      }
    }
  }
}
