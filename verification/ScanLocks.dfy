/** Producers and scan workers around the lock store and the scan queue, as a step machine: who owns
    which lock over whole runs. Locks travel inside the messages. */
module ScanLocks {
  import opened LockStore
  import opened Messages

  const MAX_RETRIES: nat := 3

  /** A scan job; `acquiredAt` and `expiresAt` are its lock's times, kept as history. */
  datatype Job = Job(key: string, token: nat, acquiredAt: nat, expiresAt: nat)

  /** A copy of a job in the scan or the retry queue, with its x-retry-count. */
  datatype Copy = Copy(job: Job, retries: nat)

  datatype Pc =
    | Acquired(job: Job)                                // producer: lock taken, message not yet sent
    | Processing(job: Job, id: nat, retries: nat)       // worker: message not yet acknowledged
    | Republishing(job: Job, id: nat, retries: nat)     // worker: retry copy published, not yet confirmed
    | Unlocking(job: Job)                               // message sent nowhere, finished or discarded; lock to give back

  /** What happened so far to the tokens. No process reads it. */
  datatype Past = Past(
    used: map<nat, nat>,   // tokens ever drawn, each with the number of those drawn before it
    doubled: set<nat>,     // tokens whose message is or was there twice: its retry copy was stored although the
                           // publish was not confirmed, or it came back although its worker had settled it
    abandoned: set<nat>,   // tokens whose lock was left to expire: a failed unlock, or a holder that died
    freed: set<nat>)       // tokens whose live lock an unlock found in the store and removed

  datatype State = State(
    now: nat, locks: LockTable, main: map<nat, Copy>, retry: map<nat, Copy>, procs: map<nat, Pc>, past: Past)

  function Init(): State {
    State(0, map[], map[], map[], map[], Past(map[], {}, {}, {}))
  }

  datatype Step =
    | Tick
    | TryAcquire(p: nat, key: string, token: nat, ttl: nat)
    | Send(p: nat, id: nat, ok: bool)
    | Take(p: nat, id: nat)
    | ProcessOk(p: nat, lost: bool)     // lost: the ack or nack, which nobody confirms, never reaches the broker
    | ProcessFail(p: nat, lost: bool)
    | RepublishOk(p: nat, copy: nat)    // a nack lost after this is the Crash of a worker whose copy was stored
    | RepublishError(p: nat, copy: nat, stored: bool)
    | Expire(id: nat)
    | UnlockStep(p: nat, ok: bool)
    | Crash(p: nat, copy: nat, stored: bool)

  /** A worker that has not yet settled its message with the broker. */
  predicate Unsettled(pc: Pc) {
    pc.Processing? || pc.Republishing?
  }

  /** Delivery ids are the broker's and never clash. */
  predicate FreshId(s: State, id: nat) {
    id !in s.main && id !in s.retry
    && forall p :: p in s.procs && Unsettled(s.procs[p]) ==> s.procs[p].id != id
  }

  predicate Enabled(s: State, step: Step) {
    match step
    case Tick => true
    case TryAcquire(p, _, token, _) => p !in s.procs && token !in s.past.used
    case Send(p, id, _) => p in s.procs && s.procs[p].Acquired? && FreshId(s, id)
    case Take(p, id) => p !in s.procs && id in s.main
    case ProcessOk(p, _) => p in s.procs && s.procs[p].Processing?
    case ProcessFail(p, _) => p in s.procs && s.procs[p].Processing?
    case RepublishOk(p, copy) => p in s.procs && s.procs[p].Republishing? && FreshId(s, copy)
    case RepublishError(p, copy, _) => p in s.procs && s.procs[p].Republishing? && FreshId(s, copy)
    case Expire(id) => id in s.retry && id !in s.main
    case UnlockStep(p, _) => p in s.procs && s.procs[p].Unlocking?
    case Crash(p, copy, _) => p in s.procs && FreshId(s, copy)
  }

  function Leave(s: State, p: nat): State {
    s.(procs := s.procs - {p})
  }

  /** The message goes back to the scan queue; its retry copy may be there as well. */
  function Requeue(s: State, p: nat, copy: nat, stored: bool): State
    requires p in s.procs && Unsettled(s.procs[p])
  {
    var pc := s.procs[p];
    var s1 := Leave(s, p).(main := s.main[pc.id := Copy(pc.job, pc.retries)]);
    if stored then Doubled(s1, pc.job).(retry := s.retry[copy := Copy(pc.job, pc.retries + 1)]) else s1
  }

  function Apply(s: State, step: Step): State
    requires Enabled(s, step)
  {
    match step
    case Tick => s.(now := s.now + 1)
    case TryAcquire(p, key, token, ttl) => ApplyAcquire(s, p, key, token, ttl)
    case Send(p, id, ok) =>
      var job := s.procs[p].job;
      if ok then Leave(s, p).(main := s.main[id := Copy(job, 0)]) else s.(procs := s.procs[p := Unlocking(job)])
    case Take(p, id) =>
      s.(main := s.main - {id}, procs := s.procs[p := Processing(s.main[id].job, id, s.main[id].retries)])
    case ProcessOk(p, lost) => Settle(s, p, lost)
    case ProcessFail(p, lost) =>
      var pc := s.procs[p];
      if pc.retries >= MAX_RETRIES then Settle(s, p, lost)
      else s.(procs := s.procs[p := Republishing(pc.job, pc.id, pc.retries)])
    case RepublishOk(p, copy) =>
      var pc := s.procs[p];
      Leave(s, p).(retry := s.retry[copy := Copy(pc.job, pc.retries + 1)])
    case RepublishError(p, copy, stored) => Requeue(s, p, copy, stored)
    case Expire(id) => s.(retry := s.retry - {id}, main := s.main[id := s.retry[id]])
    case UnlockStep(p, ok) =>
      var job := s.procs[p].job;
      Leave(if ok then Free(s, job) else Abandon(s, job), p)
    case Crash(p, copy, stored) =>
      var pc := s.procs[p];
      if Unsettled(pc) then Requeue(s, p, copy, stored && pc.Republishing?) else Leave(Abandon(s, pc.job), p)
  }

  /** The worker acknowledges or discards its message and goes on to unlock. A settlement that is lost with the
      connection brings the message back all the same. */
  function Settle(s: State, p: nat, lost: bool): State
    requires p in s.procs && s.procs[p].Processing?
  {
    var pc := s.procs[p];
    var s1 := s.(procs := s.procs[p := Unlocking(pc.job)]);
    if lost then Doubled(s1, pc.job).(main := s.main[pc.id := Copy(pc.job, pc.retries)]) else s1
  }

  function Doubled(s: State, job: Job): State {
    s.(past := s.past.(doubled := s.past.doubled + {job.token}))
  }

  function Abandon(s: State, job: Job): State {
    s.(past := s.past.(abandoned := s.past.abandoned + {job.token}))
  }

  /** The compare-and-delete by a job's own token. */
  function Free(s: State, job: Job): State {
    if !Live(s.locks, s.now, job.key) || s.locks[job.key].token != job.token then s
    else s.(locks := s.locks - {job.key}, past := s.past.(freed := s.past.freed + {job.token}))
  }

  /** acquireForBatch by a producer; a live lock means the batch is skipped. */
  function ApplyAcquire(s: State, p: nat, key: string, token: nat, ttl: nat): State {
    var s1 := s.(past := s.past.(used := s.past.used[token := |s.past.used|]));
    if Live(s.locks, s.now, key) then s1
    else s1.(locks := LockStore.Acquire(s.locks, s.now, key, token, ttl),
             procs := s.procs[p := Acquired(Job(key, token, s.now, s.now + ttl))])
  }

  predicate CanRun(s: State, steps: seq<Step>)
    decreases |steps|
  {
    steps == [] || (Enabled(s, steps[0]) && CanRun(Apply(s, steps[0]), steps[1..]))
  }

  function Exec(s: State, steps: seq<Step>): State
    requires CanRun(s, steps)
    decreases |steps|
  {
    if steps == [] then s else Exec(Apply(s, steps[0]), steps[1..])
  }

  // ---------- Where jobs are ----------

  datatype Loc = InMain(id: nat) | InRetry(id: nat) | With(p: nat)

  function JobAt(s: State, loc: Loc): Option<Job> {
    match loc
    case InMain(id) => if id in s.main then Some(s.main[id].job) else None
    case InRetry(id) => if id in s.retry then Some(s.retry[id].job) else None
    case With(p) => if p in s.procs then Some(s.procs[p].job) else None
  }

  /** A message that is still to be finished: queued, being processed, or being republished. */
  predicate Outstanding(s: State, loc: Loc) {
    JobAt(s, loc).Some? && (loc.With? ==> Unsettled(s.procs[loc.p]))
  }

  predicate Stored(locks: LockTable, job: Job) {
    job.key in locks && locks[job.key] == Lock(job.token, job.expiresAt)
  }

  /** `a` was drawn before `b`. */
  predicate Older(used: map<nat, nat>, a: nat, b: nat) {
    a in used && b in used && used[a] < used[b]
  }

  /** Tokens are drawn one after the other. */
  ghost predicate Numbered(used: map<nat, nat>) {
    && (forall t :: t in used ==> used[t] < |used|)
    && (forall t, u :: t in used && u in used && used[t] == used[u] ==> t == u)
  }

  /** A stored token belongs to one lock, and freed ones are not stored. */
  ghost predicate TokensStored(locks: LockTable, past: Past) {
    && past.freed <= past.used.Keys
    && (forall key :: key in locks ==> locks[key].token in past.used && locks[key].token !in past.freed)
    && (forall k, l :: k in locks && l in locks && locks[k].token == locks[l].token ==> k == l)
  }

  ghost predicate StoreKept(s: State) {
    Numbered(s.past.used) && TokensStored(s.locks, s.past)
  }

  /** Until its time is over a job's lock is the stored one exactly while no unlock has freed it; and a token freed
      while a job has it is doubled. */
  predicate JobKept(s: State, job: Job) {
    && job.token in s.past.used && job.acquiredAt <= s.now
    && (s.now < job.expiresAt ==> (Stored(s.locks, job) <==> job.token !in s.past.freed))
    && (job.token in s.past.freed ==> job.token in s.past.doubled)
  }

  /** Places that share a token share the job, and the token is doubled. Of two jobs for one key the older had run out
      when the younger was taken, or was freed. */
  predicate PairKept(s: State, x: Job, y: Job) {
    && (x.token == y.token ==> x == y && x.token in s.past.doubled)
    && (x.key == y.key && Older(s.past.used, x.token, y.token) ==> x.expiresAt <= y.acquiredAt || x.token in s.past.freed)
  }

  ghost predicate JobsKept(s: State) {
    && (forall loc :: JobAt(s, loc).Some? ==> JobKept(s, JobAt(s, loc).value))
    && (forall a, b :: JobAt(s, a).Some? && JobAt(s, b).Some? && a != b ==> PairKept(s, JobAt(s, a).value, JobAt(s, b).value))
  }

  ghost predicate LocksKept(s: State) {
    StoreKept(s) && JobsKept(s)
  }

  // ---------- Steps ----------

  /** Jobs only stay or move: each place of `s'` has its job from the same place of `s`, but `to` has it from `from`,
      and `from` keeps it only if it is now doubled. */
  ghost predicate Moved(s: State, s': State, from: Loc, to: Loc) {
    && (forall l :: JobAt(s', l).Some? ==> JobAt(s', l) == JobAt(s, if l == to then from else l))
    && (from != to && JobAt(s', from).Some? && JobAt(s', to).Some? ==> JobAt(s', to).value.token in s'.past.doubled)
    && s.past.doubled <= s'.past.doubled && s'.now >= s.now
  }

  predicate SameStore(s: State, s': State) {
    s'.locks == s.locks && s'.past.used == s.past.used && s'.past.freed == s.past.freed
  }

  lemma MovedKeeps(s: State, s': State, from: Loc, to: Loc)
    requires LocksKept(s) && Moved(s, s', from, to) && SameStore(s, s')
    ensures LocksKept(s')
  {
    forall l | JobAt(s', l).Some? ensures JobKept(s', JobAt(s', l).value) {
      assert JobKept(s, JobAt(s, if l == to then from else l).value);
    }
    forall a, b | JobAt(s', a).Some? && JobAt(s', b).Some? && a != b ensures PairKept(s', JobAt(s', a).value, JobAt(s', b).value) {
      var a0, b0 := if a == to then from else a, if b == to then from else b;
      assert a0 != b0 ==> PairKept(s, JobAt(s, a0).value, JobAt(s, b0).value);
    }
  }

  lemma DrawNumbered(used: map<nat, nat>, token: nat)
    requires Numbered(used) && token !in used
    ensures Numbered(used[token := |used|])
  {
  }

  lemma AcquireTokens(locks: LockTable, past: Past, key: string, lock: Lock)
    requires TokensStored(locks, past) && lock.token !in past.used
    ensures TokensStored(locks, past.(used := past.used[lock.token := |past.used|]))
    ensures TokensStored(locks[key := lock], past.(used := past.used[lock.token := |past.used|]))
  {
  }

  lemma AcquireStore(s: State, p: nat, key: string, token: nat, ttl: nat)
    requires StoreKept(s) && token !in s.past.used
    ensures StoreKept(ApplyAcquire(s, p, key, token, ttl))
  {
    DrawNumbered(s.past.used, token);
    AcquireTokens(s.locks, s.past, key, Lock(token, s.now + ttl));
    var s' := ApplyAcquire(s, p, key, token, ttl);
    assert s'.past == s.past.(used := s.past.used[token := |s.past.used|]);
    assert s'.locks == if Live(s.locks, s.now, key) then s.locks else s.locks[key := Lock(token, s.now + ttl)];
  }

  /** A job that was there keeps its standing: a lock is only taken where none is live. */
  lemma AcquireOldJob(s: State, p: nat, key: string, token: nat, ttl: nat, job: Job)
    requires JobKept(s, job) && token !in s.past.used
    ensures JobKept(ApplyAcquire(s, p, key, token, ttl), job)
  {
  }

  /** Against the new job every job for its key has run out or was freed. */
  lemma AcquireNewPair(s: State, p: nat, key: string, token: nat, ttl: nat, job: Job)
    requires StoreKept(s) && JobKept(s, job) && token !in s.past.used && !Live(s.locks, s.now, key)
    ensures var s' := ApplyAcquire(s, p, key, token, ttl);
            PairKept(s', job, Job(key, token, s.now, s.now + ttl)) && PairKept(s', Job(key, token, s.now, s.now + ttl), job)
  {
  }

  lemma AcquireOldPair(s: State, p: nat, key: string, token: nat, ttl: nat, x: Job, y: Job)
    requires PairKept(s, x, y) && x.token in s.past.used && y.token in s.past.used && token !in s.past.used
    ensures PairKept(ApplyAcquire(s, p, key, token, ttl), x, y)
  {
  }

  /** What an attempt leaves of the places: the new job, if it won, and the ones that were there. */
  lemma AcquirePlaces(s: State, p: nat, key: string, token: nat, ttl: nat, loc: Loc)
    requires p !in s.procs
    ensures JobAt(ApplyAcquire(s, p, key, token, ttl), loc) ==
              if loc == With(p) && !Live(s.locks, s.now, key) then Some(Job(key, token, s.now, s.now + ttl)) else JobAt(s, loc)
  {
  }

  lemma AcquireKeepsPair(s: State, p: nat, key: string, token: nat, ttl: nat, a: Loc, b: Loc)
    requires LocksKept(s) && p !in s.procs && token !in s.past.used && a != b
    requires var s' := ApplyAcquire(s, p, key, token, ttl); JobAt(s', a).Some? && JobAt(s', b).Some?
    ensures var s' := ApplyAcquire(s, p, key, token, ttl); PairKept(s', JobAt(s', a).value, JobAt(s', b).value)
  {
    AcquirePlaces(s, p, key, token, ttl, a);
    AcquirePlaces(s, p, key, token, ttl, b);
    if JobAt(s, a).Some? && JobAt(s, b).Some? {
      AcquireOldPair(s, p, key, token, ttl, JobAt(s, a).value, JobAt(s, b).value);
    } else {
      var loc := if JobAt(s, a).Some? then a else b;
      AcquireNewPair(s, p, key, token, ttl, JobAt(s, loc).value);
    }
  }

  lemma AcquireKeepsJob(s: State, p: nat, key: string, token: nat, ttl: nat, loc: Loc)
    requires LocksKept(s) && p !in s.procs && token !in s.past.used
    requires JobAt(ApplyAcquire(s, p, key, token, ttl), loc).Some?
    ensures var s' := ApplyAcquire(s, p, key, token, ttl); JobKept(s', JobAt(s', loc).value)
  {
    AcquirePlaces(s, p, key, token, ttl, loc);
    if JobAt(s, loc).Some? {
      AcquireOldJob(s, p, key, token, ttl, JobAt(s, loc).value);
    }
  }

  lemma AcquireKeeps(s: State, p: nat, key: string, token: nat, ttl: nat)
    requires LocksKept(s) && Enabled(s, TryAcquire(p, key, token, ttl))
    ensures LocksKept(ApplyAcquire(s, p, key, token, ttl))
  {
    AcquireStore(s, p, key, token, ttl);
    var s' := ApplyAcquire(s, p, key, token, ttl);
    forall l | JobAt(s', l).Some? ensures JobKept(s', JobAt(s', l).value) {
      AcquireKeepsJob(s, p, key, token, ttl, l);
    }
    forall a, b | JobAt(s', a).Some? && JobAt(s', b).Some? && a != b ensures PairKept(s', JobAt(s', a).value, JobAt(s', b).value) {
      AcquireKeepsPair(s, p, key, token, ttl, a, b);
    }
  }

  lemma FreeStore(s: State, job: Job)
    requires StoreKept(s) && job.token in s.past.used
    ensures StoreKept(Free(s, job))
  {
  }

  /** Freeing one job's lock leaves another's, and a job that shares the token is told. */
  lemma FreeJob(s: State, job: Job, other: Job)
    requires StoreKept(s) && JobKept(s, job) && JobKept(s, other)
    requires other.token == job.token ==> other == job && job.token in s.past.doubled
    ensures JobKept(Free(s, job), other)
  {
  }

  lemma FreePair(s: State, job: Job, x: Job, y: Job)
    requires PairKept(s, x, y)
    ensures PairKept(Free(s, job), x, y)
  {
  }

  lemma FreeKeeps(s: State, p: nat)
    requires LocksKept(s) && p in s.procs
    ensures LocksKept(Leave(Free(s, s.procs[p].job), p))
  {
    var job := s.procs[p].job;
    var s' := Leave(Free(s, job), p);
    assert JobAt(s, With(p)) == Some(job);
    FreeStore(s, job);
    FreeKeepsJobs(s, s', p);
  }

  lemma FreeKeepsJobs(s: State, s': State, p: nat)
    requires LocksKept(s) && p in s.procs && s'.now == s.now
    requires s'.locks == Free(s, s.procs[p].job).locks && s'.past == Free(s, s.procs[p].job).past
    requires forall l :: JobAt(s', l).Some? ==> l != With(p) && JobAt(s', l) == JobAt(s, l)
    ensures JobsKept(s')
  {
    var job := s.procs[p].job;
    var s1 := Free(s, job);
    assert JobAt(s, With(p)) == Some(job);
    forall l | JobAt(s', l).Some? ensures JobKept(s', JobAt(s', l).value) {
      assert PairKept(s, JobAt(s, l).value, job);
      FreeJob(s, job, JobAt(s, l).value);
      assert JobKept(s1, JobAt(s, l).value);
    }
    forall a, b | JobAt(s', a).Some? && JobAt(s', b).Some? && a != b ensures PairKept(s', JobAt(s', a).value, JobAt(s', b).value) {
      FreePair(s, job, JobAt(s, a).value, JobAt(s, b).value);
      assert PairKept(s1, JobAt(s, a).value, JobAt(s, b).value);
    }
  }

  lemma TakeKeeps(s: State, p: nat, id: nat)
    requires LocksKept(s) && Enabled(s, Take(p, id))
    ensures LocksKept(Apply(s, Take(p, id)))
  {
    MovedKeeps(s, Apply(s, Take(p, id)), InMain(id), With(p));
  }

  lemma ExpireKeeps(s: State, id: nat)
    requires LocksKept(s) && Enabled(s, Expire(id))
    ensures LocksKept(Apply(s, Expire(id)))
  {
    MovedKeeps(s, Apply(s, Expire(id)), InRetry(id), InMain(id));
  }

  lemma SendKeeps(s: State, p: nat, id: nat, ok: bool)
    requires LocksKept(s) && Enabled(s, Send(p, id, ok))
    ensures LocksKept(Apply(s, Send(p, id, ok)))
  {
    MovedKeeps(s, Apply(s, Send(p, id, ok)), With(p), if ok then InMain(id) else With(p));
  }

  lemma TickKeeps(s: State)
    requires LocksKept(s)
    ensures LocksKept(Apply(s, Tick))
  {
    MovedKeeps(s, Apply(s, Tick), With(0), With(0));
  }

  lemma RetryKeeps(s: State, p: nat, lost: bool)
    requires LocksKept(s) && Enabled(s, ProcessFail(p, lost)) && s.procs[p].retries < MAX_RETRIES
    ensures LocksKept(Apply(s, ProcessFail(p, lost)))
  {
    MovedKeeps(s, Apply(s, ProcessFail(p, lost)), With(p), With(p));
  }

  lemma RepublishKeeps(s: State, p: nat, copy: nat)
    requires LocksKept(s) && Enabled(s, RepublishOk(p, copy))
    ensures LocksKept(Apply(s, RepublishOk(p, copy)))
  {
    MovedKeeps(s, Apply(s, RepublishOk(p, copy)), With(p), InRetry(copy));
  }

  lemma SettleKeeps(s: State, p: nat, lost: bool)
    requires LocksKept(s) && p in s.procs && s.procs[p].Processing? && s.procs[p].id !in s.main
    ensures LocksKept(Settle(s, p, lost))
  {
    MovedKeeps(s, Settle(s, p, lost), With(p), if lost then InMain(s.procs[p].id) else With(p));
  }

  /** First the original goes back, then its copy appears. */
  lemma RequeueKeeps(s: State, p: nat, copy: nat, stored: bool)
    requires LocksKept(s) && p in s.procs && Unsettled(s.procs[p]) && FreshId(s, copy)
    requires s.procs[p].id !in s.main
    ensures LocksKept(Requeue(s, p, copy, stored))
  {
    var id := s.procs[p].id;
    var s1 := Requeue(s, p, copy, false);
    MovedKeeps(s, s1, With(p), InMain(id));
    if stored {
      StoredCopyKeeps(s1, Requeue(s, p, copy, true), id, copy);
    }
  }

  lemma StoredCopyKeeps(s: State, s': State, id: nat, copy: nat)
    requires LocksKept(s) && id in s.main && copy !in s.retry
    requires s' == Doubled(s, s.main[id].job).(retry := s.retry[copy := Copy(s.main[id].job, s.main[id].retries + 1)])
    ensures LocksKept(s')
  {
    MovedKeeps(s, s', InMain(id), InRetry(copy));
  }

  lemma DieKeeps(s: State, p: nat)
    requires LocksKept(s) && p in s.procs
    ensures LocksKept(Leave(Abandon(s, s.procs[p].job), p))
  {
    MovedKeeps(s, Leave(Abandon(s, s.procs[p].job), p), With(p), With(p));
  }

  /** A message in a worker's hands is not in the scan queue. */
  ghost predicate IdsKept(s: State) {
    && (forall p :: p in s.procs && Unsettled(s.procs[p]) ==> s.procs[p].id !in s.main && s.procs[p].id !in s.retry)
    && (forall p, q :: p in s.procs && q in s.procs && p != q && Unsettled(s.procs[p]) && Unsettled(s.procs[q]) ==>
          s.procs[p].id != s.procs[q].id)
    && s.main.Keys !! s.retry.Keys
  }

  lemma IdsStep(s: State, step: Step)
    requires IdsKept(s) && Enabled(s, step)
    ensures IdsKept(Apply(s, step))
  {
    if step.RepublishError? || step.Crash? || step.RepublishOk? {
      RequeueIds(s, step);
    } else if step.ProcessOk? || step.ProcessFail? {
      SettleIds(s, step);
    } else if step.Take? || step.Send? || step.Expire? {
      QueueIds(s, step);
    }
  }

  lemma RequeueIds(s: State, step: Step)
    requires IdsKept(s) && Enabled(s, step) && (step.RepublishError? || step.Crash? || step.RepublishOk?)
    ensures IdsKept(Apply(s, step))
  {
  }

  lemma SettleIds(s: State, step: Step)
    requires IdsKept(s) && Enabled(s, step) && (step.ProcessOk? || step.ProcessFail?)
    ensures IdsKept(Apply(s, step))
  {
    SettledIds(s, step.p, step.lost);
  }

  lemma SettledIds(s: State, p: nat, lost: bool)
    requires IdsKept(s) && p in s.procs && s.procs[p].Processing?
    ensures IdsKept(Settle(s, p, lost))
  {
  }

  lemma QueueIds(s: State, step: Step)
    requires IdsKept(s) && Enabled(s, step) && (step.Take? || step.Send? || step.Expire?)
    ensures IdsKept(Apply(s, step))
  {
  }

  lemma UnlockKeeps(s: State, p: nat, ok: bool)
    requires LocksKept(s) && Enabled(s, UnlockStep(p, ok))
    ensures LocksKept(Apply(s, UnlockStep(p, ok)))
  {
    if ok {
      FreeKeeps(s, p);
    } else {
      DieKeeps(s, p);
    }
  }

  lemma QueueKeeps(s: State, step: Step)
    requires LocksKept(s) && Enabled(s, step) && (step.Tick? || step.Send? || step.Take? || step.Expire?)
    ensures LocksKept(Apply(s, step))
  {
    match step
    case Tick => TickKeeps(s);
    case Send(p, id, ok) => SendKeeps(s, p, id, ok);
    case Take(p, id) => TakeKeeps(s, p, id);
    case Expire(id) => ExpireKeeps(s, id);
  }

  lemma WorkerLocks(s: State, step: Step)
    requires LocksKept(s) && IdsKept(s) && Enabled(s, step)
    requires step.ProcessOk? || step.ProcessFail? || step.RepublishOk? || step.RepublishError? || step.Crash?
    ensures LocksKept(Apply(s, step))
  {
    match step
    case ProcessOk(p, lost) => SettleKeeps(s, p, lost);
    case ProcessFail(p, lost) =>
      if s.procs[p].retries >= MAX_RETRIES {
        SettleKeeps(s, p, lost);
      } else {
        RetryKeeps(s, p, lost);
      }
    case RepublishOk(p, copy) => RepublishKeeps(s, p, copy);
    case RepublishError(p, copy, stored) => RequeueKeeps(s, p, copy, stored);
    case Crash(p, copy, stored) =>
      if Unsettled(s.procs[p]) {
        RequeueKeeps(s, p, copy, stored && s.procs[p].Republishing?);
      } else {
        DieKeeps(s, p);
      }
  }

  lemma LocksStep(s: State, step: Step)
    requires LocksKept(s) && IdsKept(s) && Enabled(s, step)
    ensures LocksKept(Apply(s, step)) && IdsKept(Apply(s, step))
  {
    IdsStep(s, step);
    match step
    case TryAcquire(p, key, token, ttl) => AcquireKeeps(s, p, key, token, ttl);
    case UnlockStep(p, ok) => UnlockKeeps(s, p, ok);
    case Tick | Send(_, _, _) | Take(_, _) | Expire(_) => QueueKeeps(s, step);
    case _ => WorkerLocks(s, step);
  }

  lemma {:induction false} LocksAlongRuns(s: State, steps: seq<Step>)
    requires LocksKept(s) && IdsKept(s) && CanRun(s, steps)
    ensures LocksKept(Exec(s, steps)) && IdsKept(Exec(s, steps))
    decreases |steps|
  {
    if steps != [] {
      LocksStep(s, steps[0]);
      LocksAlongRuns(Apply(s, steps[0]), steps[1..]);
    }
  }

  // ---------- The results ----------

  /** A stored lock disappears, or changes, only once it has expired or by an unlock that carries its
      own token. */
  lemma LockLostOnlyByOwner(s: State, step: Step, key: string)
    requires Enabled(s, step) && Live(s.locks, s.now, key)
    ensures var s' := Apply(s, step);
            || (key in s'.locks && s'.locks[key] == s.locks[key])
            || (step.UnlockStep? && s.procs[step.p].job.key == key && s.procs[step.p].job.token == s.locks[key].token)
  {
  }

  /** In every run, whoever interferes: until its time is over, a job's lock stands exactly while no unlock has freed
      its token; and what is freed while a job has it was doubled. */
  lemma JobStandsIffNotFreed(steps: seq<Step>, loc: Loc)
    requires CanRun(Init(), steps)
    requires var s := Exec(Init(), steps); JobAt(s, loc).Some? && s.now < JobAt(s, loc).value.expiresAt
    ensures var s := Exec(Init(), steps);
            var job := JobAt(s, loc).value;
            && (Stored(s.locks, job) <==> job.token !in s.past.freed)
            && (job.token in s.past.freed ==> job.token in s.past.doubled)
  {
    LocksAlongRuns(Init(), steps);
    assert JobKept(Exec(Init(), steps), JobAt(Exec(Init(), steps), loc).value);
  }

  /** In every run an unlock takes away a lock that a job elsewhere relies on exactly when it carries that job's own
      token, as another copy of the same message does. A worker that outlived its lock leaves its successor's alone. */
  lemma SuccessorsLockSurvives(steps: seq<Step>, p: nat, ok: bool, loc: Loc)
    requires CanRun(Init(), steps) && Enabled(Exec(Init(), steps), UnlockStep(p, ok))
    requires var s := Exec(Init(), steps);
             loc != With(p) && JobAt(s, loc).Some? && Stored(s.locks, JobAt(s, loc).value)
             && s.now < JobAt(s, loc).value.expiresAt
    ensures var s := Exec(Init(), steps);
            var job := JobAt(s, loc).value;
            Stored(Apply(s, UnlockStep(p, ok)).locks, job) <==> !(ok && s.procs[p].job.token == job.token)
  {
    LocksAlongRuns(Init(), steps);
    UnlockFreesOwn(Exec(Init(), steps), p, ok, loc);
  }

  lemma UnlockFreesOwn(s: State, p: nat, ok: bool, loc: Loc)
    requires LocksKept(s) && Enabled(s, UnlockStep(p, ok)) && loc != With(p) && JobAt(s, loc).Some?
    requires Stored(s.locks, JobAt(s, loc).value) && s.now < JobAt(s, loc).value.expiresAt
    ensures Stored(Apply(s, UnlockStep(p, ok)).locks, JobAt(s, loc).value) <==>
              !(ok && s.procs[p].job.token == JobAt(s, loc).value.token)
  {
    assert JobAt(s, With(p)) == Some(s.procs[p].job);
    assert PairKept(s, JobAt(s, loc).value, s.procs[p].job);
  }

  /** In every run two messages for one lock key are outstanding together only if the lock of the older one had run out
      when the younger one's was taken, or the older one's was freed. Two with one token are copies of one message. */
  lemma TwoOutstandingOnlyAfterExpiry(steps: seq<Step>, a: Loc, b: Loc)
    requires CanRun(Init(), steps)
    requires var s := Exec(Init(), steps);
             a != b && Outstanding(s, a) && Outstanding(s, b) && JobAt(s, a).value.key == JobAt(s, b).value.key
    ensures var s := Exec(Init(), steps);
            var x, y := JobAt(s, a).value, JobAt(s, b).value;
            && (x.token == y.token ==> x == y && x.token in s.past.doubled)
            && (x.token != y.token ==> Older(s.past.used, x.token, y.token) || Older(s.past.used, y.token, x.token))
            && (Older(s.past.used, x.token, y.token) ==> x.expiresAt <= y.acquiredAt || x.token in s.past.freed)
            && (x.token in s.past.freed ==> x.token in s.past.doubled)
  {
    LocksAlongRuns(Init(), steps);
    var s := Exec(Init(), steps);
    var x, y := JobAt(s, a).value, JobAt(s, b).value;
    assert PairKept(s, x, y);
    assert JobKept(s, x) && JobKept(s, y);
  }

  // ---------- Where the guarantee ends ----------

  lemma {:induction false} RunsExtend(s: State, steps: seq<Step>, step: Step)
    requires CanRun(s, steps) && Enabled(Exec(s, steps), step)
    ensures CanRun(s, steps + [step]) && Exec(s, steps + [step]) == Apply(Exec(s, steps), step)
    decreases |steps|
  {
    if steps == [] {
      assert ([] + [step])[1..] == [];
    } else {
      RunsExtend(Apply(s, steps[0]), steps[1..], step);
      assert (steps + [step])[1..] == steps[1..] + [step];
    }
  }

  /** A batch's lock is taken, its message sent, and a worker takes the message. */
  lemma TakenRun(key: string, ttl: nat) returns (steps: seq<Step>)
    ensures CanRun(Init(), steps) && |steps| == 3 && forall i :: 0 <= i < |steps| ==> !steps[i].ProcessFail?
    ensures Exec(Init(), steps) ==
              State(0, map[key := Lock(1, ttl)], map[], map[], map[2 := Processing(Job(key, 1, 0, ttl), 1, 0)], Past(map[1 := 0], {}, {}, {}))
  {
    var s0 := Init();
    steps := [];
    RunsExtend(s0, steps, TryAcquire(1, key, 1, ttl));
    steps := steps + [TryAcquire(1, key, 1, ttl)];
    RunsExtend(s0, steps, Send(1, 1, true));
    steps := steps + [Send(1, 1, true)];
    RunsExtend(s0, steps, Take(2, 1));
    steps := steps + [Take(2, 1)];
  }

  /** A message is requeued because the confirmation of its stored retry copy was lost. */
  lemma DoubledRun(key: string, ttl: nat) returns (steps: seq<Step>)
    ensures CanRun(Init(), steps)
    ensures var job := Job(key, 1, 0, ttl);
            Exec(Init(), steps) == State(0, map[key := Lock(1, ttl)], map[1 := Copy(job, 0)], map[2 := Copy(job, 1)], map[],
                                        Past(map[1 := 0], {1}, {}, {}))
  {
    steps := TakenRun(key, ttl);
    RunsExtend(Init(), steps, ProcessFail(2, false));
    steps := steps + [ProcessFail(2, false)];
    RunsExtend(Init(), steps, RepublishError(2, 2, true));
    steps := steps + [RepublishError(2, 2, true)];
  }

  /** One of the copies is finished, and the lock that the other relies on given back. */
  lemma FreedRun(key: string, ttl: nat) returns (steps: seq<Step>)
    requires ttl > 0
    ensures CanRun(Init(), steps)
    ensures Exec(Init(), steps) == State(0, map[], map[], map[2 := Copy(Job(key, 1, 0, ttl), 1)], map[],
                                         Past(map[1 := 0], {1}, {}, {1}))
  {
    steps := DoubledRun(key, ttl);
    RunsExtend(Init(), steps, Take(2, 1));
    steps := steps + [Take(2, 1)];
    RunsExtend(Init(), steps, ProcessOk(2, false));
    steps := steps + [ProcessOk(2, false)];
    RunsExtend(Init(), steps, UnlockStep(2, true));
    steps := steps + [UnlockStep(2, true)];
  }

  /** Finishing one of the two copies frees the lock, and a second job for the key is sent while the
      other copy waits in the retry queue under a lock time that has not run out. */
  lemma DoubledMessageSharesKey(key: string, ttl: nat) returns (steps: seq<Step>)
    requires ttl > 0
    ensures CanRun(Init(), steps)
    ensures var s := Exec(Init(), steps);
            Outstanding(s, InRetry(2)) && Outstanding(s, InMain(3))
            && s.retry[2].job.key == s.main[3].job.key == key && s.retry[2].job.token != s.main[3].job.token
            && s.main[3].job.acquiredAt < s.retry[2].job.expiresAt && s.retry[2].job.token in s.past.freed
  {
    steps := FreedRun(key, ttl);
    RunsExtend(Init(), steps, TryAcquire(3, key, 2, ttl));
    steps := steps + [TryAcquire(3, key, 2, ttl)];
    RunsExtend(Init(), steps, Send(3, 3, true));
    steps := steps + [Send(3, 3, true)];
  }

  /** A worker finishes its message and unlocks, but its ack dies with the connection: the message is back. */
  lemma UnsettledRun(key: string, ttl: nat) returns (steps: seq<Step>)
    requires ttl > 0
    ensures CanRun(Init(), steps)
    ensures Exec(Init(), steps) == State(0, map[], map[1 := Copy(Job(key, 1, 0, ttl), 0)], map[], map[],
                                         Past(map[1 := 0], {1}, {}, {1}))
    ensures forall i :: 0 <= i < |steps| ==> !steps[i].ProcessFail?
  {
    var s0 := Init();
    steps := TakenRun(key, ttl);
    RunsExtend(s0, steps, ProcessOk(2, true));
    steps := steps + [ProcessOk(2, true)];
    RunsExtend(s0, steps, UnlockStep(2, true));
    steps := steps + [UnlockStep(2, true)];
  }

  /** So a lost ack alone, with no retry at all, lets a second job for the key out while the first is outstanding
      under a lock time that has not run out. */
  lemma LostAckSharesKey(key: string, ttl: nat) returns (steps: seq<Step>)
    requires ttl > 0
    ensures CanRun(Init(), steps) && forall i :: 0 <= i < |steps| ==> !steps[i].ProcessFail?
    ensures var s := Exec(Init(), steps);
            Outstanding(s, InMain(1)) && Outstanding(s, InMain(2)) && s.retry == map[]
            && s.main[1].job.key == s.main[2].job.key == key && s.main[1].job.token != s.main[2].job.token
            && s.main[2].job.acquiredAt < s.main[1].job.expiresAt && s.main[1].job.token in s.past.freed
  {
    var s0 := Init();
    steps := UnsettledRun(key, ttl);
    RunsExtend(s0, steps, TryAcquire(3, key, 2, ttl));
    steps := steps + [TryAcquire(3, key, 2, ttl)];
    RunsExtend(s0, steps, Send(3, 2, true));
    steps := steps + [Send(3, 2, true)];
  }
}
