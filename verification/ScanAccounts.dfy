/** What becomes of every lock: a stored lock is carried by a job or was abandoned, a token that is gone stays
    gone, and a lock that stands at two moments stood in between. */
module ScanAccounts {
  import opened LockStore
  import opened Messages
  import opened ScanLocks
  import opened ScanRuns
  import opened Traces

  // ---------- No lock without a job ----------

  predicate HasJob(s: State, loc: Loc, key: string, lock: Lock) {
    JobAt(s, loc).Some? && JobAt(s, loc).value.key == key && Lock(JobAt(s, loc).value.token, JobAt(s, loc).value.expiresAt) == lock
  }

  /** A live lock is in some producer's or worker's hands or in a message, unless it was left to expire. */
  ghost predicate Carried(s: State, key: string) {
    Live(s.locks, s.now, key) ==>
      s.locks[key].token in s.past.abandoned || exists loc :: HasJob(s, loc, key, s.locks[key])
  }

  /** Tokens are drawn once. */
  ghost predicate TokensKept(s: State) {
    s.past.doubled <= s.past.used.Keys && s.past.abandoned <= s.past.used.Keys
  }

  ghost predicate AccountsKept(s: State) {
    LocksKept(s) && IdsKept(s) && TokensKept(s) && forall key :: Carried(s, key)
  }

  /** Where the job at `loc` is after a step. */
  function Goes(s: State, step: Step, loc: Loc): Loc
    requires Enabled(s, step)
  {
    match step
    case Send(p, id, ok) => if ok && loc == With(p) then InMain(id) else loc
    case Take(p, id) => if loc == InMain(id) then With(p) else loc
    case RepublishOk(p, copy) => if loc == With(p) then InRetry(copy) else loc
    case RepublishError(p, _, _) => if loc == With(p) then InMain(s.procs[p].id) else loc
    case Crash(p, _, _) => if loc == With(p) && Unsettled(s.procs[p]) then InMain(s.procs[p].id) else loc
    case Expire(id) => if loc == InRetry(id) then InMain(id) else loc
    case _ => loc
  }

  /** The job whose lock a step gives back or abandons. */
  predicate Drops(s: State, step: Step, loc: Loc) {
    match step
    case UnlockStep(p, _) => loc == With(p)
    case Crash(p, _, _) => loc == With(p) && p in s.procs && !Unsettled(s.procs[p])
    case _ => false
  }

  lemma JobsGo(s: State, step: Step, loc: Loc)
    requires IdsKept(s) && Enabled(s, step) && JobAt(s, loc).Some? && !Drops(s, step, loc)
    ensures JobAt(Apply(s, step), Goes(s, step, loc)) == JobAt(s, loc)
  {
    if step.RepublishOk? || step.RepublishError? || step.Crash? {
      RetryJobsGo(s, step, loc);
    } else if step.ProcessOk? || step.ProcessFail? {
      SettledJobsGo(s, step, loc);
    }
  }

  lemma RetryJobsGo(s: State, step: Step, loc: Loc)
    requires IdsKept(s) && Enabled(s, step) && JobAt(s, loc).Some? && !Drops(s, step, loc)
    requires step.RepublishOk? || step.RepublishError? || step.Crash?
    ensures JobAt(Apply(s, step), Goes(s, step, loc)) == JobAt(s, loc)
  {
  }

  lemma SettledJobsGo(s: State, step: Step, loc: Loc)
    requires IdsKept(s) && Enabled(s, step) && JobAt(s, loc).Some? && (step.ProcessOk? || step.ProcessFail?)
    ensures JobAt(Apply(s, step), Goes(s, step, loc)) == JobAt(s, loc)
  {
  }

  lemma CarriedStep(s: State, step: Step, key: string)
    requires AccountsKept(s) && Enabled(s, step)
    ensures Carried(Apply(s, step), key)
  {
    var s' := Apply(s, step);
    if Live(s'.locks, s'.now, key) {
      var token := s'.locks[key].token;
      if step.TryAcquire? && step.key == key && !Live(s.locks, s.now, key) {
        assert HasJob(s', With(step.p), key, s'.locks[key]);
      } else {
        OldLock(s, step, key);
        assert Carried(s, key);
        if token !in s.past.abandoned {
          var loc :| HasJob(s, loc, key, s.locks[key]);
          CarrierStays(s, step, key, loc);
        }
      }
    }
  }

  /** A live lock that was not just taken was there before. */
  lemma OldLock(s: State, step: Step, key: string)
    requires Enabled(s, step) && Live(Apply(s, step).locks, Apply(s, step).now, key)
    requires !(step.TryAcquire? && step.key == key && !Live(s.locks, s.now, key))
    ensures Live(s.locks, s.now, key) && s.locks[key] == Apply(s, step).locks[key]
    ensures s.past.abandoned <= Apply(s, step).past.abandoned
  {
  }

  lemma CarrierStays(s: State, step: Step, key: string, loc: Loc)
    requires IdsKept(s) && Enabled(s, step) && Live(Apply(s, step).locks, Apply(s, step).now, key)
    requires Live(s.locks, s.now, key) && s.locks[key] == Apply(s, step).locks[key]
    requires HasJob(s, loc, key, s.locks[key])
    ensures s.locks[key].token in Apply(s, step).past.abandoned
            || exists l :: HasJob(Apply(s, step), l, key, s.locks[key])
  {
    if !Drops(s, step, loc) {
      JobsGo(s, step, loc);
      assert HasJob(Apply(s, step), Goes(s, step, loc), key, s.locks[key]);
    }
  }

  lemma TokensStep(s: State, step: Step)
    requires TokensKept(s) && LocksKept(s) && Enabled(s, step)
    ensures TokensKept(Apply(s, step))
  {
    if !step.Tick? && !step.Expire? && step.p in s.procs {
      assert JobAt(s, With(step.p)) == Some(s.procs[step.p].job);
      assert JobKept(s, s.procs[step.p].job);
    }
  }

  lemma AccountsStep(s: State, step: Step)
    requires AccountsKept(s) && Enabled(s, step)
    ensures AccountsKept(Apply(s, step))
  {
    LocksStep(s, step);
    TokensStep(s, step);
    forall key ensures Carried(Apply(s, step), key) {
      CarriedStep(s, step, key);
    }
  }

  lemma {:induction false} AccountsAlongRuns(s: State, steps: seq<Step>)
    requires AccountsKept(s) && CanRun(s, steps)
    ensures AccountsKept(Exec(s, steps))
    decreases |steps|
  {
    if steps != [] {
      AccountsStep(s, steps[0]);
      AccountsAlongRuns(Apply(s, steps[0]), steps[1..]);
    }
  }

  /** In every run, whoever interferes: a live lock is carried by a job, in a producer's or worker's hands or in a
      message, and by one only unless its message was doubled. The exceptions are the abandoned locks. */
  lemma EveryLockIsCarried(steps: seq<Step>, key: string)
    requires CanRun(Init(), steps)
    requires var s := Exec(Init(), steps);
             Live(s.locks, s.now, key) && s.locks[key].token !in s.past.abandoned
    ensures var s := Exec(Init(), steps);
            && (exists loc :: HasJob(s, loc, key, s.locks[key]))
            && (s.locks[key].token !in s.past.doubled ==>
                  forall a, b :: HasJob(s, a, key, s.locks[key]) && HasJob(s, b, key, s.locks[key]) ==> a == b)
  {
    AccountsAlongRuns(Init(), steps);
    assert Carried(Exec(Init(), steps), key);
  }

  /** Every job for the key whose time is not over has lost its lock to an unlock. */
  ghost predicate AllFreed(s: State, key: string) {
    forall loc :: JobAt(s, loc).Some? && JobAt(s, loc).value.key == key && s.now < JobAt(s, loc).value.expiresAt ==>
      JobAt(s, loc).value.token in s.past.freed
  }

  /** A live lock whose unlock failed, or whose holder died. */
  predicate LeftToExpire(s: State, key: string) {
    Live(s.locks, s.now, key) && s.locks[key].token in s.past.abandoned
  }

  /** In every run a key is locked exactly while some job for it, still in time, was not freed, or its lock was left to
      expire. */
  lemma LockedIffSomeJobStands(steps: seq<Step>, key: string)
    requires CanRun(Init(), steps)
    ensures var s := Exec(Init(), steps);
            Live(s.locks, s.now, key) <==> !AllFreed(s, key) || LeftToExpire(s, key)
  {
    AccountsAlongRuns(Init(), steps);
    var s := Exec(Init(), steps);
    if !AllFreed(s, key) {
      var loc :| JobAt(s, loc).Some? && JobAt(s, loc).value.key == key && s.now < JobAt(s, loc).value.expiresAt
                 && JobAt(s, loc).value.token !in s.past.freed;
      assert JobKept(s, JobAt(s, loc).value);
    }
    if Live(s.locks, s.now, key) && !LeftToExpire(s, key) {
      assert Carried(s, key);
      var loc :| HasJob(s, loc, key, s.locks[key]);
      assert s.locks[key].token !in s.past.freed;
    }
  }

  /** So a second message for a key gets out, while earlier ones are still in time, exactly when all of these were
      freed and no lock was left to expire. */
  lemma AttemptWinsIffAllFreed(steps: seq<Step>, p: nat, key: string, token: nat, ttl: nat)
    requires CanRun(Init(), steps) && Enabled(Exec(Init(), steps), TryAcquire(p, key, token, ttl))
    ensures var s := Exec(Init(), steps);
            p in Apply(s, TryAcquire(p, key, token, ttl)).procs <==> AllFreed(s, key) && !LeftToExpire(s, key)
  {
    LockedIffSomeJobStands(steps, key);
  }

  /** An outstanding job that was not doubled holds its lock until it runs out. */
  lemma JobHoldsLock(s: State, loc: Loc)
    requires LocksKept(s) && JobAt(s, loc).Some?
    requires JobAt(s, loc).value.token !in s.past.doubled && s.now < JobAt(s, loc).value.expiresAt
    ensures var job := JobAt(s, loc).value;
            Live(s.locks, s.now, job.key) && s.locks[job.key] == Lock(job.token, job.expiresAt)
  {
    assert JobKept(s, JobAt(s, loc).value);
  }

  // ---------- Gone for good ----------

  /** The token was drawn, and neither a job nor a live lock has it. */
  ghost predicate Gone(s: State, token: nat) {
    && token in s.past.used
    && (forall loc :: JobAt(s, loc).Some? ==> JobAt(s, loc).value.token != token)
    && (forall key :: Live(s.locks, s.now, key) ==> s.locks[key].token != token)
  }

  /** Where the job at `loc` was before a step that did not create it. */
  function CameFrom(s: State, step: Step, loc: Loc): Loc
    requires Enabled(s, step)
  {
    match step
    case Send(p, id, ok) => if ok && loc == InMain(id) then With(p) else loc
    case Take(p, id) => if loc == With(p) then InMain(id) else loc
    case ProcessOk(p, lost) => if lost && loc == InMain(s.procs[p].id) then With(p) else loc
    case ProcessFail(p, lost) =>
      if lost && s.procs[p].retries >= MAX_RETRIES && loc == InMain(s.procs[p].id) then With(p) else loc
    case RepublishOk(p, copy) => if loc == InRetry(copy) then With(p) else loc
    case RepublishError(p, copy, stored) =>
      if loc == InMain(s.procs[p].id) || (stored && loc == InRetry(copy)) then With(p) else loc
    case Crash(p, copy, stored) =>
      if Unsettled(s.procs[p])
         && (loc == InMain(s.procs[p].id) || (stored && s.procs[p].Republishing? && loc == InRetry(copy))) then With(p) else loc
    case Expire(id) => if loc == InMain(id) then InRetry(id) else loc
    case _ => loc
  }

  lemma JobsCome(s: State, step: Step, loc: Loc)
    requires Enabled(s, step) && JobAt(Apply(s, step), loc).Some?
    requires !(step.TryAcquire? && loc == With(step.p))
    ensures JobAt(s, CameFrom(s, step, loc)) == JobAt(Apply(s, step), loc)
  {
    if step.RepublishOk? || step.RepublishError? || step.Crash? {
      RetryJobsCome(s, step, loc);
    } else if step.ProcessOk? || step.ProcessFail? {
      SettledJobsCome(s, step, loc);
    }
  }

  lemma RetryJobsCome(s: State, step: Step, loc: Loc)
    requires Enabled(s, step) && JobAt(Apply(s, step), loc).Some?
    requires step.RepublishOk? || step.RepublishError? || step.Crash?
    ensures JobAt(s, CameFrom(s, step, loc)) == JobAt(Apply(s, step), loc)
  {
  }

  lemma SettledJobsCome(s: State, step: Step, loc: Loc)
    requires Enabled(s, step) && JobAt(Apply(s, step), loc).Some? && (step.ProcessOk? || step.ProcessFail?)
    ensures JobAt(s, CameFrom(s, step, loc)) == JobAt(Apply(s, step), loc)
  {
  }

  lemma GoneStep(s: State, step: Step, token: nat)
    requires Gone(s, token) && Enabled(s, step)
    ensures Gone(Apply(s, step), token)
  {
    var s' := Apply(s, step);
    forall loc | JobAt(s', loc).Some? ensures JobAt(s', loc).value.token != token {
      if !(step.TryAcquire? && loc == With(step.p)) {
        JobsCome(s, step, loc);
      }
    }
    forall key | Live(s'.locks, s'.now, key) ensures s'.locks[key].token != token {
      if !(step.TryAcquire? && step.key == key && !Live(s.locks, s.now, key)) {
        OldLock(s, step, key);
      }
    }
  }

  lemma {:induction false} GoneAlongRuns(s: State, steps: seq<Step>, token: nat)
    requires Gone(s, token) && CanRun(s, steps)
    ensures Gone(Exec(s, steps), token)
    decreases |steps|
  {
    if steps != [] {
      GoneStep(s, steps[0], token);
      GoneAlongRuns(Apply(s, steps[0]), steps[1..], token);
    }
  }

  // ---------- Standing locks ----------

  /** The lock that `was` shows at `key` is still there, and live. */
  predicate Stands(was: LockTable, s: State, key: string) {
    key in was && key in s.locks && s.locks[key] == was[key] && s.now < was[key].expiresAt
  }

  lemma FallenStep(was: LockTable, s: State, step: Step, key: string)
    requires Enabled(s, step) && !Stands(was, s, key) && (key in was ==> was[key].token in s.past.used)
    ensures !Stands(was, Apply(s, step), key) && (key in was ==> was[key].token in Apply(s, step).past.used)
  {
  }

  /** A lock that fell never stands again, since its token is not drawn twice. So one that stands at two moments
      stood all the time between. */
  lemma {:induction false} FallenStaysFallen(was: LockTable, s: State, steps: seq<Step>, key: string)
    requires CanRun(s, steps) && !Stands(was, s, key) && (key in was ==> was[key].token in s.past.used)
    ensures !Stands(was, Exec(s, steps), key) && (key in was ==> was[key].token in Exec(s, steps).past.used)
    decreases |steps|
  {
    if steps != [] {
      FallenStep(was, s, steps[0], key);
      FallenStaysFallen(was, Apply(s, steps[0]), steps[1..], key);
    }
  }

  lemma FreshTokenIsUnseen(s: State, token: nat)
    requires AccountsKept(s) && token !in s.past.used
    ensures forall loc :: JobAt(s, loc).Some? ==> JobAt(s, loc).value.token != token
    ensures forall key :: key in s.locks ==> s.locks[key].token != token
    ensures token !in s.past.doubled && token !in s.past.abandoned
  {
    forall loc | JobAt(s, loc).Some? ensures JobAt(s, loc).value.token != token {
      assert JobKept(s, JobAt(s, loc).value);
    }
  }

  /** A drawn token that won nothing is gone at once. */
  lemma SkippedIsGone(s: State, p: nat, key: string, token: nat, ttl: nat)
    requires AccountsKept(s) && Enabled(s, TryAcquire(p, key, token, ttl)) && Live(s.locks, s.now, key)
    ensures Gone(Apply(s, TryAcquire(p, key, token, ttl)), token)
  {
    FreshTokenIsUnseen(s, token);
    var s' := Apply(s, TryAcquire(p, key, token, ttl));
    forall loc | JobAt(s', loc).Some? ensures JobAt(s', loc).value.token != token {
      assert JobAt(s, loc) == JobAt(s', loc);
    }
  }

  // ---------- In one producer's hands ----------

  /** `p` alone has the token. */
  ghost predicate Sole(s: State, p: nat, token: nat) {
    p in s.procs && s.procs[p].job.token == token && token !in s.past.doubled && token !in s.past.abandoned
  }

  lemma WonIsSole(s: State, p: nat, key: string, token: nat, ttl: nat)
    requires AccountsKept(s) && Enabled(s, TryAcquire(p, key, token, ttl)) && !Live(s.locks, s.now, key)
    ensures Sole(Apply(s, TryAcquire(p, key, token, ttl)), p, token)
  {
    FreshTokenIsUnseen(s, token);
  }

  lemma SoleHolder(s: State, p: nat, token: nat)
    requires AccountsKept(s) && Sole(s, p, token)
    ensures forall loc :: JobAt(s, loc).Some? && JobAt(s, loc).value.token == token ==> loc == With(p)
    ensures forall key :: Live(s.locks, s.now, key) && s.locks[key].token == token ==> key == s.procs[p].job.key
  {
    assert JobAt(s, With(p)) == Some(s.procs[p].job);
    forall key | Live(s.locks, s.now, key) && s.locks[key].token == token ensures key == s.procs[p].job.key {
      assert Carried(s, key);
      var loc :| HasJob(s, loc, key, s.locks[key]);
    }
  }

  /** Only a process that has a token can double or abandon it. */
  lemma SpoiltByHolder(s: State, step: Step, token: nat)
    requires Enabled(s, step) && token !in s.past.doubled && token !in s.past.abandoned
    ensures token in Apply(s, step).past.doubled || token in Apply(s, step).past.abandoned ==>
              !step.Tick? && !step.Expire? && JobAt(s, With(step.p)).Some? && JobAt(s, With(step.p)).value.token == token
  {
  }

  lemma SoleStep(s: State, step: Step, p: nat, token: nat)
    requires AccountsKept(s) && Enabled(s, step) && Sole(s, p, token)
    requires step.Tick? || step.Expire? || step.p != p
    requires p in Apply(s, step).procs && Apply(s, step).procs[p] == s.procs[p]
    ensures Sole(Apply(s, step), p, token)
  {
    SoleHolder(s, p, token);
    SpoiltByHolder(s, step, token);
  }

  /** A lock given back by its sole holder is gone. */
  lemma ReturnedIsGone(s: State, p: nat)
    requires AccountsKept(s) && Enabled(s, UnlockStep(p, true)) && Sole(s, p, s.procs[p].job.token)
    ensures Gone(Apply(s, UnlockStep(p, true)), s.procs[p].job.token)
  {
    var job := s.procs[p].job;
    var s' := Apply(s, UnlockStep(p, true));
    assert JobAt(s, With(p)) == Some(job);
    assert JobKept(s, job);
    SoleHolder(s, p, job.token);
    forall loc | JobAt(s', loc).Some? ensures JobAt(s', loc).value.token != job.token {
      assert JobAt(s', loc) == if loc == With(p) then None else JobAt(s, loc);
    }
    forall key | Live(s'.locks, s'.now, key) ensures s'.locks[key].token != job.token {
      OldLock(s, UnlockStep(p, true), key);
    }
  }

  // ---------- From one moment of a run to a later one ----------

  lemma AccountsAt(trace: seq<Step>)
    requires CanRun(Init(), trace)
    ensures AccountsKept(Exec(Init(), trace))
  {
    AccountsAlongRuns(Init(), trace);
  }

  lemma Later(a: seq<Step>, b: seq<Step>)
    requires CanRun(Init(), b) && a <= b
    ensures CanRun(Init(), a) && CanRun(Exec(Init(), a), b[|a|..])
    ensures Exec(Exec(Init(), a), b[|a|..]) == Exec(Init(), b)
  {
    assert b == a + b[|a|..];
    RunsSplit(Init(), a, b[|a|..]);
  }

  lemma GoneLater(a: seq<Step>, b: seq<Step>, token: nat)
    requires CanRun(Init(), b) && a <= b && CanRun(Init(), a) && Gone(Exec(Init(), a), token)
    ensures Gone(Exec(Init(), b), token)
  {
    Later(a, b);
    GoneAlongRuns(Exec(Init(), a), b[|a|..], token);
  }

  lemma FallenLater(was: LockTable, a: seq<Step>, b: seq<Step>, key: string)
    requires CanRun(Init(), b) && a <= b && CanRun(Init(), a) && !Stands(was, Exec(Init(), a), key)
    requires key in was ==> was[key].token in Exec(Init(), a).past.used
    ensures !Stands(was, Exec(Init(), b), key)
  {
    Later(a, b);
    FallenStaysFallen(was, Exec(Init(), a), b[|a|..], key);
  }

  lemma {:induction false} UsedGrows(s: State, steps: seq<Step>, token: nat)
    requires CanRun(s, steps) && token in s.past.used
    ensures token in Exec(s, steps).past.used
    decreases |steps|
  {
    if steps != [] {
      UsedGrows(Apply(s, steps[0]), steps[1..], token);
    }
  }

  lemma UsedLater(a: seq<Step>, b: seq<Step>, token: nat)
    requires CanRun(Init(), b) && a <= b && CanRun(Init(), a) && token in Exec(Init(), a).past.used
    ensures token in Exec(Init(), b).past.used
  {
    Later(a, b);
    UsedGrows(Exec(Init(), a), b[|a|..], token);
  }

  lemma {:induction false} SoleAlongRuns(s: State, env: seq<Step>, p: nat, token: nat)
    requires AccountsKept(s) && CanRun(s, env) && NoneMine(env, Mine(p)) && Sole(s, p, token)
    ensures Sole(Exec(s, env), p, token)
    decreases |env|
  {
    if env != [] {
      assert !Mine(p)(env[0]);
      StayStep(s, env[0], p);
      SoleStep(s, env[0], p, token);
      AccountsStep(s, env[0]);
      SoleAlongRuns(Apply(s, env[0]), env[1..], p, token);
    }
  }

  lemma SoleLater(a: seq<Step>, b: seq<Step>, p: nat, token: nat)
    requires CanRun(Init(), b) && a <= b && CanRun(Init(), a) && Sole(Exec(Init(), a), p, token)
    requires NoneMine(b[|a|..], Mine(p))
    ensures Sole(Exec(Init(), b), p, token)
  {
    Later(a, b);
    AccountsAt(a);
    SoleAlongRuns(Exec(Init(), a), b[|a|..], p, token);
  }
}
