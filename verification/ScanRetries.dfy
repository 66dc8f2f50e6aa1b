/** The retry counts of scan messages: where they change, and how far they go. */
module ScanRetries {
  import opened Messages
  import opened ScanLocks
  import opened ScanAccounts

  /** The x-retry-count of a message that is queued or in a worker's hands. */
  function CountAt(s: State, loc: Loc): Option<nat> {
    match loc
    case InMain(id) => if id in s.main then Some(s.main[id].retries) else None
    case InRetry(id) => if id in s.retry then Some(s.retry[id].retries) else None
    case With(p) => if p in s.procs && Unsettled(s.procs[p]) then Some(s.procs[p].retries) else None
  }

  /** A message is sent with count 0. Its count grows by one exactly when a worker's copy gets into the retry queue, and
      is the same after every other step: on its return, when it is taken, and when it is put back. */
  lemma CountsCome(s: State, step: Step, loc: Loc)
    requires Enabled(s, step) && CountAt(Apply(s, step), loc).Some?
    ensures var from := CameFrom(s, step, loc);
            CountAt(Apply(s, step), loc)
            == if step.Send? && step.ok && loc == InMain(step.id) then Some(0)
               else if CountAt(s, from).None? then None
               else Some(CountAt(s, from).value + if loc.InRetry? && from.With? then 1 else 0)
  {
    if step.RepublishOk? || step.RepublishError? || step.Crash? {
      RetryCountsCome(s, step, loc);
    } else if step.ProcessOk? || step.ProcessFail? {
      SettledCountsCome(s, step, loc);
    } else if step.Send? || step.Take? || step.Expire? {
      QueueCountsCome(s, step, loc);
    } else {
      CountsStay(s, step, loc);
    }
  }

  lemma QueueCountsCome(s: State, step: Step, loc: Loc)
    requires Enabled(s, step) && CountAt(Apply(s, step), loc).Some? && (step.Send? || step.Take? || step.Expire?)
    ensures if step.Send? && step.ok && loc == InMain(step.id) then CountAt(Apply(s, step), loc) == Some(0)
            else CountAt(s, CameFrom(s, step, loc)) == CountAt(Apply(s, step), loc) && !(loc.InRetry? && CameFrom(s, step, loc).With?)
  {
  }

  lemma CountsStay(s: State, step: Step, loc: Loc)
    requires Enabled(s, step) && CountAt(Apply(s, step), loc).Some? && (step.Tick? || step.TryAcquire? || step.UnlockStep?)
    ensures CameFrom(s, step, loc) == loc && CountAt(s, loc) == CountAt(Apply(s, step), loc)
  {
  }

  lemma RetryCountsCome(s: State, step: Step, loc: Loc)
    requires Enabled(s, step) && CountAt(Apply(s, step), loc).Some? && (step.RepublishOk? || step.RepublishError? || step.Crash?)
    ensures var from := CameFrom(s, step, loc);
            CountAt(s, from).Some?
            && CountAt(Apply(s, step), loc).value == CountAt(s, from).value + if loc.InRetry? && from.With? then 1 else 0
  {
  }

  lemma SettledCountsCome(s: State, step: Step, loc: Loc)
    requires Enabled(s, step) && CountAt(Apply(s, step), loc).Some? && (step.ProcessOk? || step.ProcessFail?)
    ensures CountAt(s, CameFrom(s, step, loc)) == CountAt(Apply(s, step), loc) && !(loc.InRetry? && CameFrom(s, step, loc).With?)
  {
  }

  ghost predicate CountsBounded(s: State) {
    && (forall loc :: CountAt(s, loc).Some? ==> CountAt(s, loc).value <= MAX_RETRIES)
    && (forall p :: p in s.procs && s.procs[p].Republishing? ==> s.procs[p].retries < MAX_RETRIES)
  }

  lemma RepublishersBelow(s: State, step: Step, p: nat)
    requires Enabled(s, step) && p in Apply(s, step).procs && Apply(s, step).procs[p].Republishing?
    ensures (p in s.procs && s.procs[p] == Apply(s, step).procs[p]) || Apply(s, step).procs[p].retries < MAX_RETRIES
  {
  }

  lemma OnlyRepublishersCopy(s: State, step: Step, loc: Loc)
    requires Enabled(s, step) && CountAt(Apply(s, step), loc).Some? && loc.InRetry? && CameFrom(s, step, loc).With?
    ensures var p := CameFrom(s, step, loc).p; p in s.procs && s.procs[p].Republishing?
  {
  }

  lemma BoundedStep(s: State, step: Step)
    requires CountsBounded(s) && Enabled(s, step)
    ensures CountsBounded(Apply(s, step))
  {
    var s' := Apply(s, step);
    forall loc | CountAt(s', loc).Some? ensures CountAt(s', loc).value <= MAX_RETRIES {
      CountsCome(s, step, loc);
      if loc.InRetry? && CameFrom(s, step, loc).With? {
        OnlyRepublishersCopy(s, step, loc);
      }
    }
    forall p | p in s'.procs && s'.procs[p].Republishing? ensures s'.procs[p].retries < MAX_RETRIES {
      RepublishersBelow(s, step, p);
    }
  }

  lemma {:induction false} BoundedAlongRuns(s: State, steps: seq<Step>)
    requires CountsBounded(s) && CanRun(s, steps)
    ensures CountsBounded(Exec(s, steps))
    decreases |steps|
  {
    if steps != [] {
      BoundedStep(s, steps[0]);
      BoundedAlongRuns(Apply(s, steps[0]), steps[1..]);
    }
  }

  /** In every run no message has been retried more than MAX_RETRIES times, and one that fails again then is discarded:
      its worker goes on to unlock, and no copy of it is published. */
  lemma RetriesAreBounded(steps: seq<Step>, loc: Loc)
    requires CanRun(Init(), steps) && CountAt(Exec(Init(), steps), loc).Some?
    ensures var s := Exec(Init(), steps);
            && CountAt(s, loc).value <= MAX_RETRIES
            && (CountAt(s, loc).value == MAX_RETRIES && loc.With? ==>
                  s.procs[loc.p].Processing? && Apply(s, ProcessFail(loc.p, false)).procs[loc.p] == Unlocking(s.procs[loc.p].job)
                  && Apply(s, ProcessFail(loc.p, false)).retry == s.retry)
  {
    BoundedAlongRuns(Init(), steps);
  }
}
