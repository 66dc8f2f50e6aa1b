/** What each step of the notification service does to the keys, stated in their own fields, and what that means for a
    key that was given back. */
module NotificationKeys {
  import opened Notification
  import opened NotificationTiming

  /** The key that the handler of the step works on. */
  predicate WorksOn(s: State, step: Step, key: string) {
    !step.Tick? && !step.Publish? && !step.Expire? && step.p in s.procs && s.procs[step.p].job.m.key == key
  }

  predicate Shown(s: State, key: string) {
    key in s.store && s.now < s.store[key].expiresAt
  }

  // ---------- Keys ----------

  /** Each step, by handlers of either transport: a claim of a key that is not shown sets it pending for a lease, also
      when its answer was lost; a confirmation sets it done for the done time; a release deletes it; and no other step
      changes its entry. */
  lemma KeyChanges(s: State, step: Step, key: string)
    requires Enabled(s, step)
    ensures var store' := Apply(s, step).store;
            if WorksOn(s, step, key) && (step.ClaimNx? || (step.ClaimError? && step.applied)) && !Shown(s, key)
            then key in store' && store'[key] == Entry(Pending, s.now + s.cfg.lease)
            else if WorksOn(s, step, key) && step.Confirm? && step.ok
            then key in store' && store'[key] == Entry(Done, s.now + s.cfg.doneTtl)
            else if WorksOn(s, step, key) && step.Release? && step.ok then key !in store'
            else (key in store' <==> key in s.store) && (key in s.store ==> store'[key] == s.store[key])
  {
    if step.ClaimNx? || step.ClaimError? || step.ReadKey? || step.ReadError? {
      ClaimKeyChanges(s, step, key);
    } else if step.Release? || step.Confirm? || step.SendOk? || step.SendError? {
      SendKeyChanges(s, step, key);
    } else {
      OtherKeyChanges(s, step, key);
    }
  }

  lemma ClaimKeyChanges(s: State, step: Step, key: string)
    requires Enabled(s, step) && (step.ClaimNx? || step.ClaimError? || step.ReadKey? || step.ReadError?)
    ensures var store' := Apply(s, step).store;
            if WorksOn(s, step, key) && (step.ClaimNx? || (step.ClaimError? && step.applied)) && !Shown(s, key)
            then key in store' && store'[key] == Entry(Pending, s.now + s.cfg.lease)
            else (key in store' <==> key in s.store) && (key in s.store ==> store'[key] == s.store[key])
  {
  }

  lemma SendKeyChanges(s: State, step: Step, key: string)
    requires Enabled(s, step) && (step.Release? || step.Confirm? || step.SendOk? || step.SendError?)
    ensures var store' := Apply(s, step).store;
            if WorksOn(s, step, key) && step.Confirm? && step.ok
            then key in store' && store'[key] == Entry(Done, s.now + s.cfg.doneTtl)
            else if WorksOn(s, step, key) && step.Release? && step.ok then key !in store'
            else (key in store' <==> key in s.store) && (key in s.store ==> store'[key] == s.store[key])
  {
  }

  lemma OtherKeyChanges(s: State, step: Step, key: string)
    requires Enabled(s, step)
    requires !(step.ClaimNx? || step.ClaimError? || step.ReadKey? || step.ReadError?)
    requires !(step.Release? || step.Confirm? || step.SendOk? || step.SendError?)
    ensures Apply(s, step).store == s.store
  {
  }

  // ---------- A key that was given back ----------

  /** No step of the run claims the key. */
  predicate NoClaims(s: State, steps: seq<Step>, key: string)
    requires CanRun(s, steps)
    decreases |steps|
  {
    steps == [] || (!((steps[0].ClaimNx? || steps[0].ClaimError?) && WorksOn(s, steps[0], key))
                    && NoClaims(Apply(s, steps[0]), steps[1..], key))
  }

  ghost predicate Untaken(s: State, key: string) {
    !Shown(s, key) && forall p :: !HoldsKey(s, p, key)
  }

  lemma UntakenStep(s: State, step: Step, key: string)
    requires Enabled(s, step) && Untaken(s, key) && !((step.ClaimNx? || step.ClaimError?) && WorksOn(s, step, key))
    ensures Untaken(Apply(s, step), key)
  {
    KeyChanges(s, step, key);
    var s' := Apply(s, step);
    if step.Release? || step.SendOk? || step.SendError? || step.Confirm? {
      assert !HoldsKey(s, step.p, key);
    }
    forall p ensures !HoldsKey(s', p, key) {
      assert !HoldsKey(s, p, key);
      HoldersComeByClaim(s, step, p, key);
    }
    ClockStep(s, step);
  }

  lemma ClockStep(s: State, step: Step)
    requires Enabled(s, step)
    ensures s.now <= Apply(s, step).now && Apply(s, step).cfg == s.cfg
  {
  }

  lemma {:induction false} ConfigStays(s: State, steps: seq<Step>)
    requires CanRun(s, steps)
    ensures Exec(s, steps).cfg == s.cfg
    decreases |steps|
  {
    if steps != [] {
      ClockStep(s, steps[0]);
      ConfigStays(Apply(s, steps[0]), steps[1..]);
    }
  }

  lemma HoldersComeByClaim(s: State, step: Step, p: nat, key: string)
    requires Enabled(s, step) && !HoldsKey(s, p, key) && !(step.ClaimNx? && WorksOn(s, step, key))
    ensures !HoldsKey(Apply(s, step), p, key)
  {
  }

  lemma {:induction false} UntakenAlongRuns(s: State, steps: seq<Step>, key: string)
    requires CanRun(s, steps) && Untaken(s, key) && NoClaims(s, steps, key)
    ensures Untaken(Exec(s, steps), key)
    decreases |steps|
  {
    if steps != [] {
      UntakenStep(s, steps[0], key);
      UntakenAlongRuns(Apply(s, steps[0]), steps[1..], key);
    }
  }

  /** After a failed delivery whose release went through, by a queue handler or a gRPC handler that alone held the key:
      whatever happens in between except a claim, the next claim of the key wins. */
  lemma ReleasedKeyCanBeClaimed(s: State, p: nat, steps: seq<Step>, q: nat)
    requires Enabled(s, Release(p, true)) && forall r :: r != p ==> !HoldsKey(s, r, s.procs[p].job.m.key)
    requires var s1 := Apply(s, Release(p, true));
             && CanRun(s1, steps) && NoClaims(s1, steps, s.procs[p].job.m.key)
             && Enabled(Exec(s1, steps), ClaimNx(q)) && Exec(s1, steps).procs[q].job.m.key == s.procs[p].job.m.key
    ensures var s2 := Exec(Apply(s, Release(p, true)), steps);
            Apply(s2, ClaimNx(q)).procs[q] == Claimed(s2.procs[q].job, s2.now)
  {
    var key := s.procs[p].job.m.key;
    var s1 := Apply(s, Release(p, true));
    KeyChanges(s, Release(p, true), key);
    forall r ensures !HoldsKey(s1, r, key) {
      if r != p {
        HoldersComeByClaim(s, Release(p, true), r, key);
      } else {
        ReleaserHoldsNothing(s, p);
      }
    }
    UntakenAlongRuns(s1, steps, key);
  }

  lemma ReleaserHoldsNothing(s: State, p: nat)
    requires Enabled(s, Release(p, true))
    ensures p in Apply(s, Release(p, true)).procs ==> !Holder(Apply(s, Release(p, true)).procs[p])
  {
  }

  /** In every timely run the condition on the holders is met. */
  lemma ReleasedKeyIsFree(cfg: Config, before: seq<Step>, p: nat, steps: seq<Step>, q: nat)
    requires CanRun(Init(cfg), before) && TimelyRun(Init(cfg), before) && Enabled(Exec(Init(cfg), before), Release(p, true))
    requires var s := Exec(Init(cfg), before);
             var s1 := Apply(s, Release(p, true));
             && CanRun(s1, steps) && NoClaims(s1, steps, s.procs[p].job.m.key)
             && Enabled(Exec(s1, steps), ClaimNx(q)) && Exec(s1, steps).procs[q].job.m.key == s.procs[p].job.m.key
    ensures var s2 := Exec(Apply(Exec(Init(cfg), before), Release(p, true)), steps);
            Apply(s2, ClaimNx(q)).procs[q] == Claimed(s2.procs[q].job, s2.now)
  {
    TimedAtMostOnce(Init(cfg), before);
    var s := Exec(Init(cfg), before);
    assert HoldsKey(s, p, s.procs[p].job.m.key);
    ReleasedKeyCanBeClaimed(s, p, steps, q);
  }
}
