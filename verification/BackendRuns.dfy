/** Runs of the subscription side: how they compose, and what each process contributes to one. */
module BackendRuns {
  import opened Backend
  import opened Traces

  lemma {:induction false} RunsCompose(s: State, a: seq<Step>, b: seq<Step>)
    requires CanRun(s, a) && CanRun(Exec(s, a), b)
    ensures CanRun(s, a + b) && Exec(s, a + b) == Exec(Exec(s, a), b)
    decreases |a|
  {
    if a == [] {
      assert a + b == b;
    } else {
      RunsCompose(Apply(s, a[0]), a[1..], b);
      assert (a + b)[1..] == a[1..] + b;
    }
  }

  ghost predicate Reaches(before: State, after: State) {
    exists steps :: CanRun(before, steps) && Exec(before, steps) == after
  }

  lemma ReachStep(s0: State, s: State, step: Step)
    requires Reaches(s0, s) && Enabled(s, step)
    ensures Reaches(s0, Apply(s, step))
  {
    var steps :| CanRun(s0, steps) && Exec(s0, steps) == s;
    assert [step][1..] == [];
    assert CanRun(s, [step]);
    assert Exec(s, [step]) == Exec(Apply(s, step), []);
    RunsCompose(s0, steps, [step]);
  }

  // ---------- One process among others ----------

  /** The handler a step belongs to, if it belongs to one. */
  predicate StepOf(step: Step, p: nat) {
    !step.Tick? && !step.Advance? && step.p == p
  }

  function Mine(p: nat): Step -> bool {
    step => StepOf(step, p)
  }

  lemma StayStep(s: State, step: Step, p: nat)
    requires Enabled(s, step) && !StepOf(step, p)
    ensures p in Apply(s, step).procs <==> p in s.procs
    ensures p in s.procs ==> Apply(s, step).procs[p] == s.procs[p]
  {
    if step.Claim? || step.DeletePending? || step.MarkCompensated? || step.FindStuck? || step.FindForReply? {
      StayStepOfSweep(s, step, p);
    } else {
      StayStepOfCall(s, step, p);
    }
  }

  lemma StayStepOfSweep(s: State, step: Step, p: nat)
    requires Enabled(s, step) && !StepOf(step, p)
    requires step.Claim? || step.DeletePending? || step.MarkCompensated? || step.FindStuck? || step.FindForReply?
    ensures p in Apply(s, step).procs <==> p in s.procs
    ensures p in s.procs ==> Apply(s, step).procs[p] == s.procs[p]
  {
  }

  lemma StayStepOfCall(s: State, step: Step, p: nat)
    requires Enabled(s, step) && !StepOf(step, p)
    requires !(step.Claim? || step.DeletePending? || step.MarkCompensated? || step.FindStuck? || step.FindForReply?)
    ensures p in Apply(s, step).procs <==> p in s.procs
    ensures p in s.procs ==> Apply(s, step).procs[p] == s.procs[p]
  {
  }

  lemma OthersUntouched(s: State, step: Step)
    requires Enabled(s, step)
    ensures forall q :: q in Apply(s, step).procs && !StepOf(step, q) ==> q in s.procs && Apply(s, step).procs[q] == s.procs[q]
  {
    forall q | q in Apply(s, step).procs && !StepOf(step, q)
      ensures q in s.procs && Apply(s, step).procs[q] == s.procs[q]
    {
      StayStep(s, step, q);
    }
  }

  /** Where `p` stands is its own affair. */
  lemma {:induction false} OthersKeepPc(s: State, env: seq<Step>, p: nat)
    requires CanRun(s, env) && NoneMine(env, Mine(p))
    ensures p in Exec(s, env).procs <==> p in s.procs
    ensures p in s.procs ==> Exec(s, env).procs[p] == s.procs[p]
    decreases |env|
  {
    if env != [] {
      assert !Mine(p)(env[0]);
      StayStep(s, env[0], p);
      OthersKeepPc(Apply(s, env[0]), env[1..], p);
    }
  }

  lemma OneStep(s: State, step: Step)
    requires Enabled(s, step)
    ensures CanRun(s, [step]) && Exec(s, [step]) == Apply(s, step)
  {
    assert [step][1..] == [];
    assert Exec(s, [step]) == Exec(Apply(s, step), []);
  }

  lemma AppendStep(s: State, steps: seq<Step>, step: Step)
    requires CanRun(s, steps) && Enabled(Exec(s, steps), step)
    ensures CanRun(s, steps + [step]) && Exec(s, steps + [step]) == Apply(Exec(s, steps), step)
  {
    OneStep(Exec(s, steps), step);
    RunsCompose(s, steps, [step]);
  }
}
