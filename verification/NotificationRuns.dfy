/** Runs of the notification service: how they compose, and what each handler contributes to one. */
module NotificationRuns {
  import opened Notification
  import opened Traces

  lemma {:induction false} RunsCompose(s: State, a: seq<Step>, b: seq<Step>)
    requires CanRun(s, a) && CanRun(Exec(s, a), b)
    ensures CanRun(s, a + b) && Exec(s, a + b) == Exec(Exec(s, a), b)
    decreases |a|
  {
    if a == [] {
      assert a + b == b;
    } else {
      RunsCompose(Apply(s, a[0]), a[1..], b);
      assert (a + b)[1..] == a[1..] + b;
    }
  }

  lemma OneStep(s: State, step: Step)
    requires Enabled(s, step)
    ensures CanRun(s, [step]) && Exec(s, [step]) == Apply(s, step)
  {
    assert [step][1..] == [];
    assert Exec(s, [step]) == Exec(Apply(s, step), []);
  }

  lemma AppendStep(s: State, steps: seq<Step>, step: Step)
    requires CanRun(s, steps) && Enabled(Exec(s, steps), step)
    ensures CanRun(s, steps + [step]) && Exec(s, steps + [step]) == Apply(Exec(s, steps), step)
  {
    OneStep(Exec(s, steps), step);
    RunsCompose(s, steps, [step]);
  }

  /** The handler a step belongs to, if it belongs to one. */
  predicate StepOf(step: Step, p: nat) {
    !step.Tick? && !step.Publish? && !step.Expire? && step.p == p
  }

  function Mine(p: nat): Step -> bool {
    step => StepOf(step, p)
  }

  lemma StayStep(s: State, step: Step, p: nat)
    requires Enabled(s, step) && !StepOf(step, p)
    ensures p in Apply(s, step).procs <==> p in s.procs
    ensures p in s.procs ==> Apply(s, step).procs[p] == s.procs[p]
  {
  }

  /** How far a handler has got is its own affair. */
  lemma {:induction false} OthersKeepPc(s: State, env: seq<Step>, p: nat)
    requires CanRun(s, env) && NoneMine(env, Mine(p))
    ensures p in Exec(s, env).procs <==> p in s.procs
    ensures p in s.procs ==> Exec(s, env).procs[p] == s.procs[p]
    decreases |env|
  {
    if env != [] {
      assert !Mine(p)(env[0]);
      StayStep(s, env[0], p);
      OthersKeepPc(Apply(s, env[0]), env[1..], p);
    }
  }
}
