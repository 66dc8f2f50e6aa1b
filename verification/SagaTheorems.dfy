/** What the kept histories say about every run: lifecycle, claims, and where the guarantees end. */
module SagaTheorems {
  import opened Messages
  import opened Tables
  import opened Backend
  import opened BackendRuns
  import opened SagaLifecycle

  lemma InitKept()
    ensures SagasKept(Init())
  {
  }

  /** In every run a saga's history is a legal lifecycle exactly when no AWAITING_EMAIL write of its
      start call found the saga already claimed, that is in a state other than STARTED. */
  lemma LifecycleIffTimely(steps: seq<Step>, g: SagaId)
    requires CanRun(Init(), steps) && g in Exec(Init(), steps).sagas
    ensures var s := Exec(Init(), steps);
            g in s.log.hist && (g !in s.log.late <==> Legal(s.log.hist[g])) && s.log.hist[g] != []
            && s.log.hist[g][|s.log.hist[g]| - 1] == s.sagas[g].state
  {
    SagasAlongRuns(Init(), steps);
    var s := Exec(Init(), steps);
    assert SagaKept(g, s.sagas[g], s.log);
  }

  /** While nothing came late, a saga never both completes and runs a compensating delete. */
  lemma NeverBoth(steps: seq<Step>, g: SagaId)
    requires CanRun(Init(), steps) && g in Exec(Init(), steps).sagas && g !in Exec(Init(), steps).log.late
    ensures var s := Exec(Init(), steps);
            g in s.log.hist && !(Completed in s.log.hist[g] && g in s.log.deleting)
  {
    SagasAlongRuns(Init(), steps);
    var s := Exec(Init(), steps);
    assert SagaKept(g, s.sagas[g], s.log);
    LegalCases(s.log.hist[g]);
  }

  // ---------- Terminal states ----------

  /** The histories of existing sagas only get longer. */
  predicate Grown(s: State, s': State, g: SagaId) {
    && g in s'.sagas && g in s.log.hist && g in s'.log.hist
    && s.log.hist[g] <= s'.log.hist[g] && s.log.late <= s'.log.late
  }

  lemma WritesGrow(s: State, step: Step, g: SagaId)
    requires g in s.sagas && s.log.hist.Keys == s.sagas.Keys && Enabled(s, step)
    requires step.CreateSaga? || step.MarkAwaiting? || step.Complete? || step.Claim?
    ensures Grown(s, Apply(s, step), g)
  {
  }

  /** The sagas and their histories are in step: what growing needs of the invariant. */
  lemma KeysInStep(s: State)
    requires SagasKept(s)
    ensures s.log.hist.Keys == s.sagas.Keys
  {
  }

  lemma MarkGrows(s: State, p: nat, g: SagaId)
    requires g in s.sagas && s.log.hist.Keys == s.sagas.Keys && Enabled(s, MarkCompensated(p))
    ensures Grown(s, Apply(s, MarkCompensated(p)), g)
  {
    NextTargetMoves(Write(s, s.procs[p].target.saga, Compensated), p, s.procs[p].rest);
  }

  lemma OthersGrow(s: State, step: Step, g: SagaId)
    requires g in s.sagas && s.log.hist.Keys == s.sagas.Keys && Enabled(s, step)
    requires !step.CreateSaga? && !step.MarkAwaiting? && !step.Complete? && !step.Claim? && !step.MarkCompensated?
    ensures Grown(s, Apply(s, step), g)
  {
    if step.FindStuck? {
      NextTargetMoves(s, step.p, step.found);
    }
  }

  lemma HistoryGrows(s: State, step: Step, g: SagaId)
    requires g in s.sagas && s.log.hist.Keys == s.sagas.Keys && Enabled(s, step)
    ensures Grown(s, Apply(s, step), g)
  {
    match step
    case CreateSaga(_, _) | MarkAwaiting(_) | Complete(_) | Claim(_) => WritesGrow(s, step, g);
    case MarkCompensated(p) => MarkGrows(s, p, g);
    case _ => OthersGrow(s, step, g);
  }

  lemma {:induction false} HistoryGrowsAlongRuns(s: State, steps: seq<Step>, g: SagaId)
    requires SagasKept(s) && CanRun(s, steps) && g in s.sagas
    ensures var s' := Exec(s, steps);
            SagasKept(s') && Grown(s, s', g)
    decreases |steps|
  {
    if steps != [] {
      SagaStep(s, steps[0]);
      KeysInStep(s);
      HistoryGrows(s, steps[0], g);
      HistoryGrowsAlongRuns(Apply(s, steps[0]), steps[1..], g);
    }
  }

  predicate Terminal(state: SagaState) {
    state.Completed? || state.Compensated?
  }

  /** A completed or compensated saga is never written again in a run with no late write to it. */
  lemma TerminalStays(s: State, steps: seq<Step>, g: SagaId)
    requires SagasKept(s) && CanRun(s, steps) && g in s.sagas && Terminal(s.sagas[g].state)
    requires g !in Exec(s, steps).log.late
    ensures var s' := Exec(s, steps);
            g in s'.sagas && g in s'.log.hist && s'.sagas[g].state == s.sagas[g].state && s'.log.hist[g] == s.log.hist[g]
  {
    HistoryGrowsAlongRuns(s, steps, g);
    var s' := Exec(s, steps);
    assert SagaKept(g, s.sagas[g], s.log) && SagaKept(g, s'.sagas[g], s'.log);
    LegalCases(s.log.hist[g]);
    LegalCases(s'.log.hist[g]);
  }

  // ---------- Claims ----------

  /** start's AWAITING_EMAIL write came, and before any claim. */
  predicate AwaitedFirst(h: History) {
    exists i :: 0 <= i < |h| && h[i] == AwaitingEmail && forall j :: 0 <= j < i ==> h[j] != Compensating
  }

  /** Without any timing assumption, all sweepers and reply handlers together win the claim of a saga
      at most twice, and at most once when AWAITING_EMAIL was written before the first claim. */
  lemma ClaimBound(steps: seq<Step>, g: SagaId)
    requires CanRun(Init(), steps) && g in Exec(Init(), steps).sagas
    ensures var s := Exec(Init(), steps);
            g in s.log.hist && Count(s.log.hist[g], Compensating) <= 2
            && (AwaitedFirst(s.log.hist[g]) ==> Count(s.log.hist[g], Compensating) <= 1)
  {
    SagasAlongRuns(Init(), steps);
    var s := Exec(Init(), steps);
    assert SagaKept(g, s.sagas[g], s.log);
  }

  // ---------- Where the lifecycle breaks ----------

  /** A saga is created, a sweep claims it, and only then start marks it AWAITING_EMAIL. */
  lemma ReachOverwritten(email: string, repo: string) returns (s: State)
    ensures Reaches(Init(), s) && 0 in s.sagas && 0 in s.log.hist && s.sagas[0].state.AwaitingEmail?
    ensures s.log.hist[0] == [Started, Compensating, AwaitingEmail] && s.procs.Keys == {2}
    ensures s.procs[2] == Sweeping(ToDelete, Target(0, 0), [])
  {
    s := ReachClaimed(email, repo);
    ReachStep(Init(), s, OrderMail(1));
    s := Apply(s, OrderMail(1));
    ReachStep(Init(), s, MarkAwaiting(1));
    s := Apply(s, MarkAwaiting(1));
  }

  lemma ReachCreated(email: string, repo: string) returns (s: State)
    ensures Reaches(Init(), s) && s.now == 1 && s.procs == map[1 := Created(0, email, repo, "c")]
    ensures s.sagas == map[0 := Saga(Started, 0, email, repo, 0)] && 0 in s.log.hist && s.log.hist[0] == [Started]
  {
    s := Init();
    assert CanRun(s, []) && Exec(s, []) == s;
    ReachStep(Init(), s, CheckActive(1, email, repo));
    s := Apply(s, CheckActive(1, email, repo));
    ReachStep(Init(), s, Upsert(1, 0, "c", "u"));
    s := Apply(s, Upsert(1, 0, "c", "u"));
    ReachStep(Init(), s, CreateSaga(1, 0));
    s := Apply(s, CreateSaga(1, 0));
    ReachStep(Init(), s, Tick);
    s := Apply(s, Tick);
  }

  lemma ReachClaimed(email: string, repo: string) returns (s: State)
    ensures Reaches(Init(), s) && 0 in s.sagas && 0 in s.log.hist && s.sagas[0].state.Compensating?
    ensures s.log.hist[0] == [Started, Compensating]
    ensures s.procs == map[1 := Created(0, email, repo, "c"), 2 := Sweeping(ToDelete, Target(0, 0), [])]
  {
    s := ReachFound(email, repo);
    ReachStep(Init(), s, Claim(2));
    s := Apply(s, Claim(2));
  }

  lemma ReachFound(email: string, repo: string) returns (s: State)
    ensures Reaches(Init(), s) && 0 in s.sagas && s.sagas[0].state.Started? && 0 in s.log.hist && s.log.hist[0] == [Started]
    ensures s.procs == map[1 := Created(0, email, repo, "c"), 2 := Sweeping(ToClaim, Target(0, 0), [])]
  {
    s := ReachCreated(email, repo);
    var found := [Target(0, 0)];
    assert found[1..] == [];
    assert Target(0, 0) in found;
    ReachStep(Init(), s, FindStuck(2, 1, found));
    s := Apply(s, FindStuck(2, 1, found));
  }

  /** The bound of two claims is met: an overwritten claim lets a FAILED reply claim again. */
  lemma TwoClaimsHappen(email: string, repo: string) returns (s: State)
    ensures Reaches(Init(), s) && 0 in s.log.hist
    ensures s.log.hist[0] == [Started, Compensating, AwaitingEmail, Compensating]
  {
    s := ReachOverwritten(email, repo);
    ReachStep(Init(), s, FindForReply(3, 0, false));
    s := Apply(s, FindForReply(3, 0, false));
    ReachStep(Init(), s, Claim(3));
    s := Apply(s, Claim(3));
  }

  /** An overwritten claim lets a saga complete and then run its compensating delete all the same. */
  lemma CompletesAndDeletes(email: string, repo: string) returns (s: State)
    ensures Reaches(Init(), s) && 0 in s.log.hist && Completed in s.log.hist[0] && 0 in s.log.deleting
  {
    s := ReachOverwritten(email, repo);
    ReachStep(Init(), s, FindForReply(3, 0, true));
    s := Apply(s, FindForReply(3, 0, true));
    ReachStep(Init(), s, Complete(3));
    s := Apply(s, Complete(3));
    assert s.log.hist[0][3] == Completed;
    ReachStep(Init(), s, DeletePending(2, true));
    s := Apply(s, DeletePending(2, true));
  }
}
