/** Confirmed subscriptions survive compensation, also when several sagas share a row. */
module SubscriptionSafety {
  import opened Messages
  import opened Tables
  import opened Backend
  import opened BackendRuns

  predicate Active(subs: Subscriptions, id: nat) {
    id in subs && subs[id].status.ActiveRow?
  }

  /** A subscribe call that saw no ACTIVE row saw it before every activation still in force. */
  ghost predicate CheckKept(pc: Pc, subs: Subscriptions, log: Log) {
    pc.Checked? ==>
      && pc.checkedAt < log.stepNo
      && forall id :: Active(subs, id) && IsPair(subs[id], pc.email, pc.repo) ==>
           id in log.activatedAt && pc.checkedAt < log.activatedAt[id]
  }

  /** Ids are never reused, a pair has one row, and every ACTIVE row was activated at a known step. */
  ghost predicate RowsKept(subs: Subscriptions, log: Log) {
    && subs.Keys <= log.usedSubs && UniquePairs(subs)
    && (forall id :: Active(subs, id) ==> id in log.activatedAt && log.activatedAt[id] < log.stepNo)
  }

  ghost predicate SubsKept(s: State) {
    RowsKept(s.subs, s.log) && forall p :: p in s.procs ==> CheckKept(s.procs[p], s.subs, s.log)
  }

  /** Rows may vanish, lose their activity or change their tag; nothing becomes active. */
  ghost predicate NothingActivated(subs: Subscriptions, subs': Subscriptions) {
    forall id :: id in subs' ==>
      id in subs && IsPair(subs'[id], subs[id].email, subs[id].repo) && (Active(subs', id) ==> Active(subs, id))
  }

  lemma FewerRowsKept(s: State, s': State, p: nat)
    requires SubsKept(s) && NothingActivated(s.subs, s'.subs)
    requires s'.log.usedSubs == s.log.usedSubs && s'.log.activatedAt == s.log.activatedAt && s.log.stepNo <= s'.log.stepNo
    requires forall q :: q in s'.procs && q != p ==> q in s.procs && s'.procs[q] == s.procs[q]
    requires p in s'.procs ==> !s'.procs[p].Checked? || (p in s.procs && s'.procs[p] == s.procs[p])
    ensures SubsKept(s')
  {
    forall q | q in s'.procs ensures CheckKept(s'.procs[q], s'.subs, s'.log) {
      if s'.procs[q].Checked? {
        assert CheckKept(s.procs[q], s.subs, s.log);
      }
    }
  }

  lemma CheckActiveKeeps(s: State, p: nat, email: string, repo: string)
    requires SubsKept(s) && Enabled(s, CheckActive(p, email, repo))
    ensures SubsKept(Apply(s, CheckActive(p, email, repo)))
  {
    var s' := Apply(s, CheckActive(p, email, repo));
    forall q | q in s'.procs ensures CheckKept(s'.procs[q], s'.subs, s'.log) {
      assert q != p ==> CheckKept(s.procs[q], s.subs, s.log);
      assert forall id :: Active(s.subs, id) && IsPair(s.subs[id], email, repo) ==> ActiveExists(s.subs, email, repo);
    }
  }

  lemma UpsertKeeps(s: State, p: nat, id: nat, ct: string, ut: string)
    requires SubsKept(s) && Enabled(s, Upsert(p, id, ct, ut))
    ensures SubsKept(Apply(s, Upsert(p, id, ct, ut)))
  {
    var s' := Apply(s, Upsert(p, id, ct, ut));
    assert forall j :: j != id ==> (j in s'.subs <==> j in s.subs) && (j in s.subs ==> s'.subs[j] == s.subs[j]);
    assert !Active(s'.subs, id);
    forall q | q in s'.procs ensures CheckKept(s'.procs[q], s'.subs, s'.log) {
      if s'.procs[q].Checked? {
        assert CheckKept(s.procs[q], s.subs, s.log);
      }
    }
    forall i, j | i in s'.subs && j in s'.subs && s'.subs[i].email == s'.subs[j].email && s'.subs[i].repo == s'.subs[j].repo
      ensures i == j
    {
      assert i != id ==> IsPair(s.subs[i], s'.subs[i].email, s'.subs[i].repo);
      assert j != id ==> IsPair(s.subs[j], s'.subs[j].email, s'.subs[j].repo);
    }
  }

  lemma ActivateKeeps(s: State, p: nat)
    requires SubsKept(s) && Enabled(s, ActivateRow(p))
    ensures SubsKept(Apply(s, ActivateRow(p)))
  {
    var id := s.procs[p].subId;
    var s' := Apply(s, ActivateRow(p));
    forall j | j != id ensures Active(s'.subs, j) == Active(s.subs, j) {}
    forall q | q in s'.procs ensures CheckKept(s'.procs[q], s'.subs, s'.log) {
      assert CheckKept(s.procs[q], s.subs, s.log);
    }
  }

  /** A claim, a final mark or a query leaves the rows alone and moves only its own sweep. */
  lemma SweepWritesNoRow(s: State, step: Step)
    requires Enabled(s, step) && (step.Claim? || step.MarkCompensated? || step.FindStuck?)
    ensures var s' := Apply(s, step);
            && s'.subs == s.subs && s'.log.usedSubs == s.log.usedSubs && s'.log.activatedAt == s.log.activatedAt
            && s'.log.stepNo == s.log.stepNo + 1
            && (forall q :: q in s'.procs && q != step.p ==> q in s.procs && s'.procs[q] == s.procs[q])
            && (step.p in s'.procs ==> s'.procs[step.p].Sweeping?)
  {
    match step
    case Claim(p) => NextTargetKeeps(s, p, s.procs[p].rest);
    case MarkCompensated(p) => NextTargetKeeps(Write(s, s.procs[p].target.saga, Compensated), p, s.procs[p].rest);
    case FindStuck(p, _, found) => NextTargetKeeps(s, p, found);
  }

  lemma NextTargetKeeps(s: State, p: nat, rest: seq<Target>)
    ensures var s' := NextTarget(s, p, rest);
            && s'.subs == s.subs && s'.log == s.log
            && (forall q :: q in s'.procs && q != p ==> q in s.procs && s'.procs[q] == s.procs[q])
            && (p in s'.procs ==> s'.procs[p].Sweeping?)
  {
  }

  lemma SweepKeeps(s: State, step: Step)
    requires SubsKept(s) && Enabled(s, step)
    requires step.Claim? || step.MarkCompensated? || step.FindStuck? || step.DeletePending?
    ensures SubsKept(Apply(s, step))
  {
    if !step.DeletePending? {
      SweepWritesNoRow(s, step);
    }
    FewerRowsKept(s, Apply(s, step), step.p);
  }

  lemma RowStepsKeep(s: State, step: Step)
    requires SubsKept(s) && Enabled(s, step) && (step.DeleteRow? || step.Advance?)
    ensures SubsKept(Apply(s, step))
  {
    FewerRowsKept(s, Apply(s, step), if step.DeleteRow? then step.p else 0);
  }

  lemma CallStepsKeep(s: State, step: Step)
    requires SubsKept(s) && Enabled(s, step)
    requires step.CreateSaga? || step.OrderMail? || step.MarkAwaiting? || step.Abandon? || step.FindForReply? || step.Complete?
    ensures SubsKept(Apply(s, step))
  {
    FewerRowsKept(s, Apply(s, step), step.p);
  }

  lemma LookupStepsKeep(s: State, step: Step)
    requires SubsKept(s) && Enabled(s, step)
    requires step.Tick? || step.FindConfirm? || step.FindUnsubscribe? || step.ReadOutdated? || step.NotifyOne?
    ensures SubsKept(Apply(s, step))
  {
    FewerRowsKept(s, Apply(s, step), if step.Tick? then 0 else step.p);
  }

  lemma SubsStep(s: State, step: Step)
    requires SubsKept(s) && Enabled(s, step)
    ensures SubsKept(Apply(s, step))
  {
    match step
    case CheckActive(p, email, repo) => CheckActiveKeeps(s, p, email, repo);
    case Upsert(p, id, ct, ut) => UpsertKeeps(s, p, id, ct, ut);
    case ActivateRow(p) => ActivateKeeps(s, p);
    case Claim(_) | MarkCompensated(_) | FindStuck(_, _, _) | DeletePending(_, _) => SweepKeeps(s, step);
    case DeleteRow(_) | Advance(_, _, _) => RowStepsKeep(s, step);
    case CreateSaga(_, _) | OrderMail(_) | MarkAwaiting(_) | Abandon(_) | FindForReply(_, _, _) | Complete(_) => CallStepsKeep(s, step);
    case _ => LookupStepsKeep(s, step);
  }

  lemma {:induction false} SubsAlongRuns(s: State, steps: seq<Step>)
    requires SubsKept(s) && CanRun(s, steps)
    ensures SubsKept(Exec(s, steps))
    decreases |steps|
  {
    if steps != [] {
      SubsStep(s, steps[0]);
      SubsAlongRuns(Apply(s, steps[0]), steps[1..]);
    }
  }

  /** A step by an unsubscribe call that looked the row up, or an upsert by a subscribe call for the
      row's pair whose check for an ACTIVE row came before the row was activated. */
  ghost predicate EndsActivity(s: State, step: Step, id: nat)
    requires Enabled(s, step) && Active(s.subs, id)
  {
    || (step.DeleteRow? && s.procs[step.p].subId == id)
    || (step.Upsert? && step.id == id && IsPair(s.subs[id], s.procs[step.p].email, s.procs[step.p].repo)
        && id in s.log.activatedAt && s.procs[step.p].checkedAt < s.log.activatedAt[id])
  }

  /** From any reachable state, a row leaves ACTIVE, or the table, exactly by an unsubscription or by an
      upsert whose check was outrun by the activation. No compensation does it, whichever saga runs it. */
  lemma ConfirmedSurvives(s: State, step: Step, id: nat)
    requires SubsKept(s) && Enabled(s, step) && Active(s.subs, id)
    ensures !Active(Apply(s, step).subs, id) <==> EndsActivity(s, step, id)
  {
    if step.Upsert? && step.id == id {
      assert CheckKept(s.procs[step.p], s.subs, s.log);
    } else if step.FindStuck? || step.MarkCompensated? || step.Claim? {
      assert Apply(s, step).subs == s.subs;
    }
  }

  /** The same for every run from the empty tables. */
  lemma ConfirmedSurvivesInEveryRun(steps: seq<Step>, step: Step, id: nat)
    requires CanRun(Init(), steps) && Enabled(Exec(Init(), steps), step) && Active(Exec(Init(), steps).subs, id)
    ensures var s := Exec(Init(), steps);
            !Active(Apply(s, step).subs, id) <==> EndsActivity(s, step, id)
  {
    SubsAlongRuns(Init(), steps);
    ConfirmedSurvives(Exec(Init(), steps), step, id);
  }

  // ---------- The upsert that is outrun ----------

  /** Two subscribe calls for one pair both saw no ACTIVE row; the first has inserted the row. */
  lemma ReachTwoChecked(email: string, repo: string) returns (s: State)
    ensures Reaches(Init(), s) && s.subs == map[0 := Subscription(email, repo, PendingRow, "c", "u", None)]
    ensures s.procs == map[1 := Upserted(0, email, repo, "c"), 2 := Checked(email, repo, 1)]
    ensures s.log.usedSubs == {0}
  {
    s := Init();
    assert CanRun(s, []) && Exec(s, []) == s;
    ReachStep(Init(), s, CheckActive(1, email, repo));
    s := Apply(s, CheckActive(1, email, repo));
    ReachStep(Init(), s, CheckActive(2, email, repo));
    s := Apply(s, CheckActive(2, email, repo));
    ReachStep(Init(), s, Upsert(1, 0, "c", "u"));
    s := Apply(s, Upsert(1, 0, "c", "u"));
  }

  /** The subscriber confirms while the second call is still between its check and its upsert. */
  lemma ReachConfirmed(email: string, repo: string) returns (s: State)
    ensures Reaches(Init(), s) && s.subs == map[0 := Subscription(email, repo, ActiveRow, "c", "u", None)]
    ensures s.procs == map[1 := Upserted(0, email, repo, "c"), 2 := Checked(email, repo, 1)]
  {
    s := ReachConfirming(email, repo);
    ReachStep(Init(), s, ActivateRow(3));
    s := Apply(s, ActivateRow(3));
  }

  lemma ReachConfirming(email: string, repo: string) returns (s: State)
    ensures Reaches(Init(), s) && s.subs == map[0 := Subscription(email, repo, PendingRow, "c", "u", None)]
    ensures s.procs == map[1 := Upserted(0, email, repo, "c"), 2 := Checked(email, repo, 1), 3 := Confirming(0)]
  {
    s := ReachTwoChecked(email, repo);
    ReachStep(Init(), s, FindConfirm(3, 0));
    s := Apply(s, FindConfirm(3, 0));
  }

  /** The exception is real: the second call's upsert sets a confirmed row back to PENDING. */
  lemma OutrunUpsertDemotes(email: string, repo: string) returns (s: State, step: Step)
    ensures Reaches(Init(), s) && Active(s.subs, 0) && Enabled(s, step)
    ensures 0 in Apply(s, step).subs && Apply(s, step).subs[0].status.PendingRow?
    ensures step.Upsert? && step.p == 2
  {
    s := ReachConfirmed(email, repo);
    step := Upsert(2, 0, "d", "v");
  }
}
