/** What each step of the subscription side does to every column of every row of the two tables, stated in
    the rows' own fields. */
module BackendEffects {
  import opened Messages
  import opened Tables
  import opened Backend

  // ---------- Which part of the state a step touches ----------

  predicate TouchesRows(step: Step) {
    step.Upsert? || step.ActivateRow? || step.DeleteRow? || step.Advance? || step.DeletePending?
  }

  predicate TouchesSagas(step: Step) {
    step.CreateSaga? || step.MarkAwaiting? || step.Complete? || step.Claim? || step.MarkCompensated?
  }

  lemma RowsUntouched(s: State, step: Step)
    requires Enabled(s, step) && !TouchesRows(step)
    ensures Apply(s, step).subs == s.subs
  {
  }

  lemma SagasUntouched(s: State, step: Step)
    requires Enabled(s, step) && !TouchesSagas(step)
    ensures var s' := Apply(s, step);
            s'.sagas == s.sagas && s'.log.hist == s.log.hist && s'.log.tokens == s.log.tokens
  {
  }

  // ---------- Subscription rows ----------

  /** A row that stays keeps who subscribed to what and both tokens. Its tag changes exactly by an advance for its own
      address and repository; its status exactly by the confirmation that found it, or by an upsert for its pair. */
  lemma RowColumnsChange(s: State, step: Step, id: nat)
    requires Enabled(s, step) && id in s.subs && id in Apply(s, step).subs
    ensures var row, row' := s.subs[id], Apply(s, step).subs[id];
            && row'.email == row.email && row'.repo == row.repo
            && row'.confirmToken == row.confirmToken && row'.unsubscribeToken == row.unsubscribeToken
            && (row'.lastSeenTag != row.lastSeenTag <==>
                  step.Advance? && step.email == row.email && step.repo == row.repo && row.lastSeenTag != Some(step.tag))
            && (row'.lastSeenTag != row.lastSeenTag ==> row'.lastSeenTag == Some(step.tag))
            && (row'.status != row.status <==>
                  || (step.ActivateRow? && s.procs[step.p].subId == id && row.status == PendingRow)
                  || (step.Upsert? && step.id == id && row.status == ActiveRow))
  {
    if !TouchesRows(step) {
      RowsUntouched(s, step);
    }
  }

  /** A row appears exactly by an upsert that found no row of its pair, and then has these columns. It goes exactly by
      the unsubscribe call that looked it up, or by a compensation that finds it still PENDING. */
  lemma RowsComeAndGo(s: State, step: Step, id: nat)
    requires Enabled(s, step)
    ensures id !in s.subs && id in Apply(s, step).subs <==>
              && step.Upsert? && step.id == id
              && forall j :: j in s.subs ==> !(s.subs[j].email == s.procs[step.p].email && s.subs[j].repo == s.procs[step.p].repo)
    ensures step.Upsert? && id !in s.subs && id in Apply(s, step).subs ==>
              Apply(s, step).subs[id]
              == Subscription(s.procs[step.p].email, s.procs[step.p].repo, PendingRow, step.confirmToken, step.unsubscribeToken, None)
    ensures step.Upsert? && step.id in s.subs ==>
              s.subs[step.id].email == s.procs[step.p].email && s.subs[step.id].repo == s.procs[step.p].repo
    ensures id in s.subs && id !in Apply(s, step).subs <==>
              && id in s.subs
              && ((step.DeleteRow? && s.procs[step.p].subId == id)
                  || (step.DeletePending? && step.ok && s.procs[step.p].target.subId == id && s.subs[id].status == PendingRow))
  {
    if !TouchesRows(step) {
      RowsUntouched(s, step);
    }
  }

  // ---------- Saga rows ----------

  /** A saga row appears exactly when its subscribe call creates it, with these columns, and never goes. */
  lemma SagasCome(s: State, step: Step, g: SagaId)
    requires Enabled(s, step)
    ensures g in s.sagas ==> g in Apply(s, step).sagas
    ensures g !in s.sagas && g in Apply(s, step).sagas <==> step.CreateSaga? && step.saga == g
    ensures step.CreateSaga? && step.saga == g ==>
              var pc := s.procs[step.p];
              Apply(s, step).sagas[g] == Saga(Started, pc.subId, pc.email, pc.repo, s.now)
  {
    if !TouchesSagas(step) {
      SagasUntouched(s, step);
    }
  }

  /** A saga row keeps its row and names. Its state and its time change exactly by the four writes of the orchestrator
      to that very saga: start's last write always, a completion from AWAITING_EMAIL, a claim from STARTED or
      AWAITING_EMAIL, and the mark after a claim. */
  lemma SagaColumnsChange(s: State, step: Step, g: SagaId)
    requires Enabled(s, step) && g in s.sagas && g in Apply(s, step).sagas
    ensures var saga, saga' := s.sagas[g], Apply(s, step).sagas[g];
            saga' == if step.MarkAwaiting? && s.procs[step.p].saga == g then Saga(AwaitingEmail, saga.subId, saga.email, saga.repo, s.now)
                   else if step.Complete? && s.procs[step.p].saga == g && saga.state == AwaitingEmail
                   then Saga(Completed, saga.subId, saga.email, saga.repo, s.now)
                   else if step.Claim? && s.procs[step.p].target.saga == g && (saga.state == Started || saga.state == AwaitingEmail)
                   then Saga(Compensating, saga.subId, saga.email, saga.repo, s.now)
                   else if step.MarkCompensated? && s.procs[step.p].target.saga == g
                   then Saga(Compensated, saga.subId, saga.email, saga.repo, s.now)
                   else saga
  {
    if !TouchesSagas(step) {
      SagasUntouched(s, step);
    } else if step.Claim? || step.MarkCompensated? {
      CompensationWrites(s, step, g);
    }
  }

  lemma CompensationWrites(s: State, step: Step, g: SagaId)
    requires Enabled(s, step) && g in s.sagas && (step.Claim? || step.MarkCompensated?)
    ensures g in Apply(s, step).sagas
    ensures var saga, saga' := s.sagas[g], Apply(s, step).sagas[g];
            saga' == if s.procs[step.p].target.saga != g then saga
                   else if step.MarkCompensated? then Saga(Compensated, saga.subId, saga.email, saga.repo, s.now)
                   else if saga.state == Started || saga.state == AwaitingEmail
                   then Saga(Compensating, saga.subId, saga.email, saga.repo, s.now)
                   else saga
  {
  }

  // ---------- Over runs ----------

  lemma UsedIdsGrow(s: State, step: Step)
    requires Enabled(s, step)
    ensures s.log.usedSubs <= Apply(s, step).log.usedSubs
  {
  }

  /** Ids are not given twice: a row that is gone stays gone. */
  lemma GoneStaysGone(s: State, step: Step, id: nat)
    requires Enabled(s, step) && id in s.log.usedSubs && id !in s.subs
    ensures id in Apply(s, step).log.usedSubs && id !in Apply(s, step).subs
  {
    if !TouchesRows(step) {
      RowsUntouched(s, step);
    }
  }
}
