/** The two Postgres tables and the statements the repositories run on them, each atomic. */
module Tables {
  import opened Messages

  datatype Status = PendingRow | ActiveRow

  /** prisma/schema.prisma, model Subscription; the row's id is its key in the table. */
  datatype Subscription = Subscription(
    email: string, repo: string, status: Status,
    confirmToken: string, unsubscribeToken: string, lastSeenTag: Option<string>)

  type Subscriptions = map<nat, Subscription>

  datatype SagaState = Started | AwaitingEmail | Completed | Compensating | Compensated

  /** prisma/schema.prisma, model SagaInstance. */
  datatype Saga = Saga(state: SagaState, subId: nat, email: string, repo: string, updatedAt: nat)

  type Sagas = map<SagaId, Saga>

  /** The unique index on (email, repository). */
  ghost predicate UniquePairs(subs: Subscriptions) {
    forall i, j :: i in subs && j in subs && subs[i].email == subs[j].email && subs[i].repo == subs[j].repo ==> i == j
  }

  predicate IsPair(sub: Subscription, email: string, repo: string) {
    sub.email == email && sub.repo == repo
  }

  ghost predicate ActiveExists(subs: Subscriptions, email: string, repo: string) {
    exists id :: id in subs && IsPair(subs[id], email, repo) && subs[id].status.ActiveRow?
  }

  // ---------- Subscription statements ----------

  /** upsertPending: an existing row `id` of the pair is set to PENDING, whatever it was; otherwise a
      fresh row `id` is created. Which of the two applies is decided by whether `id` is in the table. */
  function UpsertPending(subs: Subscriptions, id: nat, email: string, repo: string,
                         confirmToken: string, unsubscribeToken: string): Subscriptions
  {
    if id in subs then subs[id := subs[id].(status := PendingRow)]
    else subs[id := Subscription(email, repo, PendingRow, confirmToken, unsubscribeToken, None)]
  }

  /** `id` is the row that an upsert of the pair works on. */
  ghost predicate UpsertTarget(subs: Subscriptions, id: nat, email: string, repo: string) {
    if id in subs then IsPair(subs[id], email, repo)
    else forall j :: j in subs ==> !IsPair(subs[j], email, repo)
  }

  function Activate(subs: Subscriptions, id: nat): Subscriptions
    requires id in subs
  {
    subs[id := subs[id].(status := ActiveRow)]
  }

  function DeleteIfPending(subs: Subscriptions, id: nat): Subscriptions {
    if id in subs && subs[id].status.PendingRow? then subs - {id} else subs
  }

  /** advanceTag: every row of the pair, and whatever tag it had. */
  function AdvanceTag(subs: Subscriptions, email: string, repo: string, tag: string): Subscriptions {
    map id | id in subs ::
      if IsPair(subs[id], email, repo) then subs[id].(lastSeenTag := Some(tag)) else subs[id]
  }

  /** getOutdatedSubscribers: active rows of the repository that have not seen the tag. */
  predicate Outdated(sub: Subscription, repo: string, tag: string) {
    sub.repo == repo && sub.status.ActiveRow? && sub.lastSeenTag != Some(tag)
  }

  // ---------- Saga statements ----------

  /** transition: the compare-and-set update. */
  predicate CanTransition(sagas: Sagas, id: SagaId, from: set<SagaState>) {
    id in sagas && sagas[id].state in from
  }

  /** updateState, and transition once it applies. */
  function SetState(sagas: Sagas, id: SagaId, to: SagaState, now: nat): Sagas
    requires id in sagas
  {
    sagas[id := sagas[id].(state := to, updatedAt := now)]
  }

  const OPEN: set<SagaState> := {Started, AwaitingEmail}

  /** findStuck([STARTED, AWAITING_EMAIL], olderThan) */
  predicate Stuck(saga: Saga, olderThan: nat) {
    saga.state in OPEN && saga.updatedAt < olderThan
  }
}
