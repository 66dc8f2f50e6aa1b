/** The subscription side as a step machine: subscribe calls, saga replies, timeout sweeps,
    confirmations, unsubscriptions, tag advances and scans, interleaved at their awaits over the two
    tables. Any number of each may be under way. */
module Backend {
  import opened Messages
  import opened Tables

  /** One stuck saga as findStuck returned it. */
  datatype Target = Target(saga: SagaId, subId: nat)

  datatype Reader = Reader(email: string, unsubscribeToken: string)

  datatype Phase = ToClaim | ToDelete | ToMark

  datatype Pc =
    // subscribeToRepo and SubscribeSaga.start
    | Checked(email: string, repo: string, checkedAt: nat)   // no ACTIVE row at step `checkedAt`
    | Upserted(subId: nat, email: string, repo: string, confirmToken: string)
    | Created(saga: SagaId, email: string, repo: string, confirmToken: string)
    | Ordered(saga: SagaId)                                  // confirmation mail ordered
    // onReply and compensateStuck
    | Completing(saga: SagaId)
    | Sweeping(phase: Phase, target: Target, rest: seq<Target>)
    // confirmSubscription and unsubscribeFromRepo, after their lookups
    | Confirming(subId: nat)
    | Unsubscribing(subId: nat)
    // processRepo, after getOutdatedSubscribers
    | Notifying(repo: string, tag: string, todo: set<Reader>)

  /** History kept for the statements: no step of the source reads it, except that fresh ids are fresh. */
  datatype Log = Log(
    stepNo: nat,                        // steps taken
    usedSubs: set<nat>,                 // ids ever given to rows
    activatedAt: map<nat, nat>,         // step of each row's latest activation
    tokens: map<SagaId, string>,        // the confirm token each saga started with
    hist: map<SagaId, seq<SagaState>>,  // every state written to each saga, in order
    late: set<SagaId>,                  // sagas whose AWAITING_EMAIL write found a state other than STARTED
    deleting: set<SagaId>)              // sagas that ran a compensating delete

  datatype State = State(now: nat, subs: Subscriptions, sagas: Sagas, procs: map<nat, Pc>, log: Log)

  function Init(): State {
    State(0, map[], map[], map[], Log(0, {}, map[], map[], map[], {}, {}))
  }

  datatype Step =
    | Tick
    | CheckActive(p: nat, email: string, repo: string)
    | Upsert(p: nat, id: nat, confirmToken: string, unsubscribeToken: string)
    | CreateSaga(p: nat, saga: SagaId)
    | OrderMail(p: nat)
    | MarkAwaiting(p: nat)
    | Abandon(p: nat)
    | FindForReply(p: nat, saga: SagaId, sent: bool)
    | Complete(p: nat)
    | FindStuck(p: nat, olderThan: nat, found: seq<Target>)
    | Claim(p: nat)
    | DeletePending(p: nat, ok: bool)
    | MarkCompensated(p: nat)
    | FindConfirm(p: nat, subId: nat)
    | ActivateRow(p: nat)
    | FindUnsubscribe(p: nat, subId: nat)
    | DeleteRow(p: nat)
    | Advance(email: string, repo: string, tag: string)
    | ReadOutdated(p: nat, repo: string, tag: string)
    | NotifyOne(p: nat, sub: Reader)

  /** findStuck's result: exactly the stuck sagas, in any order, each once. */
  ghost predicate StuckList(sagas: Sagas, olderThan: nat, found: seq<Target>) {
    && (forall i :: 0 <= i < |found| ==>
          found[i].saga in sagas && Stuck(sagas[found[i].saga], olderThan) && found[i].subId == sagas[found[i].saga].subId)
    && (forall g :: g in sagas && Stuck(sagas[g], olderThan) ==> Target(g, sagas[g].subId) in found)
    && (forall i, j :: 0 <= i < j < |found| ==> found[i].saga != found[j].saga)
  }

  ghost predicate Enabled(s: State, step: Step) {
    match step
    case Tick => true
    case CheckActive(p, email, repo) => p !in s.procs && !ActiveExists(s.subs, email, repo)
    case Upsert(p, id, _, _) =>
      && p in s.procs && s.procs[p].Checked?
      && UpsertTarget(s.subs, id, s.procs[p].email, s.procs[p].repo)
      && (id !in s.subs ==> id !in s.log.usedSubs)
    case CreateSaga(p, saga) => p in s.procs && s.procs[p].Upserted? && saga !in s.sagas
    case OrderMail(p) => p in s.procs && s.procs[p].Created?
    case MarkAwaiting(p) => p in s.procs && s.procs[p].Ordered? && s.procs[p].saga in s.sagas
    case Abandon(p) => p in s.procs
    case FindForReply(p, _, _) => p !in s.procs
    case Complete(p) => p in s.procs && s.procs[p].Completing?
    case FindStuck(p, olderThan, found) => p !in s.procs && olderThan <= s.now && StuckList(s.sagas, olderThan, found)
    case Claim(p) => p in s.procs && s.procs[p].Sweeping? && s.procs[p].phase.ToClaim?
    case DeletePending(p, _) => p in s.procs && s.procs[p].Sweeping? && s.procs[p].phase.ToDelete?
    case MarkCompensated(p) => p in s.procs && s.procs[p].Sweeping? && s.procs[p].phase.ToMark? && s.procs[p].target.saga in s.sagas
    case FindConfirm(p, id) => p !in s.procs && id in s.subs && s.subs[id].status.PendingRow?
    case ActivateRow(p) => p in s.procs && s.procs[p].Confirming? && s.procs[p].subId in s.subs
    case FindUnsubscribe(p, id) => p !in s.procs && id in s.subs
    case DeleteRow(p) => p in s.procs && s.procs[p].Unsubscribing? && s.procs[p].subId in s.subs
    case Advance(_, _, _) => true
    case ReadOutdated(p, _, _) => p !in s.procs
    case NotifyOne(p, sub) => p in s.procs && s.procs[p].Notifying? && sub in s.procs[p].todo
  }

  function Goto(s: State, p: nat, pc: Pc): State {
    s.(procs := s.procs[p := pc])
  }

  function Leave(s: State, p: nat): State {
    s.(procs := s.procs - {p})
  }

  /** Write a saga's state, and record it. */
  function Write(s: State, saga: SagaId, to: SagaState): State
    requires saga in s.sagas
  {
    s.(sagas := SetState(s.sagas, saga, to, s.now),
       log := s.log.(hist := s.log.hist[saga := (if saga in s.log.hist then s.log.hist[saga] else []) + [to]]))
  }

  /** On to the next stuck saga, or done. */
  function NextTarget(s: State, p: nat, rest: seq<Target>): State {
    if rest == [] then Leave(s, p) else Goto(s, p, Sweeping(ToClaim, rest[0], rest[1..]))
  }

  /** The effect of a step, before the step counter advances. */
  ghost function Effect(s: State, step: Step): State
    requires Enabled(s, step)
  {
    match step
    case Tick => s.(now := s.now + 1)
    case CheckActive(p, email, repo) => Goto(s, p, Checked(email, repo, s.log.stepNo))
    case Upsert(p, id, ct, ut) => ApplyUpsert(s, p, id, ct, ut)
    case CreateSaga(p, saga) => ApplyCreate(s, p, saga)
    case OrderMail(p) => Goto(s, p, Ordered(s.procs[p].saga))
    case MarkAwaiting(p) => ApplyMarkAwaiting(s, p)
    case Abandon(p) => Leave(s, p)
    case FindForReply(p, saga, sent) => ApplyFindForReply(s, p, saga, sent)
    case Complete(p) =>
      var g := s.procs[p].saga;
      Leave(if CanTransition(s.sagas, g, {AwaitingEmail}) then Write(s, g, Completed) else s, p)
    case FindStuck(p, _, found) => NextTarget(s, p, found)
    case Claim(p) => ApplyClaim(s, p)
    case DeletePending(p, ok) => ApplyDeletePending(s, p, ok)
    case MarkCompensated(p) => NextTarget(Write(s, s.procs[p].target.saga, Compensated), p, s.procs[p].rest)
    case FindConfirm(p, id) => Goto(s, p, Confirming(id))
    case ActivateRow(p) =>
      var id := s.procs[p].subId;
      Leave(s, p).(subs := Activate(s.subs, id), log := s.log.(activatedAt := s.log.activatedAt[id := s.log.stepNo]))
    case FindUnsubscribe(p, id) => Goto(s, p, Unsubscribing(id))
    case DeleteRow(p) => Leave(s, p).(subs := s.subs - {s.procs[p].subId})
    case Advance(email, repo, tag) => s.(subs := AdvanceTag(s.subs, email, repo, tag))
    case ReadOutdated(p, repo, tag) => Goto(s, p, Notifying(repo, tag, OutdatedRows(s.subs, repo, tag)))
    case NotifyOne(p, sub) => Goto(s, p, s.procs[p].(todo := s.procs[p].todo - {sub}))
  }

  function OutdatedRows(subs: Subscriptions, repo: string, tag: string): set<Reader> {
    set id | id in subs && Outdated(subs[id], repo, tag) :: Reader(subs[id].email, subs[id].unsubscribeToken)
  }

  function ApplyUpsert(s: State, p: nat, id: nat, ct: string, ut: string): State
    requires p in s.procs && s.procs[p].Checked?
  {
    var email, repo := s.procs[p].email, s.procs[p].repo;
    var subs := UpsertPending(s.subs, id, email, repo, ct, ut);
    Goto(s, p, Upserted(id, email, repo, subs[id].confirmToken)).(subs := subs, log := s.log.(usedSubs := s.log.usedSubs + {id}))
  }

  function ApplyCreate(s: State, p: nat, saga: SagaId): State
    requires p in s.procs && s.procs[p].Upserted?
  {
    var pc := s.procs[p];
    var s1 := s.(sagas := s.sagas[saga := Saga(Started, pc.subId, pc.email, pc.repo, s.now)],
                 log := s.log.(hist := s.log.hist[saga := [Started]], tokens := s.log.tokens[saga := pc.confirmToken]));
    Goto(s1, p, Created(saga, pc.email, pc.repo, pc.confirmToken))
  }

  /** start's last write, which does not look at the current state. */
  function ApplyMarkAwaiting(s: State, p: nat): State
    requires p in s.procs && s.procs[p].Ordered? && s.procs[p].saga in s.sagas
  {
    var g := s.procs[p].saga;
    var s1 := Leave(Write(s, g, AwaitingEmail), p);
    if s.sagas[g].state.Started? then s1 else s1.(log := s1.log.(late := s.log.late + {g}))
  }

  /** onReply up to its branch: only a saga in AWAITING_EMAIL is pursued. */
  function ApplyFindForReply(s: State, p: nat, saga: SagaId, sent: bool): State {
    if saga !in s.sagas || !s.sagas[saga].state.AwaitingEmail? then s
    else if sent then Goto(s, p, Completing(saga))
    else Goto(s, p, Sweeping(ToClaim, Target(saga, s.sagas[saga].subId), []))
  }

  /** compensate's claim: lost claims are skipped. */
  function ApplyClaim(s: State, p: nat): State
    requires p in s.procs && s.procs[p].Sweeping?
  {
    var pc := s.procs[p];
    if CanTransition(s.sagas, pc.target.saga, OPEN) then
      Goto(Write(s, pc.target.saga, Compensating), p, pc.(phase := ToDelete))
    else
      NextTarget(s, p, pc.rest)
  }

  /** removePendingSubscription: errors are logged and the compensation goes on. */
  function ApplyDeletePending(s: State, p: nat, ok: bool): State
    requires p in s.procs && s.procs[p].Sweeping?
  {
    var pc := s.procs[p];
    var s1 := if ok then s.(subs := DeleteIfPending(s.subs, pc.target.subId),
                            log := s.log.(deleting := s.log.deleting + {pc.target.saga}))
              else s;
    Goto(s1, p, pc.(phase := ToMark))
  }

  ghost function Apply(s: State, step: Step): State
    requires Enabled(s, step)
  {
    var s1 := Effect(s, step);
    s1.(log := s1.log.(stepNo := s.log.stepNo + 1))
  }

  // ---------- Runs ----------

  ghost predicate CanRun(s: State, steps: seq<Step>)
    decreases |steps|
  {
    steps == [] || (Enabled(s, steps[0]) && CanRun(Apply(s, steps[0]), steps[1..]))
  }

  ghost function Exec(s: State, steps: seq<Step>): State
    requires CanRun(s, steps)
    decreases |steps|
  {
    if steps == [] then s else Exec(Apply(s, steps[0]), steps[1..])
  }
}
