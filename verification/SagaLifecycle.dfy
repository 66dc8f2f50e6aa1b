/** The history of every saga, over all interleavings of starts, replies and sweeps. */
module SagaLifecycle {
  import opened Messages
  import opened Tables
  import opened Backend

  type History = seq<SagaState>

  /** The lifecycles the design intends, or what has happened of one so far. */
  predicate Legal(h: History) {
    || h <= [Started, AwaitingEmail, Completed]
    || h <= [Started, AwaitingEmail, Compensating, Compensated]
    || h <= [Started, Compensating, Compensated]
  }

  function Count(h: History, x: SagaState): nat {
    if h == [] then 0 else Count(h[..|h| - 1], x) + if h[|h| - 1] == x then 1 else 0
  }

  lemma CountAppend(h: History, y: SagaState, x: SagaState)
    ensures Count(h + [y], x) == Count(h, x) + if y == x then 1 else 0
  {
    assert (h + [y])[..|h|] == h;
  }

  lemma {:induction false} CountZero(h: History, x: SagaState)
    ensures Count(h, x) == 0 <==> x !in h
  {
    if h != [] {
      CountZero(h[..|h| - 1], x);
      assert h == h[..|h| - 1] + [h[|h| - 1]];
    }
  }

  // ---------- Who may still write ----------

  /** The saga a start call created and has not yet marked AWAITING_EMAIL. */
  function StartOf(pc: Pc): Option<SagaId> {
    if pc.Created? || pc.Ordered? then Some(pc.saga) else None
  }

  /** The saga whose claim a compensator won and has not yet marked COMPENSATED. */
  function ClaimOf(pc: Pc): Option<SagaId> {
    if pc.Sweeping? && !pc.phase.ToClaim? then Some(pc.target.saga) else None
  }

  /** Each claim or completion is paid for by an earlier STARTED or AWAITING_EMAIL write. */
  predicate Paid(h: History) {
    && h != [] && h[0] == Started
    && Count(h, Started) == 1 && Count(h, AwaitingEmail) <= 1
    && (|h| > 1 ==> h[1] == AwaitingEmail || h[1] == Compensating)
    && Count(h, Compensating) + Count(h, Completed) + (if h[|h| - 1] in OPEN then 1 else 0)
       <= (if |h| > 1 && h[1] == AwaitingEmail then 1 else 1 + Count(h, AwaitingEmail))
  }

  /** The history ends with the current state, and is a legal one exactly while no AWAITING_EMAIL
      write came late. */
  ghost predicate SagaKept(g: SagaId, saga: Saga, log: Log) {
    g in log.hist && g in log.tokens &&
    var h := log.hist[g];
    && Paid(h) && h[|h| - 1] == saga.state
    && (g in log.late <==> !Legal(h))
  }

  /** A start call that has not yet written AWAITING_EMAIL is the first to do so. A compensator past
      its claim did win it, and while nothing came late the saga is COMPENSATING. */
  ghost predicate WriterKept(pc: Pc, sagas: Sagas, log: Log) {
    && (StartOf(pc).Some? ==>
          var g := StartOf(pc).value;
          g in sagas && g in log.hist && g !in log.late && AwaitingEmail !in log.hist[g])
    && (ClaimOf(pc).Some? ==>
          var g := ClaimOf(pc).value;
          g in sagas && g in log.hist && Compensating in log.hist[g] && (g !in log.late ==> sagas[g].state.Compensating?))
  }

  /** No two start calls for one saga; no two compensators past its claim while nothing came late. */
  predicate Apart(a: Pc, b: Pc, late: set<SagaId>) {
    && (StartOf(a).Some? ==> StartOf(a) != StartOf(b))
    && (ClaimOf(a).Some? && ClaimOf(a).value !in late ==> ClaimOf(a) != ClaimOf(b))
  }

  ghost predicate WritersKept(procs: map<nat, Pc>, sagas: Sagas, log: Log) {
    && (forall p :: p in procs ==> WriterKept(procs[p], sagas, log))
    && (forall p, q :: p in procs && q in procs && p != q ==> Apart(procs[p], procs[q], log.late))
  }

  ghost predicate HistoriesKept(sagas: Sagas, log: Log) {
    && log.hist.Keys == sagas.Keys && log.late <= sagas.Keys
    && (forall g :: g in sagas ==> SagaKept(g, sagas[g], log))
    && (forall g :: g in log.deleting ==> g in log.hist && Compensating in log.hist[g])
  }

  ghost predicate SagasKept(s: State) {
    HistoriesKept(s.sagas, s.log) && WritersKept(s.procs, s.sagas, s.log)
  }

  // ---------- Steps that write no saga ----------

  /** `b` can write nothing that `a` could not. */
  predicate NoMore(b: Pc, a: Pc) {
    (StartOf(b).Some? ==> StartOf(b) == StartOf(a)) && (ClaimOf(b).Some? ==> ClaimOf(b) == ClaimOf(a))
  }

  predicate Idle(pc: Pc) {
    StartOf(pc).None? && ClaimOf(pc).None?
  }

  /** Only handler `p` moved, to `pc` or out. */
  predicate OnlyMoved(procs: map<nat, Pc>, procs': map<nat, Pc>, p: nat) {
    forall q :: q in procs' && q != p ==> q in procs && procs'[q] == procs[q]
  }

  lemma WritersMove(procs: map<nat, Pc>, procs': map<nat, Pc>, p: nat, sagas: Sagas, log: Log)
    requires WritersKept(procs, sagas, log) && OnlyMoved(procs, procs', p)
    requires p in procs' ==> Idle(procs'[p]) || (p in procs && NoMore(procs'[p], procs[p]))
    ensures WritersKept(procs', sagas, log)
  {
    forall x, y | x in procs' && y in procs' && x != y ensures Apart(procs'[x], procs'[y], log.late) {
      if x in procs && y in procs {
        assert Apart(procs[x], procs[y], log.late);
      }
    }
  }

  /** The parts of the log that saga statements speak of. */
  predicate SameSagaLog(a: Log, b: Log) {
    a.hist == b.hist && a.late == b.late && a.tokens == b.tokens && a.deleting == b.deleting
  }

  lemma LogMoves(sagas: Sagas, procs: map<nat, Pc>, a: Log, b: Log)
    requires HistoriesKept(sagas, a) && WritersKept(procs, sagas, a) && SameSagaLog(a, b)
    ensures HistoriesKept(sagas, b) && WritersKept(procs, sagas, b)
  {
    forall g | g in sagas ensures SagaKept(g, sagas[g], b) {
      assert SagaKept(g, sagas[g], a);
    }
    forall p | p in procs ensures WriterKept(procs[p], sagas, b) {
      assert WriterKept(procs[p], sagas, a);
    }
  }

  lemma QuietKeeps(s: State, s': State, p: nat)
    requires SagasKept(s) && s'.sagas == s.sagas && SameSagaLog(s.log, s'.log)
    requires OnlyMoved(s.procs, s'.procs, p)
    requires p in s'.procs ==> Idle(s'.procs[p]) || (p in s.procs && NoMore(s'.procs[p], s.procs[p]))
    ensures SagasKept(s')
  {
    WritersMove(s.procs, s'.procs, p, s.sagas, s.log);
    LogMoves(s.sagas, s'.procs, s.log, s'.log);
  }

  /** One more saga with a compensating delete, if its history says COMPENSATING. */
  lemma DeletingGrows(sagas: Sagas, procs: map<nat, Pc>, a: Log, b: Log, g: SagaId)
    requires HistoriesKept(sagas, a) && WritersKept(procs, sagas, a)
    requires b == a.(deleting := b.deleting) && b.deleting <= a.deleting + {g}
    requires g in a.hist && Compensating in a.hist[g]
    ensures HistoriesKept(sagas, b) && WritersKept(procs, sagas, b)
  {
    forall x | x in sagas ensures SagaKept(x, sagas[x], b) {
      assert SagaKept(x, sagas[x], a);
    }
    forall p | p in procs ensures WriterKept(procs[p], sagas, b) {
      assert WriterKept(procs[p], sagas, a);
    }
  }

  lemma DeleteKeeps(s: State, s': State, p: nat, g: SagaId)
    requires SagasKept(s) && p in s.procs && ClaimOf(s.procs[p]) == Some(g)
    requires s'.sagas == s.sagas && OnlyMoved(s.procs, s'.procs, p) && (p in s'.procs ==> NoMore(s'.procs[p], s.procs[p]))
    requires SameSagaLog(s.log, s'.log.(deleting := s.log.deleting)) && s'.log.deleting <= s.log.deleting + {g}
    ensures SagasKept(s')
  {
    assert WriterKept(s.procs[p], s.sagas, s.log);
    var log1 := s'.log.(deleting := s.log.deleting);
    WritersMove(s.procs, s'.procs, p, s.sagas, s.log);
    LogMoves(s.sagas, s'.procs, s.log, log1);
    DeletingGrows(s.sagas, s'.procs, log1, s'.log, g);
  }

  lemma DeleteStepKeeps(s: State, p: nat, ok: bool)
    requires SagasKept(s) && Enabled(s, DeletePending(p, ok))
    ensures SagasKept(Apply(s, DeletePending(p, ok)))
  {
    DeleteKeeps(s, Apply(s, DeletePending(p, ok)), p, s.procs[p].target.saga);
  }

  lemma SubscribeStepsKeep(s: State, step: Step)
    requires SagasKept(s) && Enabled(s, step) && (step.CheckActive? || step.Upsert?)
    ensures SagasKept(Apply(s, step))
  {
    QuietKeeps(s, Apply(s, step), step.p);
  }

  lemma StartStepsKeep(s: State, step: Step)
    requires SagasKept(s) && Enabled(s, step) && (step.OrderMail? || step.Abandon?)
    ensures SagasKept(Apply(s, step))
  {
    QuietKeeps(s, Apply(s, step), step.p);
  }

  /** Going on to the next stuck saga changes one handler, which then holds nothing. */
  lemma NextTargetMoves(s: State, p: nat, rest: seq<Target>)
    ensures var s' := NextTarget(s, p, rest);
            && OnlyMoved(s.procs, s'.procs, p) && (p in s'.procs ==> Idle(s'.procs[p]))
            && s'.sagas == s.sagas && s'.log == s.log && s'.subs == s.subs && s'.now == s.now
  {
  }

  lemma FindStuckKeeps(s: State, p: nat, olderThan: nat, found: seq<Target>)
    requires SagasKept(s) && Enabled(s, FindStuck(p, olderThan, found))
    ensures SagasKept(Apply(s, FindStuck(p, olderThan, found)))
  {
    NextTargetMoves(s, p, found);
    QuietKeeps(s, Apply(s, FindStuck(p, olderThan, found)), p);
  }

  lemma FindForReplyKeeps(s: State, p: nat, saga: SagaId, sent: bool)
    requires SagasKept(s) && Enabled(s, FindForReply(p, saga, sent))
    ensures SagasKept(Apply(s, FindForReply(p, saga, sent)))
  {
    var s' := Apply(s, FindForReply(p, saga, sent));
    FindForReplyMoves(s, p, saga, sent);
    WritersMove(s.procs, s'.procs, p, s.sagas, s.log);
    LogMoves(s.sagas, s'.procs, s.log, s'.log);
  }

  lemma FindForReplyMoves(s: State, p: nat, saga: SagaId, sent: bool)
    requires Enabled(s, FindForReply(p, saga, sent))
    ensures var s' := Apply(s, FindForReply(p, saga, sent));
            && OnlyMoved(s.procs, s'.procs, p) && (p in s'.procs ==> Idle(s'.procs[p]))
            && s'.sagas == s.sagas && SameSagaLog(s.log, s'.log)
  {
  }

  lemma UserStepsKeep(s: State, step: Step)
    requires SagasKept(s) && Enabled(s, step)
    requires step.FindConfirm? || step.ActivateRow? || step.FindUnsubscribe? || step.DeleteRow?
    ensures SagasKept(Apply(s, step))
  {
    QuietKeeps(s, Apply(s, step), step.p);
  }

  lemma ReaderStepsKeep(s: State, step: Step)
    requires SagasKept(s) && Enabled(s, step) && (step.ReadOutdated? || step.NotifyOne?)
    ensures SagasKept(Apply(s, step))
  {
    QuietKeeps(s, Apply(s, step), step.p);
  }

  lemma ClockStepsKeep(s: State, step: Step)
    requires SagasKept(s) && Enabled(s, step) && (step.Tick? || step.Advance?)
    ensures SagasKept(Apply(s, step))
  {
    QuietKeeps(s, Apply(s, step), 0);
  }

  // ---------- Steps that write a saga ----------

  lemma AppendCounts(h: History, to: SagaState)
    ensures forall x :: Count(h + [to], x) == Count(h, x) + if to == x then 1 else 0
  {
    forall x ensures Count(h + [to], x) == Count(h, x) + if to == x then 1 else 0 {
      CountAppend(h, to, x);
    }
  }

  /** The legal histories, one by one. */
  lemma LegalCases(h: History)
    requires Legal(h) && h != [] && h[0] == Started
    ensures h == [Started] || h == [Started, AwaitingEmail] || h == [Started, AwaitingEmail, Completed]
            || h == [Started, Compensating] || h == [Started, Compensating, Compensated]
            || h == [Started, AwaitingEmail, Compensating] || h == [Started, AwaitingEmail, Compensating, Compensated]
  {
  }

  /** Taking a saga out of an open state: a claim or a completion. */
  lemma CloseHistory(h: History, to: SagaState)
    requires Paid(h) && h[|h| - 1] in OPEN
    requires to == Compensating || (to == Completed && h[|h| - 1] == AwaitingEmail)
    ensures Paid(h + [to]) && (Legal(h + [to]) <==> Legal(h))
  {
    AppendCounts(h, to);
    assert h <= h + [to];
    if Legal(h) {
      LegalCases(h);
    }
  }

  lemma CompensatedHistory(h: History)
    requires Paid(h) && Compensating in h && (Legal(h) ==> h[|h| - 1] == Compensating)
    ensures Paid(h + [Compensated]) && (Legal(h + [Compensated]) <==> Legal(h))
  {
    AppendCounts(h, Compensated);
    assert h <= h + [Compensated];
    if Legal(h) {
      LegalCases(h);
    }
  }

  lemma AwaitingHistory(h: History)
    requires Paid(h) && Legal(h) && AwaitingEmail !in h
    ensures Paid(h + [AwaitingEmail]) && (Legal(h + [AwaitingEmail]) <==> h[|h| - 1] == Started)
  {
    LegalCases(h);
    AppendCounts(h, AwaitingEmail);
    CountZero(h, AwaitingEmail);
    CountZero(h, Completed);
    var h' := h + [AwaitingEmail];
    if h[|h| - 1] != Started {
      assert h'[1] == Compensating && h'[|h| - 1 + 1] == AwaitingEmail;
    }
  }

  /** The history of `g` after a write; the other sagas are untouched. */
  lemma HistoriesWrite(sagas: Sagas, sagas': Sagas, log: Log, log': Log, g: SagaId, to: SagaState, now: nat)
    requires HistoriesKept(sagas, log) && g in sagas && sagas' == SetState(sagas, g, to, now)
    requires log'.hist == log.hist[g := log.hist[g] + [to]] && log'.tokens == log.tokens && log'.deleting == log.deleting
    requires log.late <= log'.late <= log.late + {g}
    requires Paid(log'.hist[g]) && (g in log'.late <==> !Legal(log'.hist[g]))
    ensures HistoriesKept(sagas', log')
  {
    forall x | x in sagas' ensures SagaKept(x, sagas'[x], log') {
      assert SagaKept(x, sagas[x], log);
      if x != g {
        OtherSagaKept(x, sagas[x], log, log', g);
      } else {
        WrittenSagaKept(g, sagas[g], log, log', to, now);
      }
    }
    forall x | x in log'.deleting ensures x in log'.hist && Compensating in log'.hist[x] {
      assert x in log.hist && Compensating in log.hist[x];
    }
  }

  lemma WrittenSagaKept(g: SagaId, saga: Saga, log: Log, log': Log, to: SagaState, now: nat)
    requires SagaKept(g, saga, log) && g in log'.hist && log'.hist[g] == log.hist[g] + [to] && log'.tokens == log.tokens
    requires Paid(log'.hist[g]) && (g in log'.late <==> !Legal(log'.hist[g]))
    ensures SagaKept(g, saga.(state := to, updatedAt := now), log')
  {
    assert log'.hist[g][|log'.hist[g]| - 1] == to;
  }

  lemma OtherSagaKept(x: SagaId, saga: Saga, log: Log, log': Log, g: SagaId)
    requires SagaKept(x, saga, log) && x != g && x in log'.hist && log'.hist[x] == log.hist[x]
    requires log'.tokens == log.tokens && log.late <= log'.late <= log.late + {g}
    ensures SagaKept(x, saga, log')
  {
  }

  /** A handler that does not speak of `g`, or for which the write to `g` changes nothing it relies on. */
  lemma WriterWrite(pc: Pc, sagas: Sagas, sagas': Sagas, log: Log, log': Log, g: SagaId, to: SagaState, now: nat)
    requires WriterKept(pc, sagas, log) && g in sagas && g in log.hist && sagas' == SetState(sagas, g, to, now)
    requires log'.hist == log.hist[g := log.hist[g] + [to]] && log.late <= log'.late <= log.late + {g}
    requires to == AwaitingEmail ==> StartOf(pc) != Some(g)
    requires g in log'.late && g !in log.late ==> StartOf(pc) != Some(g)
    requires g !in log'.late && to != Compensating ==> ClaimOf(pc) != Some(g)
    ensures WriterKept(pc, sagas', log')
  {
  }

  lemma CompleteKeeps(s: State, p: nat)
    requires SagasKept(s) && Enabled(s, Complete(p))
    ensures SagasKept(Apply(s, Complete(p)))
  {
    var g := s.procs[p].saga;
    var s' := Apply(s, Complete(p));
    if CanTransition(s.sagas, g, {AwaitingEmail}) {
      assert SagaKept(g, s.sagas[g], s.log);
      CloseHistory(s.log.hist[g], Completed);
      forall q | q in s.procs && g !in s.log.late ensures ClaimOf(s.procs[q]) != Some(g) {
        assert WriterKept(s.procs[q], s.sagas, s.log);
      }
      LastWriteKeeps(s, s', p, g, Completed);
    } else {
      QuietKeeps(s, s', p);
    }
  }

  lemma ClaimKeeps(s: State, p: nat)
    requires SagasKept(s) && Enabled(s, Claim(p))
    ensures SagasKept(Apply(s, Claim(p)))
  {
    var g := s.procs[p].target.saga;
    var s' := Apply(s, Claim(p));
    if CanTransition(s.sagas, g, OPEN) {
      WonClaimKeeps(s, s', p);
    } else {
      QuietKeeps(s, s', p);
    }
  }

  lemma WonClaimKeeps(s: State, s': State, p: nat)
    requires SagasKept(s) && p in s.procs && s.procs[p].Sweeping? && s.procs[p].phase.ToClaim?
    requires CanTransition(s.sagas, s.procs[p].target.saga, OPEN)
    requires var g := s.procs[p].target.saga;
             && s'.sagas == SetState(s.sagas, g, Compensating, s.now)
             && g in s.log.hist && s'.log.hist == s.log.hist[g := s.log.hist[g] + [Compensating]]
             && s'.log.late == s.log.late && s'.log.tokens == s.log.tokens && s'.log.deleting == s.log.deleting
             && s'.procs == s.procs[p := s.procs[p].(phase := ToDelete)]
    ensures SagasKept(s')
  {
    var g := s.procs[p].target.saga;
    assert SagaKept(g, s.sagas[g], s.log);
    CloseHistory(s.log.hist[g], Compensating);
    HistoriesWrite(s.sagas, s'.sagas, s.log, s'.log, g, Compensating, s.now);
    ClaimWriters(s.procs, s'.procs, p, s.sagas, s'.sagas, s.log, s'.log, g, s.now);
  }

  /** An open saga that was never overwritten has no other compensator past its claim. */
  lemma ClaimWriters(procs: map<nat, Pc>, procs': map<nat, Pc>, p: nat, sagas: Sagas, sagas': Sagas,
                     log: Log, log': Log, g: SagaId, now: nat)
    requires WritersKept(procs, sagas, log) && p in procs && procs[p].Sweeping? && procs[p].target.saga == g
    requires procs' == procs[p := procs[p].(phase := ToDelete)]
    requires g in sagas && sagas[g].state in OPEN && g in log.hist && sagas' == SetState(sagas, g, Compensating, now)
    requires log'.hist == log.hist[g := log.hist[g] + [Compensating]] && log'.late == log.late
    requires g !in log'.late ==> sagas'[g].state.Compensating?
    ensures WritersKept(procs', sagas', log')
  {
    forall q | q in procs' ensures WriterKept(procs'[q], sagas', log') {
      if q != p {
        assert WriterKept(procs[q], sagas, log);
        WriterWrite(procs[q], sagas, sagas', log, log', g, Compensating, now);
      } else {
        assert log'.hist[g][|log.hist[g]|] == Compensating;
      }
    }
    forall x, y | x in procs' && y in procs' && x != y ensures Apart(procs'[x], procs'[y], log'.late) {
      assert Apart(procs[x], procs[y], log.late);
      assert WriterKept(procs[x], sagas, log) && WriterKept(procs[y], sagas, log);
    }
  }

  /** A write to `g` that is not the AWAITING_EMAIL one, by a handler that then holds nothing. */
  lemma LastWriteKeeps(s: State, s': State, p: nat, g: SagaId, to: SagaState)
    requires SagasKept(s) && p in s.procs && g in s.sagas && g in s.log.hist
    requires s'.sagas == SetState(s.sagas, g, to, s.now) && s'.log.hist == s.log.hist[g := s.log.hist[g] + [to]]
    requires s'.log.late == s.log.late && s'.log.tokens == s.log.tokens && s'.log.deleting == s.log.deleting
    requires OnlyMoved(s.procs, s'.procs, p) && (p in s'.procs ==> Idle(s'.procs[p]))
    requires to != AwaitingEmail && Paid(s'.log.hist[g]) && (g in s'.log.late <==> !Legal(s'.log.hist[g]))
    requires g !in s.log.late ==> forall q :: q in s'.procs && q != p ==> ClaimOf(s.procs[q]) != Some(g)
    ensures SagasKept(s')
  {
    HistoriesWrite(s.sagas, s'.sagas, s.log, s'.log, g, to, s.now);
    WritersMove(s.procs, s'.procs, p, s.sagas, s.log);
    forall q | q in s'.procs ensures WriterKept(s'.procs[q], s'.sagas, s'.log) {
      if q != p {
        assert WriterKept(s.procs[q], s.sagas, s.log);
        WriterWrite(s.procs[q], s.sagas, s'.sagas, s.log, s'.log, g, to, s.now);
      }
    }
  }

  lemma MarkCompensatedKeeps(s: State, p: nat)
    requires SagasKept(s) && Enabled(s, MarkCompensated(p))
    ensures SagasKept(Apply(s, MarkCompensated(p)))
  {
    var g := s.procs[p].target.saga;
    assert SagaKept(g, s.sagas[g], s.log) && WriterKept(s.procs[p], s.sagas, s.log);
    CompensatedHistory(s.log.hist[g]);
    NextTargetMoves(Write(s, g, Compensated), p, s.procs[p].rest);
    forall q | q in s.procs && q != p && g !in s.log.late ensures ClaimOf(s.procs[q]) != Some(g) {
      assert Apart(s.procs[p], s.procs[q], s.log.late);
    }
    LastWriteKeeps(s, Apply(s, MarkCompensated(p)), p, g, Compensated);
  }

  lemma MarkAwaitingKeeps(s: State, p: nat)
    requires SagasKept(s) && Enabled(s, MarkAwaiting(p))
    ensures SagasKept(Apply(s, MarkAwaiting(p)))
  {
    AwaitingKeeps(s, Apply(s, MarkAwaiting(p)), p, s.procs[p].saga);
  }

  lemma AwaitingKeeps(s: State, s': State, p: nat, g: SagaId)
    requires SagasKept(s) && p in s.procs && s.procs[p] == Ordered(g) && g in s.sagas && g in s.log.hist
    requires s'.sagas == SetState(s.sagas, g, AwaitingEmail, s.now) && s'.procs == s.procs - {p}
    requires s'.log.hist == s.log.hist[g := s.log.hist[g] + [AwaitingEmail]]
    requires s'.log.tokens == s.log.tokens && s'.log.deleting == s.log.deleting
    requires s'.log.late == s.log.late + if s.sagas[g].state.Started? then {} else {g}
    ensures SagasKept(s')
  {
    assert SagaKept(g, s.sagas[g], s.log) && WriterKept(s.procs[p], s.sagas, s.log);
    AwaitingHistory(s.log.hist[g]);
    HistoriesWrite(s.sagas, s'.sagas, s.log, s'.log, g, AwaitingEmail, s.now);
    AwaitingWriters(s.procs, s'.procs, p, s.sagas, s'.sagas, s.log, s'.log, g, s.now);
  }

  /** The start call that created `g` is the only one to speak of it. */
  lemma AwaitingWriters(procs: map<nat, Pc>, procs': map<nat, Pc>, p: nat, sagas: Sagas, sagas': Sagas,
                        log: Log, log': Log, g: SagaId, now: nat)
    requires WritersKept(procs, sagas, log) && p in procs && StartOf(procs[p]) == Some(g) && procs' == procs - {p}
    requires g in sagas && g in log.hist && sagas' == SetState(sagas, g, AwaitingEmail, now)
    requires log'.hist == log.hist[g := log.hist[g] + [AwaitingEmail]] && log.late <= log'.late <= log.late + {g}
    requires g !in log'.late ==> forall q :: q in procs ==> ClaimOf(procs[q]) != Some(g)
    ensures WritersKept(procs', sagas', log')
  {
    WritersMove(procs, procs', p, sagas, log);
    forall q | q in procs' ensures WriterKept(procs'[q], sagas', log') {
      assert WriterKept(procs[q], sagas, log) && Apart(procs[p], procs[q], log.late);
      WriterWrite(procs[q], sagas, sagas', log, log', g, AwaitingEmail, now);
    }
  }

  lemma CreateKeeps(s: State, p: nat, g: SagaId)
    requires SagasKept(s) && Enabled(s, CreateSaga(p, g))
    ensures SagasKept(Apply(s, CreateSaga(p, g)))
  {
    var s' := Apply(s, CreateSaga(p, g));
    NewHistory();
    forall x | x in s'.sagas ensures SagaKept(x, s'.sagas[x], s'.log) {
      assert x != g ==> SagaKept(x, s.sagas[x], s.log);
    }
    CreateWriters(s.procs, s'.procs, p, s.sagas, s'.sagas, s.log, s'.log, g);
  }

  /** A new saga is nobody's but its creator's. */
  lemma CreateWriters(procs: map<nat, Pc>, procs': map<nat, Pc>, p: nat, sagas: Sagas, sagas': Sagas,
                      log: Log, log': Log, g: SagaId)
    requires WritersKept(procs, sagas, log) && p in procs && p in procs' && procs' == procs[p := procs'[p]]
    requires StartOf(procs'[p]) == Some(g) && ClaimOf(procs'[p]).None?
    requires g !in sagas && g !in log.late && g in sagas' && sagas' == sagas[g := sagas'[g]]
    requires log'.hist == log.hist[g := [Started]] && log'.late == log.late
    ensures WritersKept(procs', sagas', log')
  {
    forall q | q in procs' ensures WriterKept(procs'[q], sagas', log') {
      assert q != p ==> WriterKept(procs[q], sagas, log);
    }
    forall x, y | x in procs' && y in procs' && x != y ensures Apart(procs'[x], procs'[y], log'.late) {
      assert Apart(procs[x], procs[y], log.late);
      assert WriterKept(procs[x], sagas, log) && WriterKept(procs[y], sagas, log);
    }
  }

  lemma NewHistory()
    ensures Paid([Started]) && Legal([Started])
  {
    assert [] + [Started] == [Started];
    AppendCounts([], Started);
  }

  lemma SagaWriteKeeps(s: State, step: Step)
    requires SagasKept(s) && Enabled(s, step)
    requires step.CreateSaga? || step.MarkAwaiting? || step.Complete? || step.Claim? || step.DeletePending? || step.MarkCompensated?
    ensures SagasKept(Apply(s, step))
  {
    match step
    case CreateSaga(p, g) => CreateKeeps(s, p, g);
    case MarkAwaiting(p) => MarkAwaitingKeeps(s, p);
    case Complete(p) => CompleteKeeps(s, p);
    case Claim(p) => ClaimKeeps(s, p);
    case DeletePending(p, ok) => DeleteStepKeeps(s, p, ok);
    case MarkCompensated(p) => MarkCompensatedKeeps(s, p);
  }

  lemma SagaStep(s: State, step: Step)
    requires SagasKept(s) && Enabled(s, step)
    ensures SagasKept(Apply(s, step))
  {
    match step
    case FindForReply(p, saga, sent) => FindForReplyKeeps(s, p, saga, sent);
    case FindStuck(p, olderThan, found) => FindStuckKeeps(s, p, olderThan, found);
    case FindConfirm(_, _) | ActivateRow(_) | FindUnsubscribe(_, _) | DeleteRow(_) => UserStepsKeep(s, step);
    case Tick | Advance(_, _, _) => ClockStepsKeep(s, step);
    case ReadOutdated(_, _, _) | NotifyOne(_, _) => ReaderStepsKeep(s, step);
    case CheckActive(_, _, _) | Upsert(_, _, _, _) => SubscribeStepsKeep(s, step);
    case OrderMail(_) | Abandon(_) => StartStepsKeep(s, step);
    case _ => SagaWriteKeeps(s, step);
  }

  lemma {:induction false} SagasAlongRuns(s: State, steps: seq<Step>)
    requires SagasKept(s) && CanRun(s, steps)
    ensures SagasKept(Exec(s, steps))
    decreases |steps|
  {
    if steps != [] {
      SagaStep(s, steps[0]);
      SagasAlongRuns(Apply(s, steps[0]), steps[1..]);
    }
  }
}
