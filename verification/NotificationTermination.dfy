/** Without crashes and new work, every run of the notification service comes to an end with the
    main and the retry queue empty, and no message is taken up more than MAX_RETRIES + 1 times. */
module NotificationTermination {
  import opened Messages
  import opened Notification
  import opened NotificationSafety
  import opened NotificationContent

  // ---------- Sums over finite maps ----------

  ghost function Total(w: map<nat, nat>): nat
    decreases |w|
  {
    if w == map[] then 0
    else var k :| k in w; w[k] + Total(w - {k})
  }

  lemma {:induction false} TotalRemove(w: map<nat, nat>, k: nat)
    requires k in w
    ensures Total(w) == w[k] + Total(w - {k})
    decreases |w|
  {
    var j :| j in w && Total(w) == w[j] + Total(w - {j});
    if j != k {
      assert (w - {j}) - {k} == (w - {k}) - {j};
      TotalRemove(w - {j}, k);
      TotalRemove(w - {k}, j);
    }
  }

  lemma TotalInsert(w: map<nat, nat>, k: nat, v: nat)
    requires k !in w
    ensures Total(w[k := v]) == v + Total(w)
  {
    TotalRemove(w[k := v], k);
    assert w[k := v] - {k} == w;
  }

  lemma TotalUpdate(w: map<nat, nat>, k: nat, v: nat)
    requires k in w
    ensures Total(w[k := v]) == Total(w) - w[k] + v
  {
    TotalRemove(w, k);
    TotalRemove(w[k := v], k);
    assert w[k := v] - {k} == w - {k};
  }

  // ---------- The rank of a state ----------

  /** Attempts left dominate; within an attempt the place counts. */
  function LetterWeight(letter: Letter, place: nat): nat {
    (if letter.retries < MAX_RETRIES then (MAX_RETRIES - letter.retries) * 12 else 0) + place
  }

  function PcWeight(pc: Pc): nat {
    var place :=
      match pc
      case Received(_) => 8
      case Checking(_) => 7
      case Claimed(_, _) => 7
      case SendDone(_, _) => 5
      case SendFailed(_, _) => 4
      case Announcing(_, left) => 1 + left
      case Reporting(_, _) => 1;
    if InFlight(pc) then LetterWeight(LetterOf(pc.job), place) else place
  }

  ghost function LetterWeights(letters: map<nat, Letter>, place: nat): map<nat, nat> {
    map id | id in letters :: LetterWeight(letters[id], place)
  }

  ghost function PcWeights(procs: map<nat, Pc>): map<nat, nat> {
    map p | p in procs :: PcWeight(procs[p])
  }

  ghost function Rank(s: State): nat {
    Total(LetterWeights(s.broker.main, 10)) + Total(LetterWeights(s.broker.retry, 11)) + Total(PcWeights(s.procs))
  }

  /** A step of a handler or of the retry queue's TTL. */
  predicate IsWork(step: Step) {
    !step.Tick? && !step.Publish? && !step.Call? && !step.Crash?
  }

  lemma LettersAdd(letters: map<nat, Letter>, id: nat, letter: Letter, place: nat)
    requires id !in letters
    ensures Total(LetterWeights(letters[id := letter], place)) == Total(LetterWeights(letters, place)) + LetterWeight(letter, place)
  {
    assert LetterWeights(letters[id := letter], place) == LetterWeights(letters, place)[id := LetterWeight(letter, place)];
    TotalInsert(LetterWeights(letters, place), id, LetterWeight(letter, place));
  }

  lemma LettersDrop(letters: map<nat, Letter>, id: nat, place: nat)
    requires id in letters
    ensures Total(LetterWeights(letters, place)) == Total(LetterWeights(letters - {id}, place)) + LetterWeight(letters[id], place)
  {
    assert LetterWeights(letters - {id}, place) == LetterWeights(letters, place) - {id};
    TotalRemove(LetterWeights(letters, place), id);
  }

  lemma PcsAdd(procs: map<nat, Pc>, p: nat, pc: Pc)
    requires p !in procs
    ensures Total(PcWeights(procs[p := pc])) == Total(PcWeights(procs)) + PcWeight(pc)
  {
    assert PcWeights(procs[p := pc]) == PcWeights(procs)[p := PcWeight(pc)];
    TotalInsert(PcWeights(procs), p, PcWeight(pc));
  }

  lemma PcsSet(procs: map<nat, Pc>, p: nat, pc: Pc)
    requires p in procs
    ensures Total(PcWeights(procs[p := pc])) == Total(PcWeights(procs)) - PcWeight(procs[p]) + PcWeight(pc)
  {
    assert PcWeights(procs[p := pc]) == PcWeights(procs)[p := PcWeight(pc)];
    TotalUpdate(PcWeights(procs), p, PcWeight(pc));
  }

  lemma PcsDrop(procs: map<nat, Pc>, p: nat)
    requires p in procs
    ensures Total(PcWeights(procs)) == Total(PcWeights(procs - {p})) + PcWeight(procs[p])
  {
    assert PcWeights(procs - {p}) == PcWeights(procs) - {p};
    TotalRemove(PcWeights(procs), p);
  }

  // ---------- Every working step lowers the rank ----------

  lemma GotoLowers(s: State, s': State, p: nat, pc: Pc)
    requires p in s.procs && s'.procs == s.procs[p := pc] && s'.broker == s.broker && PcWeight(pc) < PcWeight(s.procs[p])
    ensures Rank(s') < Rank(s)
  {
    PcsSet(s.procs, p, pc);
  }

  lemma RetryWeight(b: Broker, job: Job)
    requires job.origin.FromQueue? && job.origin.id !in b.retry
    ensures Total(LetterWeights(HandleRetry(b, job).retry, 11)) <= Total(LetterWeights(b.retry, 11)) + LetterWeight(LetterOf(job), 0)
    ensures HandleRetry(b, job).main == b.main
  {
    if !DeadLetters(job) {
      LettersAdd(b.retry, job.origin.id, Letter(Valid(job.m), job.origin.retries + 1), 11);
    }
  }

  /** handleRetry on a message that is in no retry queue. */
  lemma RetryLowers(s: State, s': State, p: nat)
    requires p in s.procs && InFlight(s.procs[p]) && s.procs[p].job.origin.id !in s.broker.retry
    requires s'.procs == s.procs - {p} && s'.broker == HandleRetry(s.broker, s.procs[p].job)
    ensures Rank(s') < Rank(s)
  {
    PcsDrop(s.procs, p);
    RetryWeight(s.broker, s.procs[p].job);
  }

  lemma GiveUpLowers(s: State, s1: State, p: nat, code: Code)
    requires Conserved(s) && p in s.procs && !s.procs[p].Reporting?
    requires s1.procs == s.procs && s1.broker == s.broker
    ensures Rank(GiveUp(s1, p, s.procs[p].job, code)) < Rank(s)
  {
    if s.procs[p].job.origin.FromQueue? {
      var id := s.procs[p].job.origin.id;
      assert At(s, id, Handler(p));
      assert id in s.broker.retry ==> At(s, id, RetryQueue);
      RetryLowers(s, GiveUp(s1, p, s.procs[p].job, code), p);
    } else {
      PcsDrop(s.procs, p);
    }
  }

  lemma ReleaseLowers(s: State, p: nat, ok: bool)
    requires Conserved(s) && Enabled(s, Release(p, ok))
    ensures Rank(ApplyRelease(s, p, ok)) < Rank(s)
  {
    var job := s.procs[p].job;
    var s1 := if ok then s.(store := Delete(s.store, job.m.key)) else s;
    if job.origin.FromQueue? && DeadLetters(job) && job.m.ConfirmationMail? {
      PcsSet(s.procs, p, Reporting(job, s.now));
    } else {
      GiveUpLowers(s, s1, p, Internal);
    }
  }

  lemma TakeLowers(s: State, p: nat, id: nat)
    requires Enabled(s, Take(p, id))
    ensures Rank(ApplyTake(s, p, id)) < Rank(s)
  {
    var letter := s.broker.main[id];
    LettersDrop(s.broker.main, id, 10);
    match letter.body
    case Invalid =>
    case Valid(m) => PcsAdd(s.procs, p, Received(Job(m, FromQueue(id, letter.retries))));
  }

  lemma ExpireLowers(s: State, id: nat)
    requires Conserved(s) && Enabled(s, Expire(id))
    ensures Rank(ApplyExpire(s, id)) < Rank(s)
  {
    assert At(s, id, RetryQueue);
    assert id in s.broker.main ==> At(s, id, MainQueue);
    LettersDrop(s.broker.retry, id, 11);
    LettersAdd(s.broker.main, id, s.broker.retry[id], 10);
  }

  lemma HandlerLowers(s: State, step: Step)
    requires Enabled(s, step)
    requires step.ClaimNx? || step.SendOk? || step.SendError? || step.Announce?
    ensures Rank(Apply(s, step)) < Rank(s)
  {
    var s' := Apply(s, step);
    GotoLowers(s, s', step.p, s'.procs[step.p]);
  }

  lemma ConfirmLowers(s: State, p: nat, ok: bool)
    requires Enabled(s, Confirm(p, ok))
    ensures Rank(ApplyConfirm(s, p, ok)) < Rank(s)
  {
    var s' := ApplyConfirm(s, p, ok);
    if s.procs[p].job.origin.FromRpc? {
      PcsDrop(s.procs, p);
    } else {
      GotoLowers(s, s', p, s'.procs[p]);
    }
  }

  lemma EndLowers(s: State, step: Step)
    requires Enabled(s, step) && (step.Ack? || step.Report?)
    ensures Rank(Apply(s, step)) < Rank(s)
  {
    PcsDrop(s.procs, step.p);
  }

  lemma ReadLowers(s: State, p: nat)
    requires Conserved(s) && Enabled(s, ReadKey(p))
    ensures Rank(ApplyReadKey(s, p)) < Rank(s)
  {
    var job := s.procs[p].job;
    if !IsDone(s.store, s.now, job.m.key) {
      GiveUpLowers(s, s, p, Aborted);
    } else if job.origin.FromRpc? {
      PcsDrop(s.procs, p);
    } else {
      GotoLowers(s, ApplyReadKey(s, p), p, Announcing(job, Announcements(job.m)));
    }
  }

  /** Every step of a handler and of the retry TTL lowers the rank. */
  lemma WorkLowers(s: State, step: Step)
    requires Conserved(s) && Enabled(s, step) && IsWork(step)
    ensures Rank(Apply(s, step)) < Rank(s)
  {
    match step
    case Expire(id) => ExpireLowers(s, id);
    case Take(p, id) => TakeLowers(s, p, id);
    case ClaimError(p, applied) =>
      var store' := if applied then SetPendingNx(s.store, s.now, s.procs[p].job.m.key, s.cfg.lease) else s.store;
      GiveUpLowers(s, s.(store := store'), p, Unavailable);
    case ReadKey(p) => ReadLowers(s, p);
    case ReadError(p) => GiveUpLowers(s, s, p, Unavailable);
    case Release(p, ok) => ReleaseLowers(s, p, ok);
    case Confirm(p, ok) => ConfirmLowers(s, p, ok);
    case AnnounceError(p, stored) =>
      var job := s.procs[p].job;
      GiveUpLowers(s, if stored then Notify(s, NoticeOf(job.origin.id, job.m)) else s, p, Internal);
    case Ack(_) | Report(_, _) => EndLowers(s, step);
    case _ => HandlerLowers(s, step);
  }

  // ---------- Runs end, and end with empty queues ----------

  /** Only work and the passing of time: no new messages or calls, no crash redelivery. */
  predicate ClosedRun(steps: seq<Step>) {
    forall i :: 0 <= i < |steps| ==> IsWork(steps[i]) || steps[i].Tick?
  }

  function WorkSteps(steps: seq<Step>): nat {
    if steps == [] then 0 else (if IsWork(steps[0]) then 1 else 0) + WorkSteps(steps[1..])
  }

  lemma {:induction false} RunsAreBounded(s: State, steps: seq<Step>)
    requires Conserved(s) && CanRun(s, steps) && ClosedRun(steps)
    ensures WorkSteps(steps) + Rank(Exec(s, steps)) <= Rank(s)
    decreases |steps|
  {
    if steps != [] {
      var s' := Apply(s, steps[0]);
      StepMoves(s, steps[0]);
      MovedConserves(s, s', MoveOf(s, steps[0]));
      if IsWork(steps[0]) {
        WorkLowers(s, steps[0]);
      }
      RunsAreBounded(s', steps[1..]);
    }
  }

  predicate Idle(s: State) {
    s.broker.main == map[] && s.broker.retry == map[] && s.procs == map[]
  }

  /** As long as a queue or a handler is not empty, some working step can be taken. */
  lemma WorkRemains(s: State) returns (step: Step)
    requires LogSound(s) && !Idle(s)
    ensures IsWork(step) && Enabled(s, step)
  {
    if s.procs != map[] {
      var p :| p in s.procs;
      assert PcSound(s.procs[p], s.broker, s.log);
      match s.procs[p]
      case Received(_) => step := ClaimNx(p);
      case Checking(_) => step := ReadKey(p);
      case Claimed(_, _) => step := SendOk(p);
      case SendFailed(_, _) => step := Release(p, true);
      case SendDone(_, _) => step := Confirm(p, true);
      case Announcing(_, left) => step := if left > 0 then Announce(p) else Ack(p);
      case Reporting(_, _) => step := Report(p, true);
    } else if s.broker.retry != map[] {
      var id :| id in s.broker.retry;
      step := Expire(id);
    } else {
      var id :| id in s.broker.main;
      step := Take(0, id);
    }
  }

  /** A closed run takes at most `Rank` working steps, and one that can take no further working step
      has emptied the main queue, the retry queue and every handler. */
  lemma ClosedRunsEndIdle(s: State, steps: seq<Step>)
    requires Conserved(s) && LogSound(s) && ContentKept(s) && CanRun(s, steps) && ClosedRun(steps)
    ensures WorkSteps(steps) <= Rank(s)
    ensures (forall step :: IsWork(step) ==> !Enabled(Exec(s, steps), step)) <==> Idle(Exec(s, steps))
  {
    RunsAreBounded(s, steps);
    SoundAlongRuns(s, steps);
    var s' := Exec(s, steps);
    if !Idle(s') {
      var step := WorkRemains(s');
    }
  }

  // ---------- Attempts ----------

  function Takes(steps: seq<Step>, id: nat): nat {
    if steps == [] then 0
    else (if steps[0].Take? && steps[0].id == id then 1 else 0) + Takes(steps[1..], id)
  }

  /** `n` attempts are enough for what message `id` still has before it. */
  ghost predicate Budget(s: State, id: nat, n: nat) {
    && (id in s.broker.main ==> MAX_RETRIES + 1 <= n + s.broker.main[id].retries)
    && (id in s.broker.retry ==> MAX_RETRIES + 1 <= n + s.broker.retry[id].retries)
    && (forall p :: Carries(s, p, id) ==> MAX_RETRIES <= n + s.procs[p].job.origin.retries)
  }

  lemma QueueBudget(s: State, step: Step, id: nat, n: nat)
    requires Conserved(s) && Budget(s, id, n) && Enabled(s, step) && id in s.broker.published
    requires step.Publish? || step.Expire? || step.Ack? || step.Report? || step.Tick? || step.Call?
    ensures Budget(Apply(s, step), id, n)
  {
  }

  lemma TakeBudget(s: State, p: nat, x: nat, id: nat, n: nat)
    requires Conserved(s) && Budget(s, id, n) && Enabled(s, Take(p, x)) && ContentKept(s)
    ensures x == id ==> n > 0 && Budget(ApplyTake(s, p, x), id, n - 1)
    ensures x != id ==> Budget(ApplyTake(s, p, x), id, n)
  {
    if x == id {
      TakeOwnBudget(s, p, id, n);
    } else {
      TakeOtherBudget(s, p, x, id, n);
    }
  }

  lemma TakeOwnBudget(s: State, p: nat, id: nat, n: nat)
    requires Conserved(s) && Budget(s, id, n) && Enabled(s, Take(p, id)) && ContentKept(s)
    ensures n > 0 && Budget(ApplyTake(s, p, id), id, n - 1)
  {
    OnlyInMain(s, id);
    assert LetterKept(s.broker.published, id, s.broker.main[id]);
    var s' := ApplyTake(s, p, id);
    forall q | Carries(s', q, id) ensures q == p || Carries(s, q, id) {}
  }

  lemma TakeOtherBudget(s: State, p: nat, x: nat, id: nat, n: nat)
    requires Budget(s, id, n) && Enabled(s, Take(p, x)) && x != id
    ensures Budget(ApplyTake(s, p, x), id, n)
  {
    var s' := ApplyTake(s, p, x);
    forall q | Carries(s', q, id) ensures Carries(s, q, id) && s'.procs[q] == s.procs[q] {}
  }

  lemma OnlyInMain(s: State, id: nat)
    requires Conserved(s) && id in s.broker.main
    ensures id !in s.broker.retry && forall q :: !Carries(s, q, id)
  {
    assert At(s, id, MainQueue);
    assert id in s.broker.retry ==> At(s, id, RetryQueue);
    assert forall q :: Carries(s, q, id) ==> At(s, id, Handler(q));
  }

  lemma WorkBudget(s: State, step: Step, id: nat, n: nat)
    requires Budget(s, id, n) && Enabled(s, step)
    requires step.ClaimNx? || step.SendOk? || step.SendError? || step.Confirm? || step.Announce?
    ensures Budget(Apply(s, step), id, n)
  {
    var s' := Apply(s, step);
    forall q | Carries(s', q, id) ensures MAX_RETRIES <= n + s'.procs[q].job.origin.retries {
      assert Carries(s, q, id);
    }
  }

  lemma GiveUpBudget(s: State, p: nat, code: Code, id: nat, n: nat)
    requires Budget(s, id, n) && p in s.procs && !s.procs[p].Reporting?
    ensures Budget(GiveUp(s, p, s.procs[p].job, code), id, n)
  {
    var s' := GiveUp(s, p, s.procs[p].job, code);
    if s.procs[p].job.origin.FromQueue? && s.procs[p].job.origin.id == id {
      assert Carries(s, p, id);
    }
    forall q | Carries(s', q, id) ensures MAX_RETRIES <= n + s'.procs[q].job.origin.retries {
      assert Carries(s, q, id);
    }
  }

  lemma ReleaseBudget(s: State, p: nat, ok: bool, id: nat, n: nat)
    requires Budget(s, id, n) && Enabled(s, Release(p, ok))
    ensures Budget(ApplyRelease(s, p, ok), id, n)
  {
    var job := s.procs[p].job;
    var s1 := if ok then s.(store := Delete(s.store, job.m.key)) else s;
    if !(job.origin.FromQueue? && DeadLetters(job) && job.m.ConfirmationMail?) {
      GiveUpBudget(s1, p, Internal, id, n);
    }
  }

  lemma ReadBudget(s: State, p: nat, id: nat, n: nat)
    requires Budget(s, id, n) && Enabled(s, ReadKey(p))
    ensures Budget(ApplyReadKey(s, p), id, n)
  {
    var s' := ApplyReadKey(s, p);
    if !IsDone(s.store, s.now, s.procs[p].job.m.key) {
      GiveUpBudget(s, p, Aborted, id, n);
    } else {
      forall q | Carries(s', q, id) ensures MAX_RETRIES <= n + s'.procs[q].job.origin.retries {
        assert Carries(s, q, id);
      }
    }
  }

  lemma RetryBudget(s: State, step: Step, id: nat, n: nat)
    requires Budget(s, id, n) && Enabled(s, step)
    requires step.ClaimError? || step.ReadKey? || step.ReadError? || step.Release? || step.AnnounceError?
    ensures Budget(Apply(s, step), id, n)
  {
    match step
    case ClaimError(p, applied) =>
      var store' := if applied then SetPendingNx(s.store, s.now, s.procs[p].job.m.key, s.cfg.lease) else s.store;
      GiveUpBudget(s.(store := store'), p, Unavailable, id, n);
    case ReadKey(p) => ReadBudget(s, p, id, n);
    case ReadError(p) => GiveUpBudget(s, p, Unavailable, id, n);
    case Release(p, ok) => ReleaseBudget(s, p, ok, id, n);
    case AnnounceError(p, stored) =>
      var job := s.procs[p].job;
      GiveUpBudget(if stored then Notify(s, NoticeOf(job.origin.id, job.m)) else s, p, Internal, id, n);
  }

  /** Taking a message up costs one of its attempts; no other step without a crash adds any. */
  lemma StepBudget(s: State, step: Step, id: nat, n: nat)
    requires Conserved(s) && ContentKept(s) && Budget(s, id, n) && Enabled(s, step)
    requires id in s.broker.published && !step.Crash?
    ensures step.Take? && step.id == id ==> n > 0 && Budget(Apply(s, step), id, n - 1)
    ensures !(step.Take? && step.id == id) ==> Budget(Apply(s, step), id, n)
  {
    match step
    case Take(p, x) => TakeBudget(s, p, x, id, n);
    case ClaimError(_, _) | ReadKey(_) | ReadError(_) | Release(_, _) | AnnounceError(_, _) => RetryBudget(s, step, id, n);
    case ClaimNx(_) | SendOk(_) | SendError(_) | Confirm(_, _) | Announce(_) => WorkBudget(s, step, id, n);
    case _ => QueueBudget(s, step, id, n);
  }

  lemma MessagesStay(s: State, step: Step)
    requires Conserved(s) && ContentKept(s) && Enabled(s, step)
    ensures Conserved(Apply(s, step)) && ContentKept(Apply(s, step))
    ensures s.broker.published.Keys <= Apply(s, step).broker.published.Keys
  {
    StepMoves(s, step);
    MovedConserves(s, Apply(s, step), MoveOf(s, step));
    ContentStep(s, step);
  }

  lemma {:induction false} TakesWithinBudget(s: State, steps: seq<Step>, id: nat, n: nat)
    requires Conserved(s) && ContentKept(s) && Budget(s, id, n) && id in s.broker.published && CanRun(s, steps)
    requires forall i :: 0 <= i < |steps| ==> !steps[i].Crash?
    ensures Takes(steps, id) <= n
    decreases |steps|
  {
    if steps != [] {
      var step := steps[0];
      var s' := Apply(s, step);
      MessagesStay(s, step);
      StepBudget(s, step, id, n);
      TakesWithinBudget(s', steps[1..], id, if step.Take? && step.id == id then n - 1 else n);
    }
  }

  /** From its publication on, and without crash redelivery, a message is taken up at most
      MAX_RETRIES + 1 times, whatever fails. */
  lemma AttemptsBounded(s: State, steps: seq<Step>, id: nat, body: Body)
    requires Conserved(s) && ContentKept(s) && id !in s.broker.published
    requires CanRun(s, [Publish(id, body)] + steps)
    requires forall i :: 0 <= i < |steps| ==> !steps[i].Crash?
    ensures Takes(steps, id) <= MAX_RETRIES + 1
  {
    var step := Publish(id, body);
    assert ([step] + steps)[1..] == steps;
    var s' := Apply(s, step);
    MessagesStay(s, step);
    assert id in s.broker.retry ==> At(s, id, RetryQueue);
    assert forall p :: Carries(s, p, id) ==> At(s, id, Handler(p));
    assert forall p :: Carries(s', p, id) ==> Carries(s, p, id);
    TakesWithinBudget(s', steps, id, MAX_RETRIES + 1);
  }
}
