/** What every run of the notification service keeps, with no assumption on timing, failures or
    crashes: messages are conserved, and nothing is acknowledged, announced or answered as
    delivered before a mail with its key went out. */
module NotificationSafety {
  import opened Messages
  import opened Notification

  // ---------- Conservation ----------

  /** The places a published message can be in. */
  datatype Place = MainQueue | RetryQueue | DeadQueue | Acknowledged | Handler(p: nat)

  predicate At(s: State, id: nat, place: Place) {
    match place
    case MainQueue => id in s.broker.main
    case RetryQueue => id in s.broker.retry
    case DeadQueue => id in s.broker.dead
    case Acknowledged => id in s.broker.acked
    case Handler(p) => Carries(s, p, id)
  }

  /** Every published message is in exactly one place, and nothing else is in any. */
  ghost predicate Conserved(s: State) {
    && (forall id, place :: At(s, id, place) ==> id in s.broker.published)
    && (forall id :: id in s.broker.published ==> exists place :: At(s, id, place))
    && (forall id, a, b :: At(s, id, a) && At(s, id, b) ==> a == b)
  }

  /** What a step does to the places: nothing, one message added, or one message moved. */
  datatype Move = Stay | Add(id: nat) | Transfer(id: nat, from: Place, to: Place)

  /** Where the source sends a message of the queue at each step. */
  function MoveOf(s: State, step: Step): Move
    requires Enabled(s, step)
  {
    match step
    case Publish(id, _) => Add(id)
    case Expire(id) => Transfer(id, RetryQueue, MainQueue)
    case Take(p, id) => Transfer(id, MainQueue, if s.broker.main[id].body.Invalid? then DeadQueue else Handler(p))
    case ClaimError(p, _) => Retried(s, p)
    case ReadKey(p) => if IsDone(s.store, s.now, s.procs[p].job.m.key) then Stay else Retried(s, p)
    case ReadError(p) => Retried(s, p)
    case Release(p, _) => Retried(s, p)
    case AnnounceError(p, _) => Retried(s, p)
    case Ack(p) => Transfer(s.procs[p].job.origin.id, Handler(p), Acknowledged)
    case Crash(p) => if InFlight(s.procs[p]) then Transfer(s.procs[p].job.origin.id, Handler(p), MainQueue) else Stay
    case _ => Stay
  }

  /** handleRetry: dead once the attempts are spent, else back through the retry queue. */
  function Retried(s: State, p: nat): Move
    requires p in s.procs
  {
    var job := s.procs[p].job;
    if job.origin.FromRpc? then Stay
    else Transfer(job.origin.id, Handler(p), if job.origin.retries >= MAX_RETRIES then DeadQueue else RetryQueue)
  }

  ghost predicate Moved(s: State, s': State, move: Move) {
    match move
    case Stay => s'.broker.published.Keys == s.broker.published.Keys && forall id, place :: At(s', id, place) <==> At(s, id, place)
    case Add(x) =>
      && x !in s.broker.published && s'.broker.published.Keys == s.broker.published.Keys + {x}
      && forall id, place :: At(s', id, place) <==> (At(s, id, place) || (id == x && place == MainQueue))
    case Transfer(x, from, to) =>
      && s'.broker.published.Keys == s.broker.published.Keys && At(s, x, from) && from != to
      && forall id, place :: At(s', id, place) <==> ((id == x && place == to) || (At(s, id, place) && !(id == x && place == from)))
  }

  lemma MovedConserves(s: State, s': State, move: Move)
    requires Conserved(s) && Moved(s, s', move)
    ensures Conserved(s')
  {
    forall id | id in s'.broker.published ensures exists place :: At(s', id, place) {
      if move.Add? && id == move.id {
        assert At(s', id, MainQueue);
      } else {
        var place :| At(s, id, place);
        if move.Transfer? && id == move.id {
          assert At(s', id, move.to);
        } else {
          assert At(s', id, place);
        }
      }
    }
  }

  /** The handler goes on with the same message. */
  lemma HandlerContinues(s: State, s': State, p: nat, pc: Pc)
    requires p in s.procs && s'.procs == s.procs[p := pc]
    requires pc.job == s.procs[p].job && !pc.Reporting? && !s.procs[p].Reporting?
    requires s'.broker == s.broker
    ensures Moved(s, s', Stay)
  {
  }

  /** A queue handler ends and its message is put in the dead or the retry queue. */
  lemma HandlerLeaves(s: State, s': State, p: nat)
    requires p in s.procs && !s.procs[p].Reporting? && s.procs[p].job.origin.FromQueue?
    requires s' == Leave(s, p).(store := s'.store, log := s'.log, broker := HandleRetry(s.broker, s.procs[p].job))
    ensures Moved(s, s', Retried(s, p))
  {
    assert At(s, s.procs[p].job.origin.id, Handler(p));
  }

  /** handleRetry and the end of the handler move the handler's message. */
  lemma HandlerRetries(s: State, s1: State, p: nat, code: Code)
    requires p in s.procs && !s.procs[p].Reporting?
    requires s1.broker == s.broker && s1.procs == s.procs
    ensures Moved(s, GiveUp(s1, p, s.procs[p].job, code), Retried(s, p))
  {
    var s' := GiveUp(s1, p, s.procs[p].job, code);
    if s.procs[p].job.origin.FromQueue? {
      HandlerLeaves(s, s'.(cfg := s.cfg, now := s.now), p);
    }
  }

  lemma ReleaseMoves(s: State, p: nat, ok: bool)
    requires Enabled(s, Release(p, ok))
    ensures Moved(s, ApplyRelease(s, p, ok), Retried(s, p))
  {
    var job := s.procs[p].job;
    var s1 := if ok then s.(store := Delete(s.store, job.m.key)) else s;
    if job.origin.FromQueue? && DeadLetters(job) && job.m.ConfirmationMail? {
      assert At(s, job.origin.id, Handler(p));
    } else {
      HandlerRetries(s, s1, p, Internal);
    }
  }

  lemma TakeMoves(s: State, p: nat, id: nat)
    requires Enabled(s, Take(p, id))
    ensures Moved(s, ApplyTake(s, p, id), MoveOf(s, Take(p, id)))
  {
    if s.broker.main[id].body.Invalid? {
      TakeInvalidMoves(s, p, id);
    } else {
      TakeValidMoves(s, p, id);
    }
  }

  lemma TakeInvalidMoves(s: State, p: nat, id: nat)
    requires Enabled(s, Take(p, id)) && s.broker.main[id].body.Invalid?
    ensures Moved(s, ApplyTake(s, p, id), Transfer(id, MainQueue, DeadQueue))
  {
    assert At(s, id, MainQueue);
  }

  lemma TakeValidMoves(s: State, p: nat, id: nat)
    requires Enabled(s, Take(p, id)) && s.broker.main[id].body.Valid?
    ensures Moved(s, ApplyTake(s, p, id), Transfer(id, MainQueue, Handler(p)))
  {
    assert At(s, id, MainQueue);
  }

  lemma EndMoves(s: State, step: Step)
    requires Enabled(s, step) && (step.Ack? || step.Crash? || step.Report?)
    ensures Moved(s, Apply(s, step), MoveOf(s, step))
  {
    if InFlight(s.procs[step.p]) {
      assert At(s, s.procs[step.p].job.origin.id, Handler(step.p));
    }
  }

  lemma QueueMoves(s: State, step: Step)
    requires Enabled(s, step) && (step.Tick? || step.Publish? || step.Expire? || step.Call?)
    ensures Moved(s, Apply(s, step), MoveOf(s, step))
  {
    if step.Expire? {
      assert At(s, step.id, RetryQueue);
    }
  }

  lemma WorkMoves(s: State, step: Step)
    requires Enabled(s, step)
    requires step.ClaimNx? || step.SendOk? || step.SendError? || step.Confirm? || step.Announce?
    ensures Moved(s, Apply(s, step), Stay)
  {
    var p := step.p;
    var s' := Apply(s, step);
    if p in s'.procs {
      HandlerContinues(s, s', p, s'.procs[p]);
    }
  }

  lemma RetryMoves(s: State, step: Step)
    requires Enabled(s, step)
    requires step.ClaimError? || step.ReadKey? || step.ReadError? || step.AnnounceError?
    ensures Moved(s, Apply(s, step), MoveOf(s, step))
  {
    var p := step.p;
    var job := s.procs[p].job;
    match step
    case ClaimError(_, applied) =>
      var store' := if applied then SetPendingNx(s.store, s.now, job.m.key, s.cfg.lease) else s.store;
      HandlerRetries(s, s.(store := store'), p, Unavailable);
    case ReadKey(_) =>
      if !IsDone(s.store, s.now, job.m.key) {
        HandlerRetries(s, s, p, Aborted);
      } else if job.origin.FromQueue? {
        HandlerContinues(s, Apply(s, step), p, Announcing(job, Announcements(job.m)));
      }
    case ReadError(_) => HandlerRetries(s, s, p, Unavailable);
    case AnnounceError(_, stored) =>
      HandlerRetries(s, if stored then Notify(s, NoticeOf(job.origin.id, job.m)) else s, p, Internal);
  }

  /** Every step moves at most one message, from where and to where `MoveOf` says. */
  lemma StepMoves(s: State, step: Step)
    requires Enabled(s, step)
    ensures Moved(s, Apply(s, step), MoveOf(s, step))
  {
    match step
    case Tick | Publish(_, _) | Expire(_) | Call(_, _) => QueueMoves(s, step);
    case Take(p, id) => TakeMoves(s, p, id);
    case ClaimNx(_) | SendOk(_) | SendError(_) | Confirm(_, _) | Announce(_) => WorkMoves(s, step);
    case ClaimError(_, _) | ReadKey(_) | ReadError(_) | AnnounceError(_, _) => RetryMoves(s, step);
    case Release(p, ok) => ReleaseMoves(s, p, ok);
    case Ack(_) | Report(_, _) | Crash(_) => EndMoves(s, step);
  }

  /** In every run every published message is in exactly one of the five places. */
  lemma {:induction false} ConservedAlongRuns(s: State, steps: seq<Step>)
    requires Conserved(s) && CanRun(s, steps)
    ensures Conserved(Exec(s, steps))
    decreases |steps|
  {
    if steps != [] {
      var s' := Apply(s, steps[0]);
      StepMoves(s, steps[0]);
      MovedConserves(s, s', MoveOf(s, steps[0]));
      ConservedAlongRuns(s', steps[1..]);
    }
  }

  // ---------- The dead queue only fills ----------

  /** What is in the dead queue is in no hands and in no other queue. */
  lemma DeadIsNowhereElse(s: State, id: nat)
    requires Conserved(s) && id in s.broker.dead
    ensures id !in s.broker.main && forall p :: !Carries(s, p, id)
  {
    assert At(s, id, DeadQueue);
    assert id in s.broker.main ==> At(s, id, MainQueue);
    assert forall p :: Carries(s, p, id) ==> At(s, id, Handler(p));
  }

  lemma RetryLeavesOthers(s: State, s1: State, p: nat, code: Code, id: nat)
    requires p in s.procs && !s.procs[p].Reporting? && !Carries(s, p, id) && s1.broker == s.broker && id in s.broker.dead
    ensures var b := GiveUp(s1, p, s.procs[p].job, code).broker;
            id in b.dead && b.dead[id] == s.broker.dead[id]
  {
  }

  lemma RetryKeepsDead(s: State, step: Step, id: nat)
    requires Enabled(s, step) && id in s.broker.dead
    requires step.ClaimError? || step.ReadKey? || step.ReadError? || step.AnnounceError?
    requires !Carries(s, step.p, id)
    ensures id in Apply(s, step).broker.dead && Apply(s, step).broker.dead[id] == s.broker.dead[id]
  {
    match step
    case ClaimError(p, applied) =>
      var store' := if applied then SetPendingNx(s.store, s.now, s.procs[p].job.m.key, s.cfg.lease) else s.store;
      RetryLeavesOthers(s, s.(store := store'), p, Unavailable, id);
    case ReadKey(p) => RetryLeavesOthers(s, s, p, Aborted, id);
    case ReadError(p) => RetryLeavesOthers(s, s, p, Unavailable, id);
    case AnnounceError(p, stored) =>
      var job := s.procs[p].job;
      RetryLeavesOthers(s, if stored then Notify(s, NoticeOf(job.origin.id, job.m)) else s, p, Internal, id);
  }

  lemma ReleaseKeepsDead(s: State, p: nat, ok: bool, id: nat)
    requires Enabled(s, Release(p, ok)) && id in s.broker.dead && !Carries(s, p, id)
    ensures id in ApplyRelease(s, p, ok).broker.dead && ApplyRelease(s, p, ok).broker.dead[id] == s.broker.dead[id]
  {
  }

  lemma OthersKeepDead(s: State, step: Step, id: nat)
    requires Enabled(s, step) && id in s.broker.dead && id !in s.broker.main
    requires !(step.ClaimError? || step.ReadKey? || step.ReadError? || step.AnnounceError? || step.Release?)
    ensures id in Apply(s, step).broker.dead && Apply(s, step).broker.dead[id] == s.broker.dead[id]
  {
  }

  lemma DeadStays(s: State, step: Step, id: nat)
    requires Conserved(s) && Enabled(s, step) && id in s.broker.dead
    ensures id in Apply(s, step).broker.dead && Apply(s, step).broker.dead[id] == s.broker.dead[id]
  {
    DeadIsNowhereElse(s, id);
    match step
    case ClaimError(_, _) | ReadKey(_) | ReadError(_) | AnnounceError(_, _) => RetryKeepsDead(s, step, id);
    case Release(p, ok) => ReleaseKeepsDead(s, p, ok, id);
    case _ => OthersKeepDead(s, step, id);
  }

  /** A dead-lettered message stays in the dead queue, unchanged. */
  lemma {:induction false} DeadAlongRuns(s: State, steps: seq<Step>, id: nat)
    requires Conserved(s) && CanRun(s, steps) && id in s.broker.dead
    ensures id in Exec(s, steps).broker.dead && Exec(s, steps).broker.dead[id] == s.broker.dead[id]
    decreases |steps|
  {
    if steps != [] {
      DeadStays(s, steps[0], id);
      StepMoves(s, steps[0]);
      MovedConserves(s, Apply(s, steps[0]), MoveOf(s, steps[0]));
      DeadAlongRuns(Apply(s, steps[0]), steps[1..], id);
    }
  }
}
