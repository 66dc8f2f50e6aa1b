/** The retry counts of the queue's messages: where they change, and that a crash changes nothing. */
module NotificationRetries {
  import opened Messages
  import opened Notification
  import opened NotificationSafety

  /** The x-retry-count of a message where it lies. */
  function RetriesAt(s: State, id: nat, place: Place): nat
    requires At(s, id, place)
  {
    match place
    case MainQueue => s.broker.main[id].retries
    case RetryQueue => s.broker.retry[id].retries
    case DeadQueue => s.broker.dead[id].retries
    case Acknowledged => s.broker.acked[id].retries
    case Handler(p) => s.procs[p].job.origin.retries
  }

  /** The count of a message starts at 0, grows by one exactly when a handler puts it in the retry queue, and is the
      same after every other step, redelivery after a crash and the return from the retry queue included. */
  lemma RetriesCounted(s: State, step: Step, id: nat, a: Place, b: Place)
    requires Conserved(s) && Enabled(s, step) && At(s, id, a) && At(Apply(s, step), id, b)
    ensures RetriesAt(Apply(s, step), id, b) == RetriesAt(s, id, a) + if a.Handler? && b.RetryQueue? then 1 else 0
  {
    if step.Publish? || step.Expire? || step.Take? {
      QueueRetries(s, step, id, a, b);
    } else if step.Ack? || step.Crash? {
      EndRetries(s, step, id, a, b);
    } else if step.ClaimError? || step.ReadKey? || step.ReadError? || step.Release? || step.AnnounceError? {
      GiveUpRetries(s, step, id, a, b);
    } else {
      WorkRetries(s, step, id, a, b);
    }
  }

  lemma QueueRetries(s: State, step: Step, id: nat, a: Place, b: Place)
    requires Conserved(s) && Enabled(s, step) && At(s, id, a) && At(Apply(s, step), id, b)
    requires step.Publish? || step.Expire? || step.Take?
    ensures RetriesAt(Apply(s, step), id, b) == RetriesAt(s, id, a) + if a.Handler? && b.RetryQueue? then 1 else 0
  {
    StepMoves(s, step);
  }

  lemma EndRetries(s: State, step: Step, id: nat, a: Place, b: Place)
    requires Conserved(s) && Enabled(s, step) && At(s, id, a) && At(Apply(s, step), id, b)
    requires step.Ack? || step.Crash?
    ensures RetriesAt(Apply(s, step), id, b) == RetriesAt(s, id, a) + if a.Handler? && b.RetryQueue? then 1 else 0
  {
    StepMoves(s, step);
  }

  lemma JobStays(s: State, step: Step, p: nat)
    requires Enabled(s, step) && p in s.procs && p in Apply(s, step).procs
    ensures Apply(s, step).procs[p].job == s.procs[p].job
  {
  }

  /** What a handler that cannot go on does to the queues. */
  lemma GiveUpBroker(s: State, step: Step)
    requires Enabled(s, step)
    requires step.ClaimError? || step.ReadKey? || step.ReadError? || step.Release? || step.AnnounceError?
    ensures Apply(s, step).broker == if MoveOf(s, step).Stay? then s.broker else HandleRetry(s.broker, s.procs[step.p].job)
    ensures MoveOf(s, step).Transfer? ==> MoveOf(s, step) == Retried(s, step.p)
  {
  }

  lemma GiveUpRetries(s: State, step: Step, id: nat, a: Place, b: Place)
    requires Conserved(s) && Enabled(s, step) && At(s, id, a) && At(Apply(s, step), id, b)
    requires step.ClaimError? || step.ReadKey? || step.ReadError? || step.Release? || step.AnnounceError?
    ensures RetriesAt(Apply(s, step), id, b) == RetriesAt(s, id, a) + if a.Handler? && b.RetryQueue? then 1 else 0
  {
    StepMoves(s, step);
    GiveUpBroker(s, step);
    PlacesAfter(s, Apply(s, step), MoveOf(s, step), id, a, b);
    if b.Handler? {
      JobStays(s, step, b.p);
    }
  }

  lemma PlacesAfter(s: State, s': State, move: Move, id: nat, a: Place, b: Place)
    requires Conserved(s) && Moved(s, s', move) && At(s, id, a) && At(s', id, b)
    ensures if move.Transfer? && move.id == id then a == move.from && b == move.to else a == b
  {
  }

  lemma WorkBroker(s: State, step: Step)
    requires Enabled(s, step)
    requires step.Tick? || step.Call? || step.ClaimNx? || step.SendOk? || step.SendError? || step.Confirm? || step.Announce? || step.Report?
    ensures Apply(s, step).broker == s.broker
  {
  }

  lemma WorkRetries(s: State, step: Step, id: nat, a: Place, b: Place)
    requires Conserved(s) && Enabled(s, step) && At(s, id, a) && At(Apply(s, step), id, b)
    requires step.Tick? || step.Call? || step.ClaimNx? || step.SendOk? || step.SendError? || step.Confirm? || step.Announce? || step.Report?
    ensures RetriesAt(Apply(s, step), id, b) == RetriesAt(s, id, a) + if a.Handler? && b.RetryQueue? then 1 else 0
  {
    StepMoves(s, step);
    WorkBroker(s, step);
    PlacesAfter(s, Apply(s, step), MoveOf(s, step), id, a, b);
    if b.Handler? {
      JobStays(s, step, b.p);
    }
  }

  lemma PublishedFresh(s: State, id: nat, body: Body)
    requires Enabled(s, Publish(id, body))
    ensures At(Apply(s, Publish(id, body)), id, MainQueue) && RetriesAt(Apply(s, Publish(id, body)), id, MainQueue) == 0
  {
  }

  /** A handler may die at any point before it settled its message; the broker then has it in the main queue as it was
      taken. */
  lemma CrashRedelivers(s: State, p: nat, id: nat)
    requires Carries(s, p, id)
    ensures Enabled(s, Crash(p))
    ensures var b := Apply(s, Crash(p)).broker;
            id in b.main && b.main[id] == Letter(Valid(s.procs[p].job.m), s.procs[p].job.origin.retries)
    ensures p !in Apply(s, Crash(p)).procs && Apply(s, Crash(p)).store == s.store && Apply(s, Crash(p)).log == s.log
  {
  }
}
