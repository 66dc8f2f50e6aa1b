/** The results about the notification service, for every run from its empty state. */
module NotificationTheorems {
  import opened Messages
  import opened Notification
  import opened NotificationSafety
  import opened NotificationContent
  import opened NotificationTiming
  import opened NotificationDone
  import T = NotificationTermination

  /** Every published message is in exactly one place: main, retry or dead queue, acknowledged, or in one
      handler's hands. Crashes and redelivery included. */
  lemma OnePlaceAlways(cfg: Config, steps: seq<Step>, id: nat)
    requires CanRun(Init(cfg), steps)
    ensures var s := Exec(Init(cfg), steps);
            && (id in s.broker.published <==> exists place :: At(s, id, place))
            && (forall a, b :: At(s, id, a) && At(s, id, b) ==> a == b)
  {
    ConservedAlongRuns(Init(cfg), steps);
  }

  /** An acknowledged message has a sent mail with its key and its notice behind it; a valid message is dead
      only with every retry spent. */
  lemma EndsAreEarned(cfg: Config, steps: seq<Step>, id: nat)
    requires CanRun(Init(cfg), steps)
    ensures var s := Exec(Init(cfg), steps);
            && (id in s.broker.acked ==> AckSound(id, s.broker.acked[id], s.log))
            && (id in s.broker.dead && s.broker.dead[id].body.Valid? ==> s.broker.dead[id].retries == MAX_RETRIES)
  {
    SoundAlongRuns(Init(cfg), steps);
    var s := Exec(Init(cfg), steps);
    assert id in s.broker.dead ==> DeadKept(s.broker.published, id, s.broker.dead[id]);
  }

  /** At most once: while leases are kept and no confirmation after a send is lost, at most one handler per key
      is between claim and confirm or release, and sends with one key are at least the done TTL apart. */
  lemma AtMostOnceInTime(cfg: Config, steps: seq<Step>)
    requires CanRun(Init(cfg), steps) && TimelyRun(Init(cfg), steps)
    ensures var s := Exec(Init(cfg), steps);
            && Exclusive(s) && Spaced(s.log.sent, s.cfg.doneTtl)
            && (forall key :: IsDone(s.store, s.now, key) <==> ConfirmedRecently(s, key))
  {
    var s := Exec(Init(cfg), steps);
    TimedAtMostOnce(Init(cfg), steps);
    forall key ensures IsDone(s.store, s.now, key) <==> ConfirmedRecently(s, key) {
      DoneExactAlongRuns(Init(cfg), steps, key);
    }
  }

  /** A confirmation that is dead-lettered after its last failed delivery: when its key is given back, no mail
      with that key is younger than the done TTL. */
  lemma LastFailureIsGenuine(cfg: Config, steps: seq<Step>, p: nat, ok: bool)
    requires CanRun(Init(cfg), steps) && TimelyRun(Init(cfg), steps) && Enabled(Exec(Init(cfg), steps), Release(p, ok))
    ensures var s := Exec(Init(cfg), steps);
            Unblocked(s, s.procs[p].job.m.key)
  {
    TimedAtMostOnce(Init(cfg), steps);
    DeadLetteringIsRight(Exec(Init(cfg), steps), p, ok);
  }

  /** Whatever happened before: once no more messages arrive and nothing crashes, only finitely many working
      steps are left, and when none is possible main, retry and every handler are empty. */
  lemma QueuesDrain(cfg: Config, before: seq<Step>, steps: seq<Step>)
    requires CanRun(Init(cfg), before) && CanRun(Exec(Init(cfg), before), steps) && T.ClosedRun(steps)
    ensures var s := Exec(Init(cfg), before);
            && T.WorkSteps(steps) <= T.Rank(s)
            && ((forall step :: T.IsWork(step) ==> !Enabled(Exec(s, steps), step)) <==> T.Idle(Exec(s, steps)))
  {
    ConservedAlongRuns(Init(cfg), before);
    SoundAlongRuns(Init(cfg), before);
    T.ClosedRunsEndIdle(Exec(Init(cfg), before), steps);
  }

  /** A message is taken up at most MAX_RETRIES + 1 times unless a handler crashes. */
  lemma AttemptsInEveryRun(cfg: Config, before: seq<Step>, steps: seq<Step>, id: nat, body: Body)
    requires CanRun(Init(cfg), before) && id !in Exec(Init(cfg), before).broker.published
    requires CanRun(Exec(Init(cfg), before), [Publish(id, body)] + steps)
    requires forall i :: 0 <= i < |steps| ==> !steps[i].Crash?
    ensures T.Takes(steps, id) <= MAX_RETRIES + 1
  {
    ConservedAlongRuns(Init(cfg), before);
    SoundAlongRuns(Init(cfg), before);
    T.AttemptsBounded(Exec(Init(cfg), before), steps, id, body);
  }
}
