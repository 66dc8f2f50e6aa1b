/** At most once end to end: in timely runs of both services the same mail goes out at most once in a done TTL. */
module PipelineOnce {
  import opened Keys
  import opened Pipeline
  import opened PipelineRescan
  import PipelineTruth
  import N = Notification
  import M = NotificationTiming
  import K = NotificationKeys

  /** Within the assumption on leases and confirmations, whatever the back end does. */
  ghost predicate TimelyRun(w: World, steps: seq<Step>)
    requires CanRun(w, steps)
    decreases |steps|
  {
    steps == [] || (TimelyAt(w, steps[0]) && TimelyRun(Apply(w, steps[0]), steps[1..]))
  }

  ghost predicate TimelyAt(w: World, step: Step)
    requires Enabled(w, step)
  {
    ServiceRun(w, step);
    M.TimelyRun(w.n, ServiceSteps(w, step))
  }

  lemma {:induction false} OnceAlongRuns(w: World, steps: seq<Step>)
    requires CanRun(w, steps) && TimelyRun(w, steps) && M.AtMostOnce(w.n)
    ensures M.AtMostOnce(Exec(w, steps).n) && Exec(w, steps).n.cfg == w.n.cfg
    decreases |steps|
  {
    if steps != [] {
      ServiceRun(w, steps[0]);
      M.TimedAtMostOnce(w.n, ServiceSteps(w, steps[0]));
      K.ConfigStays(w.n, ServiceSteps(w, steps[0]));
      OnceAlongRuns(Apply(w, steps[0]), steps[1..]);
    }
  }

  /** In every timely run of both services, scans, retries, duplicates, crashes and both transports included: two mails
      of the same kind to the same address about the same repository and tag, or token, are at least the done TTL
      apart. */
  lemma SameMailOnce(cfg: N.Config, steps: seq<Step>, i: nat, j: nat)
    requires CanRun(Init(cfg), steps) && TimelyRun(Init(cfg), steps)
    requires var sent := Exec(Init(cfg), steps).n.log.sent;
             i < j < |sent| && SameMail(sent[i].m, sent[j].m)
    ensures var sent := Exec(Init(cfg), steps).n.log.sent;
            sent[i].at + cfg.doneTtl <= sent[j].at
  {
    var w := Exec(Init(cfg), steps);
    OnceAlongRuns(Init(cfg), steps);
    PipelineTruth.InitTruthful(cfg);
    PipelineTruth.TruthfulAlongRuns(Init(cfg), steps);
    SameKeyIffSameMail(w.n.log.sent[i].m, w.n.log.sent[j].m);
  }
}
