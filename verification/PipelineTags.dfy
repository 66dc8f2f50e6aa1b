/** What a run of both services makes of a row's tag: the last delivery for the row's own pair, and nothing else. */
module PipelineTags {
  import opened Messages
  import opened Pipeline
  import N = Notification
  import B = Backend
  import E = BackendEffects
  import S = SubscriptionSafety

  /** What the back end did in a step of the world. */
  function BackSteps(step: Step): seq<B.Step>
    requires step.ConsumeReply? ==> !step.notice.Delivered?
    requires step.ConsumeDelivered? ==> step.notice.Delivered?
    requires step.ConsumeResponse? ==> step.response.m.ReleaseMail?
  {
    match step
    case Serve(_) => []
    case Local(st) => [st]
    case OrderConfirmation(p, _) => [B.OrderMail(p)]
    case ConsumeReply(p, notice) => [B.FindForReply(p, notice.sagaId, notice.ReplySent?)]
    case ConsumeDelivered(notice) => [B.Advance(notice.email, notice.repo, notice.tag)]
    case ConsumeResponse(r) => [B.Advance(r.m.email, r.m.repo, r.m.tag)]
    case QueueRelease(p, reader, _) => [B.NotifyOne(p, reader)]
    case CallRelease(p, reader, _) => [B.NotifyOne(p, reader)]
  }

  /** A step of the world is at most one step of the back end. */
  lemma BackRun(w: World, step: Step)
    requires Enabled(w, step)
    ensures var steps := BackSteps(step);
            |steps| <= 1 && if steps == [] then Apply(w, step).b == w.b
                            else B.Enabled(w.b, steps[0]) && Apply(w, step).b == B.Apply(w.b, steps[0])
  {
  }

  /** A step tells that release `tag` of the pair was mailed: a delivered event, or a SENT or DUPLICATE answer. */
  predicate Tells(step: Step, email: string, repo: string, tag: string) {
    || (step.ConsumeDelivered? && step.notice == N.Delivered(step.notice.id, email, repo, tag))
    || (step.ConsumeResponse? && (step.response.code == Code.Sent || step.response.code == Code.Duplicate)
        && step.response.m.ReleaseMail? && step.response.m.email == email && step.response.m.repo == repo
        && step.response.m.tag == tag)
  }

  /** In every state of the world a step changes the tag of a row that stays exactly when it takes up a delivery of
      another tag for the row's own address and repository; the tag is then the delivered one. */
  lemma TagChangesByDelivery(w: World, step: Step, id: nat, tag: string)
    requires Enabled(w, step) && id in w.b.subs && id in Apply(w, step).b.subs
    ensures var row, row' := w.b.subs[id], Apply(w, step).b.subs[id];
            && (Tells(step, row.email, row.repo, tag) ==> row'.lastSeenTag == Some(tag))
            && (row'.lastSeenTag != row.lastSeenTag ==>
                  row'.lastSeenTag.Some? && Tells(step, row.email, row.repo, row'.lastSeenTag.value))
            && row'.email == row.email && row'.repo == row.repo
  {
    BackRun(w, step);
    if BackSteps(step) != [] {
      E.RowColumnsChange(w.b, BackSteps(step)[0], id);
    }
  }

  /** A SENT or DUPLICATE answer to a release call, and a delivered event, can be taken up at any later time. */
  lemma DeliveriesCanBeTaken(w: World)
    ensures forall r :: r in w.n.log.responses && r.m.ReleaseMail? ==>
              (Enabled(w, ConsumeResponse(r)) <==> r.code == Code.Sent || r.code == Code.Duplicate)
    ensures forall notice :: notice in w.n.log.notices ==> (Enabled(w, ConsumeDelivered(notice)) <==> notice.Delivered?)
  {
  }

  // ---------- Over runs ----------

  /** What a row of the pair shows after the deliveries of a run: the tag of the last one for the pair, or the one that
      was there. */
  function LastTold(steps: seq<Step>, email: string, repo: string, tag: Option<string>): Option<string> {
    if steps == [] then tag
    else
      var told := match steps[0]
        case ConsumeDelivered(Delivered(_, e, r, t)) => if e == email && r == repo then Some(t) else tag
        case ConsumeResponse(Response(ReleaseMail(_, e, r, t, _), _)) => if e == email && r == repo then Some(t) else tag
        case _ => tag;
      LastTold(steps[1..], email, repo, told)
  }

  lemma {:induction false} GoneAlongRuns(w: World, steps: seq<Step>, id: nat)
    requires CanRun(w, steps) && id in w.b.log.usedSubs && id !in w.b.subs
    ensures id !in Exec(w, steps).b.subs
    decreases |steps|
  {
    if steps != [] {
      BackRun(w, steps[0]);
      if BackSteps(steps[0]) != [] {
        E.GoneStaysGone(w.b, BackSteps(steps[0])[0], id);
      }
      GoneAlongRuns(Apply(w, steps[0]), steps[1..], id);
    }
  }

  lemma RowsKeptStep(w: World, step: Step)
    requires Enabled(w, step) && S.SubsKept(w.b)
    ensures S.SubsKept(Apply(w, step).b)
  {
    BackRun(w, step);
    if BackSteps(step) != [] {
      S.SubsStep(w.b, BackSteps(step)[0]);
    }
  }

  lemma {:induction false} RowsKeptAlongRuns(w: World, steps: seq<Step>)
    requires CanRun(w, steps) && S.SubsKept(w.b)
    ensures S.SubsKept(Exec(w, steps).b)
    decreases |steps|
  {
    if steps != [] {
      RowsKeptStep(w, steps[0]);
      RowsKeptAlongRuns(Apply(w, steps[0]), steps[1..]);
    }
  }

  lemma ToldOnce(w: World, step: Step, id: nat)
    requires Enabled(w, step) && id in w.b.subs && id in Apply(w, step).b.subs
    ensures var row, row' := w.b.subs[id], Apply(w, step).b.subs[id];
            row'.lastSeenTag == LastTold([step], row.email, row.repo, row.lastSeenTag) && row'.email == row.email && row'.repo == row.repo
  {
    var row := w.b.subs[id];
    assert [step][1..] == [];
    TagChangesByDelivery(w, step, id, match step case ConsumeDelivered(Delivered(_, _, _, t)) => t
                                                 case ConsumeResponse(Response(ReleaseMail(_, _, _, t, _), _)) => t case _ => "");
  }

  lemma ToldFirst(steps: seq<Step>, email: string, repo: string, tag: Option<string>)
    requires steps != []
    ensures LastTold(steps, email, repo, tag) == LastTold(steps[1..], email, repo, LastTold([steps[0]], email, repo, tag))
  {
    assert [steps[0]][1..] == [];
  }

  lemma {:induction false} TagAlongRuns(w: World, steps: seq<Step>, id: nat)
    requires S.SubsKept(w.b) && CanRun(w, steps) && id in w.b.subs && id in Exec(w, steps).b.subs
    ensures var row, row' := w.b.subs[id], Exec(w, steps).b.subs[id];
            row'.lastSeenTag == LastTold(steps, row.email, row.repo, row.lastSeenTag) && row'.email == row.email && row'.repo == row.repo
    decreases |steps|
  {
    if steps != [] {
      var w1 := Apply(w, steps[0]);
      RowsKeptStep(w, steps[0]);
      if id !in w1.b.subs {
        BackRun(w, steps[0]);
        UsedStays(w, steps[0], id);
        GoneAlongRuns(w1, steps[1..], id);
      } else {
        ToldOnce(w, steps[0], id);
        ToldFirst(steps, w.b.subs[id].email, w.b.subs[id].repo, w.b.subs[id].lastSeenTag);
        TagAlongRuns(w1, steps[1..], id);
      }
    }
  }

  lemma UsedStays(w: World, step: Step, id: nat)
    requires Enabled(w, step) && id in w.b.log.usedSubs
    ensures id in Apply(w, step).b.log.usedSubs
  {
    BackRun(w, step);
    if BackSteps(step) != [] {
      E.UsedIdsGrow(w.b, BackSteps(step)[0]);
    }
  }

  /** In every run of both services, and from any moment in it: what a row shows at the end is the tag of the last
      delivery for its own pair since then, or what it showed. No other row's delivery, and nothing else, touches it. */
  lemma TagIsLastTold(cfg: N.Config, before: seq<Step>, steps: seq<Step>, id: nat)
    requires CanRun(Init(cfg), before) && CanRun(Exec(Init(cfg), before), steps)
    requires id in Exec(Init(cfg), before).b.subs && id in Exec(Exec(Init(cfg), before), steps).b.subs
    ensures var w := Exec(Init(cfg), before);
            var row, row' := w.b.subs[id], Exec(w, steps).b.subs[id];
            && row'.email == row.email && row'.repo == row.repo
            && row'.lastSeenTag == LastTold(steps, row.email, row.repo, row.lastSeenTag)
  {
    RowsKeptAlongRuns(Init(cfg), before);
    TagAlongRuns(Exec(Init(cfg), before), steps, id);
  }
}
