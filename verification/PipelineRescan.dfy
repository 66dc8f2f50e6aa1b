/** Repeated scans: what a scan of an already mailed tag does, and does not do. */
module PipelineRescan {
  import opened Messages
  import opened Keys
  import opened Pipeline
  import N = Notification
  import D = NotificationDone
  import B = Backend
  import T = Tables

  // ---------- No second mail ----------

  /** What the notification service did in a step of the world. */
  function ServiceSteps(w: World, step: Step): seq<N.Step>
    requires match step case OrderConfirmation(p, _) => p in w.b.procs && w.b.procs[p].Created?
                        case QueueRelease(p, _, _) => p in w.b.procs && w.b.procs[p].Notifying?
                        case CallRelease(p, _, _) => p in w.b.procs && w.b.procs[p].Notifying?
                        case _ => true
  {
    match step
    case Serve(st) => [st]
    case OrderConfirmation(p, id) => [N.Publish(id, Valid(ConfirmationOrder(w.b.procs[p])))]
    case QueueRelease(p, reader, id) => [N.Publish(id, Valid(ReleaseOrder(w.b.procs[p], reader)))]
    case CallRelease(p, reader, q) => [N.Call(q, ReleaseRequest(w.b.procs[p], reader))]
    case _ => []
  }

  /** A step of the world is at most one step of the service. */
  lemma ServiceRun(w: World, step: Step)
    requires Enabled(w, step)
    ensures N.CanRun(w.n, ServiceSteps(w, step)) && Apply(w, step).n == N.Exec(w.n, ServiceSteps(w, step))
  {
    var steps := ServiceSteps(w, step);
    if steps != [] {
      assert steps[1..] == [];
      assert N.Exec(w.n, steps) == N.Exec(N.Apply(w.n, steps[0]), []);
    }
  }

  lemma {:induction false} WorldClockGrows(w: World, steps: seq<Step>)
    requires CanRun(w, steps)
    ensures w.n.now <= Exec(w, steps).n.now
    decreases |steps|
  {
    if steps != [] {
      ServiceRun(w, steps[0]);
      D.ClockGrows(w.n, ServiceSteps(w, steps[0]));
      WorldClockGrows(Apply(w, steps[0]), steps[1..]);
    }
  }

  /** While the key of a release mail is done and unclaimed, no run of the whole system (any number of
      scans of the tag, duplicate orders and calls, late and out-of-order tag advances) mails it again. */
  lemma {:induction false} RescansMailNothing(w: World, steps: seq<Step>, key: string, until: nat)
    requires D.Quiet(w.n, key, until) && CanRun(w, steps) && Exec(w, steps).n.now < until
    ensures D.Quiet(Exec(w, steps).n, key, until)
    ensures D.NoSendOf(w.n.log.sent, Exec(w, steps).n.log.sent, key)
    decreases |steps|
  {
    if steps != [] {
      var w' := Apply(w, steps[0]);
      ServiceRun(w, steps[0]);
      WorldClockGrows(w', steps[1..]);
      D.DoneKeySendsNothing(w.n, ServiceSteps(w, steps[0]), key, until);
      RescansMailNothing(w', steps[1..], key, until);
    }
  }

  // ---------- A tag that was set back is advanced again ----------

  lemma {:induction false} RunsCompose(w: World, a: seq<Step>, b: seq<Step>)
    requires CanRun(w, a) && CanRun(Exec(w, a), b)
    ensures CanRun(w, a + b) && Exec(w, a + b) == Exec(Exec(w, a), b)
    decreases |a|
  {
    if a == [] {
      assert a + b == b;
    } else {
      RunsCompose(Apply(w, a[0]), a[1..], b);
      assert (a + b)[1..] == a[1..] + b;
    }
  }

  ghost predicate Reaches(before: World, after: World) {
    exists steps :: CanRun(before, steps) && Exec(before, steps) == after
  }

  lemma ReachStep(w0: World, w: World, step: Step)
    requires Reaches(w0, w) && Enabled(w, step)
    ensures Reaches(w0, Apply(w, step))
  {
    var steps :| CanRun(w0, steps) && Exec(w0, steps) == w;
    assert [step][1..] == [];
    assert CanRun(w, [step]);
    assert Exec(w, [step]) == Exec(Apply(w, step), []);
    RunsCompose(w0, steps, [step]);
  }

  lemma FreshNat<V>(m: map<nat, V>) returns (n: nat)
    ensures n !in m
  {
    n := FreshAbove(m.Keys);
    assert n in m.Keys ==> n < n;
  }

  lemma {:induction false} FreshAbove(s: set<nat>) returns (n: nat)
    ensures forall x :: x in s ==> x < n
    decreases |s|
  {
    n := 0;
    if s != {} {
      var x :| x in s;
      var k := FreshAbove(s - {x});
      n := if k <= x then x + 1 else k;
      assert forall y :: y in s ==> y == x || y in s - {x};
    }
  }

  /** A new order for a done release mail is acknowledged without a send, and its delivered event published. */
  lemma DuplicateAnnounced(w0: World, w: World, id: nat, m: EmailMessage) returns (w': World)
    requires Reaches(w0, w) && m.ReleaseMail? && N.IsDone(w.n.store, w.n.now, m.key)
    requires id in w.n.broker.main && w.n.broker.main[id] == N.Letter(Valid(m), 0)
    ensures Reaches(w0, w') && w'.b == w.b && w'.n.log.sent == w.n.log.sent
    ensures id in w'.n.broker.acked && N.Delivered(id, m.email, m.repo, m.tag) in w'.n.log.notices
  {
    var q := FreshNat(w.n.procs);
    var w2 := ReachAnnouncing(w0, w, id, m, q);
    ReachStep(w0, w2, Serve(N.Announce(q)));
    var w3 := Apply(w2, Serve(N.Announce(q)));
    ReachStep(w0, w3, Serve(N.Ack(q)));
    w' := Apply(w3, Serve(N.Ack(q)));
  }

  lemma ReachAnnouncing(w0: World, w: World, id: nat, m: EmailMessage, q: nat) returns (w3: World)
    requires Reaches(w0, w) && m.ReleaseMail? && N.IsDone(w.n.store, w.n.now, m.key) && q !in w.n.procs
    requires id in w.n.broker.main && w.n.broker.main[id] == N.Letter(Valid(m), 0)
    ensures Reaches(w0, w3) && w3.b == w.b && w3.n.log == w.n.log
    ensures q in w3.n.procs && w3.n.procs[q] == N.Announcing(N.Job(m, N.FromQueue(id, 0)), 1)
  {
    ReachStep(w0, w, Serve(N.Take(q, id)));
    var w1 := Apply(w, Serve(N.Take(q, id)));
    ReachStep(w0, w1, Serve(N.ClaimNx(q)));
    var w2 := Apply(w1, Serve(N.ClaimNx(q)));
    ReachStep(w0, w2, Serve(N.ReadKey(q)));
    w3 := Apply(w2, Serve(N.ReadKey(q)));
  }

  /** The scan finds the reader whose row has not seen the tag. */
  lemma ScanReads(w: World, row: nat, tag: string, p: nat) returns (w1: World)
    requires row in w.b.subs && T.Outdated(w.b.subs[row], w.b.subs[row].repo, tag) && p !in w.b.procs
    ensures Reaches(w, w1) && w1.n == w.n && w1.b.subs == w.b.subs
    ensures var sub := w.b.subs[row];
            p in w1.b.procs && w1.b.procs[p].Notifying? && w1.b.procs[p].repo == sub.repo && w1.b.procs[p].tag == tag
            && B.Reader(sub.email, sub.unsubscribeToken) in w1.b.procs[p].todo
  {
    var sub := w.b.subs[row];
    assert CanRun(w, []) && Exec(w, []) == w;
    ReachStep(w, w, Local(B.ReadOutdated(p, sub.repo, tag)));
    w1 := Apply(w, Local(B.ReadOutdated(p, sub.repo, tag)));
  }

  /** And orders the mail for it. */
  lemma ScanOrders(w: World, row: nat, tag: string) returns (w': World, id: nat)
    requires row in w.b.subs && T.Outdated(w.b.subs[row], w.b.subs[row].repo, tag)
    ensures Reaches(w, w') && w'.b.subs == w.b.subs && w'.n.log == w.n.log && w'.n.store == w.n.store && w'.n.now == w.n.now
    ensures var sub := w.b.subs[row];
            id in w'.n.broker.main && w'.n.broker.main[id]
              == N.Letter(Valid(ReleaseMail(ReleaseKey(sub.email, sub.repo, tag), sub.email, sub.repo, tag, sub.unsubscribeToken)), 0)
  {
    var sub := w.b.subs[row];
    var p := FreshNat(w.b.procs);
    id := FreshNat(w.n.broker.published);
    var w1 := ScanReads(w, row, tag, p);
    var reader := B.Reader(sub.email, sub.unsubscribeToken);
    ReachStep(w, w1, QueueRelease(p, reader, id));
    w' := Apply(w1, QueueRelease(p, reader, id));
  }

  /** From any state in which the mail's key is done, the next scan of the tag can bring a row that
      does not show the tag (it was set back, or never set) to show it, with no mail sent. */
  lemma RescanHeals(w: World, row: nat, tag: string) returns (w': World)
    requires row in w.b.subs && T.Outdated(w.b.subs[row], w.b.subs[row].repo, tag)
    requires N.IsDone(w.n.store, w.n.now, ReleaseKey(w.b.subs[row].email, w.b.subs[row].repo, tag))
    ensures Reaches(w, w') && w'.n.log.sent == w.n.log.sent
    ensures row in w'.b.subs && w'.b.subs[row] == w.b.subs[row].(lastSeenTag := Some(tag))
  {
    var sub := w.b.subs[row];
    var w1, id := ScanOrders(w, row, tag);
    var m := w1.n.broker.main[id].body.m;
    var w2 := DuplicateAnnounced(w, w1, id, m);
    var notice := N.Delivered(id, sub.email, sub.repo, tag);
    ReachStep(w, w2, ConsumeDelivered(notice));
    w' := Apply(w2, ConsumeDelivered(notice));
  }
}
