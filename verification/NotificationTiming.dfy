/** At-most-once delivery as a timed property: what holds when every holder of a key confirms or
    gives up before its lease ends, what fails when one does not, and what a done key rules out. */
module NotificationTiming {
  import opened Messages
  import opened Notification

  // ---------- The assumption ----------

  /** No holder has outlived its lease. */
  ghost predicate InLease(s: State) {
    forall p :: p in s.procs && Holder(s.procs[p]) ==> s.now < s.procs[p].at + s.cfg.lease
  }

  /** A step within the assumption: leases are kept, and the confirmation that follows a successful
      send is not lost. Failing sends, failing releases, crashes before the send, store errors and
      failing announcements are all allowed. */
  ghost predicate Timely(s: State, step: Step)
    requires Enabled(s, step)
  {
    && InLease(Apply(s, step))
    && !(step.Confirm? && !step.ok)
    && !(step.Crash? && s.procs[step.p].SendDone?)
  }

  ghost predicate TimelyRun(s: State, steps: seq<Step>)
    requires CanRun(s, steps)
    decreases |steps|
  {
    steps == [] || (Timely(s, steps[0]) && TimelyRun(Apply(s, steps[0]), steps[1..]))
  }

  // ---------- The invariant ----------

  predicate HoldsKey(s: State, p: nat, key: string) {
    p in s.procs && Holder(s.procs[p]) && s.procs[p].job.m.key == key
  }

  predicate HasSent(s: State, p: nat, key: string) {
    HoldsKey(s, p, key) && s.procs[p].SendDone?
  }

  /** Each holder's own entry is in the store. */
  ghost predicate Leased(s: State) {
    forall p :: p in s.procs && Holder(s.procs[p]) ==>
      var key := s.procs[p].job.m.key;
      && s.procs[p].at <= s.now
      && key in s.store && s.store[key] == Entry(Pending, s.procs[p].at + s.cfg.lease)
  }

  /** At most one handler per key is between claim and confirm or release. */
  ghost predicate Exclusive(s: State) {
    forall p, q, key :: HoldsKey(s, p, key) && HoldsKey(s, q, key) ==> p == q
  }

  /** The key reads as done until `until`, or that time is past. */
  predicate DoneUntil(s: State, key: string, until: nat) {
    || until <= s.now
    || (key in s.store && s.store[key].value.Done? && until <= s.store[key].expiresAt)
  }

  /** A mail sent less than the done TTL ago still blocks its key. */
  ghost predicate SendsBlock(s: State) {
    forall i :: 0 <= i < |s.log.sent| ==>
      var mail := s.log.sent[i];
      && mail.at <= s.now
      && (DoneUntil(s, mail.m.key, mail.at + s.cfg.doneTtl) || exists p :: HasSent(s, p, mail.m.key))
  }

  ghost predicate StampsBlock(s: State) {
    forall i :: 0 <= i < |s.log.confirmed| ==>
      s.log.confirmed[i].at <= s.now && DoneUntil(s, s.log.confirmed[i].key, s.log.confirmed[i].at + s.cfg.doneTtl)
  }

  /** Two sends with the same key are at least the done TTL apart. */
  ghost predicate Spaced(sent: seq<Mail>, ttl: nat) {
    forall i, j :: 0 <= i < j < |sent| && sent[i].m.key == sent[j].m.key ==> sent[j].at >= sent[i].at + ttl
  }

  ghost predicate AtMostOnce(s: State) {
    InLease(s) && Leased(s) && Exclusive(s) && SendsBlock(s) && StampsBlock(s) && Spaced(s.log.sent, s.cfg.doneTtl)
  }

  // ---------- Steps ----------

  /** Nothing sent or confirmed under `key` is younger than the done TTL. */
  ghost predicate Unblocked(s: State, key: string) {
    && (forall i :: 0 <= i < |s.log.sent| && s.log.sent[i].m.key == key ==> s.log.sent[i].at + s.cfg.doneTtl <= s.now)
    && (forall i :: 0 <= i < |s.log.confirmed| && s.log.confirmed[i].key == key ==>
          s.log.confirmed[i].at + s.cfg.doneTtl <= s.now)
  }

  lemma AbsentKeyIsFree(s: State, key: string)
    requires AtMostOnce(s) && !Live(s.store, s.now, key)
    ensures Unblocked(s, key) && forall p :: !HoldsKey(s, p, key)
  {
    assert forall p :: HoldsKey(s, p, key) ==> Live(s.store, s.now, s.procs[p].job.m.key);
    assert forall p :: HasSent(s, p, key) ==> HoldsKey(s, p, key);
  }

  /** A handler that holds a key and has not sent meets no younger send with that key. */
  lemma HeldKeyIsUnblocked(s: State, p: nat, key: string)
    requires AtMostOnce(s) && HoldsKey(s, p, key) && !s.procs[p].SendDone?
    ensures Unblocked(s, key)
  {
    assert key in s.store && s.store[key].value.Pending?;
    assert forall q :: HasSent(s, q, key) ==> HoldsKey(s, q, key) && q == p;
  }

  /** Steps that leave the store, the clock and the logs alone, and add no holder. */
  lemma QuietStep(s: State, s': State)
    requires AtMostOnce(s) && s'.store == s.store && s'.now == s.now && s'.cfg == s.cfg
    requires s'.log.sent == s.log.sent && s'.log.confirmed == s.log.confirmed
    requires forall p :: p in s'.procs && Holder(s'.procs[p]) ==> p in s.procs && s'.procs[p] == s.procs[p]
    requires forall p, key :: HasSent(s, p, key) ==> HasSent(s', p, key)
    ensures AtMostOnce(s')
  {
    forall p, key | HoldsKey(s', p, key) ensures HoldsKey(s, p, key) {}
    forall i | 0 <= i < |s'.log.sent|
      ensures var mail := s'.log.sent[i];
              && mail.at <= s'.now
              && (DoneUntil(s', mail.m.key, mail.at + s'.cfg.doneTtl) || exists p :: HasSent(s', p, mail.m.key))
    {
      var mail := s.log.sent[i];
      if !DoneUntil(s, mail.m.key, mail.at + s.cfg.doneTtl) {
        var p :| HasSent(s, p, mail.m.key);
        assert HasSent(s', p, mail.m.key);
      }
    }
  }

  lemma TickKeeps(s: State)
    requires AtMostOnce(s) && InLease(Apply(s, Tick))
    ensures AtMostOnce(Apply(s, Tick))
  {
    var s' := Apply(s, Tick);
    forall p, key ensures HoldsKey(s', p, key) == HoldsKey(s, p, key) && HasSent(s', p, key) == HasSent(s, p, key) {}
    forall i | 0 <= i < |s'.log.sent|
      ensures var mail := s'.log.sent[i];
              && mail.at <= s'.now
              && (DoneUntil(s', mail.m.key, mail.at + s'.cfg.doneTtl) || exists p :: HasSent(s', p, mail.m.key))
    {
      var mail := s.log.sent[i];
      if !DoneUntil(s, mail.m.key, mail.at + s.cfg.doneTtl) {
        var p :| HasSent(s, p, mail.m.key);
        assert HasSent(s', p, mail.m.key);
      }
    }
  }

  /** The store changes at `key` alone, under which nothing is blocked and which is held afresh or not at all. */
  lemma KeyRetaken(s: State, s': State, key: string)
    requires AtMostOnce(s) && Unblocked(s, key) && s'.now == s.now && s'.cfg == s.cfg && InLease(s')
    requires s'.log.sent == s.log.sent && s'.log.confirmed == s.log.confirmed
    requires forall k :: k != key ==> (k in s'.store <==> k in s.store) && (k in s.store ==> s'.store[k] == s.store[k])
    requires forall p, k :: k != key ==> (HoldsKey(s', p, k) <==> HoldsKey(s, p, k)) && (HoldsKey(s, p, k) ==> s'.procs[p] == s.procs[p])
    requires forall p :: HoldsKey(s', p, key) ==>
               s'.procs[p].at == s.now && key in s'.store && s'.store[key] == Entry(Pending, s.now + s.cfg.lease)
    requires forall p, q :: HoldsKey(s', p, key) && HoldsKey(s', q, key) ==> p == q
    ensures AtMostOnce(s')
  {
    forall i | 0 <= i < |s'.log.sent|
      ensures var mail := s'.log.sent[i];
              && mail.at <= s'.now
              && (DoneUntil(s', mail.m.key, mail.at + s'.cfg.doneTtl) || exists p :: HasSent(s', p, mail.m.key))
    {
      var mail := s.log.sent[i];
      if !DoneUntil(s, mail.m.key, mail.at + s.cfg.doneTtl) && mail.m.key != key {
        var p :| HasSent(s, p, mail.m.key);
        assert HoldsKey(s, p, mail.m.key);
        assert HasSent(s', p, mail.m.key);
      }
    }
    forall p | p in s'.procs && Holder(s'.procs[p])
      ensures var k := s'.procs[p].job.m.key;
              && s'.procs[p].at <= s'.now
              && k in s'.store && s'.store[k] == Entry(Pending, s'.procs[p].at + s'.cfg.lease)
    {
      assert HoldsKey(s', p, s'.procs[p].job.m.key);
      assert s'.procs[p].job.m.key != key ==> HoldsKey(s, p, s'.procs[p].job.m.key);
    }
  }

  lemma ClaimKeeps(s: State, p: nat)
    requires AtMostOnce(s) && Enabled(s, ClaimNx(p)) && InLease(ApplyClaimNx(s, p))
    ensures AtMostOnce(ApplyClaimNx(s, p))
  {
    var s' := ApplyClaimNx(s, p);
    var key := s.procs[p].job.m.key;
    if Live(s.store, s.now, key) {
      QuietStep(s, s');
    } else {
      AbsentKeyIsFree(s, key);
      KeyRetaken(s, s', key);
    }
  }

  lemma GiveUpKeeps(s: State, p: nat, code: Code)
    requires AtMostOnce(s) && p in s.procs && !s.procs[p].SendDone?
    ensures AtMostOnce(GiveUp(s, p, s.procs[p].job, code))
  {
    QuietStep(s, GiveUp(s, p, s.procs[p].job, code));
  }

  lemma ClaimErrorKeeps(s: State, p: nat, applied: bool)
    requires AtMostOnce(s) && Enabled(s, ClaimError(p, applied))
    ensures AtMostOnce(ApplyClaimError(s, p, applied))
  {
    var key := s.procs[p].job.m.key;
    var s1 := if applied then s.(store := SetPendingNx(s.store, s.now, key, s.cfg.lease)) else s;
    if applied && !Live(s.store, s.now, key) {
      AbsentKeyIsFree(s, key);
      KeyRetaken(s, s1, key);
    }
    GiveUpKeeps(s1, p, Unavailable);
  }

  /** A holder that stops holding leaves its key to nobody and the other keys as they were. */
  lemma HolderLeaves(s: State, s': State, p: nat, key: string)
    requires AtMostOnce(s) && HoldsKey(s, p, key) && s'.cfg == s.cfg && s'.now == s.now
    requires p in s'.procs ==> !Holder(s'.procs[p])
    requires forall q :: q != p ==> (q in s'.procs <==> q in s.procs) && (q in s.procs ==> s'.procs[q] == s.procs[q])
    ensures InLease(s') && forall q :: !HoldsKey(s', q, key)
    ensures forall q, k :: k != key ==> (HoldsKey(s', q, k) <==> HoldsKey(s, q, k)) && (HoldsKey(s, q, k) ==> s'.procs[q] == s.procs[q])
  {
    forall q, k ensures HoldsKey(s', q, k) <==> (HoldsKey(s, q, k) && q != p) {}
    assert forall q :: HoldsKey(s, q, key) ==> q == p;
  }

  lemma ReleaseKeeps(s: State, p: nat, ok: bool)
    requires AtMostOnce(s) && Enabled(s, Release(p, ok))
    ensures AtMostOnce(ApplyRelease(s, p, ok))
  {
    var key := s.procs[p].job.m.key;
    var s' := ApplyRelease(s, p, ok);
    if ok {
      assert HoldsKey(s, p, key);
      HeldKeyIsUnblocked(s, p, key);
      HolderLeaves(s, s', p, key);
      KeyRetaken(s, s', key);
    } else {
      QuietStep(s, s');
    }
  }

  lemma SendOkKeeps(s: State, p: nat)
    requires AtMostOnce(s) && Enabled(s, SendOk(p))
    ensures AtMostOnce(ApplySendOk(s, p))
  {
    var s' := ApplySendOk(s, p);
    var key := s.procs[p].job.m.key;
    assert HoldsKey(s, p, key);
    HeldKeyIsUnblocked(s, p, key);
    assert HasSent(s', p, key);
    forall q, k ensures HoldsKey(s', q, k) == HoldsKey(s, q, k) && (HasSent(s, q, k) ==> HasSent(s', q, k)) {}
    forall i | 0 <= i < |s'.log.sent|
      ensures var mail := s'.log.sent[i];
              && mail.at <= s'.now
              && (DoneUntil(s', mail.m.key, mail.at + s'.cfg.doneTtl) || exists q :: HasSent(s', q, mail.m.key))
    {
      if i < |s.log.sent| {
        var mail := s.log.sent[i];
        if !DoneUntil(s, mail.m.key, mail.at + s.cfg.doneTtl) {
          var q :| HasSent(s, q, mail.m.key);
          assert HasSent(s', q, mail.m.key);
        }
      }
    }
  }

  lemma ConfirmKeeps(s: State, p: nat)
    requires AtMostOnce(s) && Enabled(s, Confirm(p, true))
    ensures AtMostOnce(ApplyConfirm(s, p, true))
  {
    var s' := ApplyConfirm(s, p, true);
    var key := s.procs[p].job.m.key;
    assert HoldsKey(s, p, key);
    HolderLeaves(s, s', p, key);
    forall q | q in s'.procs && Holder(s'.procs[q])
      ensures s'.procs[q].job.m.key != key && q in s.procs && s'.procs[q] == s.procs[q]
    {
      assert HoldsKey(s', q, s'.procs[q].job.m.key);
    }
    forall i | 0 <= i < |s'.log.sent|
      ensures var mail := s'.log.sent[i];
              && mail.at <= s'.now
              && (DoneUntil(s', mail.m.key, mail.at + s'.cfg.doneTtl) || exists q :: HasSent(s', q, mail.m.key))
    {
      var mail := s.log.sent[i];
      if mail.m.key != key && !DoneUntil(s, mail.m.key, mail.at + s.cfg.doneTtl) {
        var q :| HasSent(s, q, mail.m.key);
        assert HoldsKey(s, q, mail.m.key) && q != p;
        assert HasSent(s', q, mail.m.key);
      }
    }
  }

  lemma OtherStepsKeep(s: State, step: Step)
    requires AtMostOnce(s) && Enabled(s, step)
    requires step.Publish? || step.Expire? || step.Take? || step.Call? || step.Announce? || step.Ack? || step.Report?
             || (step.Crash? && !s.procs[step.p].SendDone?)
    ensures AtMostOnce(Apply(s, step))
  {
    QuietStep(s, Apply(s, step));
  }

  lemma SendErrorKeeps(s: State, p: nat)
    requires AtMostOnce(s) && Enabled(s, SendError(p))
    ensures AtMostOnce(Apply(s, SendError(p)))
  {
    var s' := Apply(s, SendError(p));
    forall q, k ensures HoldsKey(s', q, k) == HoldsKey(s, q, k) && HasSent(s, q, k) == HasSent(s', q, k) {}
    forall i | 0 <= i < |s'.log.sent|
      ensures var mail := s'.log.sent[i];
              && mail.at <= s'.now
              && (DoneUntil(s', mail.m.key, mail.at + s'.cfg.doneTtl) || exists q :: HasSent(s', q, mail.m.key))
    {
      var mail := s.log.sent[i];
      if !DoneUntil(s, mail.m.key, mail.at + s.cfg.doneTtl) {
        var q :| HasSent(s, q, mail.m.key);
        assert HasSent(s', q, mail.m.key);
      }
    }
  }

  lemma TimelyStep(s: State, step: Step)
    requires AtMostOnce(s) && Enabled(s, step) && Timely(s, step)
    ensures AtMostOnce(Apply(s, step))
  {
    match step
    case Tick => TickKeeps(s);
    case ClaimNx(p) => ClaimKeeps(s, p);
    case ClaimError(p, applied) => ClaimErrorKeeps(s, p, applied);
    case ReadKey(p) =>
      if !IsDone(s.store, s.now, s.procs[p].job.m.key) {
        GiveUpKeeps(s, p, Aborted);
      } else {
        QuietStep(s, ApplyReadKey(s, p));
      }
    case ReadError(p) => GiveUpKeeps(s, p, Unavailable);
    case SendOk(p) => SendOkKeeps(s, p);
    case SendError(p) => SendErrorKeeps(s, p);
    case Release(p, ok) => ReleaseKeeps(s, p, ok);
    case Confirm(p, _) => ConfirmKeeps(s, p);
    case AnnounceError(p, _) => QuietStep(s, Apply(s, step));
    case _ => OtherStepsKeep(s, step);
  }

  /** For any number of queue and gRPC handlers: if leases are kept and no confirmation is lost, at
      most one handler per key is between claim and confirm or release, and two successful sends
      with one key are at least the done TTL apart. */
  lemma {:induction false} TimedAtMostOnce(s: State, steps: seq<Step>)
    requires AtMostOnce(s) && CanRun(s, steps) && TimelyRun(s, steps)
    ensures AtMostOnce(Exec(s, steps))
    decreases |steps|
  {
    if steps != [] {
      TimelyStep(s, steps[0]);
      TimedAtMostOnce(Apply(s, steps[0]), steps[1..]);
    }
  }
}
