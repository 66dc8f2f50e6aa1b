/** What a timeout sweep does to the tables when nothing interferes, statement by statement, and what that
    comes to. */
module SagaSweep {
  import opened Messages
  import opened Tables
  import opened Backend

  /** The writes of one won compensation: the claim, the delete, the final mark. */
  function CompensateSagas(sagas: Sagas, t: Target, now: nat): Sagas
    requires t.saga in sagas
  {
    SetState(SetState(sagas, t.saga, Compensating, now), t.saga, Compensated, now)
  }

  /** The sagas after the targets were compensated one by one; a lost claim is skipped. */
  function SweepSagas(sagas: Sagas, found: seq<Target>, now: nat): Sagas {
    if found == [] then sagas
    else
      var before := SweepSagas(sagas, found[..|found| - 1], now);
      var t := found[|found| - 1];
      if CanTransition(before, t.saga, OPEN) then CompensateSagas(before, t, now) else before
  }

  /** The rows after the same. */
  function SweepSubs(subs: Subscriptions, sagas: Sagas, found: seq<Target>, now: nat): Subscriptions {
    if found == [] then subs
    else
      var before := SweepSubs(subs, sagas, found[..|found| - 1], now);
      var t := found[|found| - 1];
      if CanTransition(SweepSagas(sagas, found[..|found| - 1], now), t.saga, OPEN)
      then DeleteIfPending(before, t.subId) else before
  }

  /** The targets name open sagas, each once. */
  ghost predicate Claimable(sagas: Sagas, found: seq<Target>) {
    && (forall i :: 0 <= i < |found| ==> found[i].saga in sagas && sagas[found[i].saga].state in OPEN)
    && (forall i, j :: 0 <= i < j < |found| ==> found[i].saga != found[j].saga)
  }

  predicate Named(found: seq<Target>, g: SagaId) {
    exists i :: 0 <= i < |found| && found[i].saga == g
  }

  predicate Pointed(found: seq<Target>, id: nat) {
    exists i :: 0 <= i < |found| && found[i].subId == id
  }

  function CompensatedSaga(saga: Saga, now: nat): Saga {
    saga.(state := Compensated, updatedAt := now)
  }

  lemma {:induction false} SweepSagasExactly(sagas: Sagas, found: seq<Target>, now: nat, g: SagaId)
    requires Claimable(sagas, found)
    ensures g in SweepSagas(sagas, found, now) <==> g in sagas
    ensures g in sagas ==>
              SweepSagas(sagas, found, now)[g] == if Named(found, g) then CompensatedSaga(sagas[g], now) else sagas[g]
    decreases |found|
  {
    if found != [] {
      var n := |found| - 1;
      var front, t := found[..n], found[n];
      SweepSagasExactly(sagas, front, now, g);
      SweepSagasExactly(sagas, front, now, t.saga);
      assert !Named(front, t.saga);
      assert Named(found, g) <==> Named(front, g) || g == t.saga by {
        if Named(front, g) {
          var i :| 0 <= i < n && front[i].saga == g;
          assert found[i].saga == g;
        }
        if g == t.saga {
          assert found[n].saga == g;
        }
        if Named(found, g) && g != t.saga {
          var i :| 0 <= i < |found| && found[i].saga == g;
          assert front[i].saga == g;
        }
      }
    }
  }

  lemma {:induction false} SweepSubsExactly(subs: Subscriptions, sagas: Sagas, found: seq<Target>, now: nat, id: nat)
    requires Claimable(sagas, found)
    ensures id in SweepSubs(subs, sagas, found, now)
            <==> id in subs && !(subs[id].status.PendingRow? && Pointed(found, id))
    ensures id in SweepSubs(subs, sagas, found, now) ==> SweepSubs(subs, sagas, found, now)[id] == subs[id]
    decreases |found|
  {
    if found != [] {
      var n := |found| - 1;
      var front, t := found[..n], found[n];
      SweepSubsExactly(subs, sagas, front, now, id);
      SweepSagasExactly(sagas, front, now, t.saga);
      assert !Named(front, t.saga);
      assert Pointed(found, id) <==> Pointed(front, id) || id == t.subId by {
        if Pointed(front, id) {
          var i :| 0 <= i < n && front[i].subId == id;
          assert found[i].subId == id;
        }
        if id == t.subId {
          assert found[n].subId == id;
        }
        if Pointed(found, id) && id != t.subId {
          var i :| 0 <= i < |found| && found[i].subId == id;
          assert front[i].subId == id;
        }
      }
    }
  }

  // ---------- The sweep ----------

  lemma StuckIsClaimable(sagas: Sagas, olderThan: nat, found: seq<Target>)
    requires StuckList(sagas, olderThan, found)
    ensures Claimable(sagas, found)
    ensures forall g :: g in sagas ==> (Named(found, g) <==> Stuck(sagas[g], olderThan))
  {
    forall g | g in sagas && Stuck(sagas[g], olderThan) ensures Named(found, g) {
      var i :| 0 <= i < |found| && found[i] == Target(g, sagas[g].subId);
    }
  }

  /** Whether an open saga last written before the threshold points to the row. */
  ghost predicate PointedByStuck(sagas: Sagas, olderThan: nat, id: nat) {
    exists g :: g in sagas && (sagas[g].state == Started || sagas[g].state == AwaitingEmail) && sagas[g].updatedAt < olderThan
      && sagas[g].subId == id
  }

  lemma PointedIffStuck(sagas: Sagas, olderThan: nat, found: seq<Target>, id: nat)
    requires StuckList(sagas, olderThan, found)
    ensures Pointed(found, id) <==> PointedByStuck(sagas, olderThan, id)
  {
    if Pointed(found, id) {
      var i :| 0 <= i < |found| && found[i].subId == id;
      assert found[i].saga in sagas;
    }
    if PointedByStuck(sagas, olderThan, id) {
      var g :| g in sagas && (sagas[g].state == Started || sagas[g].state == AwaitingEmail) && sagas[g].updatedAt < olderThan
               && sagas[g].subId == id;
      assert Stuck(sagas[g], olderThan);
      var i :| 0 <= i < |found| && found[i] == Target(g, sagas[g].subId);
      assert found[i].subId == id;
    }
  }

  /** Exactly the STARTED and AWAITING_EMAIL sagas last written before the threshold become COMPENSATED; the others
      keep every column. */
  ghost predicate SagasSwept(sagas: Sagas, sagas': Sagas, olderThan: nat, now: nat) {
    && sagas'.Keys == sagas.Keys
    && forall g :: g in sagas ==>
         sagas'[g] == if (sagas[g].state == Started || sagas[g].state == AwaitingEmail) && sagas[g].updatedAt < olderThan
                      then Saga(Compensated, sagas[g].subId, sagas[g].email, sagas[g].repo, now) else sagas[g]
  }

  /** Exactly the PENDING rows that such a saga points to are gone; the others keep every column. */
  ghost predicate SubsSwept(subs: Subscriptions, subs': Subscriptions, sagas: Sagas, olderThan: nat) {
    && (forall id :: id in subs' <==> id in subs && !(subs[id].status.PendingRow? && PointedByStuck(sagas, olderThan, id)))
    && (forall id :: id in subs' ==> subs'[id] == subs[id])
  }

  lemma SweepIsExact(subs: Subscriptions, sagas: Sagas, olderThan: nat, found: seq<Target>, now: nat)
    requires StuckList(sagas, olderThan, found)
    ensures SagasSwept(sagas, SweepSagas(sagas, found, now), olderThan, now)
    ensures SubsSwept(subs, SweepSubs(subs, sagas, found, now), sagas, olderThan)
  {
    StuckIsClaimable(sagas, olderThan, found);
    var sagas', subs' := SweepSagas(sagas, found, now), SweepSubs(subs, sagas, found, now);
    forall g | g in sagas || g in sagas'
      ensures g in sagas && g in sagas'
      ensures sagas'[g] == if (sagas[g].state == Started || sagas[g].state == AwaitingEmail) && sagas[g].updatedAt < olderThan
                           then Saga(Compensated, sagas[g].subId, sagas[g].email, sagas[g].repo, now) else sagas[g]
    {
      SweepSagasExactly(sagas, found, now, g);
    }
    forall id ensures id in subs' <==> id in subs && !(subs[id].status.PendingRow? && PointedByStuck(sagas, olderThan, id))
              ensures id in subs' ==> subs'[id] == subs[id] {
      SweepSubsExactly(subs, sagas, found, now, id);
      PointedIffStuck(sagas, olderThan, found, id);
    }
  }

  /** For the threshold of a timeout, in the time that has passed since each saga's last write. */
  lemma SweptByAge(subs: Subscriptions, subs': Subscriptions, sagas: Sagas, sagas': Sagas, timeout: nat, now: nat)
    requires var olderThan := if timeout <= now then now - timeout else 0;
             SagasSwept(sagas, sagas', olderThan, now) && SubsSwept(subs, subs', sagas, olderThan)
    ensures forall g :: g in sagas && now <= sagas[g].updatedAt + timeout ==> g in sagas' && sagas'[g] == sagas[g]
    ensures forall g :: g in sagas && (sagas[g].state == Started || sagas[g].state == AwaitingEmail) && sagas[g].updatedAt + timeout < now ==>
              g in sagas' && sagas'[g] == Saga(Compensated, sagas[g].subId, sagas[g].email, sagas[g].repo, now)
    ensures forall id :: id in subs && (forall g :: g in sagas && sagas[g].subId == id ==> now <= sagas[g].updatedAt + timeout) ==>
              id in subs' && subs'[id] == subs[id]
  {
  }

  lemma FoundMeansStuck(sagas: Sagas, olderThan: nat, found: seq<Target>)
    requires StuckList(sagas, olderThan, found)
    ensures found == [] || exists g :: g in sagas && Stuck(sagas[g], olderThan)
  {
    if found != [] {
      assert found[0].saga in sagas;
    }
  }

  /** A second sweep with the same threshold finds nothing and changes nothing. */
  lemma SecondSweepDoesNothing(subs: Subscriptions, sagas: Sagas, sagas': Sagas, olderThan: nat, now: nat,
                               found: seq<Target>, later: nat)
    requires SagasSwept(sagas, sagas', olderThan, now) && StuckList(sagas', olderThan, found)
    ensures found == [] && SweepSagas(sagas', found, later) == sagas' && SweepSubs(subs, sagas', found, later) == subs
  {
    FoundMeansStuck(sagas', olderThan, found);
    forall g | g in sagas' ensures !Stuck(sagas'[g], olderThan) {
      assert g in sagas;
    }
  }
}
