/** The scan worker as it runs: process the batch, then acknowledge and give the lock back; or retry with a
    confirmed publish, and give the lock back only when the message is discarded. */
module ScanWorker {
  import opened LockStore
  import opened ScanLocks
  import opened ScanRuns
  import opened Traces

  /** How handling a message ended. */
  datatype Path =
    | Finished(lost: bool, unlocked: bool)     // lost: the ack or nack never reached the broker
    | Discarded(lost: bool, unlocked: bool)
    | Retried(copy: nat)
    | Requeued(copy: nat, stored: bool)

  function PathOwn(p: nat, id: nat, path: Path): seq<Step> {
    match path
    case Finished(lost, ok) => [Take(p, id), ProcessOk(p, lost), UnlockStep(p, ok)]
    case Discarded(lost, ok) => [Take(p, id), ProcessFail(p, lost), UnlockStep(p, ok)]
    case Retried(copy) => [Take(p, id), ProcessFail(p, false), RepublishOk(p, copy)]
    case Requeued(copy, stored) => [Take(p, id), ProcessFail(p, false), RepublishError(p, copy, stored)]
  }

  class Worker {
    const shared: Shared
    const lockStore: RedisLockStore

    constructor (lockStore: RedisLockStore)
      ensures this.lockStore == lockStore && shared == lockStore.shared
    {
      this.shared, this.lockStore := lockStore.shared, lockStore;
    }

    method TakeMessage(ghost p: nat, id: nat) returns (copy: Copy)
      requires shared.Valid() && p !in shared.model.procs && id in shared.main
      modifies shared
      ensures shared.Valid() && shared.Took(p, old(shared.trace), [Take(p, id)], 0)
      ensures copy == old(shared.main)[id] && At(shared.model, p, Processing(copy.job, id, copy.retries))
    {
      copy := shared.main[id];
      shared.main := shared.main - {id};
      shared.Record(p, Take(p, id));
    }

    /** releaseLock: the compare-and-delete; an error is logged and the lock left to expire. */
    method ReleaseLock(ghost p: nat, job: Job) returns (ok: bool)
      requires lockStore.shared == shared && shared.Valid() && At(shared.model, p, Unlocking(job))
      modifies shared
      ensures shared.Valid() && shared.Took(p, old(shared.trace), [UnlockStep(p, ok)], 0) && p !in shared.model.procs
      ensures shared.locks == if ok then Unlock(old(shared.locks), shared.now, job.key, job.token) else old(shared.locks)
    {
      ok := *;
      if ok {
        var _ := lockStore.UnlockIfOwner(job.key, job.token);
      }
      shared.Record(p, UnlockStep(p, ok));
    }

    /** What the batch processing came to. */
    method Settle(ghost p: nat, id: nat, copy: Copy, ok: bool) returns (lost: bool)
      requires shared.Valid() && At(shared.model, p, Processing(copy.job, id, copy.retries))
      modifies shared
      ensures shared.Valid() && shared.Took(p, old(shared.trace), [if ok then ProcessOk(p, lost) else ProcessFail(p, lost)], 0)
      ensures At(shared.model, p, if ok || copy.retries >= MAX_RETRIES then Unlocking(copy.job)
                                  else Republishing(copy.job, id, copy.retries))
      ensures shared.locks == old(shared.locks)
      ensures lost ==> (ok || copy.retries >= MAX_RETRIES) && id in shared.main && shared.main[id] == copy
    {
      lost := *;
      if lost && (ok || copy.retries >= MAX_RETRIES) {
        shared.main := shared.main[id := copy];
      } else {
        lost := false;
      }
      shared.Record(p, if ok then ProcessOk(p, lost) else ProcessFail(p, lost));
    }

    /** handleRetry's confirmed publish: only a confirmed copy settles the message; otherwise it goes back to
        the scan queue, also when its copy was stored all the same. */
    method Republish(ghost p: nat, id: nat, copy: Copy) returns (path: Path)
      requires shared.Valid() && At(shared.model, p, Republishing(copy.job, id, copy.retries))
      modifies shared
      ensures shared.Valid() && p !in shared.model.procs && (path.Retried? || path.Requeued?)
      ensures shared.Took(p, old(shared.trace), PathOwn(p, id, path)[2..], 0)
      ensures path.Retried? ==> path.copy in shared.retry && shared.retry[path.copy] == Copy(copy.job, copy.retries + 1)
      ensures path.Requeued? ==> id in shared.main && shared.main[id] == copy
      ensures shared.locks == old(shared.locks)
    {
      var copyId := shared.nextId;
      shared.nextId := copyId + 1;
      var confirmed := *;
      if confirmed {
        DropOriginal(p, id, copy, copyId);
        path := Retried(copyId);
      } else {
        var stored := PutBack(p, id, copy, copyId);
        path := Requeued(copyId, stored);
      }
    }

    /** The copy is confirmed, and the original dropped. */
    method DropOriginal(ghost p: nat, ghost id: nat, copy: Copy, copyId: nat)
      requires shared.Modelled() && shared.Agrees() && At(shared.model, p, Republishing(copy.job, id, copy.retries))
      requires IdsBelow(shared.model, copyId, shared.nextToken) && shared.nextId == copyId + 1
      modifies shared
      ensures shared.Valid() && p !in shared.model.procs && shared.Took(p, old(shared.trace), [RepublishOk(p, copyId)], 0)
      ensures copyId in shared.retry && shared.retry[copyId] == Copy(copy.job, copy.retries + 1)
      ensures shared.locks == old(shared.locks)
    {
      shared.retry := shared.retry[copyId := Copy(copy.job, copy.retries + 1)];
      shared.Record(p, RepublishOk(p, copyId));
    }

    /** No confirmation: the original goes back to the scan queue, and its copy may be in the retry queue. */
    method PutBack(ghost p: nat, id: nat, copy: Copy, copyId: nat) returns (stored: bool)
      requires shared.Modelled() && shared.Agrees() && At(shared.model, p, Republishing(copy.job, id, copy.retries))
      requires IdsBelow(shared.model, copyId, shared.nextToken) && shared.nextId == copyId + 1
      modifies shared
      ensures shared.Valid() && p !in shared.model.procs
      ensures shared.Took(p, old(shared.trace), [RepublishError(p, copyId, stored)], 0)
      ensures id in shared.main && shared.main[id] == copy && shared.locks == old(shared.locks)
    {
      stored := *;
      if stored {
        shared.retry := shared.retry[copyId := Copy(copy.job, copy.retries + 1)];
      }
      shared.main := shared.main[id := copy];
      shared.Record(p, RepublishError(p, copyId, stored));
    }

    method AwaitAndRepublish(ghost p: nat, id: nat, copy: Copy) returns (path: Path, ghost noise: nat)
      requires shared.Valid() && At(shared.model, p, Republishing(copy.job, id, copy.retries))
      modifies shared
      ensures shared.Valid() && p !in shared.model.procs && (path.Retried? || path.Requeued?)
      ensures shared.Took(p, old(shared.trace), PathOwn(p, id, path)[2..], noise)
      ensures path.Retried? ==> path.copy in shared.retry && shared.retry[path.copy] == Copy(copy.job, copy.retries + 1)
    {
      noise := shared.Await(p);
      path := Republish(p, id, copy);
    }

    method TakeAndProcess(ghost p: nat, id: nat) returns (copy: Copy, ok: bool, lost: bool, ghost noise: nat)
      requires shared.Valid() && p !in shared.model.procs && id in shared.main
      modifies shared
      ensures shared.Valid() && copy == old(shared.main)[id]
      ensures shared.Took(p, old(shared.trace), [Take(p, id), if ok then ProcessOk(p, lost) else ProcessFail(p, lost)], noise)
      ensures At(shared.model, p, if ok || copy.retries >= MAX_RETRIES then Unlocking(copy.job)
                                  else Republishing(copy.job, id, copy.retries))
      ensures lost ==> ok || copy.retries >= MAX_RETRIES
    {
      copy := TakeMessage(p, id);
      noise := shared.Await(p);
      ok := *;
      lost := Settle(p, id, copy, ok);
    }

    /** processMessage: the lock is given back exactly when the message is finished or discarded; a message that
        will be seen again keeps it. */
    method ProcessMessage(ghost p: nat, id: nat) returns (path: Path, ghost noise: nat)
      requires lockStore.shared == shared && shared.Valid() && p !in shared.model.procs && id in shared.main
      modifies shared
      ensures shared.Valid() && p !in shared.model.procs
      ensures shared.Took(p, old(shared.trace), PathOwn(p, id, path), noise)
      ensures path.Discarded? ==> old(shared.main)[id].retries >= MAX_RETRIES
      ensures path.Retried? || path.Requeued? ==> old(shared.main)[id].retries < MAX_RETRIES
      ensures path.Retried? ==>
                var copy := old(shared.main)[id];
                path.copy in shared.retry && shared.retry[path.copy] == Copy(copy.job, copy.retries + 1)
    {
      var copy, ok, lost;
      copy, ok, lost, noise := TakeAndProcess(p, id);
      ghost var mid, more := shared.trace, 0;
      if ok || copy.retries >= MAX_RETRIES {
        var unlocked := ReleaseLock(p, copy.job);
        path := if ok then Finished(lost, unlocked) else Discarded(lost, unlocked);
      } else {
        path, more := AwaitAndRepublish(p, id, copy);
      }
      TookThen(old(shared.trace), mid, shared.trace, Mine(p),
               [Take(p, id), if ok then ProcessOk(p, lost) else ProcessFail(p, lost)], noise, PathOwn(p, id, path)[2..], more);
      noise := noise + more;
    }
  }
}
