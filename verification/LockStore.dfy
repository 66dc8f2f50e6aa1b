/** The scan lock store: SET NX with a token and a time to live, and the compare-and-delete script. */
module LockStore {
  const MAX_TIME_PER_REPO_SEC: nat := 2
  const MAX_TIME_PER_EMAIL_SEC: nat := 1
  const EXPECTED_EMAILS_PER_REPO: nat := 10
  const SAFETY_BUFFER_SEC: nat := 30

  datatype Lock = Lock(token: nat, expiresAt: nat)
  type LockTable = map<string, Lock>

  predicate Live(locks: LockTable, now: nat, key: string) {
    key in locks && now < locks[key].expiresAt
  }

  /** SET key token EX ttl NX, where it applies. */
  function Acquire(locks: LockTable, now: nat, key: string, token: nat, ttl: nat): LockTable
    requires !Live(locks, now, key)
  {
    locks[key := Lock(token, now + ttl)]
  }

  /** UNLOCK_IF_OWNER */
  function Unlock(locks: LockTable, now: nat, key: string, token: nat): LockTable {
    if Live(locks, now, key) && locks[key].token == token then locks - {key} else locks
  }

  /** calcDynamicTTL */
  function DynamicTtl(batchSize: nat): nat {
    batchSize * MAX_TIME_PER_REPO_SEC + batchSize * EXPECTED_EMAILS_PER_REPO * MAX_TIME_PER_EMAIL_SEC + SAFETY_BUFFER_SEC
  }

  /** What one repository of a batch costs a worker: the time of its check, and of each of its mails. */
  datatype Work = Work(check: nat, mails: seq<nat>)

  function MailTime(mails: seq<nat>): nat {
    if mails == [] then 0 else mails[0] + MailTime(mails[1..])
  }

  function WorkTime(batch: seq<Work>): nat {
    if batch == [] then 0 else batch[0].check + MailTime(batch[0].mails) + WorkTime(batch[1..])
  }

  /** A repository that stays within what the lock time allows for it. */
  predicate WithinLimits(work: Work) {
    && work.check <= MAX_TIME_PER_REPO_SEC && |work.mails| <= EXPECTED_EMAILS_PER_REPO
    && forall i :: 0 <= i < |work.mails| ==> work.mails[i] <= MAX_TIME_PER_EMAIL_SEC
  }

  lemma {:induction false} MailTimeBound(mails: seq<nat>, limit: nat)
    requires forall i :: 0 <= i < |mails| ==> mails[i] <= limit
    ensures MailTime(mails) <= |mails| * limit
    decreases |mails|
  {
    if mails != [] {
      MailTimeBound(mails[1..], limit);
    }
  }

  lemma {:induction false} WorkTimeBound(batch: seq<Work>)
    requires forall i :: 0 <= i < |batch| ==> WithinLimits(batch[i])
    ensures WorkTime(batch) + SAFETY_BUFFER_SEC <= DynamicTtl(|batch|)
    decreases |batch|
  {
    if batch != [] {
      WorkTimeBound(batch[1..]);
      MailTimeBound(batch[0].mails, MAX_TIME_PER_EMAIL_SEC);
    }
  }

  /** A worker that does a batch one repository after the other, each within its limits, has the safety buffer left when
      it ends, and no shorter lock time would leave it for every such batch of that size. */
  lemma TtlCoversWork(n: nat, ttl: nat)
    ensures ttl >= DynamicTtl(n) <==>
              forall batch: seq<Work> :: |batch| == n && (forall i :: 0 <= i < n ==> WithinLimits(batch[i])) ==>
                WorkTime(batch) + SAFETY_BUFFER_SEC <= ttl
  {
    forall batch: seq<Work> | |batch| == n && forall i :: 0 <= i < n ==> WithinLimits(batch[i])
      ensures WorkTime(batch) + SAFETY_BUFFER_SEC <= DynamicTtl(n)
    {
      WorkTimeBound(batch);
    }
    var slowest := Slowest(n);
    assert WorkTime(slowest) + SAFETY_BUFFER_SEC == DynamicTtl(n);
  }

  lemma {:induction false} SlowestMails(k: nat) returns (mails: seq<nat>)
    ensures |mails| == k && MailTime(mails) == k * MAX_TIME_PER_EMAIL_SEC
    ensures forall i :: 0 <= i < |mails| ==> mails[i] == MAX_TIME_PER_EMAIL_SEC
    decreases k
  {
    if k == 0 {
      mails := [];
    } else {
      var rest := SlowestMails(k - 1);
      mails := [MAX_TIME_PER_EMAIL_SEC] + rest;
    }
  }

  /** A batch that uses up every limit. */
  lemma {:induction false} Slowest(n: nat) returns (batch: seq<Work>)
    ensures |batch| == n && forall i :: 0 <= i < n ==> WithinLimits(batch[i])
    ensures WorkTime(batch) + SAFETY_BUFFER_SEC == DynamicTtl(n)
    decreases n
  {
    if n == 0 {
      batch := [];
    } else {
      var mails := SlowestMails(EXPECTED_EMAILS_PER_REPO);
      var rest := Slowest(n - 1);
      batch := [Work(MAX_TIME_PER_REPO_SEC, mails)] + rest;
    }
  }
}
