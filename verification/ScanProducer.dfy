/** ScanJobProducer: sorted batches of repositories, each guarded by a lock that travels in its message. */
module ScanProducer {
  import opened Strings
  import opened Keys
  import opened LockStore
  import opened ScanLocks
  import opened ScanRuns
  import opened ScanAccounts
  import opened Traces

  const SCAN_BATCH_SIZE: nat := 50

  // ---------- chunk ----------

  function Chunks<T>(items: seq<T>, size: nat): seq<seq<T>>
    requires size > 0
    decreases |items|
  {
    if items == [] then [] else if |items| <= size then [items] else [items[..size]] + Chunks(items[size..], size)
  }

  function Concat<T>(xss: seq<seq<T>>): seq<T> {
    if xss == [] then [] else xss[0] + Concat(xss[1..])
  }

  /** Chunks put end to end are the list; all but the last have full size, and the last is not empty. */
  lemma {:induction false} ChunksCover<T>(items: seq<T>, size: nat)
    requires size > 0
    ensures var chunks := Chunks(items, size);
            && Concat(chunks) == items
            && (forall i :: 0 <= i < |chunks| - 1 ==> |chunks[i]| == size)
            && (chunks != [] ==> 0 < |chunks[|chunks| - 1]| <= size)
    decreases |items|
  {
    if |items| > size {
      ChunksCover(items[size..], size);
      assert items == items[..size] + items[size..];
    } else if items != [] {
      assert Concat([items]) == items + Concat([]);
    }
  }

  function From<T>(items: seq<T>, i: nat): seq<T> {
    if i < |items| then items[i..] else []
  }

  /** slice(start, end), which stops at the end of the array. */
  function Slice<T>(items: seq<T>, start: nat, end: nat): seq<T>
    requires start <= end && start <= |items|
  {
    if end < |items| then items[start..end] else items[start..]
  }

  lemma NextChunk<T>(items: seq<T>, size: nat, i: nat)
    requires size > 0 && i < |items|
    ensures Chunks(From(items, i), size) == [Slice(items, i, i + size)] + Chunks(From(items, i + size), size)
  {
    if i + size < |items| {
      assert items[i..][..size] == items[i..i + size] && items[i..][size..] == items[i + size..];
    }
  }

  /** One more element of `all` moves from what is left to what is done. */
  lemma MoveOne<T>(done: seq<T>, all: seq<T>, x: T, left: seq<T>)
    requires all == done + ([x] + left)
    ensures all == (done + [x]) + left
  {
  }

  method Chunk<T>(items: seq<T>, size: nat) returns (batches: seq<seq<T>>)
    requires size > 0
    ensures batches == Chunks(items, size)
  {
    batches := [];
    var i := 0;
    ghost var all, left := Chunks(items, size), Chunks(From(items, 0), size);
    assert items != [] ==> items[0..] == items;
    assert all == batches + left;
    while i < |items|
      invariant left == Chunks(From(items, i), size)
      invariant all == batches + left
    {
      NextChunk(items, size, i);
      var batch := Slice(items, i, i + size);
      left := Chunks(From(items, i + size), size);
      MoveOne(batches, all, batch, left);
      batches := batches + [batch];
      i := i + size;
    }
    assert batches + [] == batches;
  }

  // ---------- What a call does ----------

  function Batches(repos: seq<string>): seq<seq<string>> {
    Chunks(Sort(repos), SCAN_BATCH_SIZE)
  }

  /** The batches of a call are the sorted list, cut after every SCAN_BATCH_SIZE names. */
  lemma BatchesCoverSortedList(repos: seq<string>)
    ensures var batches := Batches(repos);
            && Concat(batches) == Sort(repos) && Sorted(Concat(batches)) && multiset(Concat(batches)) == multiset(repos)
            && (forall i :: 0 <= i < |batches| - 1 ==> |batches[i]| == SCAN_BATCH_SIZE)
            && (batches != [] ==> 0 < |batches[|batches| - 1]| <= SCAN_BATCH_SIZE)
  {
    ChunksCover(Sort(repos), SCAN_BATCH_SIZE);
    SortSorted(repos);
    SortPermutes(repos);
  }

  lemma PermutationsShareBatches(repos: seq<string>, again: seq<string>)
    requires multiset(again) == multiset(repos)
    ensures Batches(again) == Batches(repos)
  {
    SortCanonical(repos, again);
  }

  /** ScanJobPayload */
  datatype ScanJob = ScanJob(repos: seq<string>, lockKey: string, lockToken: nat)

  /** What became of a batch: its lock was held, or it went out in message `id`, or the channel refused it and
      its lock was given back. */
  datatype Outcome = Skipped | Queued(id: nat) | GivenBack(id: nat)

  /** One batch of a call: the token drawn for it, and its outcome. */
  datatype Round = Round(token: nat, outcome: Outcome)

  /** The producer's own steps for a batch. */
  function BatchOwn(p: nat, batch: seq<string>, r: Round): seq<Step> {
    [TryAcquire(p, LockKey(batch), r.token, DynamicTtl(|batch|))] + FateOwn(p, r.outcome)
  }

  function FateOwn(p: nat, o: Outcome): seq<Step> {
    match o
    case Skipped => []
    case Queued(id) => [Send(p, id, true)]
    case GivenBack(id) => [Send(p, id, false), UnlockStep(p, true)]
  }

  function CallOwn(p: nat, batches: seq<seq<string>>, rounds: seq<Round>): seq<Step>
    requires |rounds| <= |batches|
  {
    if rounds == [] then []
    else
      var k := |rounds| - 1;
      CallOwn(p, batches, rounds[..k]) + BatchOwn(p, batches[k], rounds[k])
  }

  /** The payloads sent: one for each batch that was queued, with the batch, its key and its token. */
  function Payloads(batches: seq<seq<string>>, rounds: seq<Round>): seq<ScanJob>
    requires |rounds| <= |batches|
  {
    if rounds == [] then []
    else
      var k := |rounds| - 1;
      Payloads(batches, rounds[..k]) + PayloadOf(batches[k], rounds[k])
  }

  function PayloadOf(batch: seq<string>, r: Round): seq<ScanJob> {
    if r.outcome.Queued? then [ScanJob(batch, LockKey(batch), r.token)] else []
  }

  // ---------- What a call leaves behind ----------

  /** What is true of a batch's token ever after: unless its job went out, no job and no live lock has it. */
  ghost predicate SettledIn(s: State, r: Round) {
    r.token in s.past.used && (r.outcome.Queued? || Gone(s, r.token))
  }

  ghost predicate AllSettled(s: State, rounds: seq<Round>) {
    forall j :: 0 <= j < |rounds| ==> SettledIn(s, rounds[j])
  }

  lemma SettledLater(a: seq<Step>, b: seq<Step>, rounds: seq<Round>)
    requires CanRun(Init(), b) && a <= b && CanRun(Init(), a) && AllSettled(Exec(Init(), a), rounds)
    ensures AllSettled(Exec(Init(), b), rounds)
  {
    forall j | 0 <= j < |rounds| ensures SettledIn(Exec(Init(), b), rounds[j]) {
      assert SettledIn(Exec(Init(), a), rounds[j]);
      UsedLater(a, b, rounds[j].token);
      if !rounds[j].outcome.Queued? {
        GoneLater(a, b, rounds[j].token);
      }
    }
  }

  /** The tokens are new to the store and to each other. */
  ghost predicate NewTokens(rounds: seq<Round>, used: set<nat>) {
    && (forall j :: 0 <= j < |rounds| ==> rounds[j].token !in used)
    && (forall i, j :: 0 <= i < j < |rounds| ==> rounds[i].token != rounds[j].token)
  }

  lemma TokensGrow(rounds: seq<Round>, r: Round, used: set<nat>, s: State)
    requires NewTokens(rounds, used) && AllSettled(s, rounds) && r.token !in s.past.used && used <= s.past.used.Keys
    ensures NewTokens(rounds + [r], used)
  {
    assert forall j :: 0 <= j < |rounds| ==> SettledIn(s, rounds[j]);
  }

  /** A batch is taken up only if the lock that stood for it at the start has fallen. */
  ghost predicate OnlyFallenTaken(was: LockTable, s: State, keys: seq<string>, rounds: seq<Round>)
    requires |rounds| <= |keys|
  {
    forall j :: 0 <= j < |rounds| ==> rounds[j].outcome.Skipped? || !Stands(was, s, keys[j])
  }

  lemma FallenTakenLater(was: LockTable, a: seq<Step>, b: seq<Step>, keys: seq<string>, rounds: seq<Round>)
    requires CanRun(Init(), b) && a <= b && CanRun(Init(), a) && |rounds| <= |keys|
    requires OnlyFallenTaken(was, Exec(Init(), a), keys, rounds)
    requires forall key :: key in was ==> was[key].token in Exec(Init(), a).past.used
    ensures OnlyFallenTaken(was, Exec(Init(), b), keys, rounds)
  {
    forall j | 0 <= j < |rounds| && !rounds[j].outcome.Skipped? ensures !Stands(was, Exec(Init(), b), keys[j]) {
      FallenLater(was, a, b, keys[j]);
    }
  }

  predicate AllSkipped(rounds: seq<Round>) {
    forall j :: 0 <= j < |rounds| ==> rounds[j].outcome.Skipped?
  }

  predicate AllQueued(rounds: seq<Round>) {
    forall j :: 0 <= j < |rounds| ==> rounds[j].outcome.Queued?
  }

  /** The job of a queued batch waits in the queue as it was sent. */
  predicate Waits(s: State, r: Round, lock: Job) {
    r.outcome.Queued? ==> r.outcome.id in s.main && s.main[r.outcome.id] == Copy(lock, 0) && lock.token == r.token
  }

  /** What a call keeps while the others only let time pass: as long as every lock it meets is live it changes
      nothing, and whatever it sends stays where it was put. */
  ghost predicate QuietKept(start: State, s: State, keys: seq<string>, rounds: seq<Round>, locks: seq<Job>)
    requires |locks| == |rounds| <= |keys|
  {
    && s.past.doubled == start.past.doubled && start.now <= s.now
    && (AllSkipped(rounds) ==> s.locks == start.locks && s.main == start.main)
    && (AllSkipped(rounds) || exists j :: 0 <= j < |rounds| && !Live(start.locks, s.now, keys[j]))
    && (forall j :: 0 <= j < |rounds| ==> Waits(s, rounds[j], locks[j]))
  }

  lemma QuietRound(start: State, s: State, s': State, keys: seq<string>, rounds: seq<Round>, locks: seq<Job>,
                   r: Round, lock: Job)
    requires |locks| == |rounds| < |keys| && QuietKept(start, s, keys, rounds, locks)
    requires s'.past.doubled == s.past.doubled && s.now <= s'.now && lock.token == r.token
    requires r.outcome.Skipped? <==> Live(s.locks, s.now, keys[|rounds|])
    requires r.outcome.Skipped? ==> s'.locks == s.locks
    requires r.outcome.Queued? ==> r.outcome.id !in s.main
    requires s'.main == if r.outcome.Queued? then s.main[r.outcome.id := Copy(lock, 0)] else s.main
    ensures QuietKept(start, s', keys, rounds + [r], locks + [lock])
  {
    var k := |rounds|;
    var rounds', locks' := rounds + [r], locks + [lock];
    if !AllSkipped(rounds) {
      var j :| 0 <= j < k && !Live(start.locks, s.now, keys[j]);
      assert !Live(start.locks, s'.now, keys[j]);
      assert !AllSkipped(rounds') by {
        var i :| 0 <= i < k && !rounds[i].outcome.Skipped?;
        assert rounds'[i] == rounds[i];
      }
    } else if !r.outcome.Skipped? {
      assert !Live(start.locks, s'.now, keys[k]);
      assert rounds'[k] == r;
    }
    forall j | 0 <= j < k + 1 ensures Waits(s', rounds'[j], locks'[j]) {
      assert j < k ==> Waits(s, rounds[j], locks[j]);
    }
  }

  ghost predicate OwnSoFar(p: nat, before: seq<Step>, after: seq<Step>, batches: seq<seq<string>>, rounds: seq<Round>, noise: nat)
    requires |rounds| <= |batches|
  {
    before <= after && Took(before, after, Mine(p), CallOwn(p, batches, rounds), noise)
  }

  lemma OwnGrows(p: nat, before: seq<Step>, mid: seq<Step>, after: seq<Step>, batches: seq<seq<string>>,
                 rounds: seq<Round>, r: Round, noise: nat, more: nat)
    requires |rounds| < |batches| && OwnSoFar(p, before, mid, batches, rounds, noise)
    requires mid <= after && Took(mid, after, Mine(p), BatchOwn(p, batches[|rounds|], r), more)
    ensures OwnSoFar(p, before, after, batches, rounds + [r], noise + more)
  {
    assert (rounds + [r])[..|rounds|] == rounds;
    TookThen(before, mid, after, Mine(p), CallOwn(p, batches, rounds), noise, BatchOwn(p, batches[|rounds|], r), more);
  }

  ghost predicate TokensSoFar(start: State, s: State, keys: seq<string>, rounds: seq<Round>)
    requires |rounds| <= |keys|
  {
    && start.past.used.Keys <= s.past.used.Keys && (forall key :: key in start.locks ==> start.locks[key].token in start.past.used)
    && NewTokens(rounds, start.past.used.Keys) && AllSettled(s, rounds) && OnlyFallenTaken(start.locks, s, keys, rounds)
  }

  lemma TokensSoFarGrow(start: State, mid: seq<Step>, after: seq<Step>, keys: seq<string>, rounds: seq<Round>, r: Round)
    requires CanRun(Init(), after) && mid <= after && CanRun(Init(), mid) && |rounds| < |keys|
    requires TokensSoFar(start, Exec(Init(), mid), keys, rounds)
    requires r.token !in Exec(Init(), mid).past.used && SettledIn(Exec(Init(), after), r)
    requires r.outcome.Skipped? || !Stands(start.locks, Exec(Init(), mid), keys[|rounds|])
    ensures TokensSoFar(start, Exec(Init(), after), keys, rounds + [r])
  {
    var rounds' := rounds + [r];
    SettledLater(mid, after, rounds);
    TokensGrow(rounds, r, start.past.used.Keys, Exec(Init(), mid));
    FallenTakenLater(start.locks, mid, after, keys, rounds);
    if !r.outcome.Skipped? {
      FallenLater(start.locks, mid, after, keys[|rounds|]);
    }
    forall token | token in start.past.used ensures token in Exec(Init(), after).past.used {
      UsedLater(mid, after, token);
    }
    forall j | 0 <= j < |rounds'| ensures SettledIn(Exec(Init(), after), rounds'[j]) {
      assert j < |rounds| ==> SettledIn(Exec(Init(), after), rounds[j]);
    }
  }

  ghost predicate QuietSoFar(p: nat, before: seq<Step>, after: seq<Step>, start: State, s: State,
                             batches: seq<seq<string>>, rounds: seq<Round>, locks: seq<Job>)
    requires |locks| == |rounds| <= |batches|
  {
    Quiet(p, before, after) ==>
      QuietKept(start, s, KeysOf(batches), rounds, locks) && Timed(start.now, batches, locks)
  }

  lemma QuietGrows(p: nat, before: seq<Step>, mid: seq<Step>, after: seq<Step>, start: State, s: State, s': State,
                   batches: seq<seq<string>>, rounds: seq<Round>, locks: seq<Job>, r: Round, lock: Job)
    requires |locks| == |rounds| < |batches| && before <= mid <= after
    requires QuietSoFar(p, before, mid, start, s, batches, rounds, locks)
    requires var batch := batches[|rounds|];
             lock == Job(LockKey(batch), r.token, s.now, s.now + DynamicTtl(|batch|))
             && (r.outcome.Skipped? <==> Live(s.locks, s.now, lock.key))
    requires Quiet(p, mid, after) ==>
               && s'.past.doubled == s.past.doubled && s.now <= s'.now && (r.outcome.Skipped? ==> s'.locks == s.locks)
               && (r.outcome.Queued? ==> r.outcome.id !in s.main)
               && s'.main == if r.outcome.Queued? then s.main[r.outcome.id := Copy(lock, 0)] else s.main
    ensures QuietSoFar(p, before, after, start, s', batches, rounds + [r], locks + [lock])
  {
    if Quiet(p, before, after) {
      assert Quiet(p, before, mid) && Quiet(p, mid, after);
      QuietRound(start, s, s', KeysOf(batches), rounds, locks, r, lock);
      forall j | 0 <= j < |locks| + 1
        ensures (locks + [lock])[j].key == KeysOf(batches)[j]
        ensures start.now + DynamicTtl(|batches[j]|) <= (locks + [lock])[j].expiresAt
      {
      }
    }
  }

  lemma NothingSoFar(p: nat, before: seq<Step>, after: seq<Step>, batches: seq<seq<string>>, noise: nat)
    requires CanRun(Init(), after) && CanRun(Init(), before) && before <= after && Took(before, after, Mine(p), [], noise)
    requires Quiet(p, before, after) ==>
               && Exec(Init(), before).now <= Exec(Init(), after).now
               && Exec(Init(), after) == Exec(Init(), before).(now := Exec(Init(), after).now)
    ensures OwnSoFar(p, before, after, batches, [], noise)
    ensures TokensSoFar(Exec(Init(), before), Exec(Init(), after), KeysOf(batches), [])
    ensures QuietSoFar(p, before, after, Exec(Init(), before), Exec(Init(), after), batches, [], [])
  {
    AccountsAt(before);
    forall token | token in Exec(Init(), before).past.used ensures token in Exec(Init(), after).past.used {
      UsedLater(before, after, token);
    }
  }

  lemma PayloadsGrow(batches: seq<seq<string>>, rounds: seq<Round>, r: Round)
    requires |rounds| < |batches|
    ensures Payloads(batches, rounds + [r]) == Payloads(batches, rounds) + PayloadOf(batches[|rounds|], r)
  {
    assert (rounds + [r])[..|rounds|] == rounds;
  }

  // ---------- What a call comes to ----------

  /** Each lock taken in a call is carried by exactly one job sent, or was given back: whenever later a live lock has
      a token of the call, that batch's job went out, and one job carries it, in a message or in a worker's hands.
      The exceptions are a holder that died and a message that was doubled. */
  lemma CallAccounts(trace: seq<Step>, rounds: seq<Round>, j: nat, key: string)
    requires CanRun(Init(), trace) && AllSettled(Exec(Init(), trace), rounds) && j < |rounds|
    requires var s := Exec(Init(), trace);
             Live(s.locks, s.now, key) && s.locks[key].token == rounds[j].token && rounds[j].token !in s.past.abandoned
    ensures var s := Exec(Init(), trace);
            && rounds[j].outcome.Queued? && (exists loc :: HasJob(s, loc, key, s.locks[key]))
            && (rounds[j].token !in s.past.doubled ==>
                  forall a, b :: HasJob(s, a, key, s.locks[key]) && HasJob(s, b, key, s.locks[key]) ==> a == b)
  {
    assert SettledIn(Exec(Init(), trace), rounds[j]);
    EveryLockIsCarried(trace, key);
  }

  /** A lock whose job is still there and in time has stood since it was seen, exactly when no unlock freed it. */
  lemma OutstandingStands(was: LockTable, s: State, loc: Loc)
    requires LocksKept(s) && JobAt(s, loc).Some?
    requires var job := JobAt(s, loc).value;
             s.now < job.expiresAt && job.key in was && was[job.key] == Lock(job.token, job.expiresAt)
    ensures Stands(was, s, JobAt(s, loc).value.key) <==> JobAt(s, loc).value.token !in s.past.freed
  {
    assert JobKept(s, JobAt(s, loc).value);
  }

  lemma {:induction false} SkippedSendNothing(batches: seq<seq<string>>, rounds: seq<Round>)
    requires |rounds| <= |batches| && AllSkipped(rounds)
    ensures Payloads(batches, rounds) == []
    decreases |rounds|
  {
    if rounds != [] {
      SkippedSendNothing(batches, rounds[..|rounds| - 1]);
    }
  }

  /** Whoever interferes: a call on any permutation of the list sends nothing if the locks of the list that stood at
      its start still stand at its end. */
  lemma PermutedCallSendsNothing(start: State, s: State, repos: seq<string>, again: seq<string>, rounds: seq<Round>)
    requires multiset(again) == multiset(repos) && |rounds| == |Batches(again)|
    requires TokensSoFar(start, s, KeysOf(Batches(again)), rounds)
    requires forall j :: 0 <= j < |Batches(repos)| ==> Stands(start.locks, s, KeysOf(Batches(repos))[j])
    ensures AllSkipped(rounds) && Payloads(Batches(again), rounds) == []
  {
    PermutationsShareBatches(repos, again);
    SkippedSendNothing(Batches(again), rounds);
  }

  /** When the others only let time pass: a call on any permutation of a list whose locks are live at its end sends
      nothing and leaves the lock store and the queue as they were. */
  lemma QuietCallChangesNothing(start: State, s: State, repos: seq<string>, again: seq<string>, rounds: seq<Round>, locks: seq<Job>)
    requires multiset(again) == multiset(repos) && |rounds| == |locks| == |Batches(again)|
    requires QuietKept(start, s, KeysOf(Batches(again)), rounds, locks)
    requires forall j :: 0 <= j < |Batches(repos)| ==> Live(start.locks, s.now, KeysOf(Batches(repos))[j])
    ensures AllSkipped(rounds) && s.locks == start.locks && s.main == start.main && Payloads(Batches(again), rounds) == []
  {
    PermutationsShareBatches(repos, again);
    SkippedSendNothing(Batches(again), if AllSkipped(rounds) then rounds else []);
  }

  /** `now` is before the locks of batches taken from `start` on run out. */
  predicate InTime(start: nat, now: nat, batches: seq<seq<string>>) {
    forall j :: 0 <= j < |batches| ==> now < start + DynamicTtl(|batches[j]|)
  }

  /** After a call that sent everything while the others only let time pass, every batch's lock is live until the
      first of them runs out. */
  lemma QueuedLocksLive(start: State, s: State, batches: seq<seq<string>>, rounds: seq<Round>, locks: seq<Job>, later: nat)
    requires AccountsKept(start) && AccountsKept(s) && |rounds| == |locks| == |batches| && AllQueued(rounds)
    requires TokensSoFar(start, s, KeysOf(batches), rounds) && QuietKept(start, s, KeysOf(batches), rounds, locks)
    requires Timed(start.now, batches, locks) && s.now <= later && InTime(start.now, later, batches)
    ensures forall j :: 0 <= j < |batches| ==> Live(s.locks, later, KeysOf(batches)[j])
  {
    forall j | 0 <= j < |batches| ensures Live(s.locks, later, KeysOf(batches)[j]) {
      assert Waits(s, rounds[j], locks[j]);
      JobHoldsLock(s, InMain(rounds[j].outcome.id));
    }
  }

  // ---------- One batch ----------

  class ScanJobProducer {
    const shared: Shared
    const lockStore: RedisLockStore
    var sent: seq<ScanJob>       // what the channel took from this producer

    ghost predicate Valid()
      reads this, shared
    {
      lockStore.shared == shared && shared.Valid()
    }

    constructor (lockStore: RedisLockStore)
      requires lockStore.shared.Valid()
      ensures Valid() && shared == lockStore.shared && sent == []
    {
      this.shared, this.lockStore, sent := lockStore.shared, lockStore, [];
    }

    method AcquireLock(ghost p: nat, key: string, ttl: nat) returns (acquired: bool, token: nat)
      requires Valid() && p !in shared.model.procs
      modifies shared
      ensures Valid() && shared.Took(p, old(shared.trace), [TryAcquire(p, key, token, ttl)], 0)
      ensures old(shared.trace) <= shared.trace && token !in old(shared.model).past.used
      ensures acquired <==> !Live(old(shared.locks), old(shared.now), key)
      ensures shared.model == ApplyAcquire(old(shared.model), p, key, token, ttl)
    {
      acquired, token := lockStore.Acquire(key, ttl);
      IdsBelowAcquire(shared.model, shared.nextId, p, key, token, ttl);
      shared.RecordAcquire(p, key, token, ttl);
    }

    /** acquire, with what the token's fate then is: in this producer's hands alone, or gone. `lock` records when
        the lock was taken and when it runs out. */
    method TakeLock(ghost p: nat, key: string, ttl: nat) returns (acquired: bool, lock: Job)
      requires Valid() && p !in shared.model.procs
      modifies shared
      ensures Valid() && old(shared.trace) <= shared.trace
      ensures shared.Took(p, old(shared.trace), [TryAcquire(p, key, lock.token, ttl)], 0)
      ensures lock == Job(key, lock.token, old(shared.now), old(shared.now) + ttl)
      ensures lock.token !in old(shared.model).past.used && lock.token in shared.model.past.used
      ensures acquired <==> !Live(old(shared.locks), old(shared.now), key)
      ensures acquired ==> At(shared.model, p, Acquired(lock)) && Sole(shared.model, p, lock.token)
      ensures !acquired ==> p !in shared.model.procs && Gone(shared.model, lock.token) && shared.locks == old(shared.locks)
      ensures shared.main == old(shared.main) && shared.retry == old(shared.retry) && shared.now == old(shared.now)
      ensures shared.model.past.doubled == old(shared.model).past.doubled
    {
      AccountsAt(shared.trace);
      ghost var s := shared.model;
      var token;
      acquired, token := AcquireLock(p, key, ttl);
      lock := Job(key, token, shared.now, shared.now + ttl);
      if acquired {
        WonIsSole(s, p, key, token, ttl);
      } else {
        SkippedIsGone(s, p, key, token, ttl);
      }
    }

    /** session.send: the channel takes the job or refuses it. */
    method SendJob(ghost p: nat, batch: seq<string>, lock: Job) returns (ok: bool, ghost id: nat)
      requires Valid() && At(shared.model, p, Acquired(lock))
      modifies this, shared
      ensures Valid() && old(shared.trace) <= shared.trace && shared.Took(p, old(shared.trace), [Send(p, id, ok)], 0)
      ensures sent == old(sent) + if ok then [ScanJob(batch, lock.key, lock.token)] else []
      ensures id !in old(shared.main) && Enabled(old(shared.model), Send(p, id, ok))
      ensures shared.model == Apply(old(shared.model), Send(p, id, ok))
    {
      ok := *;
      var next := shared.nextId;
      id := next;
      shared.nextId := next + 1;
      if ok {
        shared.main := shared.main[next := Copy(lock, 0)];
        sent := sent + [ScanJob(batch, lock.key, lock.token)];
      }
      shared.Record(p, Send(p, next, ok));
    }

    method ReturnLock(ghost p: nat, lock: Job)
      requires Valid() && At(shared.model, p, Unlocking(lock))
      modifies shared
      ensures Valid() && shared.Took(p, old(shared.trace), [UnlockStep(p, true)], 0)
      ensures old(shared.trace) <= shared.trace && shared.model == Apply(old(shared.model), UnlockStep(p, true))
    {
      var _ := lockStore.UnlockIfOwner(lock.key, lock.token);
      shared.Record(p, UnlockStep(p, true));
    }

    /** The lock of a job that the channel refused goes back to the store. */
    method GiveBack(ghost p: nat, lock: Job)
      requires Valid() && At(shared.model, p, Unlocking(lock))
      modifies shared
      ensures Valid() && old(shared.trace) <= shared.trace && p !in shared.model.procs
      ensures shared.Took(p, old(shared.trace), [UnlockStep(p, true)], 0)
      ensures shared.locks == Unlock(old(shared.locks), old(shared.now), lock.key, lock.token)
      ensures Sole(old(shared.model), p, lock.token) ==> Gone(shared.model, lock.token)
      ensures shared.main == old(shared.main) && shared.retry == old(shared.retry) && shared.now == old(shared.now)
      ensures shared.model.past.doubled == old(shared.model).past.doubled
    {
      AccountsAt(shared.trace);
      if Sole(shared.model, p, lock.token) {
        ReturnedIsGone(shared.model, p);
      }
      ReturnLock(p, lock);
    }

    /** From a won lock: the job is sent, or its lock is given back. */
    method SendOrReturn(ghost p: nat, batch: seq<string>, lock: Job) returns (ghost o: Outcome, ghost noise: nat)
      requires Valid() && At(shared.model, p, Acquired(lock)) && Sole(shared.model, p, lock.token)
      modifies this, shared
      ensures Valid() && p !in shared.model.procs && old(shared.trace) <= shared.trace
      ensures !o.Skipped? && shared.Took(p, old(shared.trace), FateOwn(p, o), noise)
      ensures o.GivenBack? ==> Gone(shared.model, lock.token)
      ensures sent == old(sent) + if o.Queued? then [ScanJob(batch, lock.key, lock.token)] else []
      ensures Quiet(p, old(shared.trace), shared.trace) ==> Delivered(old(shared.main), old(shared.model), lock, o)
      ensures Quiet(p, old(shared.trace), shared.trace) ==> old(shared.now) <= shared.now
    {
      var ok;
      ghost var id;
      ok, id := SendJob(p, batch, lock);
      if ok {
        return Queued(id), 0;
      }
      ghost var t1 := shared.trace;
      noise := shared.Await(p);
      SoleLater(t1, shared.trace, p, lock.token);
      GiveBack(p, lock);
      o := GivenBack(id);
    }

    /** The same, up to the producer's next statement. */
    method SendOrGiveBack(ghost p: nat, batch: seq<string>, lock: Job) returns (ghost o: Outcome, ghost noise: nat)
      requires Valid() && At(shared.model, p, Acquired(lock)) && Sole(shared.model, p, lock.token)
      modifies this, shared
      ensures Valid() && p !in shared.model.procs && old(shared.trace) <= shared.trace
      ensures !o.Skipped? && shared.Took(p, old(shared.trace), FateOwn(p, o), noise)
      ensures o.GivenBack? ==> Gone(shared.model, lock.token)
      ensures sent == old(sent) + if o.Queued? then [ScanJob(batch, lock.key, lock.token)] else []
      ensures Quiet(p, old(shared.trace), shared.trace) ==> Delivered(old(shared.main), old(shared.model), lock, o)
      ensures Quiet(p, old(shared.trace), shared.trace) ==> old(shared.now) <= shared.now
    {
      o, noise := SendOrReturn(p, batch, lock);
      ghost var t1 := shared.trace;
      ghost var more := shared.Await(p);
      if o.GivenBack? {
        GoneLater(t1, shared.trace, lock.token);
      }
      noise := noise + more;
    }

    /** Nothing was added to the queue but the job of a queued batch. */
    ghost predicate Delivered(main: map<nat, Copy>, before: State, lock: Job, o: Outcome)
      reads shared
    {
      && shared.model.past.doubled == before.past.doubled
      && (o.Queued? ==> o.id !in main)
      && shared.main == if o.Queued? then main[o.id := Copy(lock, 0)] else main
    }

    /** publishBatch, for a batch of `size` names with the given key. A held lock skips the batch; a won one goes
        out with its job or back to the store. */
    method PublishUnder(ghost p: nat, batch: seq<string>, key: string, ttl: nat)
      returns (ghost r: Round, ghost noise: nat, ghost lock: Job)
      requires Valid() && p !in shared.model.procs
      modifies this, shared
      ensures Valid() && p !in shared.model.procs && old(shared.trace) <= shared.trace
      ensures shared.Took(p, old(shared.trace), [TryAcquire(p, key, r.token, ttl)] + FateOwn(p, r.outcome), noise)
      ensures r.token !in old(shared.model).past.used && SettledIn(shared.model, r)
      ensures r.outcome.Skipped? <==> Live(old(shared.locks), old(shared.now), key)
      ensures sent == old(sent) + if r.outcome.Queued? then [ScanJob(batch, key, r.token)] else []
      ensures lock == Job(key, r.token, old(shared.now), old(shared.now) + ttl)
      ensures Quiet(p, old(shared.trace), shared.trace) ==>
                && Delivered(old(shared.main), old(shared.model), lock, r.outcome) && old(shared.now) <= shared.now
                && (r.outcome.Skipped? ==> shared.locks == old(shared.locks))
    {
      var acquired, lockTaken;
      acquired, lockTaken := TakeLock(p, key, ttl);
      lock := lockTaken;
      ghost var t1 := shared.trace;
      noise := shared.Await(p);
      UsedLater(t1, shared.trace, lock.token);
      if !acquired {
        GoneLater(t1, shared.trace, lock.token);
        return Round(lock.token, Skipped), noise, lock;
      }
      SoleLater(t1, shared.trace, p, lock.token);
      ghost var t2, o, more := shared.trace, Skipped, 0;
      o, more := SendOrGiveBack(p, batch, lockTaken);
      UsedLater(t2, shared.trace, lock.token);
      TookThen(old(shared.trace), t2, shared.trace, Mine(p), [TryAcquire(p, key, lock.token, ttl)], noise, FateOwn(p, o), more);
      r, noise := Round(lock.token, o), noise + more;
    }

    /** publishBatch, and what it adds to what the call has done so far. */
    method NextBatch(ghost p: nat, batches: seq<seq<string>>, i: nat, ghost before: seq<Step>, ghost start: State,
                     ghost rounds: seq<Round>, ghost locks: seq<Job>, ghost noise: nat)
      returns (ghost r: Round, ghost lock: Job, ghost more: nat)
      requires Valid() && p !in shared.model.procs && i == |rounds| == |locks| < |batches|
      requires OwnSoFar(p, before, shared.trace, batches, rounds, noise)
      requires TokensSoFar(start, shared.model, KeysOf(batches), rounds)
      requires QuietSoFar(p, before, shared.trace, start, shared.model, batches, rounds, locks)
      modifies this, shared
      ensures Valid() && p !in shared.model.procs
      ensures sent == old(sent) + PayloadOf(batches[i], r)
      ensures OwnSoFar(p, before, shared.trace, batches, rounds + [r], noise + more)
      ensures TokensSoFar(start, shared.model, KeysOf(batches), rounds + [r])
      ensures QuietSoFar(p, before, shared.trace, start, shared.model, batches, rounds + [r], locks + [lock])
    {
      ghost var t1, s1 := shared.trace, shared.model;
      r, more, lock := PublishUnder(p, batches[i], LockKey(batches[i]), DynamicTtl(|batches[i]|));
      OwnGrows(p, before, t1, shared.trace, batches, rounds, r, noise, more);
      TokensSoFarGrow(start, t1, shared.trace, KeysOf(batches), rounds, r);
      QuietGrows(p, before, t1, shared.trace, start, s1, shared.model, batches, rounds, locks, r, lock);
    }

    /** The loop over the batches. */
    method PublishAll(ghost p: nat, batches: seq<seq<string>>, ghost before: seq<Step>, ghost start: State, ghost waited: nat)
      returns (ghost rounds: seq<Round>, ghost locks: seq<Job>, ghost noise: nat)
      requires Valid() && p !in shared.model.procs
      requires OwnSoFar(p, before, shared.trace, batches, [], waited)
      requires TokensSoFar(start, shared.model, KeysOf(batches), [])
      requires QuietSoFar(p, before, shared.trace, start, shared.model, batches, [], [])
      modifies this, shared
      ensures Valid() && p !in shared.model.procs && |rounds| == |locks| == |batches|
      ensures sent == old(sent) + Payloads(batches, rounds)
      ensures OwnSoFar(p, before, shared.trace, batches, rounds, noise)
      ensures TokensSoFar(start, shared.model, KeysOf(batches), rounds)
      ensures QuietSoFar(p, before, shared.trace, start, shared.model, batches, rounds, locks)
    {
      rounds, locks, noise := [], [], waited;
      var i := 0;
      while i < |batches|
        invariant 0 <= i <= |batches| && |rounds| == |locks| == i
        invariant Valid() && p !in shared.model.procs
        invariant sent == old(sent) + Payloads(batches, rounds)
        invariant OwnSoFar(p, before, shared.trace, batches, rounds, noise)
        invariant TokensSoFar(start, shared.model, KeysOf(batches), rounds)
        invariant QuietSoFar(p, before, shared.trace, start, shared.model, batches, rounds, locks)
      {
        ghost var r, lock, more := NextBatch(p, batches, i, before, start, rounds, locks, noise);
        PayloadsGrow(batches, rounds, r);
        rounds, locks, noise := rounds + [r], locks + [lock], noise + more;
        i := i + 1;
      }
    }

    /** addScanJobs, with anybody free to run at every await: workers, other producers, the clock. Its own steps
        are, batch by batch, a lost lock, a won lock and its message, or a won lock given back. */
    method AddScanJobs(ghost p: nat, repos: seq<string>)
      returns (ghost rounds: seq<Round>, ghost locks: seq<Job>, ghost noise: nat)
      requires Valid() && p !in shared.model.procs
      modifies this, shared
      ensures Valid() && p !in shared.model.procs && |rounds| == |locks| == |Batches(repos)|
      ensures OwnSoFar(p, old(shared.trace), shared.trace, Batches(repos), rounds, noise)
      ensures sent == old(sent) + Payloads(Batches(repos), rounds)
      ensures TokensSoFar(old(shared.model), shared.model, KeysOf(Batches(repos)), rounds)
      ensures QuietSoFar(p, old(shared.trace), shared.trace, old(shared.model), shared.model, Batches(repos), rounds, locks)
    {
      ghost var before, start := shared.trace, shared.model;
      var batches := Chunk(Sort(repos), SCAN_BATCH_SIZE);
      noise := shared.Await(p);
      NothingSoFar(p, before, shared.trace, batches, noise);
      rounds, locks, noise := PublishAll(p, batches, before, start, noise);
    }

    /** Two rounds of the scan schedule on the same repositories in any order. If all jobs of the first go out, the
        others only let time pass, and no lock of the first has run out, the second sends nothing and leaves the lock
        store and the queue as it found them. */
    method ScanTwice(ghost p: nat, repos: seq<string>, again: seq<string>)
      returns (ghost first: seq<Round>, ghost second: seq<Round>, ghost mid: seq<Step>, ghost waits: (nat, nat))
      requires Valid() && p !in shared.model.procs && multiset(again) == multiset(repos)
      modifies this, shared
      ensures Valid() && |first| == |second| == |Batches(repos)| && CanRun(Init(), mid)
      ensures OwnSoFar(p, old(shared.trace), mid, Batches(repos), first, waits.0)
      ensures OwnSoFar(p, mid, shared.trace, Batches(repos), second, waits.1)
      ensures Quiet(p, old(shared.trace), shared.trace) && AllQueued(first) && InTime(old(shared.now), shared.now, Batches(repos)) ==>
                && AllSkipped(second) && sent == old(sent) + Payloads(Batches(repos), first)
                && shared.locks == Exec(Init(), mid).locks && shared.main == Exec(Init(), mid).main
    {
      PermutationsShareBatches(repos, again);
      AccountsAt(shared.trace);
      ghost var t0, s0 := shared.trace, shared.model;
      ghost var locks, locks', noise, noise';
      first, locks, noise := AddScanJobs(p, repos);
      ghost var s1 := shared.model;
      mid := shared.trace;
      AccountsAt(mid);
      second, locks', noise' := AddScanJobs(p, again);
      waits := (noise, noise');
      if Quiet(p, t0, shared.trace) && AllQueued(first) && InTime(old(shared.now), shared.now, Batches(repos)) {
        assert Quiet(p, t0, mid) && Quiet(p, mid, shared.trace);
        QueuedLocksLive(s0, s1, Batches(repos), first, locks, shared.now);
        QuietCallChangesNothing(s1, shared.model, repos, again, second, locks');
      }
    }
  }

  function KeysOf(batches: seq<seq<string>>): (keys: seq<string>)
    ensures |keys| == |batches|
  {
    seq(|batches|, i requires 0 <= i < |batches| => LockKey(batches[i]))
  }

  /** Each lock is for its batch's key, and runs out no earlier than its time to live after the start. */
  predicate Timed(start: nat, batches: seq<seq<string>>, locks: seq<Job>)
    requires |locks| <= |batches|
  {
    forall j :: 0 <= j < |locks| ==>
      locks[j].key == KeysOf(batches)[j] && start + DynamicTtl(|batches[j]|) <= locks[j].expiresAt
  }
}
