/** processConcurrently: up to five workers drain one list through a shared cursor. Each stretch of a
    worker between two awaits is one step; the schedule and the failures are arbitrary. */
module WorkerPool {
  const REPO_CONCURRENCY: nat := 5

  datatype Worker = Ready | Busy(item: nat) | Failed | Finished

  /** `taken`, `processed` and `broken` record, in order, the items taken, done, and failed on. */
  datatype Pool = Pool(n: nat, cursor: nat, workers: seq<Worker>, taken: seq<nat>, processed: seq<nat>, broken: seq<nat>)

  datatype Step = Proceed(w: nat) | Complete(w: nat) | Fail(w: nat)

  function Size(n: nat): nat {
    if n < REPO_CONCURRENCY then n else REPO_CONCURRENCY
  }

  function Init(n: nat): Pool {
    Pool(n, 0, seq(Size(n), _ => Ready), [], [], [])
  }

  predicate Enabled(s: Pool, step: Step) {
    && step.w < |s.workers|
    && match step
       case Proceed(w) => s.workers[w].Ready?
       case Complete(w) => s.workers[w].Busy?
       case Fail(w) => s.workers[w].Busy?
  }

  /** Proceed: the loop test, and then either the next item or the end of the worker. */
  function Apply(s: Pool, step: Step): Pool
    requires Enabled(s, step)
  {
    match step
    case Proceed(w) =>
      if s.cursor < s.n then
        s.(cursor := s.cursor + 1, workers := s.workers[w := Busy(s.cursor)], taken := s.taken + [s.cursor])
      else
        s.(workers := s.workers[w := Finished])
    case Complete(w) => s.(workers := s.workers[w := Ready], processed := s.processed + [s.workers[w].item])
    case Fail(w) => s.(workers := s.workers[w := Failed], broken := s.broken + [s.workers[w].item])
  }

  predicate CanRun(s: Pool, steps: seq<Step>)
    decreases |steps|
  {
    steps == [] || (Enabled(s, steps[0]) && CanRun(Apply(s, steps[0]), steps[1..]))
  }

  function Exec(s: Pool, steps: seq<Step>): Pool
    requires CanRun(s, steps)
    decreases |steps|
  {
    if steps == [] then s else Exec(Apply(s, steps[0]), steps[1..])
  }

  // ---------- The invariant ----------

  predicate Distinct(xs: seq<nat>) {
    forall i, j :: 0 <= i < j < |xs| ==> xs[i] != xs[j]
  }

  predicate InHands(s: Pool, item: nat) {
    exists w :: 0 <= w < |s.workers| && s.workers[w] == Busy(item)
  }

  /** Items are taken in list order, each once; every taken item is in exactly one worker's hands,
      processed, or failed on; a worker finishes only at the end of the list. */
  ghost predicate Sound(s: Pool) {
    && |s.workers| == Size(s.n) && s.cursor <= s.n
    && |s.taken| == s.cursor && (forall i :: 0 <= i < s.cursor ==> s.taken[i] == i)
    && Distinct(s.processed) && Distinct(s.broken)
    && (forall item :: item in s.processed ==> item < s.cursor && item !in s.broken)
    && (forall item :: item in s.broken ==> item < s.cursor)
    && (forall w :: 0 <= w < |s.workers| && s.workers[w].Busy? ==>
          var item := s.workers[w].item; item < s.cursor && item !in s.processed && item !in s.broken)
    && (forall v, w :: 0 <= v < w < |s.workers| && s.workers[v].Busy? ==> s.workers[v] != s.workers[w])
    && (forall item :: 0 <= item < s.cursor ==> item in s.processed || item in s.broken || InHands(s, item))
    && (forall w :: 0 <= w < |s.workers| && s.workers[w].Finished? ==> s.cursor == s.n)
    && (s.broken == [] ==> forall w :: 0 <= w < |s.workers| ==> !s.workers[w].Failed?)
  }

  lemma ProceedSound(s: Pool, w: nat)
    requires Sound(s) && Enabled(s, Proceed(w))
    ensures Sound(Apply(s, Proceed(w)))
  {
    var s' := Apply(s, Proceed(w));
    forall item | 0 <= item < s'.cursor ensures item in s'.processed || item in s'.broken || InHands(s', item) {
      if item == s.cursor {
        assert s'.workers[w] == Busy(item);
      } else if InHands(s, item) {
        var v :| 0 <= v < |s.workers| && s.workers[v] == Busy(item);
        assert s'.workers[v] == Busy(item);
      }
    }
  }

  lemma EndSound(s: Pool, step: Step)
    requires Sound(s) && Enabled(s, step) && !step.Proceed?
    ensures Sound(Apply(s, step))
  {
    var s' := Apply(s, step);
    var done := s.workers[step.w].item;
    assert done in (s.processed + [done]) && done in (s.broken + [done]);
    forall item | 0 <= item < s'.cursor ensures item in s'.processed || item in s'.broken || InHands(s', item) {
      if item != done && InHands(s, item) {
        var v :| 0 <= v < |s.workers| && s.workers[v] == Busy(item);
        assert s'.workers[v] == Busy(item);
      }
    }
  }

  lemma {:induction false} SoundAlongRuns(s: Pool, steps: seq<Step>)
    requires Sound(s) && CanRun(s, steps)
    ensures Sound(Exec(s, steps)) && Exec(s, steps).n == s.n
    decreases |steps|
  {
    if steps != [] {
      if steps[0].Proceed? {
        ProceedSound(s, steps[0].w);
      } else {
        EndSound(s, steps[0]);
      }
      SoundAlongRuns(Apply(s, steps[0]), steps[1..]);
    }
  }

  // ---------- The results ----------

  predicate Over(s: Pool) {
    forall w :: 0 <= w < |s.workers| ==> s.workers[w].Failed? || s.workers[w].Finished?
  }

  predicate AllFailed(s: Pool) {
    s.workers != [] && forall w :: 0 <= w < |s.workers| ==> s.workers[w].Failed?
  }

  /** When all workers have stopped, every item was taken unless all workers failed; and what was
      taken was either processed or failed on, never both. */
  lemma PoolEnds(n: nat, steps: seq<Step>)
    requires CanRun(Init(n), steps) && Over(Exec(Init(n), steps))
    ensures var s := Exec(Init(n), steps);
            && (s.cursor == n || AllFailed(s))
            && multiset(s.processed) + multiset(s.broken) == multiset(s.taken)
  {
    SoundAlongRuns(Init(n), steps);
    var s := Exec(Init(n), steps);
    assert s.workers == [] ==> n == 0;
    assert Distinct(s.taken);
    assert forall item :: 0 <= item < s.cursor ==> !InHands(s, item);
    forall item: nat ensures multiset(s.processed)[item] + multiset(s.broken)[item] == multiset(s.taken)[item] {
      Once(s.processed, item);
      Once(s.broken, item);
      Once(s.taken, item);
      assert item < s.cursor ==> s.taken[item] == item;
    }
  }

  lemma {:induction false} Once(xs: seq<nat>, x: nat)
    requires Distinct(xs)
    ensures multiset(xs)[x] == if x in xs then 1 else 0
    decreases |xs|
  {
    if xs != [] {
      assert xs == [xs[0]] + xs[1..];
      Once(xs[1..], x);
    }
  }

  /** With no failure, each item is processed exactly once. */
  lemma NoFailureProcessesEach(n: nat, steps: seq<Step>)
    requires CanRun(Init(n), steps) && Over(Exec(Init(n), steps))
    requires forall i :: 0 <= i < |steps| ==> !steps[i].Fail?
    ensures var s := Exec(Init(n), steps);
            |s.processed| == n && Distinct(s.processed) && forall i :: 0 <= i < n ==> i in s.processed
  {
    PoolEnds(n, steps);
    SoundAlongRuns(Init(n), steps);
    NothingBroken(Init(n), steps);
    var s := Exec(Init(n), steps);
    assert |multiset(s.processed)| == |s.processed| && |multiset(s.taken)| == |s.taken|;
    assert multiset(s.processed) == multiset(s.taken);
    assert s.workers != [] ==> !s.workers[0].Failed?;
    forall i | 0 <= i < n ensures i in s.processed {
      assert s.taken[i] == i;
      assert i in multiset(s.taken);
    }
  }

  lemma {:induction false} NothingBroken(s: Pool, steps: seq<Step>)
    requires CanRun(s, steps) && forall i :: 0 <= i < |steps| ==> !steps[i].Fail?
    ensures Exec(s, steps).broken == s.broken
    decreases |steps|
  {
    if steps != [] {
      NothingBroken(Apply(s, steps[0]), steps[1..]);
    }
  }

  /** In progress at any time: at most as many items as there are workers. */
  function BusyItems(s: Pool): set<nat> {
    set w | 0 <= w < |s.workers| && s.workers[w].Busy? :: s.workers[w].item
  }

  lemma {:induction false} BusyBound(s: Pool)
    ensures |BusyItems(s)| <= |s.workers|
    decreases |s.workers|
  {
    if s.workers != [] {
      var k := |s.workers| - 1;
      var s1 := s.(workers := s.workers[..k]);
      BusyBound(s1);
      var last := if s.workers[k].Busy? then {s.workers[k].item} else {};
      assert BusyItems(s) == BusyItems(s1) + last;
    }
  }

  /** At no time of any run are more than REPO_CONCURRENCY items in progress, nor more than there are. */
  lemma InProgressBound(n: nat, steps: seq<Step>)
    requires CanRun(Init(n), steps)
    ensures |BusyItems(Exec(Init(n), steps))| <= REPO_CONCURRENCY && |BusyItems(Exec(Init(n), steps))| <= n
  {
    SoundAlongRuns(Init(n), steps);
    BusyBound(Exec(Init(n), steps));
  }

  /** The bound is reached: some run has REPO_CONCURRENCY items in progress, or all of them if there are fewer. */
  lemma BoundIsReached(n: nat) returns (steps: seq<Step>)
    ensures CanRun(Init(n), steps)
    ensures |BusyItems(Exec(Init(n), steps))| == if n >= REPO_CONCURRENCY then REPO_CONCURRENCY else n
  {
    steps := StartWorkers(n, Size(n));
    var s := Exec(Init(n), steps);
    FirstItems(Size(n));
    forall item: nat ensures item in BusyItems(s) <==> item in First(Size(n)) {
      assert item < Size(n) ==> s.workers[item] == Busy(item);
    }
    assert BusyItems(s) == First(Size(n));
  }

  function First(k: nat): set<nat> {
    if k == 0 then {} else First(k - 1) + {k - 1}
  }

  lemma {:induction false} FirstItems(k: nat)
    ensures |First(k)| == k && forall item: nat :: item in First(k) <==> item < k
    decreases k
  {
    if k > 0 {
      FirstItems(k - 1);
    }
  }

  /** The first `k` workers take the first `k` items. */
  lemma {:induction false} StartWorkers(n: nat, k: nat) returns (steps: seq<Step>)
    requires k <= Size(n)
    ensures CanRun(Init(n), steps)
    ensures var s := Exec(Init(n), steps);
            s.n == n && s.cursor == k && |s.workers| == Size(n)
            && forall w :: 0 <= w < Size(n) ==> s.workers[w] == if w < k then Busy(w) else Ready
    decreases k
  {
    if k == 0 {
      steps := [];
    } else {
      steps := StartWorkers(n, k - 1);
      RunsExtend(Init(n), steps, Proceed(k - 1));
      steps := steps + [Proceed(k - 1)];
    }
  }

  // ---------- A failure stops its worker ----------

  function FailedCount(workers: seq<Worker>): nat {
    if workers == [] then 0
    else FailedCount(workers[..|workers| - 1]) + if workers[|workers| - 1].Failed? then 1 else 0
  }

  lemma {:induction false} FailedUpdate(workers: seq<Worker>, w: nat, worker: Worker)
    requires w < |workers|
    ensures FailedCount(workers[w := worker])
            == FailedCount(workers) - (if workers[w].Failed? then 1 else 0) + if worker.Failed? then 1 else 0
    decreases |workers|
  {
    var k := |workers| - 1;
    if w == k {
      assert workers[w := worker][..k] == workers[..k];
    } else {
      assert workers[w := worker][..k] == workers[..k][w := worker];
      FailedUpdate(workers[..k], w, worker);
    }
  }

  /** No more than all, and all exactly when every worker failed. */
  lemma {:induction false} FailedBound(workers: seq<Worker>)
    ensures FailedCount(workers) <= |workers|
    ensures FailedCount(workers) == |workers| <==> forall w :: 0 <= w < |workers| ==> workers[w].Failed?
    decreases |workers|
  {
    if workers != [] {
      var k := |workers| - 1;
      FailedBound(workers[..k]);
      assert forall w :: 0 <= w < k ==> workers[..k][w] == workers[w];
    }
  }

  lemma {:induction false} NoneFailed(workers: seq<Worker>)
    requires forall w :: 0 <= w < |workers| ==> workers[w].Ready?
    ensures FailedCount(workers) == 0
    decreases |workers|
  {
    if workers != [] {
      NoneFailed(workers[..|workers| - 1]);
    }
  }

  lemma {:induction false} FailuresAlongRuns(s: Pool, steps: seq<Step>)
    requires CanRun(s, steps) && |s.broken| == FailedCount(s.workers)
    ensures |Exec(s, steps).broken| == FailedCount(Exec(s, steps).workers)
    decreases |steps|
  {
    if steps != [] {
      FailedUpdate(s.workers, steps[0].w, Apply(s, steps[0]).workers[steps[0].w]);
      FailuresAlongRuns(Apply(s, steps[0]), steps[1..]);
    }
  }

  /** Each failed item costs a worker. So in every run at most REPO_CONCURRENCY items fail; and when all workers have
      stopped, items are left over only if that many failed, or as many as there were items. */
  lemma FailureCostsWorker(n: nat, steps: seq<Step>)
    requires CanRun(Init(n), steps)
    ensures var s := Exec(Init(n), steps);
            var size := if n >= REPO_CONCURRENCY then REPO_CONCURRENCY else n;
            && |s.broken| <= size
            && (Over(s) && s.cursor < n ==> |s.broken| == size)
  {
    SoundAlongRuns(Init(n), steps);
    NoneFailed(Init(n).workers);
    FailuresAlongRuns(Init(n), steps);
    var s := Exec(Init(n), steps);
    FailedBound(s.workers);
    if Over(s) {
      PoolEnds(n, steps);
    }
  }

  // ---------- Every run ends ----------

  function WorkerRank(worker: Worker): nat {
    match worker case Ready => 1 case Busy(_) => 2 case _ => 0
  }

  function WorkersRank(workers: seq<Worker>): nat {
    if workers == [] then 0 else WorkersRank(workers[..|workers| - 1]) + WorkerRank(workers[|workers| - 1])
  }

  lemma {:induction false} RankUpdate(workers: seq<Worker>, w: nat, worker: Worker)
    requires w < |workers|
    ensures WorkersRank(workers[w := worker]) == WorkersRank(workers) - WorkerRank(workers[w]) + WorkerRank(worker)
    decreases |workers|
  {
    var k := |workers| - 1;
    if w == k {
      assert workers[w := worker][..k] == workers[..k];
    } else {
      assert workers[w := worker][..k] == workers[..k][w := worker];
      RankUpdate(workers[..k], w, worker);
    }
  }

  function Rank(s: Pool): nat
    requires s.cursor <= s.n
  {
    2 * (s.n - s.cursor) + WorkersRank(s.workers)
  }

  lemma StepLowersRank(s: Pool, step: Step)
    requires s.cursor <= s.n && Enabled(s, step)
    ensures Apply(s, step).cursor <= Apply(s, step).n && Rank(Apply(s, step)) < Rank(s)
  {
    RankUpdate(s.workers, step.w, Apply(s, step).workers[step.w]);
  }

  // ---------- The code ----------

  /** One worker's turn: whether its current item fails, if it has one. */
  datatype Turn = Turn(w: nat, fails: bool)

  function StepFor(s: Pool, turn: Turn): Step
    requires turn.w < |s.workers|
  {
    match s.workers[turn.w]
    case Busy(_) => if turn.fails then Fail(turn.w) else Complete(turn.w)
    case _ => Proceed(turn.w)
  }

  lemma {:induction false} RunsExtend(s: Pool, steps: seq<Step>, step: Step)
    requires CanRun(s, steps) && Enabled(Exec(s, steps), step)
    ensures CanRun(s, steps + [step]) && Exec(s, steps + [step]) == Apply(Exec(s, steps), step)
    decreases |steps|
  {
    if steps == [] {
      assert ([] + [step])[1..] == [];
    } else {
      RunsExtend(Apply(s, steps[0]), steps[1..], step);
      assert (steps + [step])[1..] == steps[1..] + [step];
    }
  }

  /** processConcurrently under a given order of turns: turns of workers that have stopped are skipped.
      It returns what was taken, processed and failed on. */
  method ProcessConcurrently<T>(items: seq<T>, turns: seq<Turn>)
    returns (cursor: nat, workers: seq<Worker>, taken: seq<T>, processed: seq<nat>, broken: seq<nat>)
    ensures cursor <= |items| && taken == items[..cursor]
    ensures |workers| == if |items| >= REPO_CONCURRENCY then REPO_CONCURRENCY else |items|
    ensures Sound(Pool(|items|, cursor, workers, seq(cursor, i => i), processed, broken))
    ensures exists steps :: CanRun(Init(|items|), steps)
              && Exec(Init(|items|), steps) == Pool(|items|, cursor, workers, seq(cursor, i => i), processed, broken)
  {
    cursor := 0;
    workers := seq(Size(|items|), _ => Ready);
    taken, processed, broken := [], [], [];
    ghost var steps: seq<Step> := [];
    ghost var s := Init(|items|);
    var k := 0;
    while k < |turns|
      invariant 0 <= k <= |turns| && cursor <= |items| && taken == items[..cursor]
      invariant s == Pool(|items|, cursor, workers, s.taken, processed, broken)
      invariant CanRun(Init(|items|), steps) && Exec(Init(|items|), steps) == s && Sound(s)
    {
      var w := turns[k].w;
      if w < |workers| && (workers[w].Ready? || workers[w].Busy?) {
        ghost var step := StepFor(s, turns[k]);
        RunsExtend(Init(|items|), steps, step);
        if step.Proceed? { ProceedSound(s, w); } else { EndSound(s, step); }
        steps, s := steps + [step], Apply(s, step);
        if workers[w].Busy? {
          var item := workers[w].item;
          if turns[k].fails {
            workers := workers[w := Failed];
            broken := broken + [item];
          } else {
            workers := workers[w := Ready];
            processed := processed + [item];
          }
        } else if cursor < |items| {
          workers := workers[w := Busy(cursor)];
          taken := taken + [items[cursor]];
          cursor := cursor + 1;
        } else {
          workers := workers[w := Finished];
        }
      }
      k := k + 1;
    }
    assert s.taken == seq(cursor, i => i);
  }
}
