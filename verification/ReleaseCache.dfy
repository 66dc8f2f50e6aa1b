/** CachedGithubClient: a read-through cache keyed by the stable form of a batch, used by any number of
    overlapping calls. */
module ReleaseCache {
  import opened Messages
  import opened Keys
  import opened Strings
  import opened Traces

  /** BatchReleaseResult: a tag, or null, per repository. */
  type Releases = map<string, Option<string>>

  datatype Entry = Entry(result: Releases, expiresAt: nat)

  /** History: a successful answer of the inner client to call number `call`, a write to the cache, and an answer
      given to a caller (`asked`: after asking the inner client; `since`: when the call made its GET). */
  datatype Fetch = Fetch(call: nat, repos: seq<string>, result: Releases, at: nat)
  datatype Stored = Stored(call: nat, repos: seq<string>, result: Releases, at: nat)
  datatype Answer = Answer(call: nat, repos: seq<string>, result: Releases, since: nat, at: nat, asked: bool)

  datatype Pc =
    | Asking(call: nat, repos: seq<string>, since: nat)
    | Storing(call: nat, repos: seq<string>, since: nat, result: Releases)

  datatype State = State(
    ttl: nat, now: nat, cache: map<string, Entry>, procs: map<nat, Pc>,
    calls: nat,               // calls so far, which numbers them
    fetched: seq<Fetch>, stored: seq<Stored>, answers: seq<Answer>)

  function Init(ttl: nat): State {
    State(ttl, 0, map[], map[], 0, [], [], [])
  }

  /** How a SET ends: applied and confirmed; applied, but the reply lost; or not applied. Only the first returns. */
  datatype Write = Confirmed | ReplyLost | Refused

  datatype Step =
    | Tick
    | Get(p: nat, repos: seq<string>)
    | Inner(p: nat, result: Option<Releases>)   // None: the inner client failed
    | Set(p: nat, write: Write)                 // unless confirmed, the call fails with the store

  predicate Enabled(s: State, step: Step) {
    match step
    case Tick => true
    case Get(p, repos) => p !in s.procs && CommaFree(repos)
    case Inner(p, _) => p in s.procs && s.procs[p].Asking?
    case Set(p, _) => p in s.procs && s.procs[p].Storing? && CommaFree(s.procs[p].repos)
  }

  function Apply(s: State, step: Step): State
    requires Enabled(s, step)
  {
    match step
    case Tick => s.(now := s.now + 1)
    case Get(p, repos) => ApplyGet(s, p, repos, CacheKey(repos))
    case Inner(p, result) => ApplyInner(s, p, result)
    case Set(p, write) => ApplySet(s, p, write, CacheKey(s.procs[p].repos))
  }

  predicate Hit(cache: map<string, Entry>, now: nat, key: string) {
    key in cache && now < cache[key].expiresAt
  }

  function ApplyGet(s: State, p: nat, repos: seq<string>, key: string): State {
    if Hit(s.cache, s.now, key) then Serve(s, repos, s.cache[key].result) else Ask(s, p, repos)
  }

  function Serve(s: State, repos: seq<string>, result: Releases): State {
    s.(calls := s.calls + 1, answers := s.answers + [Answer(s.calls, repos, result, s.now, s.now, false)])
  }

  function Ask(s: State, p: nat, repos: seq<string>): State {
    s.(calls := s.calls + 1, procs := s.procs[p := Asking(s.calls, repos, s.now)])
  }

  function ApplyInner(s: State, p: nat, result: Option<Releases>): State
    requires p in s.procs && s.procs[p].Asking?
  {
    var pc := s.procs[p];
    if result.None? then s.(procs := s.procs - {p})
    else s.(procs := s.procs[p := Storing(pc.call, pc.repos, pc.since, result.value)],
            fetched := s.fetched + [Fetch(pc.call, pc.repos, result.value, s.now)])
  }

  function ApplySet(s: State, p: nat, write: Write, key: string): State
    requires p in s.procs && s.procs[p].Storing?
  {
    var pc := s.procs[p];
    var s1 := s.(procs := s.procs - {p});
    if write.Refused? then s1
    else
      var s2 := s1.(cache := s.cache[key := Entry(pc.result, s.now + s.ttl)],
                    stored := s.stored + [Stored(pc.call, pc.repos, pc.result, s.now)]);
      if write.ReplyLost? then s2 else s2.(answers := s.answers + [Answer(pc.call, pc.repos, pc.result, pc.since, s.now, true)])
  }

  predicate CanRun(s: State, steps: seq<Step>)
    decreases |steps|
  {
    steps == [] || (Enabled(s, steps[0]) && CanRun(Apply(s, steps[0]), steps[1..]))
  }

  function Exec(s: State, steps: seq<Step>): State
    requires CanRun(s, steps)
    decreases |steps|
  {
    if steps == [] then s else Exec(Apply(s, steps[0]), steps[1..])
  }

  // ---------- Agreement ----------

  /** The inner client gave call `call` this result for exactly these repositories, within these times. */
  ghost predicate Given(fetched: seq<Fetch>, call: nat, repos: seq<string>, result: Releases, earliest: nat, latest: nat) {
    exists k :: 0 <= k < |fetched| && fetched[k] == Fetch(call, repos, result, fetched[k].at) && earliest <= fetched[k].at <= latest
  }

  /** Calls are numbered, and the inner client answers each at most once. */
  ghost predicate Numbered(s: State) {
    && (forall p :: p in s.procs ==> s.procs[p].call < s.calls)
    && (forall p, q :: p in s.procs && q in s.procs && p != q ==> s.procs[p].call != s.procs[q].call)
    && (forall k :: 0 <= k < |s.fetched| ==> s.fetched[k].call < s.calls)
    && (forall p, k :: p in s.procs && s.procs[p].Asking? && 0 <= k < |s.fetched| ==> s.fetched[k].call != s.procs[p].call)
    && (forall i, j :: 0 <= i < j < |s.fetched| ==> s.fetched[i].call != s.fetched[j].call)
  }

  ghost predicate AnsweredOnce(fetched: seq<Fetch>, call: nat) {
    forall j, k :: 0 <= j < k < |fetched| ==> !(fetched[j].call == call && fetched[k].call == call)
  }

  /** Some write of `result` for a permutation of `repos`, less than the TTL before `at`. */
  ghost predicate StoredRecently(s: State, repos: seq<string>, result: Releases, at: nat) {
    exists i :: 0 <= i < |s.stored|
      && multiset(s.stored[i].repos) == multiset(repos) && s.stored[i].result == result
      && s.stored[i].at <= at < s.stored[i].at + s.ttl
  }

  predicate Wrote(s: State, i: nat, key: string, entry: Entry)
    requires i < |s.stored|
  {
    CommaFree(s.stored[i].repos) && CacheKey(s.stored[i].repos) == key
    && entry == Entry(s.stored[i].result, s.stored[i].at + s.ttl)
  }

  ghost predicate EntrySound(s: State, key: string, entry: Entry) {
    exists i :: 0 <= i < |s.stored| && Wrote(s, i, key, entry)
  }

  ghost predicate WriteSound(s: State, w: Stored) {
    w.at <= s.now && Given(s.fetched, w.call, w.repos, w.result, 0, w.at)
  }

  ghost predicate AnswerSound(s: State, a: Answer) {
    if a.asked then Given(s.fetched, a.call, a.repos, a.result, a.since, a.at)
    else StoredRecently(s, a.repos, a.result, a.at)
  }

  ghost predicate PcSound(s: State, pc: Pc) {
    pc.since <= s.now && (pc.Storing? ==> Given(s.fetched, pc.call, pc.repos, pc.result, pc.since, s.now))
  }

  ghost predicate CacheSound(s: State) {
    && (forall i :: 0 <= i < |s.stored| ==> WriteSound(s, s.stored[i]))
    && (forall key :: key in s.cache ==> EntrySound(s, key, s.cache[key]))
    && (forall p :: p in s.procs ==> PcSound(s, s.procs[p]))
    && (forall i :: 0 <= i < |s.answers| ==> AnswerSound(s, s.answers[i]))
  }

  lemma GivenPersists(a: seq<Fetch>, b: seq<Fetch>, call: nat, repos: seq<string>, result: Releases,
                      earliest: nat, latest: nat, later: nat)
    requires a <= b && latest <= later && Given(a, call, repos, result, earliest, latest)
    ensures Given(b, call, repos, result, earliest, later)
  {
    var k :| 0 <= k < |a| && a[k] == Fetch(call, repos, result, a[k].at) && earliest <= a[k].at <= latest;
    assert b[k] == a[k];
  }

  /** The logs only grow, so what was sound stays sound. */
  lemma SoundPersists(s: State, s': State)
    requires CacheSound(s) && s'.ttl == s.ttl && s.now <= s'.now && s.fetched <= s'.fetched && s.stored <= s'.stored
    ensures forall i :: 0 <= i < |s.stored| ==> WriteSound(s', s.stored[i])
    ensures forall key :: key in s.cache ==> EntrySound(s', key, s.cache[key])
    ensures forall p :: p in s.procs ==> PcSound(s', s.procs[p])
    ensures forall i :: 0 <= i < |s.answers| ==> AnswerSound(s', s.answers[i])
  {
    forall i | 0 <= i < |s.stored| ensures WriteSound(s', s.stored[i]) {
      var w := s.stored[i];
      assert WriteSound(s, w);
      GivenPersists(s.fetched, s'.fetched, w.call, w.repos, w.result, 0, w.at, w.at);
    }
    forall key | key in s.cache ensures EntrySound(s', key, s.cache[key]) {
      assert EntrySound(s, key, s.cache[key]);
      var i :| 0 <= i < |s.stored| && Wrote(s, i, key, s.cache[key]);
      assert s'.stored[i] == s.stored[i];
      assert Wrote(s', i, key, s.cache[key]);
    }
    forall p | p in s.procs ensures PcSound(s', s.procs[p]) {
      var pc := s.procs[p];
      assert PcSound(s, pc);
      if pc.Storing? {
        GivenPersists(s.fetched, s'.fetched, pc.call, pc.repos, pc.result, pc.since, s.now, s'.now);
      }
    }
    forall i | 0 <= i < |s.answers| ensures AnswerSound(s', s.answers[i]) {
      AnswerPersists(s, s', s.answers[i]);
    }
  }

  lemma AnswerPersists(s: State, s': State, a: Answer)
    requires AnswerSound(s, a) && s'.ttl == s.ttl && s.fetched <= s'.fetched && s.stored <= s'.stored
    ensures AnswerSound(s', a)
  {
    if a.asked {
      GivenPersists(s.fetched, s'.fetched, a.call, a.repos, a.result, a.since, a.at, a.at);
    } else {
      var i :| 0 <= i < |s.stored|
               && multiset(s.stored[i].repos) == multiset(a.repos) && s.stored[i].result == a.result
               && s.stored[i].at <= a.at < s.stored[i].at + s.ttl;
      assert s'.stored[i] == s.stored[i];
    }
  }

  /** A hit is a result stored less than the TTL ago for a permutation of the batch. */
  lemma HitIsRecent(s: State, repos: seq<string>)
    requires CacheSound(s) && CommaFree(repos) && Hit(s.cache, s.now, CacheKey(repos))
    ensures StoredRecently(s, repos, s.cache[CacheKey(repos)].result, s.now)
  {
    var key := CacheKey(repos);
    assert EntrySound(s, key, s.cache[key]);
    var i :| 0 <= i < |s.stored| && Wrote(s, i, key, s.cache[key]);
    assert WriteSound(s, s.stored[i]);
    BatchKeysIffPermutation(s.stored[i].repos, repos);
  }

  /** One more answer. */
  lemma AnsweredSound(s: State, s': State, a: Answer)
    requires CacheSound(s) && AnswerSound(s, a) && s'.answers == s.answers + [a]
    requires s'.ttl == s.ttl && s'.now == s.now && s'.cache == s.cache && s'.procs == s.procs
    requires s'.fetched == s.fetched && s'.stored == s.stored
    ensures CacheSound(s')
  {
    SoundPersists(s, s');
    AnswerPersists(s, s', a);
  }

  lemma ServeSound(s: State, repos: seq<string>, result: Releases)
    requires CacheSound(s) && StoredRecently(s, repos, result, s.now)
    ensures CacheSound(Serve(s, repos, result))
  {
    AnsweredSound(s, Serve(s, repos, result), Answer(s.calls, repos, result, s.now, s.now, false));
  }

  lemma AskSound(s: State, p: nat, repos: seq<string>)
    requires CacheSound(s)
    ensures CacheSound(Ask(s, p, repos))
  {
    SoundPersists(s, Ask(s, p, repos));
  }

  lemma InnerSound(s: State, p: nat, result: Option<Releases>)
    requires CacheSound(s) && Enabled(s, Inner(p, result))
    ensures CacheSound(ApplyInner(s, p, result))
  {
    var s' := ApplyInner(s, p, result);
    SoundPersists(s, s');
    if result.Some? {
      assert PcSound(s, s.procs[p]);
      assert s'.fetched[|s.fetched|] == Fetch(s.procs[p].call, s.procs[p].repos, result.value, s.now);
    }
  }

  /** One more write on record, and its writer done. */
  lemma LoggedSound(s: State, p: nat)
    requires CacheSound(s) && p in s.procs && s.procs[p].Storing?
    ensures var pc := s.procs[p];
            CacheSound(s.(procs := s.procs - {p}, stored := s.stored + [Stored(pc.call, pc.repos, pc.result, s.now)]))
  {
    var pc := s.procs[p];
    var s1 := s.(procs := s.procs - {p}, stored := s.stored + [Stored(pc.call, pc.repos, pc.result, s.now)]);
    SoundPersists(s, s1);
    assert PcSound(s, pc);
    GivenEarlier(s.fetched, pc.call, pc.repos, pc.result, pc.since, s.now);
  }

  /** The entry of a write on record. */
  lemma EnteredSound(s: State, s': State, key: string, i: nat)
    requires CacheSound(s) && i < |s.stored| && key in s'.cache && Wrote(s, i, key, s'.cache[key])
    requires s'.cache == s.cache[key := s'.cache[key]] && s'.ttl == s.ttl && s'.now == s.now && s'.procs == s.procs
    requires s'.fetched == s.fetched && s'.stored == s.stored && s'.answers == s.answers
    ensures CacheSound(s')
  {
    SoundPersists(s, s');
    assert Wrote(s', i, key, s'.cache[key]);
    forall k | k in s'.cache ensures EntrySound(s', k, s'.cache[k]) {
      assert k != key ==> EntrySound(s', k, s.cache[k]);
    }
  }

  /** An applied write, confirmed or not. */
  lemma WrittenSound(s: State, p: nat, key: string)
    requires CacheSound(s) && Enabled(s, Set(p, ReplyLost)) && key == CacheKey(s.procs[p].repos)
    ensures CacheSound(ApplySet(s, p, ReplyLost, key))
  {
    var pc := s.procs[p];
    LoggedSound(s, p);
    var s1 := s.(procs := s.procs - {p}, stored := s.stored + [Stored(pc.call, pc.repos, pc.result, s.now)]);
    EnteredSound(s1, ApplySet(s, p, ReplyLost, key), key, |s.stored|);
  }

  lemma SetSound(s: State, p: nat, write: Write, key: string)
    requires CacheSound(s) && Enabled(s, Set(p, write)) && key == CacheKey(s.procs[p].repos)
    ensures CacheSound(ApplySet(s, p, write, key))
  {
    if write.Refused? {
      SoundPersists(s, ApplySet(s, p, write, key));
    } else {
      WrittenSound(s, p, key);
      if write.Confirmed? {
        var pc := s.procs[p];
        assert PcSound(s, pc);
        AnsweredSound(ApplySet(s, p, ReplyLost, key), ApplySet(s, p, write, key),
                      Answer(pc.call, pc.repos, pc.result, pc.since, s.now, true));
      }
    }
  }

  lemma GivenEarlier(fetched: seq<Fetch>, call: nat, repos: seq<string>, result: Releases, earliest: nat, latest: nat)
    requires Given(fetched, call, repos, result, earliest, latest)
    ensures Given(fetched, call, repos, result, 0, latest)
  {
  }

  lemma CacheStep(s: State, step: Step)
    requires CacheSound(s) && Enabled(s, step)
    ensures CacheSound(Apply(s, step))
  {
    match step
    case Tick => SoundPersists(s, Apply(s, step));
    case Get(p, repos) =>
      if Hit(s.cache, s.now, CacheKey(repos)) {
        HitIsRecent(s, repos);
        ServeSound(s, repos, s.cache[CacheKey(repos)].result);
      } else {
        AskSound(s, p, repos);
      }
    case Inner(p, result) => InnerSound(s, p, result);
    case Set(p, write) => SetSound(s, p, write, CacheKey(s.procs[p].repos));
  }

  lemma NumberedGet(s: State, p: nat, repos: seq<string>, key: string)
    requires Numbered(s) && p !in s.procs
    ensures Numbered(ApplyGet(s, p, repos, key))
  {
  }

  lemma NumberedInner(s: State, p: nat, result: Option<Releases>)
    requires Numbered(s) && p in s.procs && s.procs[p].Asking?
    ensures Numbered(ApplyInner(s, p, result))
  {
  }

  lemma NumberedSet(s: State, p: nat, write: Write, key: string)
    requires Numbered(s) && p in s.procs && s.procs[p].Storing?
    ensures Numbered(ApplySet(s, p, write, key))
  {
  }

  lemma NumberedStep(s: State, step: Step)
    requires Numbered(s) && Enabled(s, step)
    ensures Numbered(Apply(s, step))
  {
    match step
    case Tick =>
    case Get(p, repos) => NumberedGet(s, p, repos, CacheKey(repos));
    case Inner(p, result) => NumberedInner(s, p, result);
    case Set(p, write) => NumberedSet(s, p, write, CacheKey(s.procs[p].repos));
  }

  /** Over any sequence of overlapping calls, failures and clock advances: whatever is in the cache the inner client
      gave to some call that stored it, though that call may itself have failed; and every answer is sound. */
  lemma {:induction false} CacheAgrees(s: State, steps: seq<Step>)
    requires CacheSound(s) && Numbered(s) && CanRun(s, steps)
    ensures CacheSound(Exec(s, steps)) && Numbered(Exec(s, steps))
    decreases |steps|
  {
    if steps != [] {
      CacheStep(s, steps[0]);
      NumberedStep(s, steps[0]);
      CacheAgrees(Apply(s, steps[0]), steps[1..]);
    }
  }

  /** In every run from the empty cache: an answer given after asking is the one answer that the inner client gave to
      that very call for these very repositories, between the call's GET and its end; any other was stored less than
      the TTL before for a permutation of the batch. */
  lemma AnswersAgree(ttl: nat, steps: seq<Step>, i: nat)
    requires CanRun(Init(ttl), steps) && i < |Exec(Init(ttl), steps).answers|
    ensures var s := Exec(Init(ttl), steps);
            var a := s.answers[i];
            && AnswerSound(s, a)
            && (a.asked ==> AnsweredOnce(s.fetched, a.call))
  {
    CacheAgrees(Init(ttl), steps);
  }

  // ---------- What is stored is found ----------

  /** The write's entry, or a later one, is there until the write's time is over. */
  predicate Covered(cache: map<string, Entry>, ttl: nat, w: Stored, key: string) {
    CommaFree(w.repos) && key in cache && w.at + ttl <= cache[key].expiresAt
  }

  ghost predicate AllCovered(s: State) {
    forall i :: 0 <= i < |s.stored| ==> s.stored[i].at <= s.now && Covered(s.cache, s.ttl, s.stored[i], CacheKey(s.stored[i].repos))
  }

  lemma SetCovers(s: State, p: nat, write: Write, key: string)
    requires AllCovered(s) && p in s.procs && s.procs[p].Storing? && CommaFree(s.procs[p].repos) && key == CacheKey(s.procs[p].repos)
    ensures AllCovered(ApplySet(s, p, write, key))
  {
    var s' := ApplySet(s, p, write, key);
    forall i | 0 <= i < |s'.stored|
      ensures s'.stored[i].at <= s'.now && Covered(s'.cache, s'.ttl, s'.stored[i], CacheKey(s'.stored[i].repos))
    {
      if i < |s.stored| {
        assert Covered(s.cache, s.ttl, s.stored[i], CacheKey(s.stored[i].repos));
      }
    }
  }

  lemma CoveredStep(s: State, step: Step)
    requires AllCovered(s) && Enabled(s, step)
    ensures AllCovered(Apply(s, step))
  {
    match step
    case Tick =>
    case Get(_, _) =>
    case Inner(_, _) =>
    case Set(p, write) => SetCovers(s, p, write, CacheKey(s.procs[p].repos));
  }

  lemma {:induction false} CoveredAlongRuns(s: State, steps: seq<Step>)
    requires AllCovered(s) && CanRun(s, steps)
    ensures AllCovered(Exec(s, steps))
    decreases |steps|
  {
    if steps != [] {
      CoveredStep(s, steps[0]);
      CoveredAlongRuns(Apply(s, steps[0]), steps[1..]);
    }
  }

  lemma StoredIsFound(s: State, repos: seq<string>, i: nat, key: string)
    requires AllCovered(s) && CommaFree(repos) && key == CacheKey(repos) && i < |s.stored|
    requires multiset(s.stored[i].repos) == multiset(repos) && s.now < s.stored[i].at + s.ttl
    ensures key in s.cache && s.now < s.cache[key].expiresAt
  {
    BatchKeysIffPermutation(s.stored[i].repos, repos);
    assert Covered(s.cache, s.ttl, s.stored[i], CacheKey(s.stored[i].repos));
  }

  lemma FoundIffStored(s: State, repos: seq<string>, key: string)
    requires CacheSound(s) && AllCovered(s) && CommaFree(repos) && key == CacheKey(repos)
    ensures key in s.cache && s.now < s.cache[key].expiresAt <==> StoredWithin(s, repos)
  {
    if Hit(s.cache, s.now, key) {
      HitIsRecent(s, repos);
    }
    if StoredWithin(s, repos) {
      var i :| 0 <= i < |s.stored| && multiset(s.stored[i].repos) == multiset(repos)
               && s.stored[i].at <= s.now < s.stored[i].at + s.ttl;
      StoredIsFound(s, repos, i, key);
    }
  }

  /** Some result for a permutation of the batch was stored less than the time to live ago. */
  ghost predicate StoredWithin(s: State, repos: seq<string>) {
    exists i :: 0 <= i < |s.stored| && multiset(s.stored[i].repos) == multiset(repos)
                && s.stored[i].at <= s.now < s.stored[i].at + s.ttl
  }

  /** In every run a GET for a batch finds a live entry exactly when a result for some permutation of the batch was stored
      less than the time to live ago, by whichever call, also if that call lost the reply to its write. */
  lemma HitIffStoredRecently(ttl: nat, steps: seq<Step>, repos: seq<string>, key: string)
    requires CanRun(Init(ttl), steps) && CommaFree(repos) && key == CacheKey(repos)
    ensures var s := Exec(Init(ttl), steps);
            key in s.cache && s.now < s.cache[key].expiresAt <==> StoredWithin(s, repos)
  {
    CacheAgrees(Init(ttl), steps);
    CoveredAlongRuns(Init(ttl), steps);
    FoundIffStored(Exec(Init(ttl), steps), repos, key);
  }

  // ---------- The code ----------

  predicate StepOf(step: Step, p: nat) {
    !step.Tick? && step.p == p
  }

  function Mine(p: nat): Step -> bool {
    step => StepOf(step, p)
  }

  lemma {:induction false} RunsExtend(s: State, steps: seq<Step>, step: Step)
    requires CanRun(s, steps) && Enabled(Exec(s, steps), step)
    ensures CanRun(s, steps + [step]) && Exec(s, steps + [step]) == Apply(Exec(s, steps), step)
    decreases |steps|
  {
    if steps == [] {
      assert ([] + [step])[1..] == [];
    } else {
      RunsExtend(Apply(s, steps[0]), steps[1..], step);
      assert (steps + [step])[1..] == steps[1..] + [step];
    }
  }

  lemma StayStep(s: State, step: Step, p: nat)
    requires Enabled(s, step) && !StepOf(step, p)
    ensures p in Apply(s, step).procs <==> p in s.procs
    ensures p in s.procs ==> Apply(s, step).procs[p] == s.procs[p]
  {
  }

  lemma {:induction false} OthersKeepPc(s: State, env: seq<Step>, p: nat)
    requires CanRun(s, env) && NoneMine(env, Mine(p))
    ensures p in Exec(s, env).procs <==> p in s.procs
    ensures p in s.procs ==> Exec(s, env).procs[p] == s.procs[p]
    decreases |env|
  {
    if env != [] {
      assert !Mine(p)(env[0]);
      StayStep(s, env[0], p);
      OthersKeepPc(Apply(s, env[0]), env[1..], p);
    }
  }

  /** How a call went: a hit, a failed inner client, or its result, which the store then takes or refuses. */
  datatype Path = FromCache | InnerFailed | Asked(result: Releases, write: Write)

  function PathOwn(p: nat, repos: seq<string>, path: Path): seq<Step> {
    match path
    case FromCache => [Get(p, repos)]
    case InnerFailed => [Get(p, repos), Inner(p, None)]
    case Asked(result, write) => [Get(p, repos), Inner(p, Some(result)), Set(p, write)]
  }

  ghost predicate At(s: State, p: nat, pc: Pc) {
    p in s.procs && s.procs[p] == pc
  }

  class CachedGithubClient {
    const ttlSeconds: nat
    var now: nat
    var cache: map<string, Entry>
    ghost var model: State
    ghost var trace: seq<Step>

    ghost predicate Valid()
      reads this
    {
      && CanRun(Init(ttlSeconds), trace) && Exec(Init(ttlSeconds), trace) == model
      && now == model.now && cache == model.cache && ttlSeconds == model.ttl
    }

    ghost predicate Took(p: nat, before: seq<Step>, own: seq<Step>, noise: nat)
      reads this`trace
    {
      Traces.Took(before, trace, Mine(p), own, noise)
    }

    constructor (ttlSeconds: nat)
      ensures Valid() && this.ttlSeconds == ttlSeconds && trace == []
    {
      this.ttlSeconds := ttlSeconds;
      now, cache := 0, map[];
      model, trace := Init(ttlSeconds), [];
    }

    ghost method Record(p: nat, step: Step)
      requires CanRun(Init(ttlSeconds), trace) && Exec(Init(ttlSeconds), trace) == model
      requires Enabled(model, step) && StepOf(step, p)
      modifies this`model, this`trace
      ensures CanRun(Init(ttlSeconds), trace) && Exec(Init(ttlSeconds), trace) == model
      ensures model == Apply(old(model), step) && Took(p, old(trace), [step], 0)
    {
      RunsExtend(Init(ttlSeconds), trace, step);
      OwnOfStep(trace, step, Mine(p));
      model, trace := Apply(model, step), trace + [step];
    }

    /** What other calls and the clock may do while `p` awaits. Callers know no more than this contract; the body is
        the run in which nothing happens. */
    method Others(ghost p: nat) returns (ghost env: seq<Step>)
      requires Valid()
      modifies this`now, this`cache, this`model, this`trace
      ensures Valid() && NoneMine(env, Mine(p)) && trace == old(trace) + env
      ensures CanRun(old(model), env) && model == Exec(old(model), env)
    {
      env := [];
      assert trace + [] == trace;
    }

    method Await(ghost p: nat) returns (ghost noise: nat)
      requires Valid()
      modifies this`now, this`cache, this`model, this`trace
      ensures Valid() && Took(p, old(trace), [], noise)
      ensures p in model.procs <==> p in old(model).procs
      ensures p in model.procs ==> model.procs[p] == old(model).procs[p]
    {
      ghost var env := Others(p);
      OthersKeepPc(old(model), env, p);
      OwnOfOthers(old(trace), env, Mine(p));
      noise := |env|;
    }

    method ReadCache(ghost p: nat, repos: seq<string>, key: string) returns (cached: Option<Releases>)
      requires Valid() && p !in model.procs && CommaFree(repos) && key == CacheKey(repos)
      modifies this`model, this`trace
      ensures Valid() && Took(p, old(trace), [Get(p, repos)], 0)
      ensures cached.Some? <==> Hit(cache, now, key)
      ensures cached.Some? ==> p !in model.procs && cached.value == cache[key].result
      ensures cached.None? ==> At(model, p, Asking(old(model).calls, repos, now))
    {
      cached := if key in cache && now < cache[key].expiresAt then Some(cache[key].result) else None;
      Record(p, Get(p, repos));
    }

    method AskInner(ghost p: nat, ghost pc: Pc) returns (result: Option<Releases>)
      requires Valid() && pc.Asking? && At(model, p, pc)
      modifies this`model, this`trace
      ensures Valid() && Took(p, old(trace), [Inner(p, result)], 0)
      ensures if result.None? then p !in model.procs else At(model, p, Storing(pc.call, pc.repos, pc.since, result.value))
    {
      result := *;
      Record(p, Inner(p, result));
    }

    method WriteCache(ghost p: nat, ghost pc: Pc, key: string, result: Releases) returns (write: Write)
      requires Valid() && pc.Storing? && At(model, p, pc) && CommaFree(pc.repos) && key == CacheKey(pc.repos) && result == pc.result
      modifies this`cache, this`model, this`trace
      ensures Valid() && Took(p, old(trace), [Set(p, write)], 0) && p !in model.procs
      ensures cache == if write.Refused? then old(cache) else old(cache)[key := Entry(result, now + ttlSeconds)]
    {
      write := *;
      if !write.Refused? {
        cache := cache[key := Entry(result, now + ttlSeconds)];
      }
      Record(p, Set(p, write));
    }

    /** The write, at some time after the inner client's answer. */
    method AwaitAndWrite(ghost p: nat, ghost pc: Pc, key: string, result: Releases) returns (write: Write, ghost noise: nat)
      requires Valid() && pc.Storing? && At(model, p, pc) && CommaFree(pc.repos) && key == CacheKey(pc.repos) && result == pc.result
      modifies this`now, this`cache, this`model, this`trace
      ensures Valid() && p !in model.procs && Took(p, old(trace), [Set(p, write)], noise)
    {
      noise := Await(p);
      ghost var mid := trace;
      write := WriteCache(p, pc, key, result);
      TookThen(old(trace), mid, trace, Mine(p), [], noise, [Set(p, write)], 0);
    }

    method AwaitAndAsk(ghost p: nat, ghost pc: Pc) returns (result: Option<Releases>, ghost noise: nat)
      requires Valid() && pc.Asking? && At(model, p, pc)
      modifies this`now, this`cache, this`model, this`trace
      ensures Valid() && Took(p, old(trace), [Inner(p, result)], noise)
      ensures if result.None? then p !in model.procs else At(model, p, Storing(pc.call, pc.repos, pc.since, result.value))
    {
      noise := Await(p);
      ghost var mid := trace;
      result := AskInner(p, pc);
      TookThen(old(trace), mid, trace, Mine(p), [], noise, [Inner(p, result)], 0);
    }

    /** After a miss: the inner client's result, once it is stored. */
    method AskAndStore(ghost p: nat, ghost pc: Pc, key: string) returns (r: Option<Releases>, ghost path: Path, ghost noise: nat)
      requires Valid() && pc.Asking? && At(model, p, pc) && CommaFree(pc.repos) && key == CacheKey(pc.repos)
      modifies this`now, this`cache, this`model, this`trace
      ensures Valid() && p !in model.procs && !path.FromCache?
      ensures Took(p, old(trace), PathOwn(p, pc.repos, path)[1..], noise)
      ensures r == if path.Asked? && path.write.Confirmed? then Some(path.result) else None
    {
      var result;
      result, noise := AwaitAndAsk(p, pc);
      if result.None? {
        return None, InnerFailed, noise;
      }
      ghost var mid := trace;
      var write;
      ghost var more;
      write, more := AwaitAndWrite(p, Storing(pc.call, pc.repos, pc.since, result.value), key, result.value);
      TookThen(old(trace), mid, trace, Mine(p), [Inner(p, result)], noise, [Set(p, write)], more);
      return if write.Confirmed? then result else None, Asked(result.value, write), noise + more;
    }

    /** getLatestReleasesBatch: a live entry of the batch's key, else the inner client's result once its write is
        confirmed; a failure of either ends the call with nothing. */
    method GetLatestReleasesBatch(ghost p: nat, repos: seq<string>) returns (r: Option<Releases>, ghost path: Path, ghost noise: nat)
      requires Valid() && p !in model.procs && CommaFree(repos)
      modifies this`now, this`cache, this`model, this`trace
      ensures Valid() && p !in model.procs && Took(p, old(trace), PathOwn(p, repos, path), noise)
      ensures path.FromCache? <==> CacheKey(repos) in old(cache) && old(now) < old(cache)[CacheKey(repos)].expiresAt
      ensures r == match path
                   case FromCache => Some(old(cache)[CacheKey(repos)].result)
                   case InnerFailed => None
                   case Asked(result, write) => if write.Confirmed? then Some(result) else None
    {
      var key := CacheKey(repos);
      var cached := ReadCache(p, repos, key);
      if cached.Some? {
        return cached, FromCache, 0;
      }
      ghost var mid := trace;
      r, path, noise := AskAndStore(p, model.procs[p], key);
      TookThen(old(trace), mid, trace, Mine(p), [Get(p, repos)], 0, PathOwn(p, repos, path)[1..], noise);
    }
  }
}
