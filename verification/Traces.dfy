/** Lists of steps, and the part of one that is a given process's own. */
module Traces {

  function Own<S>(steps: seq<S>, mine: S -> bool): seq<S> {
    if steps == [] then []
    else Own(steps[..|steps| - 1], mine) + (if mine(steps[|steps| - 1]) then [steps[|steps| - 1]] else [])
  }

  ghost predicate NoneMine<S>(steps: seq<S>, mine: S -> bool) {
    forall i :: 0 <= i < |steps| ==> !mine(steps[i])
  }

  lemma {:induction false} OwnOfOthers<S>(before: seq<S>, env: seq<S>, mine: S -> bool)
    requires NoneMine(env, mine)
    ensures Own(before + env, mine) == Own(before, mine)
    decreases |env|
  {
    if env == [] {
      assert before + env == before;
    } else {
      var last := |env| - 1;
      assert (before + env)[..|before + env| - 1] == before + env[..last];
      OwnOfOthers(before, env[..last], mine);
    }
  }

  lemma OwnOfStep<S>(before: seq<S>, step: S, mine: S -> bool)
    requires mine(step)
    ensures Own(before + [step], mine) == Own(before, mine) + [step]
  {
    assert (before + [step])[..|before|] == before;
  }

  /** `p` has taken exactly the steps `own` since `before`, and others `noise` of theirs. */
  ghost predicate Took<S>(before: seq<S>, after: seq<S>, mine: S -> bool, own: seq<S>, noise: nat) {
    Own(after, mine) == Own(before, mine) + own && |after| == |before| + |own| + noise
  }

  lemma TookThen<S>(before: seq<S>, mid: seq<S>, after: seq<S>, mine: S -> bool, a: seq<S>, n: nat, b: seq<S>, k: nat)
    requires Took(before, mid, mine, a, n) && Took(mid, after, mine, b, k)
    ensures Took(before, after, mine, a + b, n + k)
  {
    assert Own(before, mine) + a + b == Own(before, mine) + (a + b);
  }
}
