// pipeline_step_helper.py: finding the step after the active one, and what
// following it from the first step visits.
module PipelineSteps {
  import opened Wrappers

  // list.index: the first position, or None where Python raises ValueError.
  function IndexOf(steps: seq<string>, step: string): (i: Option<nat>)
    ensures i.Some? ==> i.value < |steps| && steps[i.value] == step && step !in steps[..i.value]
    ensures i.None? <==> step !in steps
  {
    if steps == [] then None
    else if steps[0] == step then Some(0)
    else
      assert steps == [steps[0]] + steps[1..];
      match IndexOf(steps[1..], step)
      case None => None
      case Some(k) =>
        assert steps[..k + 1] == [steps[0]] + steps[1..][..k];
        Some(k + 1)
  }

  datatype NextStep = Unknown | Last | Then(step: string)

  // get_next_step_name; Unknown when the active step is not in the list.
  function GetNextStep(steps: seq<string>, active: string): NextStep {
    match IndexOf(steps, active)
    case None => Unknown
    case Some(i) => if i + 1 < |steps| then Then(steps[i + 1]) else Last
  }

  predicate Distinct(steps: seq<string>) {
    forall i, j :: 0 <= i < j < |steps| ==> steps[i] != steps[j]
  }

  // "done" is the way from the first step to "step".
  predicate Walked(steps: seq<string>, done: seq<string>, step: string)
    decreases |done|
  {
    if done == [] then steps != [] && step == steps[0]
    else
      var n := |done| - 1;
      Walked(steps, done[..n], done[n]) && GetNextStep(steps, done[n]) == Then(step)
  }

  lemma DistinctIndex(steps: seq<string>, i: nat)
    requires Distinct(steps) && i < |steps|
    ensures IndexOf(steps, steps[i]) == Some(i)
  {
    assert steps[i] in steps;
    var k := IndexOf(steps, steps[i]);
  }

  // With distinct steps the way to a step is the steps before it, in order.
  lemma {:induction false} WalkedInOrder(steps: seq<string>, done: seq<string>, step: string)
    requires Distinct(steps) && Walked(steps, done, step)
    ensures |done| < |steps| && done == steps[..|done|] && step == steps[|done|]
    decreases |done|
  {
    if done != [] {
      var n := |done| - 1;
      WalkedInOrder(steps, done[..n], done[n]);
      DistinctIndex(steps, n);
      assert done == done[..n] + [done[n]];
    }
  }

  // Where following the next step leads after n hops; None once it has ended.
  function Hop(steps: seq<string>, n: nat): Option<string>
    requires steps != []
  {
    if n == 0 then Some(steps[0])
    else
      match Hop(steps, n - 1)
      case None => None
      case Some(step) => (match GetNextStep(steps, step) case Then(next) => Some(next) case _ => None)
  }

  lemma {:induction false} HopsInOrder(steps: seq<string>, n: nat)
    requires steps != [] && Distinct(steps) && n <= |steps|
    ensures Hop(steps, n) == if n < |steps| then Some(steps[n]) else None
    decreases n
  {
    if n > 0 {
      HopsInOrder(steps, n - 1);
      DistinctIndex(steps, n - 1);
    }
  }

  lemma NotBefore(steps: seq<string>, i: nat, k: nat)
    requires i < |steps| && k <= |steps| && steps[i] !in steps[..k]
    ensures k <= i
  {
  }

  // A step named twice sends the walk back: it never gets past the repetition.
  lemma {:induction false} HopsStayBelow(steps: seq<string>, q: nat, n: nat)
    requires 0 < q < |steps| && Distinct(steps[..q]) && steps[q] in steps[..q]
    ensures Hop(steps, n).Some? && Hop(steps, n).value in steps[..q]
    decreases n
  {
    if n == 0 {
      assert steps[..q][0] == steps[0];
    } else {
      HopsStayBelow(steps, q, n - 1);
      var step := Hop(steps, n - 1).value;
      var i :| 0 <= i < q && steps[..q][i] == step;
      var k := IndexOf(steps, step).value;
      NotBefore(steps, i, k);
      if k + 1 < q { assert steps[..q][k + 1] == steps[k + 1]; }
    }
  }

  lemma {:induction false} FirstRepetition(steps: seq<string>) returns (q: nat)
    requires !Distinct(steps)
    ensures 0 < q < |steps| && Distinct(steps[..q]) && steps[q] in steps[..q]
    decreases |steps|
  {
    var n := |steps| - 1;
    if Distinct(steps[..n]) {
      var i, j :| 0 <= i < j < |steps| && steps[i] == steps[j];
      assert forall k, l :: 0 <= k < l < n ==> steps[k] != steps[l] by {
        forall k, l | 0 <= k < l < n ensures steps[k] != steps[l] { assert steps[..n][k] != steps[..n][l]; }
      }
      assert steps[..n][i] == steps[n];
      q := n;
    } else {
      q := FirstRepetition(steps[..n]);
      assert steps[..n][..q] == steps[..q];
    }
  }

  // A document gets through its steps if and only if no step is named twice.
  lemma CompletesExactly(steps: seq<string>)
    requires steps != []
    ensures Distinct(steps) <==> exists n :: Hop(steps, n).None?
  {
    if Distinct(steps) {
      HopsInOrder(steps, |steps|);
    } else {
      var q := FirstRepetition(steps);
      forall n ensures Hop(steps, n).Some? { HopsStayBelow(steps, q, n); }
    }
  }
}
