/**
 Putting runs of the reload protocol together step by step.
 */
module Traces {
  import opened RevisionProtocol

  ghost predicate Leads(c: Cluster, s: State, step: Step, t: State) {
    Enabled(c, s, step) && Apply(c, s, step) == t
  }

  lemma RunOne(c: Cluster, s: State, step: Step, allowed: Step -> bool)
    requires Enabled(c, s, step) && allowed(step)
    ensures Run(c, s, [step], allowed) && After(c, s, [step], allowed) == Apply(c, s, step)
  {
    assert [step][1..] == [];
  }

  /** One step to `t` and a run from there. */
  lemma RunCons(c: Cluster, s: State, step: Step, t: State, rest: seq<Step>, allowed: Step -> bool)
    requires Leads(c, s, step, t) && allowed(step) && Run(c, t, rest, allowed)
    ensures Run(c, s, [step] + rest, allowed) && After(c, s, [step] + rest, allowed) == After(c, t, rest, allowed)
  {
    assert ([step] + rest)[1..] == rest;
  }

  lemma {:induction false} RunAppend(c: Cluster, s: State, xs: seq<Step>, ys: seq<Step>, allowed: Step -> bool)
    requires Run(c, s, xs, allowed) && Run(c, After(c, s, xs, allowed), ys, allowed)
    ensures Run(c, s, xs + ys, allowed)
    ensures After(c, s, xs + ys, allowed) == After(c, After(c, s, xs, allowed), ys, allowed)
    decreases |xs|
  {
    if xs == [] {
      assert xs + ys == ys;
    } else {
      assert (xs + ys)[1..] == xs[1..] + ys;
      RunAppend(c, Apply(c, s, xs[0]), xs[1..], ys, allowed);
    }
  }

  /** Three steps and a run from there. */
  lemma PrependThree(c: Cluster, s0: State, x: Step, s1: State, y: Step, s2: State, z: Step, s3: State,
                     rest: seq<Step>, allowed: Step -> bool) returns (steps: seq<Step>)
    requires Leads(c, s0, x, s1) && Leads(c, s1, y, s2) && Leads(c, s2, z, s3)
    requires allowed(x) && allowed(y) && allowed(z) && Run(c, s3, rest, allowed)
    ensures steps == [x, y, z] + rest
    ensures Run(c, s0, steps, allowed) && After(c, s0, steps, allowed) == After(c, s3, rest, allowed)
  {
    RunCons(c, s2, z, s3, rest, allowed);
    RunCons(c, s1, y, s2, [z] + rest, allowed);
    RunCons(c, s0, x, s1, [y] + ([z] + rest), allowed);
    steps := [x] + ([y] + ([z] + rest));
    assert steps == [x, y, z] + rest;
  }
}
