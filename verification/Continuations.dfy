/** Fair continuations of a run, one step after another. */
module Continuations {
  import opened Options
  import opened EffectMachine
  import opened HopelessKeys
  import StoreInvariant

  /** Some fair continuation leads from one state to the other. */
  ghost predicate Leads(honest: bool, c: Config, s: State, s': State) {
    exists steps :: Runs(c, s, steps) && FairRun(honest, c, s, steps) && After(c, s, steps) == s'
  }

  lemma LeadsNowhere(honest: bool, c: Config, s: State)
    ensures Leads(honest, c, s, s)
  {
    assert Runs(c, s, []) && After(c, s, []) == s;
  }

  lemma {:induction false} FairSnoc(honest: bool, c: Config, s: State, steps: seq<Step>, step: Step)
    requires Runs(c, s, steps) && FairRun(honest, c, s, steps)
    requires Enabled(c, After(c, s, steps), step) && Fair(honest, After(c, s, steps), step)
    ensures Runs(c, s, steps + [step]) && FairRun(honest, c, s, steps + [step])
    ensures After(c, s, steps + [step]) == Do(c, After(c, s, steps), step)
    decreases |steps|
  {
    hide Fair, Do, Enabled;
    if steps == [] {
      assert ([] + [step])[1..] == [];
    } else {
      assert (steps + [step])[1..] == steps[1..] + [step];
      FairSnoc(honest, c, Do(c, s, steps[0]), steps[1..], step);
    }
  }

  /** One more step of a fair continuation that keeps the stores bound. */
  lemma LeadsStep(honest: bool, c: Config, s: State, s1: State, step: Step) returns (s2: State)
    requires Leads(honest, c, s, s1) && StoreInvariant.Inv(c, s1) && Enabled(c, s1, step) && Fair(honest, s1, step)
    ensures s2 == Do(c, s1, step) && Leads(honest, c, s, s2) && StoreInvariant.Inv(c, s2)
  {
    StoreInvariant.StepKeeps(c, s1, step);
    hide Fair, Do, Enabled, StoreInvariant.Inv;
    var steps :| Runs(c, s, steps) && FairRun(honest, c, s, steps) && After(c, s, steps) == s1;
    FairSnoc(honest, c, s, steps, step);
    s2 := Do(c, s1, step);
  }
}
