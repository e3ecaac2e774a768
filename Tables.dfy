/** Tables of a fixed length written out step by step: the shape of a model
    method, one block after another. One family of lemmas per reading of a
    table, so that a caller takes on only the facts it uses. */
module Tables {

  import opened Php
  import opened Errors
  import opened Sql
  import opened FilterSteps

  // ThenAll: the blocks composed in order.

  lemma ThenAll1(steps: seq<Step>, s0: Step, f: Filters, v: Validators, r: Result<Query>)
    requires steps == [s0]
    ensures ThenAll(steps, f, v, r)
         == Then(s0, f, v, r)
  {
    assert steps[1..] == [];
  }

  lemma ThenAll2(steps: seq<Step>, s0: Step, s1: Step, f: Filters, v: Validators, r: Result<Query>)
    requires steps == [s0, s1]
    ensures ThenAll(steps, f, v, r)
         == Then(s1, f, v, Then(s0, f, v, r))
  {
    assert steps[1..] == [s1];
    ThenAll1(steps[1..], s1, f, v, Then(s0, f, v, r));
  }

  lemma ThenAll3(steps: seq<Step>, s0: Step, s1: Step, s2: Step, f: Filters, v: Validators, r: Result<Query>)
    requires steps == [s0, s1, s2]
    ensures ThenAll(steps, f, v, r)
         == Then(s2, f, v, Then(s1, f, v, Then(s0, f, v, r)))
  {
    assert steps[1..] == [s1, s2];
    ThenAll2(steps[1..], s1, s2, f, v, Then(s0, f, v, r));
  }

  lemma ThenAll4(steps: seq<Step>, s0: Step, s1: Step, s2: Step, s3: Step, f: Filters, v: Validators, r: Result<Query>)
    requires steps == [s0, s1, s2, s3]
    ensures ThenAll(steps, f, v, r)
         == Then(s3, f, v, Then(s2, f, v, Then(s1, f, v, Then(s0, f, v, r))))
  {
    assert steps[1..] == [s1, s2, s3];
    ThenAll3(steps[1..], s1, s2, s3, f, v, Then(s0, f, v, r));
  }

  lemma ThenAll5(steps: seq<Step>, s0: Step, s1: Step, s2: Step, s3: Step, s4: Step, f: Filters, v: Validators, r: Result<Query>)
    requires steps == [s0, s1, s2, s3, s4]
    ensures ThenAll(steps, f, v, r)
         == Then(s4, f, v, Then(s3, f, v, Then(s2, f, v, Then(s1, f, v, Then(s0, f, v, r)))))
  {
    assert steps[1..] == [s1, s2, s3, s4];
    ThenAll4(steps[1..], s1, s2, s3, s4, f, v, Then(s0, f, v, r));
  }

  lemma ThenAll6(steps: seq<Step>, s0: Step, s1: Step, s2: Step, s3: Step, s4: Step, s5: Step, f: Filters, v: Validators, r: Result<Query>)
    requires steps == [s0, s1, s2, s3, s4, s5]
    ensures ThenAll(steps, f, v, r)
         == Then(s5, f, v, Then(s4, f, v, Then(s3, f, v, Then(s2, f, v, Then(s1, f, v, Then(s0, f, v, r))))))
  {
    assert steps[1..] == [s1, s2, s3, s4, s5];
    ThenAll5(steps[1..], s1, s2, s3, s4, s5, f, v, Then(s0, f, v, r));
  }

  lemma ThenAll7(steps: seq<Step>, s0: Step, s1: Step, s2: Step, s3: Step, s4: Step, s5: Step, s6: Step, f: Filters, v: Validators, r: Result<Query>)
    requires steps == [s0, s1, s2, s3, s4, s5, s6]
    ensures ThenAll(steps, f, v, r)
         == Then(s6, f, v, Then(s5, f, v, Then(s4, f, v, Then(s3, f, v, Then(s2, f, v, Then(s1, f, v, Then(s0, f, v, r)))))))
  {
    assert steps[1..] == [s1, s2, s3, s4, s5, s6];
    ThenAll6(steps[1..], s1, s2, s3, s4, s5, s6, f, v, Then(s0, f, v, r));
  }

  // FirstError: the exception of the first block that throws.

  lemma FirstError1(steps: seq<Step>, s0: Step, f: Filters, v: Validators)
    requires steps == [s0]
    ensures FirstError(steps, f, v)
         == StepError(s0, f, v)
  {
    assert steps[1..] == [];
  }

  lemma FirstError2(steps: seq<Step>, s0: Step, s1: Step, f: Filters, v: Validators)
    requires steps == [s0, s1]
    ensures FirstError(steps, f, v)
         == OrElse(StepError(s0, f, v), StepError(s1, f, v))
  {
    assert steps[1..] == [s1];
    FirstError1(steps[1..], s1, f, v);
  }

  lemma FirstError3(steps: seq<Step>, s0: Step, s1: Step, s2: Step, f: Filters, v: Validators)
    requires steps == [s0, s1, s2]
    ensures FirstError(steps, f, v)
         == OrElse(StepError(s0, f, v), OrElse(StepError(s1, f, v), StepError(s2, f, v)))
  {
    assert steps[1..] == [s1, s2];
    FirstError2(steps[1..], s1, s2, f, v);
  }

  lemma FirstError4(steps: seq<Step>, s0: Step, s1: Step, s2: Step, s3: Step, f: Filters, v: Validators)
    requires steps == [s0, s1, s2, s3]
    ensures FirstError(steps, f, v)
         == OrElse(StepError(s0, f, v), OrElse(StepError(s1, f, v), OrElse(StepError(s2, f, v), StepError(s3, f, v))))
  {
    assert steps[1..] == [s1, s2, s3];
    FirstError3(steps[1..], s1, s2, s3, f, v);
  }

  lemma FirstError5(steps: seq<Step>, s0: Step, s1: Step, s2: Step, s3: Step, s4: Step, f: Filters, v: Validators)
    requires steps == [s0, s1, s2, s3, s4]
    ensures FirstError(steps, f, v)
         == OrElse(StepError(s0, f, v), OrElse(StepError(s1, f, v), OrElse(StepError(s2, f, v), OrElse(StepError(s3, f, v), StepError(s4, f, v)))))
  {
    assert steps[1..] == [s1, s2, s3, s4];
    FirstError4(steps[1..], s1, s2, s3, s4, f, v);
  }

  lemma FirstError6(steps: seq<Step>, s0: Step, s1: Step, s2: Step, s3: Step, s4: Step, s5: Step, f: Filters, v: Validators)
    requires steps == [s0, s1, s2, s3, s4, s5]
    ensures FirstError(steps, f, v)
         == OrElse(StepError(s0, f, v), OrElse(StepError(s1, f, v), OrElse(StepError(s2, f, v), OrElse(StepError(s3, f, v), OrElse(StepError(s4, f, v), StepError(s5, f, v))))))
  {
    assert steps[1..] == [s1, s2, s3, s4, s5];
    FirstError5(steps[1..], s1, s2, s3, s4, s5, f, v);
  }

  lemma FirstError7(steps: seq<Step>, s0: Step, s1: Step, s2: Step, s3: Step, s4: Step, s5: Step, s6: Step, f: Filters, v: Validators)
    requires steps == [s0, s1, s2, s3, s4, s5, s6]
    ensures FirstError(steps, f, v)
         == OrElse(StepError(s0, f, v), OrElse(StepError(s1, f, v), OrElse(StepError(s2, f, v), OrElse(StepError(s3, f, v), OrElse(StepError(s4, f, v), OrElse(StepError(s5, f, v), StepError(s6, f, v)))))))
  {
    assert steps[1..] == [s1, s2, s3, s4, s5, s6];
    FirstError6(steps[1..], s1, s2, s3, s4, s5, s6, f, v);
  }

  // Emitted: the fragments appended.

  lemma Emitted1(steps: seq<Step>, s0: Step, f: Filters)
    requires steps == [s0]
    ensures Emitted(steps, f)
         == StepFrags(s0, f)
  {
    assert steps[1..] == [];
    assert StepFrags(s0, f) + [] == StepFrags(s0, f);
  }

  lemma Emitted2(steps: seq<Step>, s0: Step, s1: Step, f: Filters)
    requires steps == [s0, s1]
    ensures Emitted(steps, f)
         == StepFrags(s0, f) + StepFrags(s1, f)
  {
    assert steps[1..] == [s1];
    Emitted1(steps[1..], s1, f);
  }

  lemma Emitted3(steps: seq<Step>, s0: Step, s1: Step, s2: Step, f: Filters)
    requires steps == [s0, s1, s2]
    ensures Emitted(steps, f)
         == StepFrags(s0, f) + (StepFrags(s1, f) + StepFrags(s2, f))
  {
    assert steps[1..] == [s1, s2];
    Emitted2(steps[1..], s1, s2, f);
  }

  lemma Emitted4(steps: seq<Step>, s0: Step, s1: Step, s2: Step, s3: Step, f: Filters)
    requires steps == [s0, s1, s2, s3]
    ensures Emitted(steps, f)
         == StepFrags(s0, f) + (StepFrags(s1, f) + (StepFrags(s2, f) + StepFrags(s3, f)))
  {
    assert steps[1..] == [s1, s2, s3];
    Emitted3(steps[1..], s1, s2, s3, f);
  }

  lemma Emitted5(steps: seq<Step>, s0: Step, s1: Step, s2: Step, s3: Step, s4: Step, f: Filters)
    requires steps == [s0, s1, s2, s3, s4]
    ensures Emitted(steps, f)
         == StepFrags(s0, f) + (StepFrags(s1, f) + (StepFrags(s2, f) + (StepFrags(s3, f) + StepFrags(s4, f))))
  {
    assert steps[1..] == [s1, s2, s3, s4];
    Emitted4(steps[1..], s1, s2, s3, s4, f);
  }

  lemma Emitted6(steps: seq<Step>, s0: Step, s1: Step, s2: Step, s3: Step, s4: Step, s5: Step, f: Filters)
    requires steps == [s0, s1, s2, s3, s4, s5]
    ensures Emitted(steps, f)
         == StepFrags(s0, f) + (StepFrags(s1, f) + (StepFrags(s2, f) + (StepFrags(s3, f) + (StepFrags(s4, f) + StepFrags(s5, f)))))
  {
    assert steps[1..] == [s1, s2, s3, s4, s5];
    Emitted5(steps[1..], s1, s2, s3, s4, s5, f);
  }

  lemma Emitted7(steps: seq<Step>, s0: Step, s1: Step, s2: Step, s3: Step, s4: Step, s5: Step, s6: Step, f: Filters)
    requires steps == [s0, s1, s2, s3, s4, s5, s6]
    ensures Emitted(steps, f)
         == StepFrags(s0, f) + (StepFrags(s1, f) + (StepFrags(s2, f) + (StepFrags(s3, f) + (StepFrags(s4, f) + (StepFrags(s5, f) + StepFrags(s6, f))))))
  {
    assert steps[1..] == [s1, s2, s3, s4, s5, s6];
    Emitted6(steps[1..], s1, s2, s3, s4, s5, s6, f);
  }

  // Bindings: the names bound.

  lemma Bindings1(steps: seq<Step>, s0: Step, f: Filters)
    requires steps == [s0]
    ensures Bindings(steps, f)
         == StepArgs(s0, f)
  {
    assert steps[1..] == [];
    assert StepArgs(s0, f) + map[] == StepArgs(s0, f);
  }

  lemma Bindings2(steps: seq<Step>, s0: Step, s1: Step, f: Filters)
    requires steps == [s0, s1]
    ensures Bindings(steps, f)
         == StepArgs(s0, f) + StepArgs(s1, f)
  {
    assert steps[1..] == [s1];
    Bindings1(steps[1..], s1, f);
  }

  lemma Bindings3(steps: seq<Step>, s0: Step, s1: Step, s2: Step, f: Filters)
    requires steps == [s0, s1, s2]
    ensures Bindings(steps, f)
         == StepArgs(s0, f) + (StepArgs(s1, f) + StepArgs(s2, f))
  {
    assert steps[1..] == [s1, s2];
    Bindings2(steps[1..], s1, s2, f);
  }

  lemma Bindings4(steps: seq<Step>, s0: Step, s1: Step, s2: Step, s3: Step, f: Filters)
    requires steps == [s0, s1, s2, s3]
    ensures Bindings(steps, f)
         == StepArgs(s0, f) + (StepArgs(s1, f) + (StepArgs(s2, f) + StepArgs(s3, f)))
  {
    assert steps[1..] == [s1, s2, s3];
    Bindings3(steps[1..], s1, s2, s3, f);
  }

  lemma Bindings5(steps: seq<Step>, s0: Step, s1: Step, s2: Step, s3: Step, s4: Step, f: Filters)
    requires steps == [s0, s1, s2, s3, s4]
    ensures Bindings(steps, f)
         == StepArgs(s0, f) + (StepArgs(s1, f) + (StepArgs(s2, f) + (StepArgs(s3, f) + StepArgs(s4, f))))
  {
    assert steps[1..] == [s1, s2, s3, s4];
    Bindings4(steps[1..], s1, s2, s3, s4, f);
  }

  lemma Bindings6(steps: seq<Step>, s0: Step, s1: Step, s2: Step, s3: Step, s4: Step, s5: Step, f: Filters)
    requires steps == [s0, s1, s2, s3, s4, s5]
    ensures Bindings(steps, f)
         == StepArgs(s0, f) + (StepArgs(s1, f) + (StepArgs(s2, f) + (StepArgs(s3, f) + (StepArgs(s4, f) + StepArgs(s5, f)))))
  {
    assert steps[1..] == [s1, s2, s3, s4, s5];
    Bindings5(steps[1..], s1, s2, s3, s4, s5, f);
  }

  lemma Bindings7(steps: seq<Step>, s0: Step, s1: Step, s2: Step, s3: Step, s4: Step, s5: Step, s6: Step, f: Filters)
    requires steps == [s0, s1, s2, s3, s4, s5, s6]
    ensures Bindings(steps, f)
         == StepArgs(s0, f) + (StepArgs(s1, f) + (StepArgs(s2, f) + (StepArgs(s3, f) + (StepArgs(s4, f) + (StepArgs(s5, f) + StepArgs(s6, f))))))
  {
    assert steps[1..] == [s1, s2, s3, s4, s5, s6];
    Bindings6(steps[1..], s1, s2, s3, s4, s5, s6, f);
  }

  // Gather: a union over the steps.

  lemma Gather1(steps: seq<Step>, s0: Step, g: Step -> set<string>)
    requires steps == [s0]
    ensures Gather(steps, g) == g(s0)
  {
    assert steps[1..] == [];
    assert g(s0) + {} == g(s0);
  }

  lemma Gather2(steps: seq<Step>, s0: Step, s1: Step, g: Step -> set<string>)
    requires steps == [s0, s1]
    ensures Gather(steps, g) == g(s0) + g(s1)
  {
    assert steps[1..] == [s1];
    Gather1(steps[1..], s1, g);
  }

  lemma Gather3(steps: seq<Step>, s0: Step, s1: Step, s2: Step, g: Step -> set<string>)
    requires steps == [s0, s1, s2]
    ensures Gather(steps, g) == g(s0) + (g(s1) + g(s2))
  {
    assert steps[1..] == [s1, s2];
    Gather2(steps[1..], s1, s2, g);
  }

  lemma Gather4(steps: seq<Step>, s0: Step, s1: Step, s2: Step, s3: Step, g: Step -> set<string>)
    requires steps == [s0, s1, s2, s3]
    ensures Gather(steps, g) == g(s0) + (g(s1) + (g(s2) + g(s3)))
  {
    assert steps[1..] == [s1, s2, s3];
    Gather3(steps[1..], s1, s2, s3, g);
  }

  lemma Gather5(steps: seq<Step>, s0: Step, s1: Step, s2: Step, s3: Step, s4: Step, g: Step -> set<string>)
    requires steps == [s0, s1, s2, s3, s4]
    ensures Gather(steps, g) == g(s0) + (g(s1) + (g(s2) + (g(s3) + g(s4))))
  {
    assert steps[1..] == [s1, s2, s3, s4];
    Gather4(steps[1..], s1, s2, s3, s4, g);
  }

  lemma Gather6(steps: seq<Step>, s0: Step, s1: Step, s2: Step, s3: Step, s4: Step, s5: Step, g: Step -> set<string>)
    requires steps == [s0, s1, s2, s3, s4, s5]
    ensures Gather(steps, g) == g(s0) + (g(s1) + (g(s2) + (g(s3) + (g(s4) + g(s5)))))
  {
    assert steps[1..] == [s1, s2, s3, s4, s5];
    Gather5(steps[1..], s1, s2, s3, s4, s5, g);
  }

  lemma Gather7(steps: seq<Step>, s0: Step, s1: Step, s2: Step, s3: Step, s4: Step, s5: Step, s6: Step, g: Step -> set<string>)
    requires steps == [s0, s1, s2, s3, s4, s5, s6]
    ensures Gather(steps, g) == g(s0) + (g(s1) + (g(s2) + (g(s3) + (g(s4) + (g(s5) + g(s6))))))
  {
    assert steps[1..] == [s1, s2, s3, s4, s5, s6];
    Gather6(steps[1..], s1, s2, s3, s4, s5, s6, g);
  }

  // Every: a property of each step.

  lemma Every1(steps: seq<Step>, s0: Step, p: Step -> bool)
    requires steps == [s0]
    requires p(s0)
    ensures forall i :: 0 <= i < |steps| ==> p(steps[i])
  {
    assert steps[1..] == [];
  }

  lemma Every2(steps: seq<Step>, s0: Step, s1: Step, p: Step -> bool)
    requires steps == [s0, s1]
    requires p(s0) && p(s1)
    ensures forall i :: 0 <= i < |steps| ==> p(steps[i])
  {
    assert steps[1..] == [s1];
    assert forall i :: 1 <= i < |steps| ==> steps[i] == steps[1..][i - 1];
    Every1(steps[1..], s1, p);
  }

  lemma Every3(steps: seq<Step>, s0: Step, s1: Step, s2: Step, p: Step -> bool)
    requires steps == [s0, s1, s2]
    requires p(s0) && p(s1) && p(s2)
    ensures forall i :: 0 <= i < |steps| ==> p(steps[i])
  {
    assert steps[1..] == [s1, s2];
    assert forall i :: 1 <= i < |steps| ==> steps[i] == steps[1..][i - 1];
    Every2(steps[1..], s1, s2, p);
  }

  lemma Every4(steps: seq<Step>, s0: Step, s1: Step, s2: Step, s3: Step, p: Step -> bool)
    requires steps == [s0, s1, s2, s3]
    requires p(s0) && p(s1) && p(s2) && p(s3)
    ensures forall i :: 0 <= i < |steps| ==> p(steps[i])
  {
    assert steps[1..] == [s1, s2, s3];
    assert forall i :: 1 <= i < |steps| ==> steps[i] == steps[1..][i - 1];
    Every3(steps[1..], s1, s2, s3, p);
  }

  lemma Every5(steps: seq<Step>, s0: Step, s1: Step, s2: Step, s3: Step, s4: Step, p: Step -> bool)
    requires steps == [s0, s1, s2, s3, s4]
    requires p(s0) && p(s1) && p(s2) && p(s3) && p(s4)
    ensures forall i :: 0 <= i < |steps| ==> p(steps[i])
  {
    assert steps[1..] == [s1, s2, s3, s4];
    assert forall i :: 1 <= i < |steps| ==> steps[i] == steps[1..][i - 1];
    Every4(steps[1..], s1, s2, s3, s4, p);
  }

  lemma Every6(steps: seq<Step>, s0: Step, s1: Step, s2: Step, s3: Step, s4: Step, s5: Step, p: Step -> bool)
    requires steps == [s0, s1, s2, s3, s4, s5]
    requires p(s0) && p(s1) && p(s2) && p(s3) && p(s4) && p(s5)
    ensures forall i :: 0 <= i < |steps| ==> p(steps[i])
  {
    assert steps[1..] == [s1, s2, s3, s4, s5];
    assert forall i :: 1 <= i < |steps| ==> steps[i] == steps[1..][i - 1];
    Every5(steps[1..], s1, s2, s3, s4, s5, p);
  }

  lemma Every7(steps: seq<Step>, s0: Step, s1: Step, s2: Step, s3: Step, s4: Step, s5: Step, s6: Step, p: Step -> bool)
    requires steps == [s0, s1, s2, s3, s4, s5, s6]
    requires p(s0) && p(s1) && p(s2) && p(s3) && p(s4) && p(s5) && p(s6)
    ensures forall i :: 0 <= i < |steps| ==> p(steps[i])
  {
    assert steps[1..] == [s1, s2, s3, s4, s5, s6];
    assert forall i :: 1 <= i < |steps| ==> steps[i] == steps[1..][i - 1];
    Every6(steps[1..], s1, s2, s3, s4, s5, s6, p);
  }
}
