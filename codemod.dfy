/** The two codemods of libcst/codemod/tests/test_codemod.py and the engine
    behaviour their tests rely on: the skip and remove signals, and repeated
    passes until the output stops changing. */
module Codemod {
  import opened Literals
  import opened Cst

  /** How one invocation of a transform ends. `SkipFile` and `RemoveFile`
      are raised as exceptions in the source; any other exception (here only
      the ValueError of `int()` on a literal it rejects) propagates as Failed. */
  datatype Outcome = Transformed(tree: Module) | Skipped | Removed | Failed(literal: string)

  /** A codemod that skips or removes every file, or leaves it alone. */
  datatype SimpleCodemod = SimpleCodemod(skip: bool := false, remove: bool := false) {

    /** Skip is tested before remove; with neither flag the tree comes back as it was. */
    function TransformModuleImpl(tree: Module): (o: Outcome)
      ensures o == Skipped <==> skip
      ensures o == Removed <==> !skip && remove
      ensures o == Transformed(tree) <==> !skip && !remove
      ensures !o.Failed?
    {
      if skip then Skipped
      else if remove then Removed
      else Transformed(tree)
    }
  }

  /** What `IncrementCodemod.transform_module_impl` returns, and the budget it
      leaves, when called with budget `iterations` on `tree`. */
  datatype Pass = Pass(outcome: Outcome, left: nat)

  function Step(iterations: nat, tree: Module): (p: Pass)
    ensures iterations == 0 ==> p == Pass(Transformed(tree), 0)
    ensures iterations > 0 ==> p.left == iterations - 1
    ensures iterations > 0 ==> (p.outcome.Transformed? <==> Convertible(tree))
    ensures iterations > 0 && p.outcome.Transformed? ==> ShiftedBy(tree, p.outcome.tree, 1)
    ensures p.outcome.Transformed? || p.outcome.Failed?
  {
    if iterations == 0 then Pass(Transformed(tree), 0)
    else
      match ReplaceIntegers(tree)
      case Done(t) => Pass(Transformed(t), iterations - 1)
      case InvalidLiteral(v) => Pass(Failed(v), iterations - 1)
  }

  /** The result of a whole multi-pass run: the final outcome, the budget
      left in the codemod, and how many times the transform was invoked. */
  datatype Report = Report(outcome: Outcome, left: nat, calls: nat)

  /** The engine's run of a codemod that allows multiple passes: invoke the
      transform, and invoke it again on its output for as long as it returns
      a tree different from the one it was given. */
  function Run(iterations: nat, tree: Module): (r: Report)
    decreases iterations
    ensures 1 <= r.calls <= iterations + 1
    ensures r.left <= iterations
    ensures iterations == 0 ==> r == Report(Transformed(tree), 0, 1)
    ensures iterations > 0 && !Convertible(tree) ==>
      r == Report(Failed(ReplaceIntegers(tree).value), iterations - 1, 1)
    ensures !r.outcome.Skipped? && !r.outcome.Removed?
  {
    var p := Step(iterations, tree);
    if p.outcome.Transformed? && p.outcome.tree != tree then
      var r := Run(p.left, p.outcome.tree);
      Report(r.outcome, r.left, r.calls + 1)
    else Report(p.outcome, p.left, 1)
  }

  class IncrementCodemod {
    var iterations: nat

    constructor (iterations: nat)
      ensures this.iterations == iterations
    {
      this.iterations := iterations;
    }

    function ShouldAllowMultiplePasses(): (r: bool)
      ensures r
    {
      true
    }

    /** One pass: with budget left, spend one unit of it and raise every
        integer literal by one; with none left, hand the tree back. */
    method TransformModuleImpl(tree: Module) returns (o: Outcome)
      modifies this
      ensures Pass(o, iterations) == Step(old(iterations), tree)
    {
      if iterations == 0 {
        return Transformed(tree);
      }
      iterations := iterations - 1;
      match ReplaceIntegers(tree)
      case Done(t) => o := Transformed(t);
      case InvalidLiteral(v) => o := Failed(v);
    }

    /** The engine's driver: call the transform once, and while multiple
        passes are allowed and the result is a tree that differs from its
        input, call it again on that result. The engine returns only the
        outcome; `calls` is kept for the proof. */
    method TransformModule(tree: Module) returns (o: Outcome, ghost calls: nat)
      modifies this
      ensures Report(o, iterations, calls) == Run(old(iterations), tree)
    {
      ghost var start := iterations;
      ghost var before := iterations;
      var current := tree;
      o := TransformModuleImpl(current);
      calls := 1;
      while ShouldAllowMultiplePasses() && o.Transformed? && o.tree != current
        invariant calls >= 1
        invariant Pass(o, iterations) == Step(before, current)
        invariant Run(start, tree) ==
          Report(Run(before, current).outcome, Run(before, current).left, Run(before, current).calls + calls - 1)
        decreases iterations + (if o.Transformed? && o.tree != current then 1 else 0)
      {
        current := o.tree;
        before := iterations;
        o := TransformModuleImpl(current);
        calls := calls + 1;
      }
    }
  }

  /** A positive budget and no integer literal: the first pass changes
      nothing, so the engine stops after one call, one unit of budget spent. */
  lemma RunWithoutIntegers(k: nat, tree: Module)
    requires k > 0 && !HasInteger(tree)
    ensures Run(k, tree) == Report(Transformed(tree), k - 1, 1)
  {
  }

  /** With at least one integer literal, all of them convertible, a budget of
      `k` is spent entirely: the transform is called `k + 1` times, the last
      call returning its input, and every literal ends up raised by `k`. */
  lemma {:induction false} RunConverges(k: nat, tree: Module)
    requires Convertible(tree) && HasInteger(tree)
    ensures Run(k, tree).outcome.Transformed?
    ensures k == 0 ==> Run(k, tree).outcome.tree == tree
    ensures k > 0 ==> ShiftedBy(tree, Run(k, tree).outcome.tree, k)
    ensures Run(k, tree).left == 0 && Run(k, tree).calls == k + 1
  {
    if k > 0 {
      var p := Step(k, tree);
      var next := p.outcome.tree;
      ShiftedByChanges(tree, next, 1);
      ShiftedByConvertible(tree, next, 1);
      var rest := Run(k - 1, next);
      RunConverges(k - 1, next);
      assert Run(k, tree) == Report(rest.outcome, rest.left, rest.calls + 1);
      if k > 1 {
        ShiftedByCompose(tree, next, rest.outcome.tree, 1, k - 1);
      }
    }
  }

  /** `x = 5` with a budget of 5 becomes `x = 10`, after six calls. */
  method MultiIterations() returns (o: Outcome, ghost calls: nat)
    ensures o == Transformed([Other("x = "), Integer("10")])
    ensures calls == 6
  {
    var before := [Other("x = "), Integer("5")];
    var codemod := new IncrementCodemod(5);
    ghost var budget := codemod.iterations;
    o, calls := codemod.TransformModule(before);
    RunFromFive(budget, before);
  }

  lemma RunFromFive(k: nat, tree: Module)
    requires k == 5 && tree == [Other("x = "), Integer("5")]
    ensures Run(k, tree) == Report(Transformed([Other("x = "), Integer("10")]), 0, 6)
  {
    assert Parse("5") == Some(5) by {
      assert IsDecimal("5") && StripUnderscores("5") == "5";
    }
    assert Convertible(tree) && tree[1].Integer?;
    RunConverges(k, tree);
    ShiftedFiveByFive(tree, Run(k, tree).outcome.tree);
  }

  lemma ShiftedFiveByFive(tree: Module, after: Module)
    requires tree == [Other("x = "), Integer("5")] && ShiftedBy(tree, after, 5)
    ensures after == [Other("x = "), Integer("10")]
  {
    assert Parse("5") == Some(5) by {
      assert IsDecimal("5") && StripUnderscores("5") == "5";
    }
    assert Show(10) == "10" by {
      assert Show(1) == "1";
    }
    assert Shifted(tree[1], after[1], 5);
  }
}
