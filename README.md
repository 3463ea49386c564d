# LibCST codemod engine: skip/remove signals and multi-pass increments

This project models the two codemods defined in LibCST's
`libcst/codemod/tests/test_codemod.py` and the parts of the codemod engine that
their tests depend on.

- `SimpleCodemod` either raises `SkipFile`, raises `RemoveFile` or returns the
  tree it was given. The choice depends on two constructor flags, and skip
  takes precedence. The two exceptions become the `Skipped` and `Removed`
  variants of an `Outcome` datatype.
- `IncrementCodemod` is a mutable object with an `iterations` budget. Each pass
  that has budget left spends one unit of it and rewrites every integer literal
  `v` to `str(int(v) + 1)`. With no budget left, a pass returns the tree
  unchanged. The codemod opts into multiple passes.
- The engine's multi-pass driver calls the transform again on its output for
  as long as the output differs from the input. `TestMultipass` relies on
  this: `x = 5` with a budget of 5 becomes `x = 10` after six calls. The fifth
  call writes `10`, and the sixth returns it unchanged, which ends the run.

A module is reduced to a sequence of tokens. Each token is either an integer
literal, kept as its source text, or some other token, which the codemods never
change. `int()` and `str()` on literals are modelled over decimal digit strings
(module `Literals`). The matcher call `m.replace(tree, m.Integer(), rule)` is
modelled by its effect (module `Cst`). The codemods and the driver are in
module `Codemod`. `IncrementCodemod` is a class: `TransformModuleImpl` updates
`iterations` in place, and `TransformModule` is the driver's `while` loop. Both
methods are proved equal to the functions `Step` and `Run`. Lemmas about `Run`
give its result in closed form for every kind of input.

## Model

| member | source | states |
|---|---|---|
| `Literals.Parse` | libcst/codemod/tests/test_codemod.py:87 | `int(value)` succeeds exactly on decimal literal text: digits, not starting or ending with an underscore, no two underscores in a row. On hex, octal or binary text it is None, where Python raises ValueError |
| `Literals.Show` | libcst/codemod/tests/test_codemod.py:87 | `str(n)` is a non-empty digit string that starts with `0` only when it is exactly `"0"` |
| `Literals.ShowValue` | libcst/codemod/tests/test_codemod.py:87 | the digits `str(n)` writes have the value `n` |
| `Literals.ParseShow` | libcst/codemod/tests/test_codemod.py:87 | round trip: `int(str(n)) == n` |
| `Cst.IncrementLiteral` | libcst/codemod/tests/test_codemod.py:87 | the replacement rule succeeds exactly when `int()` accepts the literal. Its result reads back as the old value plus one and always differs from the old text |
| `Cst.ReplaceIntegers` | libcst/codemod/tests/test_codemod.py:83-90 | replacing every integer literal succeeds exactly when all literals are convertible. The result then has every literal raised by exactly one and every other token, and the token order, unchanged. Otherwise it reports the first literal `int()` rejects |
| `Cst.FirstInvalidAfterHead` | libcst/codemod/tests/test_codemod.py:83-90 | a convertible token before the first rejected literal leaves that literal the first rejected one |
| `Cst.ShiftedByCompose` | libcst/codemod/tests/test_codemod.py:81-90 | raising all literals by `j` and then by `k` is raising them by `j + k` |
| `Cst.ShiftedByConvertible` | libcst/codemod/tests/test_codemod.py:83-90 | after a pass, every literal is convertible again, and the tree has a literal exactly when it had one before |
| `Cst.ShiftedByChanges` | libcst/codemod/tests/test_codemod.py:83-90 | a pass with budget changes the tree exactly when the tree has an integer literal |
| `Codemod.SimpleCodemod.TransformModuleImpl` | libcst/codemod/tests/test_codemod.py:14-25 | Skipped iff `skip`. Removed iff `remove` and not `skip`. The input tree comes back unchanged iff neither flag is set, which is the default, so the default is neither skipped nor removed (the expected-failure tests at lines 49-67) |
| `Codemod.Step` | libcst/codemod/tests/test_codemod.py:78-90 | with budget 0: the tree is unchanged and the budget stays 0. With budget `n > 0`: the budget becomes `n - 1`. The pass then either raises every literal by exactly one with nothing else changed, or fails because a literal is not convertible |
| `Codemod.Run` | libcst/codemod/tests/test_codemod.py:75-81 | the multi-pass driver calls the transform between 1 and `k + 1` times for budget `k`, and never skips or removes. Budget 0 gives one call and the tree unchanged. Budget `k > 0` with a non-convertible literal fails on the first call, leaving `k - 1` |
| `Codemod.IncrementCodemod.constructor` | libcst/codemod/tests/test_codemod.py:71-73 | the budget starts at the given value |
| `Codemod.IncrementCodemod.ShouldAllowMultiplePasses` | libcst/codemod/tests/test_codemod.py:75-76 | always allows multiple passes |
| `Codemod.IncrementCodemod.TransformModuleImpl` | libcst/codemod/tests/test_codemod.py:78-90 | the in-place pass returns the outcome `Step` gives for the old budget and tree, and leaves `iterations` at the budget `Step` leaves |
| `Codemod.IncrementCodemod.TransformModule` | libcst/codemod/tests/test_codemod.py:97-105 | the driver loop on one instance returns the outcome of `Run` on the starting budget, with the call count as a ghost out-parameter, and leaves `iterations` at what `Run` leaves |
| `Codemod.RunWithoutIntegers` | libcst/codemod/tests/test_codemod.py:79-90 | with budget `k > 0` and no integer literal, the first pass changes nothing. The driver stops after one call, with the tree unchanged and budget `k - 1` |
| `Codemod.RunConverges` | libcst/codemod/tests/test_codemod.py:79-81 | with at least one literal and all of them convertible, budget `k` ends after exactly `k + 1` calls with budget 0, and every literal is raised by exactly `k` |
| `Codemod.RunFromFive` | libcst/codemod/tests/test_codemod.py:97-105 | from `x = 5` with budget 5, the driver ends with `x = 10` after 6 calls |
| `Codemod.MultiIterations` | libcst/codemod/tests/test_codemod.py:97-105 | running a fresh `IncrementCodemod(iterations=5)` on `x = 5` gives `x = 10` after 6 calls |

## Left out

- Parsing and printing source text, whitespace and comments are left out. A module is a token sequence, and non-integer tokens are carried opaquely.
- `CodemodContext`, metadata handling and the rest of the `Codemod` base class are left out, because that code is not part of this model. The driver is modelled only as the repeat-until-unchanged loop the multi-pass test relies on. Tree comparison is value equality of token sequences.
- `Codemod.IncrementCodemod.constructor`: the budget is a `nat`. In the source, `iterations` is any `int`. A negative budget never equals 0 at line 79, so a multi-pass run on a tree with an integer literal would never stop. The model cannot express that run.
- `Literals.Parse`: only ASCII digits are modelled. Python's `int()` also accepts surrounding whitespace, a sign and non-ASCII Unicode digits. It also refuses strings longer than the interpreter's digit limit (4300 by default). An integer token never carries the first three, and the digit limit is not modelled.
- `SimpleCodemod` does not override `should_allow_multiple_passes`, so the engine calls it exactly once. The base-class default it inherits is not part of this model, so the single-pass driver is not modelled separately. Its result is the one call's outcome.
- The test harness (`CodemodTest.assertCodemod`, dedent and text comparison, `expectedFailure`) is left out. Only the outcomes it asserts are stated.
- The general matcher language of `libcst.matchers` is left out. Only `m.Integer()` with the increment rule is modelled.
