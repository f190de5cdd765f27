# star: a model of the header-only C test harness `star.h` (0.2.0)

`star.h` gives a C program three things:

- **A test registry.** `TEST(name)` defines a test function and a load-time
  registration function. That function appends `{name, func}` to the static
  array `tests[256]` at index `test_count`, then increments `test_count`. It
  does not check the capacity.
- **Two assertions.** `ASS_TRUE(expr)` and `ASS_EQ(a, b)` each test a
  predicate. When it is false they print a failure line and `return` from the
  enclosing function, which is the test itself when the assertion is written
  directly in the test body. Nothing else happens: no counter moves and no
  flag is set.
- **A runner.** `star_run(o)` (with `STAR_NO_ENTRY`) or `main` calls every
  registered body once, in index order. After every call it increments
  `passed`, so every test is reported as passed, including one whose
  assertion failed. `main` always returns 0. The flag `o` of `star_run` only
  decides whether the runner's own lines are printed.

The model has two modules:

- `Assertions` (`assertions.dfy`) is pure. A test body is the straight-line
  sequence of assertions it contains, each with its operands already
  evaluated; those after a failing one are never reached. `Exec`
  says where the body leaves: it runs to the end, or it returns at an
  assertion. `Evaluated` counts the assertions that are reached.
- `Star` (`star.dfy`) is imperative. `Registry` is a class that holds the
  `array<TestCase>` of length 256 and the `count` cursor. `Register` writes
  one slot and bumps the cursor. `Run` is the runner loop. It returns
  `passed`, a record of the calls it made and the lines it printed.
  `EntryPoint` is `main`.

Printed lines are kept as abstract events, without their text:
`Running(total)`, `Fail(assertion)`, `Pass(name)` and `Summary(passed,
total)`. That is enough to say what the flag `o` changes and what it leaves
alone.

`star.h` 0.2.0 keeps no assertion counters and no per-test failure flag, and
has no non-fatal mode: every failed assertion returns. `passed` always ends
equal to `test_count`, and `main` returns 0 even when an assertion failed.

## Model

| member | source | states |
|---|---|---|
| `Assertions.Exec` | star.h:35-45 | A body runs to its end exactly when every assertion's predicate holds. Otherwise it returns at an assertion whose predicate is false, and every assertion before that one holds. |
| `Assertions.Evaluated` | star.h:35-45 | The number of assertions a body reaches is at most its length, and at least one when the body is not empty. |
| `Assertions.ExecIsFirstFailure` | star.h:35-45 | Both directions: the body returns at index k if and only if k is the first failing assertion. |
| `Assertions.EvaluatedIsFirstFailurePlusOne` | star.h:35-45 | The number of assertions evaluated is the index of the first failure plus one, or the whole body when none fails. |
| `Assertions.AssTrueStep` | star.h:35-39 | `ASS_TRUE(b)` returns at once when `b` is false. When `b` is true the rest of the body runs, and its exit point and count move by one. |
| `Assertions.AssEqStep` | star.h:41-45 | `ASS_EQ(x, y)` returns at once when `x != y`. When `x == y` the rest of the body runs, and its exit point and count move by one. |
| `Assertions.FailureSkipsRest` | star.h:35-45 | Once the body contains a failing assertion, whatever follows is never reached: its exit and count ignore the appended statements. |
| `Assertions.PassingPrefixContinues` | star.h:35-45 | A prefix of passing assertions only falls through. The rest of the body behaves as it would on its own, shifted by the prefix length. |
| `Assertions.FailingMiddleAssertion` | star.h:35-45 | For `ASS_EQ(2+2, 4); ASS_TRUE(false); ASS_EQ(1, 1)`, the body returns at the second assertion, two assertions are evaluated, and the third never is. |
| `Star.BodyOutput` | star.h:35-45 | A body prints no failure line iff all its assertions hold. Otherwise it prints exactly one line, for its first failing assertion. |
| `Star.Registry.constructor` | star.h:14-15 | At program start the registry is empty, with 256 slots. |
| `Star.Registry.Register` | star.h:27-33 | The new entry `{name, body}` is written at the old `test_count`. The count grows by exactly one, every other slot is unchanged, and the registered sequence gains the entry at its end. Requires a free slot, because the write is unchecked. |
| `Star.CallsInOrder` | star.h:53-54 | The runner makes one call per registered test. The k-th call is to entry k and runs that entry's body, so execution order is registration order. |
| `Star.Registry.Run` | star.h:49-60 | After the loop, `passed == test_count` whatever the assertions did. The calls are exactly the in-order calls of every registered body. The output is the start line and summary when verbose, with each test's failure line and, when verbose, its pass line. |
| `Star.EveryTestReportedPassed` | star.h:52-57 | When verbose, the loop prints one pass line per registered test, including each test that failed. It prints exactly one failure line per failing test. |
| `Star.VerbosityOnlyAddsLines` | star.h:49-60 | The flag `o` only adds the runner's own lines. Dropping those lines from the verbose output leaves exactly the quiet output. |
| `Star.Registry.EntryPoint` | star.h:62-75 | `main` prints as the verbose runner does, with a summary of `test_count/test_count`, and returns status 0 on every run. |
| `Star.OneFailingTestStillPasses` | star.h:62-75 | Running `main` (`EntryPoint`) with two registered tests, one passing and one returning at a failed assertion, prints a pass line for both and the failure line of the second, the summary is 2/2, and the exit status is 0. |

## Left out

- Output text: the `printf` formats, the ANSI colour codes, the `STAR_NO_COLOR` switch, and the file, line and expression text in failure messages. Lines are abstract events.
- Load-time registration through `__attribute__((constructor))`, and C function pointers. Registration is an explicit `Register` call per test, in declaration order. A body is the straight-line sequence of assertions the body contains.
- Assertions are modelled only where they are written directly in the test body. An assertion inside a helper function that the test calls returns only from the helper, so the test goes on and can print several failure lines; `Exec` and `BodyOutput` do not cover that case.
- Test bodies are only their assertions. Other statements and their side effects are not modelled. A body that never returns, or that crashes, is not modelled either.
- `ASS_EQ` operands are modelled as already-evaluated integers. C compares any two operand types with `!=`, and the macro evaluates an operand a second time when it prints the failure. Side effects of operands are not captured.
- `argc` and `argv` are ignored by `main`, so they are not modelled. The `STAR_NO_ENTRY` choice is modelled as two methods, `Run` for `star_run` and `EntryPoint` for `main`.
- Star.Registry.Register: requires `count < 256`. In C, a 257th registration writes past the end of `tests`, which is undefined behaviour, so the model has no result for it.
- Two tests with the same name do not compile in C, so the model does not consider them.
- `test_count` and `passed` are C `int`s. They are modelled as unbounded integers, which is exact because neither can exceed 256.
