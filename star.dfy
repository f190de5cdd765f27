/**
 * The test registry and the runner of star.h.
 *
 * Every TEST(name) appends one entry to a fixed array of 256 test cases and
 * bumps a counter; the runner (`star_run`, or `main` when the header owns the
 * entry point) calls the registered bodies in index order and increments
 * `passed` after each call, whatever its assertions did.
 *
 * Printed lines are modelled as abstract events without their text: the
 * runner's start line, the failure line an assertion prints before it
 * returns, the pass line printed after each test, and the summary.
 */
module Star {
  import opened Assertions

  /** Size of the static `tests` array. */
  const Capacity: int := 256

  /** A registered test: the stringified name and the body that TEST(name) defines. */
  datatype TestCase = TestCase(name: string, body: seq<Assertion>)

  /** One call of a registered body by the runner: which entry, and how the body left. */
  datatype Call = Call(index: nat, name: string, exit: Exit)

  /** A line the harness prints, without its text, colour or source location. */
  datatype Event =
    | Running(total: int)
    | Fail(assertion: Assertion)
    | Pass(name: string)
    | Summary(passed: int, total: int)

  /** What running one body prints: the failure line of the assertion that returned, if any. */
  function BodyOutput(body: seq<Assertion>): (out: seq<Event>)
    ensures |out| <= 1
    ensures out == [] <==> forall j :: 0 <= j < |body| ==> Holds(body[j])
    ensures out != [] ==> exists k: nat :: IsFirstFailure(body, k) && out == [Fail(body[k])]
  {
    match Exec(body)
    case Completed => []
    case Returned(k) => [Fail(body[k])]
  }

  /** What one iteration of the runner loop prints: the body's output, then a pass line when verbose. */
  function TestOutput(t: TestCase, verbose: bool): seq<Event>
  {
    BodyOutput(t.body) + if verbose then [Pass(t.name)] else []
  }

  /** What the runner loop prints for the tests `ts`, in order. */
  function LoopOutput(ts: seq<TestCase>, verbose: bool): seq<Event>
    decreases |ts|
  {
    if ts == [] then []
    else LoopOutput(ts[..|ts| - 1], verbose) + TestOutput(ts[|ts| - 1], verbose)
  }

  /** The calls the runner loop makes for the tests `ts`, in order. */
  function Calls(ts: seq<TestCase>): seq<Call>
    decreases |ts|
  {
    if ts == [] then []
    else Calls(ts[..|ts| - 1]) + [Call(|ts| - 1, ts[|ts| - 1].name, Exec(ts[|ts| - 1].body))]
  }

  /**
   * The runner calls each test exactly once and in registration order: the
   * k-th call is to entry k, and it runs that entry's body.
   */
  lemma {:induction false} CallsInOrder(ts: seq<TestCase>)
    ensures |Calls(ts)| == |ts|
    ensures forall k :: 0 <= k < |ts| ==> Calls(ts)[k] == Call(k, ts[k].name, Exec(ts[k].body))
  {
    if ts != [] {
      var init := ts[..|ts| - 1];
      CallsInOrder(init);
      assert forall k :: 0 <= k < |init| ==> init[k] == ts[k];
    }
  }

  /** Number of pass lines among `es`. */
  function Passes(es: seq<Event>): nat
  {
    if es == [] then 0 else (if es[0].Pass? then 1 else 0) + Passes(es[1..])
  }

  /** Number of failure lines among `es`. */
  function Failures(es: seq<Event>): nat
  {
    if es == [] then 0 else (if es[0].Fail? then 1 else 0) + Failures(es[1..])
  }

  /** Number of tests in `ts` whose body returns early from a failed assertion. */
  function FailingTests(ts: seq<TestCase>): (n: nat)
    ensures n <= |ts|
    decreases |ts|
  {
    if ts == [] then 0
    else FailingTests(ts[..|ts| - 1]) + if Exec(ts[|ts| - 1].body).Returned? then 1 else 0
  }

  /** The lines printed whatever the verbosity flag: failure lines only. */
  function Unconditional(es: seq<Event>): (r: seq<Event>)
    ensures |r| <= |es|
    ensures forall e :: e in r ==> e.Fail? && e in es
  {
    if es == [] then []
    else (if es[0].Fail? then [es[0]] else []) + Unconditional(es[1..])
  }

  lemma {:induction false} PassesAppend(a: seq<Event>, b: seq<Event>)
    ensures Passes(a + b) == Passes(a) + Passes(b)
    ensures Failures(a + b) == Failures(a) + Failures(b)
  {
    if a == [] {
      assert a + b == b;
    } else {
      assert (a + b)[1..] == a[1..] + b;
      PassesAppend(a[1..], b);
    }
  }

  lemma {:induction false} UnconditionalAppend(a: seq<Event>, b: seq<Event>)
    ensures Unconditional(a + b) == Unconditional(a) + Unconditional(b)
  {
    if a == [] {
      assert a + b == b;
    } else {
      assert (a + b)[1..] == a[1..] + b;
      UnconditionalAppend(a[1..], b);
    }
  }

  /**
   * A pass line is printed for every test, including each one whose body
   * returned from a failed assertion; one failure line is printed per such test.
   */
  lemma {:induction false} EveryTestReportedPassed(ts: seq<TestCase>, verbose: bool)
    ensures Passes(LoopOutput(ts, verbose)) == if verbose then |ts| else 0
    ensures Failures(LoopOutput(ts, verbose)) == FailingTests(ts)
  {
    if ts != [] {
      var last := ts[|ts| - 1];
      EveryTestReportedPassed(ts[..|ts| - 1], verbose);
      PassesAppend(LoopOutput(ts[..|ts| - 1], verbose), TestOutput(last, verbose));
      PassesAppend(BodyOutput(last.body), if verbose then [Pass(last.name)] else []);
    }
  }

  /**
   * The verbosity flag only adds the runner's own lines: removing them from
   * the verbose output leaves exactly the quiet output.
   */
  lemma {:induction false} VerbosityOnlyAddsLines(ts: seq<TestCase>)
    ensures Unconditional(LoopOutput(ts, true)) == LoopOutput(ts, false)
  {
    if ts != [] {
      var init, last := ts[..|ts| - 1], ts[|ts| - 1];
      VerbosityOnlyAddsLines(init);
      UnconditionalAppend(LoopOutput(init, true), TestOutput(last, true));
      UnconditionalAppend(BodyOutput(last.body), [Pass(last.name)]);
      UnconditionalAppend(LoopOutput(init, false), TestOutput(last, false));
      UnconditionalAppend(BodyOutput(last.body), []);
      assert BodyOutput(last.body) + [] == BodyOutput(last.body);
      match Exec(last.body)
      case Completed =>
      case Returned(k) =>
        assert Unconditional(BodyOutput(last.body)) == BodyOutput(last.body) by {
          assert BodyOutput(last.body)[1..] == [];
        }
    }
  }

  /**
   * The static registry (one per translation unit that includes star.h):
   * the array `tests` and its cursor `test_count`.
   */
  class Registry {
    var tests: array<TestCase>
    var count: int

    ghost predicate Valid()
      reads this
    {
      tests.Length == Capacity && 0 <= count <= Capacity
    }

    /** The registered tests, in registration order. */
    ghost function Registered(): (r: seq<TestCase>)
      reads this, tests
      requires Valid()
      ensures |r| == count
    {
      tests[..count]
    }

    /** Program start: the zero-initialised array and `test_count == 0`. */
    constructor ()
      ensures Valid() && fresh(tests)
      ensures count == 0 && Registered() == []
    {
      tests := new TestCase[Capacity](_ => TestCase("", []));
      count := 0;
    }

    /**
     * The `register_##name` function TEST(name) generates: writes the entry at
     * index `test_count` and increments the cursor. The write is unchecked, so
     * the caller must leave room for it.
     */
    method Register(name: string, body: seq<Assertion>)
      requires Valid()
      requires count < Capacity
      modifies this`count, tests
      ensures Valid() && tests == old(tests)
      ensures count == old(count) + 1
      ensures tests[old(count)] == TestCase(name, body)
      ensures forall i :: 0 <= i < tests.Length && i != old(count) ==> tests[i] == old(tests[i])
      ensures Registered() == old(Registered()) + [TestCase(name, body)]
    {
      tests[count] := TestCase(name, body);
      count := count + 1;
    }

    /**
     * `star_run(o)`: calls every registered body once, in index order, and
     * increments `passed` after each call. `calls` records the calls made;
     * `report` the lines printed.
     */
    method Run(verbose: bool) returns (passed: int, calls: seq<Call>, report: seq<Event>)
      requires Valid()
      ensures passed == count
      ensures calls == Calls(Registered())
      ensures |calls| == count
      ensures forall i :: 0 <= i < count ==> calls[i] == Call(i, tests[i].name, Exec(tests[i].body))
      ensures report == (if verbose then [Running(count)] else [])
                        + LoopOutput(Registered(), verbose)
                        + (if verbose then [Summary(passed, count)] else [])
    {
      var lines := [];
      passed := 0;
      calls := [];
      var i := 0;
      while i < count
        invariant 0 <= i <= count
        invariant passed == i
        invariant calls == Calls(tests[..i])
        invariant lines == LoopOutput(tests[..i], verbose)
      {
        var t := tests[i];
        calls := calls + [Call(i, t.name, Exec(t.body))];
        var out := BodyOutput(t.body);
        if verbose {
          out := out + [Pass(t.name)];
        }
        assert tests[..i + 1][..i] == tests[..i];
        lines := lines + out;
        passed := passed + 1;
        i := i + 1;
      }
      CallsInOrder(tests[..count]);
      report := (if verbose then [Running(count)] else []) + lines
                + (if verbose then [Summary(passed, count)] else []);
    }

    /** `main`: prints as `star_run(1)` does and exits with status 0. */
    method EntryPoint() returns (status: int, report: seq<Event>)
      requires Valid()
      ensures status == 0
      ensures report == [Running(count)] + LoopOutput(Registered(), true) + [Summary(count, count)]
    {
      var passed, calls;
      passed, calls, report := Run(true);
      status := 0;
    }
  }

  /**
   * `main` with two tests, the first with three passing assertions and the
   * second returning at its second one: both are reported passed, the summary
   * is 2/2 and the exit status is 0.
   */
  method OneFailingTestStillPasses() returns (status: int, report: seq<Event>)
    ensures status == 0
    ensures report == [Running(2), Pass("first"), Fail(AssTrue(false)), Pass("second"), Summary(2, 2)]
  {
    var r := new Registry();
    var first := [AssEq(2 + 2, 4), AssTrue(true), AssEq(1, 1)];
    var second := [AssEq(1, 1), AssTrue(false), AssEq(3, 3)];
    r.Register("first", first);
    r.Register("second", second);
    status, report := r.EntryPoint();
    var t1, t2 := TestCase("first", first), TestCase("second", second);
    assert r.Registered() == [t1, t2];
    assert [t1, t2][..1] == [t1];
    assert [t1][..0] == [];
    assert Exec(first) == Completed;
    assert TestOutput(t1, true) == [Pass("first")];
    assert Exec(second) == Returned(1);
    assert TestOutput(t2, true) == [Fail(AssTrue(false)), Pass("second")];
    assert LoopOutput([t1], true) == LoopOutput([], true) + TestOutput(t1, true);
    assert LoopOutput([t1, t2], true) == LoopOutput([t1], true) + TestOutput(t2, true);
    assert LoopOutput([t1, t2], true) == [Pass("first"), Fail(AssTrue(false)), Pass("second")];
  }
}
