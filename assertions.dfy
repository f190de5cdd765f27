/**
 * The two assertion macros of star.h, ASS_TRUE and ASS_EQ, and what they do
 * to the test body that contains them.
 *
 * Each macro is an `if` around a `return`: when its predicate is false it
 * prints a failure line and leaves the enclosing function; when the
 * predicate holds, control falls through to the next statement. Nothing is
 * counted and no flag is set. A test body is modelled as the straight-line
 * sequence of assertions written directly in it, in order; there the
 * enclosing function is the test itself.
 */
module Assertions {

  /** One assertion statement: ASS_TRUE(expr) or ASS_EQ(a, b), with its operands evaluated. */
  datatype Assertion =
    | AssTrue(expr: bool)
    | AssEq(lhs: int, rhs: int)

  /** The predicate the macro tests: `expr` for ASS_TRUE, `a == b` for ASS_EQ. */
  predicate Holds(a: Assertion)
  {
    match a
    case AssTrue(e) => e
    case AssEq(x, y) => x == y
  }

  /** How a test body leaves: it runs to its end, or an assertion at index `at` returns early. */
  datatype Exit = Completed | Returned(at: nat)

  /** `k` is the index of the first assertion of `body` whose predicate is false. */
  ghost predicate IsFirstFailure(body: seq<Assertion>, k: nat)
  {
    k < |body| && !Holds(body[k]) && forall j :: 0 <= j < k ==> Holds(body[j])
  }

  /** Moves an exit point `d` assertions further into the body. */
  function Shift(e: Exit, d: nat): (r: Exit)
    ensures r.Completed? == e.Completed?
    ensures r.Returned? ==> r.at == e.at + d
  {
    match e
    case Completed => Completed
    case Returned(k) => Returned(k + d)
  }

  /**
   * Runs a test body: each assertion either falls through or returns.
   * The body completes exactly when every predicate holds, and otherwise
   * returns at its first failing assertion.
   */
  function Exec(body: seq<Assertion>): (e: Exit)
    ensures e.Completed? <==> forall j :: 0 <= j < |body| ==> Holds(body[j])
    ensures e.Returned? ==> IsFirstFailure(body, e.at)
  {
    if body == [] then Completed
    else if !Holds(body[0]) then Returned(0)
    else Shift(Exec(body[1..]), 1)
  }

  /**
   * How many assertions a body evaluates: one per statement reached, the
   * failing one included, none after it.
   */
  function Evaluated(body: seq<Assertion>): (n: nat)
    ensures n <= |body|
    ensures |body| > 0 ==> n > 0
  {
    if body == [] then 0
    else if !Holds(body[0]) then 1
    else 1 + Evaluated(body[1..])
  }

  /** The exit point of a body is its first failure, and only that. */
  lemma ExecIsFirstFailure(body: seq<Assertion>, k: nat)
    ensures Exec(body) == Returned(k) <==> IsFirstFailure(body, k)
  {
    if IsFirstFailure(body, k) {
      var e := Exec(body);
      assert !Holds(body[k]);
      assert e.Returned? && !Holds(body[e.at]);
    }
  }

  /**
   * The number of assertions evaluated is the position of the first failure
   * plus one, or the length of the body when none fails.
   */
  lemma {:induction false} EvaluatedIsFirstFailurePlusOne(body: seq<Assertion>)
    ensures Evaluated(body) == match Exec(body)
                               case Completed => |body|
                               case Returned(k) => k + 1
  {
    if body != [] && Holds(body[0]) {
      EvaluatedIsFirstFailurePlusOne(body[1..]);
    }
  }

  /** ASS_TRUE(expr) returns iff `expr` is false; otherwise the next statement runs. */
  lemma AssTrueStep(b: bool, rest: seq<Assertion>)
    ensures Exec([AssTrue(b)] + rest) == if b then Shift(Exec(rest), 1) else Returned(0)
    ensures Evaluated([AssTrue(b)] + rest) == if b then 1 + Evaluated(rest) else 1
  {
    assert ([AssTrue(b)] + rest)[1..] == rest;
  }

  /** ASS_EQ(x, y) returns iff `x != y`; otherwise the next statement runs. */
  lemma AssEqStep(x: int, y: int, rest: seq<Assertion>)
    ensures Exec([AssEq(x, y)] + rest) == if x == y then Shift(Exec(rest), 1) else Returned(0)
    ensures Evaluated([AssEq(x, y)] + rest) == if x == y then 1 + Evaluated(rest) else 1
  {
    assert ([AssEq(x, y)] + rest)[1..] == rest;
  }

  /** Once an assertion has failed, whatever follows it in the body is never reached. */
  lemma {:induction false} FailureSkipsRest(pre: seq<Assertion>, rest: seq<Assertion>)
    requires exists j :: 0 <= j < |pre| && !Holds(pre[j])
    ensures Exec(pre + rest) == Exec(pre)
    ensures Evaluated(pre + rest) == Evaluated(pre)
  {
    assert (pre + rest)[0] == pre[0];
    if Holds(pre[0]) {
      var j :| 0 <= j < |pre| && !Holds(pre[j]);
      assert !Holds(pre[1..][j - 1]);
      assert (pre + rest)[1..] == pre[1..] + rest;
      FailureSkipsRest(pre[1..], rest);
    }
  }

  /** Passing assertions fall through: the rest of the body runs as if on its own. */
  lemma {:induction false} PassingPrefixContinues(pre: seq<Assertion>, rest: seq<Assertion>)
    requires forall j :: 0 <= j < |pre| ==> Holds(pre[j])
    ensures Exec(pre + rest) == Shift(Exec(rest), |pre|)
    ensures Evaluated(pre + rest) == |pre| + Evaluated(rest)
  {
    if pre == [] {
      assert pre + rest == rest;
      match Exec(rest)
      case Completed =>
      case Returned(k) =>
    } else {
      assert (pre + rest)[0] == pre[0];
      assert (pre + rest)[1..] == pre[1..] + rest;
      PassingPrefixContinues(pre[1..], rest);
    }
  }

  /**
   * ASS_EQ(2 + 2, 4); ASS_TRUE(false); ASS_EQ(1, 1): the second assertion
   * returns from the body, so two assertions are evaluated and the third never is.
   */
  lemma FailingMiddleAssertion()
    ensures Exec([AssEq(2 + 2, 4), AssTrue(false), AssEq(1, 1)]) == Returned(1)
    ensures Evaluated([AssEq(2 + 2, 4), AssTrue(false), AssEq(1, 1)]) == 2
  {
    var body := [AssEq(2 + 2, 4), AssTrue(false), AssEq(1, 1)];
    AssEqStep(4, 4, body[1..]);
    assert body == [AssEq(4, 4)] + body[1..];
    AssTrueStep(false, body[2..]);
    assert body[1..] == [AssTrue(false)] + body[2..];
  }
}
