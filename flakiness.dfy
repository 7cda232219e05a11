/**
 * ProbabilityBasedFlakinessStrategy: schedules extra runs of tests whose historical success rate is below
 * the required one. Rates are exact reals here; the source's doubles round.
 */
module Flakiness {
  import opened Wrappers
  import opened Seqs
  import opened TestModel

  datatype ProbabilityBasedFlakinessStrategy = ProbabilityBasedFlakinessStrategy(
    minSuccessRate: real,
    maxCount: int,
    timeLimit: Instant)
  {
    /**
     * `equals`: `None` stands for null or an object of another class. Equality is on all three fields,
     * which is exactly value equality of the strategy.
     */
    predicate Equals(other: Option<ProbabilityBasedFlakinessStrategy>)
      ensures Equals(other) <==> other == Some(this)
    {
      match other
      case None => false
      case Some(o) =>
        minSuccessRate == o.minSuccessRate && maxCount == o.maxCount && timeLimit == o.timeLimit
    }
  }

  /** The metrics provider's `successRate(test, timeLimit)`. */
  type SuccessRate = (Test, Instant) -> real

  /**
   * The inner loop's count: one copy per iteration while the running fail rate is above the allowed one
   * and copies remain, the running rate being squared after each copy.
   */
  function Squarings(currentFailRate: real, maxFailRate: real, remaining: int): nat
    decreases remaining
  {
    if currentFailRate > maxFailRate && remaining > 0 then
      1 + Squarings(currentFailRate * currentFailRate, maxFailRate, remaining - 1)
    else 0
  }

  /** The number of extra copies of a test with success rate `successRate`. */
  function Copies(strategy: ProbabilityBasedFlakinessStrategy, successRate: real): nat {
    if successRate < strategy.minSuccessRate then
      Squarings(1.0 - successRate, 1.0 - strategy.minSuccessRate, strategy.maxCount)
    else 0
  }

  /** The flaky-test list for `tests`: each test's copies, contiguous, in shard order. */
  function FlakyTests(strategy: ProbabilityBasedFlakinessStrategy, tests: seq<Test>, rate: SuccessRate): seq<Test> {
    if tests == [] then []
    else
      var t := tests[|tests| - 1];
      FlakyTests(strategy, tests[..|tests| - 1], rate) + Repeat(t, Copies(strategy, rate(t, strategy.timeLimit)))
  }

  /** Replaces the shard's flaky tests by the computed repeats; the shard's tests stay as they are. */
  method Process(strategy: ProbabilityBasedFlakinessStrategy, testShard: TestShard, successRate: SuccessRate)
    returns (r: TestShard)
    ensures r == testShard.(flakyTests := FlakyTests(strategy, testShard.tests, successRate))
  {
    var tests := testShard.tests;
    var output: seq<Test> := [];
    for i := 0 to |tests|
      invariant output == FlakyTests(strategy, tests[..i], successRate)
    {
      var t := tests[i];
      assert tests[..i + 1][..i] == tests[..i];
      var rate := successRate(t, strategy.timeLimit);
      if rate < strategy.minSuccessRate {
        var maxFailRate := 1.0 - strategy.minSuccessRate;
        var currentFailRate := 1.0 - rate;
        var counter := 0;
        while currentFailRate > maxFailRate && counter < strategy.maxCount
          invariant 0 <= counter
          invariant counter + Squarings(currentFailRate, maxFailRate, strategy.maxCount - counter) == Copies(strategy, rate)
          invariant output == FlakyTests(strategy, tests[..i], successRate) + Repeat(t, counter)
          decreases strategy.maxCount - counter
        {
          output := output + [t];
          currentFailRate := currentFailRate * currentFailRate;
          counter := counter + 1;
        }
      }
    }
    assert tests[..|tests|] == tests;
    r := testShard.(flakyTests := output);
  }

  /** A test never gets more copies than maxCount. */
  lemma {:induction false} SquaringsAtMost(currentFailRate: real, maxFailRate: real, remaining: int)
    ensures Squarings(currentFailRate, maxFailRate, remaining) <= if remaining < 0 then 0 else remaining
    decreases remaining
  {
    if currentFailRate > maxFailRate && remaining > 0 {
      SquaringsAtMost(currentFailRate * currentFailRate, maxFailRate, remaining - 1);
    }
  }

  /**
   * A test at or above the required success rate gets no copies; one below it gets at least one copy
   * when maxCount >= 1, and never more than maxCount.
   */
  lemma CopiesBounds(strategy: ProbabilityBasedFlakinessStrategy, successRate: real)
    ensures successRate >= strategy.minSuccessRate ==> Copies(strategy, successRate) == 0
    ensures successRate < strategy.minSuccessRate && strategy.maxCount >= 1 ==> Copies(strategy, successRate) >= 1
    ensures Copies(strategy, successRate) <= if strategy.maxCount < 0 then 0 else strategy.maxCount
  {
    if successRate < strategy.minSuccessRate {
      SquaringsAtMost(1.0 - successRate, 1.0 - strategy.minSuccessRate, strategy.maxCount);
    }
  }

  /** A fail rate of 1 stays 1 under squaring, so a test that never passes gets every allowed copy. */
  lemma {:induction false} SquaringsOfOne(maxFailRate: real, remaining: nat)
    requires maxFailRate < 1.0
    ensures Squarings(1.0, maxFailRate, remaining) == remaining
  {
    if remaining > 0 {
      SquaringsOfOne(maxFailRate, remaining - 1);
    }
  }

  lemma NeverPassingGetsMaxCount(strategy: ProbabilityBasedFlakinessStrategy)
    requires strategy.minSuccessRate > 0.0 && strategy.maxCount >= 0
    ensures Copies(strategy, 0.0) == strategy.maxCount
  {
    SquaringsOfOne(1.0 - strategy.minSuccessRate, strategy.maxCount);
  }

  /**
   * Success rate 0.5 against a required 0.8 with maxCount 5: the running fail rate goes 0.5, 0.25, 0.0625,
   * so the test gets 2 extra copies, 3 runs with the base run.
   */
  lemma HalfAgainstEightyPercent(strategy: ProbabilityBasedFlakinessStrategy)
    requires strategy.minSuccessRate == 0.8 && strategy.maxCount == 5
    ensures Copies(strategy, 0.5) == 2
  {
    assert Squarings(0.0625, 0.2, 3) == 0;
    assert Squarings(0.25, 0.2, 4) == 1;
  }

  /**
   * The other reading of the recurrence, multiplying by the initial fail rate each time: the running rate
   * goes r, r*r, r*r*r, ...
   */
  function Geometric(initialFailRate: real, currentFailRate: real, maxFailRate: real, remaining: int): nat
    decreases remaining
  {
    if currentFailRate > maxFailRate && remaining > 0 then
      1 + Geometric(initialFailRate, currentFailRate * initialFailRate, maxFailRate, remaining - 1)
    else 0
  }

  /** The two readings differ: success rate 0.5 against a required 0.9 gives 2 copies by squaring, 3 geometrically. */
  lemma RecurrencesDiffer()
    ensures Squarings(0.5, 0.1, 5) == 2
    ensures Geometric(0.5, 0.5, 0.1, 5) == 3
  {
    assert Squarings(0.0625, 0.1, 3) == 0;
    assert Squarings(0.25, 0.1, 4) == 1;
    assert Geometric(0.5, 0.0625, 0.1, 2) == 0;
    assert Geometric(0.5, 0.125, 0.1, 3) == 1;
    assert Geometric(0.5, 0.25, 0.1, 4) == 2;
  }

  /**
   * For fail rates in [0, 1], squaring never schedules more copies than the geometric reading: the squared
   * rate falls at least as fast.
   */
  lemma {:induction false} SquaringsAtMostGeometric(initial: real, x: real, y: real, maxFailRate: real, remaining: int)
    requires 0.0 <= x <= y && x <= initial <= 1.0
    ensures Squarings(x, maxFailRate, remaining) <= Geometric(initial, y, maxFailRate, remaining)
    decreases remaining
  {
    if x > maxFailRate && remaining > 0 {
      assert x * x <= x * initial;
      assert x * initial <= y * initial;
      assert x * x <= x;
      SquaringsAtMostGeometric(initial, x * x, y * initial, maxFailRate, remaining - 1);
    }
  }

  /**
   * Every occurrence of a test in the shard contributes that test's copies: the flaky list holds test x
   * exactly (occurrences of x) * Copies(x) times, and holds nothing that is not in the shard.
   */
  lemma {:induction false} FlakyTestsCount(strategy: ProbabilityBasedFlakinessStrategy, tests: seq<Test>, rate: SuccessRate, x: Test)
    ensures multiset(FlakyTests(strategy, tests, rate))[x] ==
      multiset(tests)[x] * Copies(strategy, rate(x, strategy.timeLimit))
  {
    if tests != [] {
      var init := tests[..|tests| - 1];
      var t := tests[|tests| - 1];
      assert tests == init + [t];
      FlakyTestsCount(strategy, init, rate, x);
      RepeatMultiset(t, Copies(strategy, rate(t, strategy.timeLimit)));
      var c := Copies(strategy, rate(x, strategy.timeLimit));
      if t == x {
        assert multiset(tests)[x] == multiset(init)[x] + 1;
        assert (multiset(init)[x] + 1) * c == multiset(init)[x] * c + c;
      }
    }
  }

  lemma FlakyTestsFromShard(strategy: ProbabilityBasedFlakinessStrategy, tests: seq<Test>, rate: SuccessRate, x: Test)
    requires x in FlakyTests(strategy, tests, rate)
    ensures x in tests && rate(x, strategy.timeLimit) < strategy.minSuccessRate
  {
    FlakyTestsCount(strategy, tests, rate, x);
  }
}
