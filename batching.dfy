/**
 * FixedSizeBatchingStrategy: takes one batch of tests off the head of a pool's queue, which it changes in place.
 */
module Batching {
  import opened Wrappers
  import opened Seqs
  import opened TestModel

  /** The cap on a batch's size, except for the quotient-10 case (see BatchSize). */
  const FIXED_BATCH_SIZE: nat := 10

  /** The fields of FixedSizeBatchingStrategyConfiguration that `process` reads. */
  datatype FixedSizeConfig = FixedSizeConfig(
    durationMillis: Option<nat>,
    percentile: Option<real>,
    timeLimit: Option<Instant>,
    lastMileLength: int)

  /** The metrics provider's `executionTime(test, percentile, timeLimit)`, as a duration in milliseconds. */
  type ExecutionTime = (Test, real, Instant) -> nat

  /** The duration budget applies only when all three of its settings are present. */
  predicate Budgeted(cnf: FixedSizeConfig) {
    cnf.durationMillis.Some? && cnf.percentile.Some? && cnf.timeLimit.Some?
  }

  function Estimate(cnf: FixedSizeConfig, metrics: ExecutionTime, t: Test): nat
    requires Budgeted(cnf)
  {
    metrics(t, cnf.percentile.value, cnf.timeLimit.value)
  }

  /** Near the tail of the queue batching is switched off. */
  predicate LastMile(cnf: FixedSizeConfig, q: seq<Test>) {
    |q| < cnf.lastMileLength && |q| > 0
  }

  /**
   * The batch size: `min(FIXED_BATCH_SIZE, quotient + 1)` except that quotient 10 gives 11, because the
   * comparison is `quotient > FIXED_BATCH_SIZE`. Both operands are non-negative, so Dafny's division
   * agrees with Kotlin's.
   */
  function BatchSize(filteredTestsCount: nat, deviceCount: nat): (r: nat)
    requires deviceCount > 0
    ensures 1 <= r <= FIXED_BATCH_SIZE + 1
    ensures filteredTestsCount / deviceCount != FIXED_BATCH_SIZE ==>
      r == if FIXED_BATCH_SIZE < filteredTestsCount / deviceCount + 1 then FIXED_BATCH_SIZE else filteredTestsCount / deviceCount + 1
    ensures r == FIXED_BATCH_SIZE + 1 <==> filteredTestsCount / deviceCount == FIXED_BATCH_SIZE
  {
    if filteredTestsCount / deviceCount > FIXED_BATCH_SIZE then FIXED_BATCH_SIZE
    else filteredTestsCount / deviceCount + 1
  }

  /** How the polled items split: admitted into the batch, or set aside to be re-queued. */
  datatype Admission = Admission(admitted: seq<Test>, rejected: seq<Test>)

  /** Admission of polled items in poll order: an item already in the batch is rejected. */
  function Admit(polled: seq<Test>): Admission {
    if polled == [] then Admission([], [])
    else AdmitOne(Admit(polled[..|polled| - 1]), polled[|polled| - 1])
  }

  /** One polled item: set aside when the batch already holds it, admitted otherwise. */
  function AdmitOne(a: Admission, item: Test): Admission {
    if item in a.admitted then a.(rejected := a.rejected + [item])
    else a.(admitted := a.admitted + [item])
  }

  /** Admitting the k-th polled item of q. */
  lemma AdmitStep(q: seq<Test>, k: nat)
    requires 0 < k <= |q|
    ensures Admit(q[..k]) == AdmitOne(Admit(q[..k - 1]), q[k - 1])
  {
    assert q[..k][..k - 1] == q[..k - 1];
  }

  /** Admission conserves the polled items: batch plus rejected items are exactly the polled ones. */
  lemma {:induction false} AdmitConserves(polled: seq<Test>)
    ensures multiset(Admit(polled).admitted) + multiset(Admit(polled).rejected) == multiset(polled)
  {
    if polled != [] {
      var init := polled[..|polled| - 1];
      assert polled == init + [polled[|polled| - 1]];
      AdmitConserves(init);
    }
  }

  /** Every polled test is in the batch, exactly once; a non-empty poll gives a non-empty batch. */
  lemma {:induction false} AdmitCovers(polled: seq<Test>)
    ensures NoDuplicates(Admit(polled).admitted)
    ensures forall t | t in polled :: t in Admit(polled).admitted
    ensures forall t | t in Admit(polled).admitted :: t in polled
    ensures polled != [] ==> Admit(polled).admitted != []
  {
    if polled != [] {
      var init := polled[..|polled| - 1];
      assert polled == init + [polled[|polled| - 1]];
      AdmitCovers(init);
    }
  }

  /** The batch lists tests in the order in which they were first polled. */
  lemma {:induction false} AdmitOrder(polled: seq<Test>)
    ensures var b := Admit(polled).admitted;
      forall i, j :: 0 <= i < j < |b| ==> b[i] in polled && b[j] in polled && IndexOf(polled, b[i]) < IndexOf(polled, b[j])
  {
    if polled != [] {
      var init := polled[..|polled| - 1];
      var item := polled[|polled| - 1];
      assert polled == init + [item];
      AdmitOrder(init);
      AdmitCovers(init);
      var a := Admit(init);
      if item in a.admitted {
        forall t | t in a.admitted
          ensures IndexOf(polled, t) == IndexOf(init, t)
        {
          IndexOfAppend(init, item, t);
        }
      } else {
        OrderExtends(init, item, a.admitted);
      }
    }
  }

  lemma OrderExtends(init: seq<Test>, item: Test, b: seq<Test>)
    requires item !in init
    requires forall t | t in b :: t in init
    requires forall i, j :: 0 <= i < j < |b| ==> b[i] in init && b[j] in init && IndexOf(init, b[i]) < IndexOf(init, b[j])
    ensures var b' := b + [item];
      forall i, j :: 0 <= i < j < |b'| ==>
        b'[i] in init + [item] && b'[j] in init + [item] && IndexOf(init + [item], b'[i]) < IndexOf(init + [item], b'[j])
  {
    forall t | t in b
      ensures IndexOf(init + [item], t) == IndexOf(init, t)
    {
      IndexOfAppend(init, item, t);
    }
    IndexOfLast(init, item);
  }

  /** The running estimate after polling `t`. */
  function NextEstimate(cnf: FixedSizeConfig, metrics: ExecutionTime, acc: nat, t: Test): nat {
    if Budgeted(cnf) then acc + Estimate(cnf, metrics, t) else acc
  }

  /** The running estimate has reached the budget: the loop breaks. */
  predicate Reached(cnf: FixedSizeConfig, acc: nat) {
    Budgeted(cnf) && acc >= cnf.durationMillis.value
  }

  /**
   * The number of items the loop polls off `q`: it stops after `limit` polls, on an empty queue, or,
   * under a duration budget, right after the poll that makes the accumulated estimate reach the budget.
   */
  function Polls(cnf: FixedSizeConfig, metrics: ExecutionTime, q: seq<Test>, limit: int, acc: nat): (n: nat)
    ensures n <= |q| && n <= if limit < 0 then 0 else limit
    ensures limit > 0 && q != [] ==> n >= 1
    ensures !Budgeted(cnf) ==> n == if limit <= 0 then 0 else if limit < |q| then limit else |q|
    decreases |q|
  {
    if limit <= 0 || q == [] then 0
    else if Reached(cnf, NextEstimate(cnf, metrics, acc, q[0])) then 1
    else 1 + Polls(cnf, metrics, q[1..], limit - 1, NextEstimate(cnf, metrics, acc, q[0]))
  }

  /** Polls, counted from index `i` of `q`: the form the polling loop tracks. */
  function PollsFrom(cnf: FixedSizeConfig, metrics: ExecutionTime, q: seq<Test>, i: nat, limit: int, acc: nat): nat
    requires i <= |q|
    decreases |q| - i
  {
    if limit <= 0 || i == |q| then 0
    else if Reached(cnf, NextEstimate(cnf, metrics, acc, q[i])) then 1
    else 1 + PollsFrom(cnf, metrics, q, i + 1, limit - 1, NextEstimate(cnf, metrics, acc, q[i]))
  }

  /** PollsFrom counts what Polls counts on the suffix from `i`. */
  lemma {:induction false} PollsFromAgrees(cnf: FixedSizeConfig, metrics: ExecutionTime, q: seq<Test>, i: nat, limit: int, acc: nat)
    requires i <= |q|
    ensures PollsFrom(cnf, metrics, q, i, limit, acc) == Polls(cnf, metrics, q[i..], limit, acc)
    decreases |q| - i
  {
    if limit > 0 && i < |q| {
      PollsFromAgrees(cnf, metrics, q, i + 1, limit - 1, NextEstimate(cnf, metrics, acc, q[i]));
      assert q[i..][1..] == q[i + 1..];
    }
  }

  /**
   * Under a budget, polling stops early only once the estimates of the polled items reach it, and never
   * before: every shorter prefix stays below the budget.
   */
  lemma {:induction false} PollsStopAtBudget(cnf: FixedSizeConfig, metrics: ExecutionTime, q: seq<Test>, limit: int, acc: nat)
    requires Budgeted(cnf)
    ensures var n := Polls(cnf, metrics, q, limit, acc);
      && (forall k :: 0 < k < n ==> acc + Sum(q[..k], t => Estimate(cnf, metrics, t)) < cnf.durationMillis.value)
      && (n < |q| && n < limit ==> n >= 1 && acc + Sum(q[..n], t => Estimate(cnf, metrics, t)) >= cnf.durationMillis.value)
    decreases |q|
  {
    var est := t => Estimate(cnf, metrics, t);
    var n := Polls(cnf, metrics, q, limit, acc);
    if limit > 0 && q != [] {
      var acc' := acc + est(q[0]);
      assert q[..1] == [q[0]];
      assert Sum(q[..1], est) == est(q[0]);
      if acc' < cnf.durationMillis.value {
        PollsStopAtBudget(cnf, metrics, q[1..], limit - 1, acc');
        forall k | 1 < k <= n
          ensures acc + Sum(q[..k], est) == acc' + Sum(q[1..][..k - 1], est)
        {
          assert q[..k][1..] == q[1..][..k - 1];
        }
      }
    }
  }

  /** What one `process` call returns and leaves in the queue. */
  datatype Outcome = Outcome(batch: TestBatch, queue: seq<Test>)

  /** The batch and the new queue for queue contents `q`. */
  function ProcessOutcome(cnf: FixedSizeConfig, metrics: ExecutionTime, q: seq<Test>,
                          filteredTestsCount: nat, deviceCount: nat): Outcome
    requires deviceCount > 0 || LastMile(cnf, q)
  {
    if LastMile(cnf, q) then Outcome(TestBatch([q[0]]), q[1..])
    else
      var n := Polls(cnf, metrics, q, BatchSize(filteredTestsCount, deviceCount), 0);
      var a := Admit(q[..n]);
      Outcome(TestBatch(a.admitted), q[n..] + a.rejected)
  }

  /** ProcessOutcome past the last-mile check, in terms of the polled count. */
  lemma ProcessOutcomeOf(cnf: FixedSizeConfig, metrics: ExecutionTime, q: seq<Test>, filteredTestsCount: nat, deviceCount: nat)
    requires deviceCount > 0 && !LastMile(cnf, q)
    ensures var n := Polls(cnf, metrics, q, BatchSize(filteredTestsCount, deviceCount), 0);
      ProcessOutcome(cnf, metrics, q, filteredTestsCount, deviceCount) ==
        Outcome(TestBatch(Admit(q[..n]).admitted), q[n..] + Admit(q[..n]).rejected)
  {
  }

  /** The number of items polled by a call past the last-mile check. */
  function PolledCount(cnf: FixedSizeConfig, metrics: ExecutionTime, q: seq<Test>, filteredTestsCount: nat, deviceCount: nat): nat
    requires deviceCount > 0
  {
    Polls(cnf, metrics, q, BatchSize(filteredTestsCount, deviceCount), 0)
  }

  /** Near the tail the batch is exactly the head, and the queue becomes its tail. */
  lemma LastMileBatch(cnf: FixedSizeConfig, metrics: ExecutionTime, q: seq<Test>, filteredTestsCount: nat, deviceCount: nat)
    requires LastMile(cnf, q)
    ensures ProcessOutcome(cnf, metrics, q, filteredTestsCount, deviceCount) == Outcome(TestBatch([q[0]]), q[1..])
  {
  }

  /**
   * A call past the last-mile check polls at most batchSize items, and the batch is no longer than what was
   * polled; it is non-empty whenever the queue is, since the first polled item is always admitted.
   */
  lemma ProcessBatchSize(cnf: FixedSizeConfig, metrics: ExecutionTime, q: seq<Test>, filteredTestsCount: nat, deviceCount: nat)
    requires deviceCount > 0 && !LastMile(cnf, q)
    ensures var b := ProcessOutcome(cnf, metrics, q, filteredTestsCount, deviceCount).batch.tests;
      var n := PolledCount(cnf, metrics, q, filteredTestsCount, deviceCount);
      && |b| <= n <= BatchSize(filteredTestsCount, deviceCount)
      && (q != [] ==> b != [])
  {
    var n := PolledCount(cnf, metrics, q, filteredTestsCount, deviceCount);
    AdmitCovers(q[..n]);
    AdmitConserves(q[..n]);
    var a := Admit(q[..n]);
    assert |multiset(a.admitted) + multiset(a.rejected)| == |multiset(a.admitted)| + |multiset(a.rejected)|;
  }

  /** The batch has no duplicates, holds every polled test, and lists them in first-polled order. */
  lemma ProcessBatchOrder(cnf: FixedSizeConfig, metrics: ExecutionTime, q: seq<Test>, filteredTestsCount: nat, deviceCount: nat)
    requires deviceCount > 0 && !LastMile(cnf, q)
    ensures var b := ProcessOutcome(cnf, metrics, q, filteredTestsCount, deviceCount).batch.tests;
      var n := PolledCount(cnf, metrics, q, filteredTestsCount, deviceCount);
      && NoDuplicates(b)
      && (forall t | t in q[..n] :: t in b)
      && (forall t | t in b :: t in q[..n])
      && (forall i, j :: 0 <= i < j < |b| ==> b[i] in q && b[j] in q && IndexOf(q, b[i]) < IndexOf(q, b[j]))
  {
    var n := PolledCount(cnf, metrics, q, filteredTestsCount, deviceCount);
    var p := q[..n];
    AdmitCovers(p);
    AdmitOrder(p);
    assert q == p + q[n..];
    forall t | t in p
      ensures IndexOf(q, t) == IndexOf(p, t)
    {
      PrefixIndexOf(p, q[n..], t);
    }
  }

  /**
   * Conservation: the new queue is the unpolled suffix, in its original order, followed by the rejected
   * items in poll order; batch and rejected items together are the polled prefix, so batch and new queue
   * together hold exactly the old queue's items.
   */
  lemma ProcessConserves(cnf: FixedSizeConfig, metrics: ExecutionTime, q: seq<Test>, filteredTestsCount: nat, deviceCount: nat)
    requires deviceCount > 0 && !LastMile(cnf, q)
    ensures var o := ProcessOutcome(cnf, metrics, q, filteredTestsCount, deviceCount);
      var n := PolledCount(cnf, metrics, q, filteredTestsCount, deviceCount);
      && o.queue == q[n..] + Admit(q[..n]).rejected
      && multiset(o.batch.tests) + multiset(Admit(q[..n]).rejected) == multiset(q[..n])
      && multiset(o.batch.tests) + multiset(o.queue) == multiset(q)
  {
    var o := ProcessOutcome(cnf, metrics, q, filteredTestsCount, deviceCount);
    var n := PolledCount(cnf, metrics, q, filteredTestsCount, deviceCount);
    var a := Admit(q[..n]);
    ProcessOutcomeOf(cnf, metrics, q, filteredTestsCount, deviceCount);
    assert o == Outcome(TestBatch(a.admitted), q[n..] + a.rejected);
    AdmitConserves(q[..n]);
    assert q == q[..n] + q[n..];
    assert multiset(q) == multiset(q[..n]) + multiset(q[n..]);
    assert multiset(o.queue) == multiset(q[n..]) + multiset(a.rejected);
  }

  lemma {:induction false} PrefixIndexOf(p: seq<Test>, rest: seq<Test>, t: Test)
    requires t in p
    ensures IndexOf(p + rest, t) == IndexOf(p, t)
  {
    if p[0] != t {
      assert (p + rest)[1..] == p[1..] + rest;
      PrefixIndexOf(p[1..], rest, t);
    }
  }

  /** Without a budget, the loop stops only at batchSize or at the end of the queue. */
  lemma UnbudgetedPolls(cnf: FixedSizeConfig, metrics: ExecutionTime, q: seq<Test>, filteredTestsCount: nat, deviceCount: nat)
    requires deviceCount > 0 && !Budgeted(cnf)
    ensures var bs := BatchSize(filteredTestsCount, deviceCount);
      PolledCount(cnf, metrics, q, filteredTestsCount, deviceCount) == if bs < |q| then bs else |q|
  {
  }

  /** With a budget, at least one item is polled, and polling ends early only once the budget is reached. */
  lemma BudgetedPolls(cnf: FixedSizeConfig, metrics: ExecutionTime, q: seq<Test>, filteredTestsCount: nat, deviceCount: nat)
    requires deviceCount > 0 && Budgeted(cnf)
    ensures var bs := BatchSize(filteredTestsCount, deviceCount);
      var n := PolledCount(cnf, metrics, q, filteredTestsCount, deviceCount);
      && (q != [] ==> n >= 1)
      && (n < |q| && n < bs ==> Sum(q[..n], t => Estimate(cnf, metrics, t)) >= cnf.durationMillis.value)
      && (forall k :: 0 < k < n ==> Sum(q[..k], t => Estimate(cnf, metrics, t)) < cnf.durationMillis.value)
  {
    PollsStopAtBudget(cnf, metrics, q, BatchSize(filteredTestsCount, deviceCount), 0);
  }

  /** 50 distinct tests, one device, no budget and no last mile: the first batch is the first 10 tests. */
  lemma FiftyTestsOneDevice(cnf: FixedSizeConfig, metrics: ExecutionTime, q: seq<Test>)
    requires |q| == 50 && NoDuplicates(q) && !Budgeted(cnf) && cnf.lastMileLength <= 50
    ensures ProcessOutcome(cnf, metrics, q, 50, 1).batch.tests == q[..10]
  {
    assert BatchSize(50, 1) == 10;
    assert NoDuplicates(q[..10]);
    AdmitDistinct(q[..10]);
  }

  /**
   * With filteredTestsCount 1 and one device the batch size is 1 / 1 + 1 = 2: fifty distinct tests give a
   * first batch of two, whatever size the configuration names.
   */
  lemma OneFilteredTestGivesPairs(cnf: FixedSizeConfig, metrics: ExecutionTime, q: seq<Test>)
    requires |q| == 50 && NoDuplicates(q) && !Budgeted(cnf) && cnf.lastMileLength <= 50
    ensures ProcessOutcome(cnf, metrics, q, 1, 1).batch.tests == q[..2]
    ensures |ProcessOutcome(cnf, metrics, q, 1, 1).batch.tests| == 2
  {
    assert BatchSize(1, 1) == 2;
    assert NoDuplicates(q[..2]);
    AdmitDistinct(q[..2]);
  }

  /** Distinct items are all admitted, in order. */
  lemma {:induction false} AdmitDistinct(polled: seq<Test>)
    requires NoDuplicates(polled)
    ensures Admit(polled) == Admission(polled, [])
  {
    if polled != [] {
      var init := polled[..|polled| - 1];
      AdmitDistinct(init);
      assert polled == init + [polled[|polled| - 1]];
    }
  }

  /** The batches of repeated calls until the queue is empty. */
  function Drain(cnf: FixedSizeConfig, metrics: ExecutionTime, q: seq<Test>, filteredTestsCount: nat, deviceCount: nat): seq<TestBatch>
    requires deviceCount > 0
    decreases |q|
  {
    if q == [] then []
    else
      var o := ProcessOutcome(cnf, metrics, q, filteredTestsCount, deviceCount);
      OutcomeShrinks(cnf, metrics, q, filteredTestsCount, deviceCount);
      [o.batch] + Drain(cnf, metrics, o.queue, filteredTestsCount, deviceCount)
  }

  function BatchTests(bs: seq<TestBatch>): seq<Test> {
    if bs == [] then [] else bs[0].tests + BatchTests(bs[1..])
  }

  /** Every call on a non-empty queue returns a non-empty batch and conserves the queue's items. */
  lemma OutcomeShrinks(cnf: FixedSizeConfig, metrics: ExecutionTime, q: seq<Test>, filteredTestsCount: nat, deviceCount: nat)
    requires deviceCount > 0 && q != []
    ensures var o := ProcessOutcome(cnf, metrics, q, filteredTestsCount, deviceCount);
      o.batch.tests != [] && multiset(o.batch.tests) + multiset(o.queue) == multiset(q) && |o.queue| < |q|
  {
    var o := ProcessOutcome(cnf, metrics, q, filteredTestsCount, deviceCount);
    if LastMile(cnf, q) {
      assert q == [q[0]] + q[1..];
    } else {
      ProcessBatchSize(cnf, metrics, q, filteredTestsCount, deviceCount);
      ProcessConserves(cnf, metrics, q, filteredTestsCount, deviceCount);
    }
    assert |multiset(o.batch.tests) + multiset(o.queue)| == |multiset(o.batch.tests)| + |multiset(o.queue)|;
  }

  /**
   * Batch completeness: draining a queue hands out every queued test exactly as often as it was
   * queued, and no batch is empty.
   */
  lemma {:induction false} DrainIsComplete(cnf: FixedSizeConfig, metrics: ExecutionTime, q: seq<Test>, filteredTestsCount: nat, deviceCount: nat)
    requires deviceCount > 0
    ensures multiset(BatchTests(Drain(cnf, metrics, q, filteredTestsCount, deviceCount))) == multiset(q)
    ensures forall b | b in Drain(cnf, metrics, q, filteredTestsCount, deviceCount) :: b.tests != []
    decreases |q|
  {
    if q != [] {
      var o := ProcessOutcome(cnf, metrics, q, filteredTestsCount, deviceCount);
      OutcomeShrinks(cnf, metrics, q, filteredTestsCount, deviceCount);
      DrainIsComplete(cnf, metrics, o.queue, filteredTestsCount, deviceCount);
      var rest := Drain(cnf, metrics, o.queue, filteredTestsCount, deviceCount);
      assert Drain(cnf, metrics, q, filteredTestsCount, deviceCount) == [o.batch] + rest;
      assert ([o.batch] + rest)[1..] == rest;
    }
  }

  /** The duplicate check of the polling loop. */
  method AdmitItem(result: seq<Test>, unbatchableTests: seq<Test>, item: Test)
    returns (result': seq<Test>, unbatchableTests': seq<Test>)
    ensures Admission(result', unbatchableTests') == AdmitOne(Admission(result, unbatchableTests), item)
  {
    result', unbatchableTests' := result, unbatchableTests;
    if item in result {
      unbatchableTests' := unbatchableTests + [item];
    } else {
      result' := result + [item];
    }
  }

  /** A java.util.Queue of tests, changed in place by `poll` and `addAll`. */
  class TestQueue {
    var items: seq<Test>

    constructor (init: seq<Test>)
      ensures items == init
    {
      items := init;
    }

    /** `poll` on a non-empty queue: removes and returns the head. */
    method Poll() returns (t: Test)
      requires items != []
      modifies this
      ensures t == old(items)[0] && items == old(items)[1..]
    {
      t := items[0];
      items := items[1..];
    }

    method AddAll(ts: seq<Test>)
      modifies this
      ensures items == old(items) + ts
    {
      items := items + ts;
    }
  }

  class FixedSizeBatchingStrategy {
    const cnf: FixedSizeConfig
    /** The batch size computed by the last call that got past the last-mile check. */
    var fixedBatchSize: int

    constructor (cnf: FixedSizeConfig)
      ensures this.cnf == cnf && fixedBatchSize == 0
    {
      this.cnf := cnf;
      fixedBatchSize := 0;
    }

    /**
     * The polling loop of `process`: polls up to batchSize items off `queue`, stopping early once a
     * duration budget is reached, and splits them into the batch and the items to re-queue.
     */
    method FillBatch(queue: TestQueue, metrics: ExecutionTime, batchSize: nat)
      returns (result: seq<Test>, unbatchableTests: seq<Test>)
      modifies queue
      ensures var n := Polls(cnf, metrics, old(queue.items), batchSize, 0);
        queue.items == old(queue.items)[n..] && Admit(old(queue.items)[..n]) == Admission(result, unbatchableTests)
    {
      ghost var q0 := queue.items;
      var counter := 0;
      var expectedBatchDuration: nat := 0;
      unbatchableTests := [];
      result := [];
      ghost var total := PollsFrom(cnf, metrics, q0, 0, batchSize, 0);
      PollsFromAgrees(cnf, metrics, q0, 0, batchSize, 0);
      assert q0[0..] == q0;
      while counter < batchSize && |queue.items| > 0
        invariant 0 <= counter <= |q0|
        invariant queue.items == q0[counter..]
        invariant Admit(q0[..counter]) == Admission(result, unbatchableTests)
        invariant total == counter + PollsFrom(cnf, metrics, q0, counter, batchSize - counter, expectedBatchDuration)
        decreases |queue.items|
      {
        counter := counter + 1;
        var item := queue.Poll();
        assert item == q0[counter - 1];
        AdmitStep(q0, counter);
        result, unbatchableTests := AdmitItem(result, unbatchableTests, item);
        ghost var next := NextEstimate(cnf, metrics, expectedBatchDuration, item);
        if Budgeted(cnf) {
          expectedBatchDuration := expectedBatchDuration + Estimate(cnf, metrics, item);
          if expectedBatchDuration >= cnf.durationMillis.value {
            assert Reached(cnf, next);
            break;
          }
        }
        assert expectedBatchDuration == next && !Reached(cnf, next);
      }
    }

    /**
     * Takes one batch off `queue`. The division by deviceCount happens only past the last-mile check,
     * so only there must deviceCount be positive.
     */
    method Process(queue: TestQueue, metrics: ExecutionTime, filteredTestsCount: nat, deviceCount: nat) returns (batch: TestBatch)
      requires deviceCount > 0 || LastMile(cnf, queue.items)
      modifies this, queue
      ensures Outcome(batch, queue.items) == ProcessOutcome(cnf, metrics, old(queue.items), filteredTestsCount, deviceCount)
      ensures fixedBatchSize == if LastMile(cnf, old(queue.items)) then old(fixedBatchSize)
                                else BatchSize(filteredTestsCount, deviceCount)
    {
      if |queue.items| < cnf.lastMileLength && |queue.items| > 0 {
        var head := queue.Poll();
        batch := TestBatch([head]);
        return;
      }
      var batchSize := BatchSize(filteredTestsCount, deviceCount);
      fixedBatchSize := batchSize;
      ghost var q0 := queue.items;
      var result, unbatchableTests := FillBatch(queue, metrics, batchSize);
      ProcessOutcomeOf(cnf, metrics, q0, filteredTestsCount, deviceCount);
      if unbatchableTests != [] {
        queue.AddAll(unbatchableTests);
      }
      batch := TestBatch(result);
    }

    /** `equals`: same class and the same fixedBatchSize; the configuration takes no part. */
    predicate Equals(other: FixedSizeBatchingStrategy?)
      reads this, other
      ensures Equals(other) <==> other != null && other.fixedBatchSize == fixedBatchSize
    {
      if this == other then true
      else if other == null then false
      else fixedBatchSize == other.fixedBatchSize
    }

    function HashCode(): int
      reads this
    {
      fixedBatchSize
    }
  }

  /** Equal strategies have equal hash codes. */
  lemma EqualsAgreesWithHashCode(a: FixedSizeBatchingStrategy, b: FixedSizeBatchingStrategy)
    requires a.Equals(b)
    ensures a.HashCode() == b.HashCode() && b.Equals(a)
  {
  }
}
