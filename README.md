# A Dafny model of marathon's scheduling strategies and device registries

marathon is a test runner that splits a project's tests into batches and shards and runs them on pools of
Android and Apple devices. This project models the decision logic at its core and proves properties of it:

- the fixed-size batching strategy, which takes one batch of tests off a pool's queue and changes the
  queue in place;
- the probability-based flakiness strategy, which schedules extra copies of tests that are likely to fail;
- the no-retry strategy;
- the classname filter whose class list is read from the first line of a file;
- the per-host provisioning plan of the Apple simulator provider, and its registry of connected simulators:
  `connect`, one pass of the liveness monitor, host grouping in `initialize`, and `terminate`;
- the udid lookup and SDK classification of the simulator factory;
- the registry of the ddmlib Android device provider: `getDeviceOrPut`, `matchDdmsToDevice`, the three
  listener handlers, and the wait for the initial device list;
- the test bundle list of the Android configuration.

Each Kotlin file has a module of its own:

| file | module |
|---|---|
| `batching.dfy` | `Batching` |
| `flakiness.dfy` | `Flakiness` |
| `retry.dfy` | `Retry` |
| `classname_filter.dfy` | `ClassnameFilter` |
| `apple_provisioning.dfy` | `AppleProvisioning` (`plan`) |
| `apple_simulator_provider.dfy` | `AppleProvider` (the rest of the provider) |
| `simulator_factory.dfy` | `SimulatorFactory` |
| `ddmlib_device_provider.dfy` | `DdmlibProvider` |
| `android_configuration.dfy` | `AndroidConfig` |

Four support modules hold the shared pieces:

- `wrappers.dfy`: `Option` and `Result`, which stand for nullable values and thrown exceptions.
- `seqs.dfy`: the Kotlin collection operations `filter`, `find`, `findLast` and `indexOf`, with their lemmas.
- `test_model.dfy`: tests, shards and batches.
- `apple_model.dfy`: the simctl inventory, targets and plans.

The model follows the code's form:

- Code that mutates state is modelled imperatively:
  - The batching strategy and its queue are classes whose methods change their fields.
  - The two device providers are classes holding their registry map and an observable effect log of
    events sent, devices set up or disposed, and connections released.
  - The explicit loops of the source are `while` or `for` loops with invariants: the batch loop, the
    flakiness loops, the `forEach` loops of `plan`, the host grouping of `initialize` (`GroupHosts`), the
    device loop of a monitor pass and of `terminate`, and the wait for devices.
  - Collection operations stay functions: `filter`, `find` and `findLast` are `Seqs` functions. The
    `groupBy` and `forEach` at AppleSimulatorProvider.kt:118-125 that build the re-provisioning plans of a
    monitor pass are the function `Replan`. A monitor pass returns those plans; the re-creation that
    `createExisting` then runs for them is concurrent code that this model does not include.
- Each such method is proved against a specification function, for example:
  - `ProcessOutcome` for a batching call;
  - `FlakyTests` for a flakiness pass;
  - `Reconcile` for `plan`;
  - `Stale` and `DisconnectEffects` for a monitor pass.
- The properties themselves are lemmas about those functions.

Foreign calls become parameters:

- the simctl inventory and device lists;
- a device's health and connection state;
- the metrics provider's estimates and success rates;
- the regular expression's matcher;
- the answers of the debug bridge.

The iteration order of a concurrent map is a parameter `order` listing every key once.

Some consequences of the code as written, each proved in the model:

- The batch size is `min(10, quotient + 1)` except that a quotient of exactly 10 gives 11, because the
  comparison at FixedSizeBatchingStrategy.kt:37 is `quotient > FIXED_BATCH_SIZE`.
- The batch loop counts polled items, not admitted ones. A rejected duplicate also uses up one of the
  `batchSize` polls and adds to the duration estimate.
- `testBundle` (FixedSizeBatchingStrategy.kt:36) is never assigned, so the bundle check at line 49 never
  rejects a test, and the model has no single-bundle property.
- FixedSizeBatchingStrategyTest.kt:15-29 expects batches of 10 with `filteredTestsCount = 1` and
  `deviceCount = 1`. The code gives 2 for those arguments. `OneFilteredTestGivesPairs` states what the code
  does.
- The doc comment of ProbabilityBasedFlakinessStrategy.kt (lines 12-14) says a test with success rate 0.5
  against a required 0.8 is "executed 3 times". The code schedules 2 extra copies, which makes 3 runs
  together with the base run. `HalfAgainstEightyPercent` proves the 2. `RecurrencesDiffer` shows that the
  squaring recurrence of the code differs from the geometric one the comment's arithmetic uses.

## Model

| member | source | states |
|---|---|---|
| Batching.BatchSize | core/src/main/kotlin/com/malinskiy/marathon/execution/strategy/impl/batching/FixedSizeBatchingStrategy.kt:37-41 | the size is between 1 and 11. It is 11 exactly when the quotient is 10, and otherwise `min(10, quotient + 1)` |
| Batching.FixedSizeBatchingStrategy.constructor | core/src/main/kotlin/com/malinskiy/marathon/execution/strategy/impl/batching/FixedSizeBatchingStrategy.kt:14-16 | a new strategy keeps its configuration and starts with `fixedBatchSize` 0 |
| Batching.TestQueue.constructor | core/src/main/kotlin/com/malinskiy/marathon/execution/strategy/impl/batching/FixedSizeBatchingStrategy.kt:19 | the queue handed to `process` holds the given tests, in order |
| Batching.TestQueue.Poll | core/src/main/kotlin/com/malinskiy/marathon/execution/strategy/impl/batching/FixedSizeBatchingStrategy.kt:46 | `poll` on a non-empty queue returns the old head and leaves the old tail |
| Batching.TestQueue.AddAll | core/src/main/kotlin/com/malinskiy/marathon/execution/strategy/impl/batching/FixedSizeBatchingStrategy.kt:67-69 | `addAll` appends the items at the tail, in order |
| Batching.AdmitItem | core/src/main/kotlin/com/malinskiy/marathon/execution/strategy/impl/batching/FixedSizeBatchingStrategy.kt:47-53 | an item already in the batch goes to the re-queue list; any other item joins the batch. This is one step `AdmitOne` of the admission function |
| Batching.FixedSizeBatchingStrategy.FillBatch | core/src/main/kotlin/com/malinskiy/marathon/execution/strategy/impl/batching/FixedSizeBatchingStrategy.kt:44-66 | the loop polls exactly `Polls(queue, batchSize)` items off the queue, leaves the rest in place, and splits the polled prefix as `Admit` does |
| Batching.FixedSizeBatchingStrategy.Process | core/src/main/kotlin/com/malinskiy/marathon/execution/strategy/impl/batching/FixedSizeBatchingStrategy.kt:26-70 | the returned batch and the new queue contents are `ProcessOutcome` of the old queue. `fixedBatchSize` becomes `BatchSize` past the last-mile check and is untouched on the last mile. deviceCount must be positive only past the last-mile check |
| Batching.FixedSizeBatchingStrategy.Equals | core/src/main/kotlin/com/malinskiy/marathon/execution/strategy/impl/batching/FixedSizeBatchingStrategy.kt:73-82 | equal exactly when the other strategy is not null and has the same `fixedBatchSize`; the configuration plays no part |
| Batching.EqualsAgreesWithHashCode | core/src/main/kotlin/com/malinskiy/marathon/execution/strategy/impl/batching/FixedSizeBatchingStrategy.kt:73-86 | equal strategies have equal hash codes, and equality is symmetric |
| Batching.FixedSizeBatchingStrategy.HashCode | core/src/main/kotlin/com/malinskiy/marathon/execution/strategy/impl/batching/FixedSizeBatchingStrategy.kt:84-86 | the hash code is `fixedBatchSize`; it has no contract of its own, and `EqualsAgreesWithHashCode` states what it must satisfy |
| Batching.Polls | core/src/main/kotlin/com/malinskiy/marathon/execution/strategy/impl/batching/FixedSizeBatchingStrategy.kt:44-65 | the polled count is at most the queue length and at most the limit. A positive limit on a non-empty queue polls at least once. Without a budget the count is `min(limit, length)` |
| Batching.PollsFromAgrees | core/src/main/kotlin/com/malinskiy/marathon/execution/strategy/impl/batching/FixedSizeBatchingStrategy.kt:44-65 | counting polls from index `i` of the queue, as the loop does, gives the count on the suffix from `i` |
| Batching.PollsStopAtBudget | core/src/main/kotlin/com/malinskiy/marathon/execution/strategy/impl/batching/FixedSizeBatchingStrategy.kt:55-65 | under a budget, every shorter polled prefix estimates below the budget. A poll stopped before the limit and before the end of the queue has reached the budget |
| Batching.AdmitStep | core/src/main/kotlin/com/malinskiy/marathon/execution/strategy/impl/batching/FixedSizeBatchingStrategy.kt:44-53 | admitting one more polled item is one `AdmitOne` step |
| Batching.AdmitConserves | core/src/main/kotlin/com/malinskiy/marathon/execution/strategy/impl/batching/FixedSizeBatchingStrategy.kt:47-53 | as multisets, the batch plus the rejected items are exactly the polled items |
| Batching.AdmitCovers | core/src/main/kotlin/com/malinskiy/marathon/execution/strategy/impl/batching/FixedSizeBatchingStrategy.kt:35-53 | the batch has no duplicates and holds exactly the polled tests. It is non-empty when something was polled |
| Batching.AdmitOrder | core/src/main/kotlin/com/malinskiy/marathon/execution/strategy/impl/batching/FixedSizeBatchingStrategy.kt:44-70 | the batch lists tests in the order in which they were first polled |
| Batching.AdmitDistinct | core/src/main/kotlin/com/malinskiy/marathon/execution/strategy/impl/batching/FixedSizeBatchingStrategy.kt:47-53 | distinct polled tests are all admitted, in order, and nothing is rejected |
| Batching.ProcessOutcomeOf | core/src/main/kotlin/com/malinskiy/marathon/execution/strategy/impl/batching/FixedSizeBatchingStrategy.kt:44-70 | past the last-mile check the batch is the admitted part of the polled prefix, and the queue is the unpolled suffix followed by the rejected part |
| Batching.LastMileBatch | core/src/main/kotlin/com/malinskiy/marathon/execution/strategy/impl/batching/FixedSizeBatchingStrategy.kt:26-30 | when 0 < length < lastMileLength, the batch is exactly the old head and the queue becomes its tail |
| Batching.ProcessBatchSize | core/src/main/kotlin/com/malinskiy/marathon/execution/strategy/impl/batching/FixedSizeBatchingStrategy.kt:36-52 | the batch is no longer than the polled count, which is at most batchSize. A non-empty queue gives a non-empty batch |
| Batching.ProcessBatchOrder | core/src/main/kotlin/com/malinskiy/marathon/execution/strategy/impl/batching/FixedSizeBatchingStrategy.kt:35-70 | the batch has no duplicates, holds exactly the tests of the polled prefix, and lists them in their queue order |
| Batching.ProcessConserves | core/src/main/kotlin/com/malinskiy/marathon/execution/strategy/impl/batching/FixedSizeBatchingStrategy.kt:44-69 | the new queue is the unpolled suffix in its original order followed by the rejected items in poll order. Batch plus rejected equals the polled prefix, and batch plus new queue equals the old queue, as multisets |
| Batching.UnbudgetedPolls | core/src/main/kotlin/com/malinskiy/marathon/execution/strategy/impl/batching/FixedSizeBatchingStrategy.kt:44-58 | if any of durationMillis, percentile or timeLimit is null, the loop polls `min(batchSize, queue length)` items |
| Batching.BudgetedPolls | core/src/main/kotlin/com/malinskiy/marathon/execution/strategy/impl/batching/FixedSizeBatchingStrategy.kt:55-65 | with all three set, at least one item is polled. Every shorter prefix is under the budget, and a call that stops early has reached it |
| Batching.FiftyTestsOneDevice | core/src/main/kotlin/com/malinskiy/marathon/execution/strategy/impl/batching/FixedSizeBatchingStrategy.kt:37-52 | 50 distinct tests, filteredTestsCount 50, one device and no budget give the first ten tests |
| Batching.OneFilteredTestGivesPairs | core/src/test/kotlin/com/malinskiy/marathon/execution/strategy/impl/batching/FixedSizeBatchingStrategyTest.kt:15-21 | with filteredTestsCount 1 and one device, 50 distinct tests give a first batch of exactly the first two, not ten |
| Batching.OutcomeShrinks | core/src/main/kotlin/com/malinskiy/marathon/execution/strategy/impl/batching/FixedSizeBatchingStrategy.kt:26-70 | every call on a non-empty queue returns a non-empty batch, shortens the queue, and conserves the items |
| Batching.DrainIsComplete | core/src/main/kotlin/com/malinskiy/marathon/execution/strategy/impl/batching/FixedSizeBatchingStrategy.kt:26-70 | calling until the queue is empty hands out every queued test exactly as often as it was queued, never in an empty batch |
| Flakiness.Squarings | core/src/main/kotlin/com/malinskiy/marathon/execution/strategy/impl/flakiness/ProbabilityBasedFlakinessStrategy.kt:34-40 | the inner `while`: how many copies are added while the squared fail rate is above the allowed one and the counter is below maxCount. No contract of its own; `SquaringsAtMost`, `SquaringsOfOne` and `SquaringsAtMostGeometric` state its properties |
| Flakiness.Copies | core/src/main/kotlin/com/malinskiy/marathon/execution/strategy/impl/flakiness/ProbabilityBasedFlakinessStrategy.kt:30-40 | the copies scheduled for one test: none unless its success rate is below minSuccessRate, otherwise `Squarings` from fail rate 1 - rate. No contract of its own; `CopiesBounds` states its properties |
| Flakiness.Process | core/src/main/kotlin/com/malinskiy/marathon/execution/strategy/impl/flakiness/ProbabilityBasedFlakinessStrategy.kt:23-44 | the result is the shard with only `flakyTests` replaced, by `FlakyTests`: each test's copies contiguous, in shard order |
| Flakiness.CopiesBounds | core/src/main/kotlin/com/malinskiy/marathon/execution/strategy/impl/flakiness/ProbabilityBasedFlakinessStrategy.kt:30-40 | a test at or above minSuccessRate gets no copies. A test below it gets at least one when maxCount ≥ 1. No test gets more than maxCount |
| Flakiness.SquaringsAtMost | core/src/main/kotlin/com/malinskiy/marathon/execution/strategy/impl/flakiness/ProbabilityBasedFlakinessStrategy.kt:35-40 | the inner loop runs at most maxCount times |
| Flakiness.SquaringsOfOne | core/src/main/kotlin/com/malinskiy/marathon/execution/strategy/impl/flakiness/ProbabilityBasedFlakinessStrategy.kt:36-39 | a fail rate of 1 stays 1 under squaring, so the loop runs its full count |
| Flakiness.NeverPassingGetsMaxCount | core/src/main/kotlin/com/malinskiy/marathon/execution/strategy/impl/flakiness/ProbabilityBasedFlakinessStrategy.kt:32-40 | success rate 0 with minSuccessRate > 0 gives exactly maxCount copies |
| Flakiness.HalfAgainstEightyPercent | core/src/main/kotlin/com/malinskiy/marathon/execution/strategy/impl/flakiness/ProbabilityBasedFlakinessStrategy.kt:29-40 | success rate 0.5 against a required 0.8 with maxCount 5 gives exactly 2 copies |
| Flakiness.RecurrencesDiffer | core/src/main/kotlin/com/malinskiy/marathon/execution/strategy/impl/flakiness/ProbabilityBasedFlakinessStrategy.kt:36-39 | the squaring recurrence and the geometric one of the doc comment's arithmetic give different counts (2 and 3) for 0.5 against 0.9 |
| Flakiness.SquaringsAtMostGeometric | core/src/main/kotlin/com/malinskiy/marathon/execution/strategy/impl/flakiness/ProbabilityBasedFlakinessStrategy.kt:36-39 | for fail rates in [0, 1], squaring never schedules more copies than the geometric recurrence |
| Flakiness.FlakyTestsCount | core/src/main/kotlin/com/malinskiy/marathon/execution/strategy/impl/flakiness/ProbabilityBasedFlakinessStrategy.kt:27-42 | the flaky list holds each test (occurrences in the shard) × (its copies) times |
| Flakiness.FlakyTestsFromShard | core/src/main/kotlin/com/malinskiy/marathon/execution/strategy/impl/flakiness/ProbabilityBasedFlakinessStrategy.kt:29-37 | every flaky entry is a shard test whose success rate is below minSuccessRate |
| Flakiness.ProbabilityBasedFlakinessStrategy.Equals | core/src/main/kotlin/com/malinskiy/marathon/execution/strategy/impl/flakiness/ProbabilityBasedFlakinessStrategy.kt:46-57 | equal exactly when the other object is a strategy with the same minSuccessRate, maxCount and timeLimit |
| Retry.NoRetryStrategy.Process | core/src/main/kotlin/com/malinskiy/marathon/execution/strategy/impl/retry/NoRetryStrategy.kt:10-17 | nothing is ever re-run |
| Retry.ProcessIgnoresInputs | core/src/main/kotlin/com/malinskiy/marathon/execution/strategy/impl/retry/NoRetryStrategy.kt:10-17 | the decision is the same for any pool, results, shard and accumulator |
| Retry.NoRetryStrategy.Equals | core/src/main/kotlin/com/malinskiy/marathon/execution/strategy/impl/retry/NoRetryStrategy.kt:21-25 | equal exactly when the other object's canonical class name is this class's; never equal to null |
| Retry.InstancesEqual | core/src/main/kotlin/com/malinskiy/marathon/execution/strategy/impl/retry/NoRetryStrategy.kt:19-25 | any two instances are equal and hash alike, and the hash is a 32-bit value |
| Retry.ToInt32 | core/src/main/kotlin/com/malinskiy/marathon/execution/strategy/impl/retry/NoRetryStrategy.kt:19 | the 32-bit wrap-around of `String.hashCode` is congruent to the exact value modulo 2^32 and lies in the `Int` range |
| Retry.StringHash | core/src/main/kotlin/com/malinskiy/marathon/execution/strategy/impl/retry/NoRetryStrategy.kt:19 | `String.hashCode` of the canonical name, wrapping at 32 bits: always in the `Int` range. It folds over characters where Kotlin folds over UTF-16 code units, so the two agree inside the Basic Multilingual Plane, which holds the ASCII canonical name |
| Retry.StringHashWraps | core/src/main/kotlin/com/malinskiy/marathon/execution/strategy/impl/retry/NoRetryStrategy.kt:19 | the wrapped hash is congruent modulo 2^32 to the exact base-31 polynomial of the character codes |
| Retry.NoRetryStrategy.HashCode | core/src/main/kotlin/com/malinskiy/marathon/execution/strategy/impl/retry/NoRetryStrategy.kt:19 | the hash code lies in the `Int` range and is the exact polynomial hash of the canonical name reduced to 32 bits |
| ClassnameFilter.SimpleClassnameFilterFromFile.Filter | core/src/main/kotlin/com/malinskiy/marathon/execution/filter/SimpleClassnameFilterFromFile.kt:15-24 | the result is a subsequence of the input that keeps every occurrence of each kept test. With content longer than 5 it keeps exactly the tests whose class occurs in the content; otherwise exactly the tests with an annotation matching the regex |
| ClassnameFilter.SimpleClassnameFilterFromFile.FilterNot | core/src/main/kotlin/com/malinskiy/marathon/execution/filter/SimpleClassnameFilterFromFile.kt:26 | whatever the content's length, the result is the subsequence of the input that keeps exactly the tests whose class does not occur in the content, each with all its occurrences |
| ClassnameFilter.Contains | core/src/main/kotlin/com/malinskiy/marathon/execution/filter/SimpleClassnameFilterFromFile.kt:17-19 | `String.contains`: the content starts with the class name here or further on. No contract of its own; `ContainsIsSubstring` proves it means "occurs at some offset" |
| ClassnameFilter.ContainsIsSubstring | core/src/main/kotlin/com/malinskiy/marathon/execution/filter/SimpleClassnameFilterFromFile.kt:17-19 | `contains` holds exactly when the class name occurs at some offset of the content |
| ClassnameFilter.TakeLine | core/src/main/kotlin/com/malinskiy/marathon/execution/filter/SimpleClassnameFilterFromFile.kt:40 | the first line is a prefix of the text without line terminators, ending at the first terminator or at the end |
| ClassnameFilter.FirstLine | core/src/main/kotlin/com/malinskiy/marathon/execution/filter/SimpleClassnameFilterFromFile.kt:12 | an empty file has no first line; any other file has one |
| ClassnameFilter.FromFile | core/src/main/kotlin/com/malinskiy/marathon/execution/filter/SimpleClassnameFilterFromFile.kt:12 | construction fails exactly on an empty file, where `get(0)` throws; otherwise the content is the file's first line |
| ClassnameFilter.OnlyFirstLineUsed | core/src/main/kotlin/com/malinskiy/marathon/execution/filter/SimpleClassnameFilterFromFile.kt:12 | whatever follows the first line terminator does not change the filter |
| ClassnameFilter.LongContentPartitions | core/src/main/kotlin/com/malinskiy/marathon/execution/filter/SimpleClassnameFilterFromFile.kt:15-26 | with content longer than 5, `filter` and `filterNot` together hold the input exactly, and each test is in exactly one of them |
| ClassnameFilter.ShortContentDoesNotPartition | core/src/main/kotlin/com/malinskiy/marathon/execution/filter/SimpleClassnameFilterFromFile.kt:20-26 | with short content, one listed test without a matching annotation is in neither result, and one unlisted test with a matching annotation is in both |
| AppleProvisioning.AvailableByUdid | vendor/vendor-apple/ios/src/main/kotlin/com/malinskiy/marathon/apple/ios/device/AppleSimulatorProvider.kt:237-240 | the grouped inventory holds only available entries, one per udid, covering every available udid |
| AppleProvisioning.AvailableByUdidKeepsFirst | vendor/vendor-apple/ios/src/main/kotlin/com/malinskiy/marathon/apple/ios/device/AppleSimulatorProvider.kt:239-240 | each kept entry is the first available inventory entry with its udid |
| AppleProvisioning.PartitionMembers | vendor/vendor-apple/ios/src/main/kotlin/com/malinskiy/marathon/apple/ios/device/AppleSimulatorProvider.kt:245-252 | every Simulator, Physical and Profile target lands in the list of its kind, and only those do |
| AppleProvisioning.PartitionSkipsHost | vendor/vendor-apple/ios/src/main/kotlin/com/malinskiy/marathon/apple/ios/device/AppleSimulatorProvider.kt:250 | a Host target is skipped wherever it appears |
| AppleProvisioning.PartitionTargets | vendor/vendor-apple/ios/src/main/kotlin/com/malinskiy/marathon/apple/ios/device/AppleSimulatorProvider.kt:242-252 | the `forEach` builds the three lists of `Partition` |
| AppleProvisioning.CollectUsed | vendor/vendor-apple/ios/src/main/kotlin/com/malinskiy/marathon/apple/ios/device/AppleSimulatorProvider.kt:253-261 | the used udids are the explicit simulators present in the available inventory |
| AppleProvisioning.Without | vendor/vendor-apple/ios/src/main/kotlin/com/malinskiy/marathon/apple/ios/device/AppleSimulatorProvider.kt:262-266 | removing keys keeps exactly the entries whose udid is not among them |
| AppleProvisioning.MatchesProfile | vendor/vendor-apple/ios/src/main/kotlin/com/malinskiy/marathon/apple/ios/device/AppleSimulatorProvider.kt:294-295 | a device matches a profile when its device type is the profile's and, if the profile pins a runtime, its runtime is that one. It returns that test as a `SimctlDevice -> bool` and has no contract of its own; `ReuseExistingSimulator` and `ClaimAllReusedMatch` use it |
| AppleProvisioning.ReuseExistingSimulator | vendor/vendor-apple/ios/src/main/kotlin/com/malinskiy/marathon/apple/ios/device/AppleSimulatorProvider.kt:289-297 | no result exactly when no device matches the profile's device type and pinned runtime; a result is the udid of a matching device |
| AppleProvisioning.VerifySimulatorCanBeProvisioned | vendor/vendor-apple/ios/src/main/kotlin/com/malinskiy/marathon/apple/ios/device/AppleSimulatorProvider.kt:213-231 | false when the device type is unlisted, false when a pinned runtime is unlisted, true otherwise |
| AppleProvisioning.Claim | vendor/vendor-apple/ios/src/main/kotlin/com/malinskiy/marathon/apple/ios/device/AppleSimulatorProvider.kt:265-269 | one profile of the `forEach`: claim the first unused, unclaimed matching device, or add the profile to those to create. No contract of its own; `ClaimStep` and `ClaimedDevice` state its properties |
| AppleProvisioning.ClaimStep | vendor/vendor-apple/ios/src/main/kotlin/com/malinskiy/marathon/apple/ios/device/AppleSimulatorProvider.kt:265-270 | each profile either claims a udid not claimed before or is added to the profiles to create |
| AppleProvisioning.ClaimProfiles | vendor/vendor-apple/ios/src/main/kotlin/com/malinskiy/marathon/apple/ios/device/AppleSimulatorProvider.kt:262-270 | the profile loop computes the claims of `ClaimAll` |
| AppleProvisioning.ClaimAllUnused | vendor/vendor-apple/ios/src/main/kotlin/com/malinskiy/marathon/apple/ios/device/AppleSimulatorProvider.kt:262-270 | the devices left unused are exactly the initial ones whose udid was not claimed; the claims are udids of initial devices |
| AppleProvisioning.ClaimAllCounts | vendor/vendor-apple/ios/src/main/kotlin/com/malinskiy/marathon/apple/ios/device/AppleSimulatorProvider.kt:265-270 | claimed udids plus profiles to create number the profiles, and the profiles to create keep configuration order |
| AppleProvisioning.ClaimAllCreateUnmatched | vendor/vendor-apple/ios/src/main/kotlin/com/malinskiy/marathon/apple/ios/device/AppleSimulatorProvider.kt:266-269 | a profile to create matches none of the devices left unused |
| AppleProvisioning.ClaimAllReusedMatch | vendor/vendor-apple/ios/src/main/kotlin/com/malinskiy/marathon/apple/ios/device/AppleSimulatorProvider.kt:262-270 | every claimed udid is that of an initially unused device matching one of the profiles |
| AppleProvisioning.ClaimedDevice | vendor/vendor-apple/ios/src/main/kotlin/com/malinskiy/marathon/apple/ios/device/AppleSimulatorProvider.kt:266-268 | a newly claimed udid belongs to an unused device matching the profile |
| AppleProvisioning.BootedUdids | vendor/vendor-apple/ios/src/main/kotlin/com/malinskiy/marathon/apple/ios/device/AppleSimulatorProvider.kt:276-280 | exactly the udids of Booted devices |
| AppleProvisioning.ShutdownBooted | vendor/vendor-apple/ios/src/main/kotlin/com/malinskiy/marathon/apple/ios/device/AppleSimulatorProvider.kt:276-280 | the shutdown loop shuts down the Booted devices in order |
| AppleProvisioning.Shutdowns | vendor/vendor-apple/ios/src/main/kotlin/com/malinskiy/marathon/apple/ios/device/AppleSimulatorProvider.kt:275-281 | a udid is shut down exactly when `shutdownUnused` is set and an unused device with it is Booted |
| AppleProvisioning.Plan | vendor/vendor-apple/ios/src/main/kotlin/com/malinskiy/marathon/apple/ios/device/AppleSimulatorProvider.kt:236-284 | `plan` returns the plan of `Reconcile` and shuts down the devices of `Shutdowns` |
| AppleProvisioning.PlanExistingAvailable | vendor/vendor-apple/ios/src/main/kotlin/com/malinskiy/marathon/apple/ios/device/AppleSimulatorProvider.kt:253-283 | every existing simulator of the plan is an available inventory udid |
| AppleProvisioning.PlanExplicitSimulators | vendor/vendor-apple/ios/src/main/kotlin/com/malinskiy/marathon/apple/ios/device/AppleSimulatorProvider.kt:255-283 | an explicit simulator is planned exactly when the inventory has it available; an absent one is skipped. No profile claims an explicit udid |
| AppleProvisioning.PlanProfiles | vendor/vendor-apple/ios/src/main/kotlin/com/malinskiy/marathon/apple/ios/device/AppleSimulatorProvider.kt:262-283 | every profile claims one distinct device or is asked for. Those asked for keep configuration order, come from Profile targets, and match no device left unused |
| AppleProvisioning.PlanPhysical | vendor/vendor-apple/ios/src/main/kotlin/com/malinskiy/marathon/apple/ios/device/AppleSimulatorProvider.kt:273 | the physical udids are exactly the Physical targets, whatever the inventory |
| AppleProvisioning.PlanSkipsHost | vendor/vendor-apple/ios/src/main/kotlin/com/malinskiy/marathon/apple/ios/device/AppleSimulatorProvider.kt:250 | a Host target changes nothing in the plan |
| AppleProvisioning.PlanShutdowns | vendor/vendor-apple/ios/src/main/kotlin/com/malinskiy/marathon/apple/ios/device/AppleSimulatorProvider.kt:275-281 | with `shutdownUnused`, exactly the Booted available devices the plan does not use are shut down; without it, none |
| AppleProvider.HostsOf | vendor/vendor-apple/ios/src/main/kotlin/com/malinskiy/marathon/apple/ios/device/AppleSimulatorProvider.kt:94-98 | the host map that the `put` loop builds. No contract of its own; `HostsLastWins` states what it holds, and `GroupHosts` is the loop proved equal to it |
| AppleProvider.HostsLastWins | vendor/vendor-apple/ios/src/main/kotlin/com/malinskiy/marathon/apple/ios/device/AppleSimulatorProvider.kt:94-98 | the host map has exactly the configured transports, and each holds the targets of the last worker naming it |
| AppleProvider.GroupHosts | vendor/vendor-apple/ios/src/main/kotlin/com/malinskiy/marathon/apple/ios/device/AppleSimulatorProvider.kt:91-98 | an empty worker list fails, and only it; otherwise the result is the host map |
| AppleProvider.AppleSimulatorProvider.constructor | vendor/vendor-apple/ios/src/main/kotlin/com/malinskiy/marathon/apple/ios/device/AppleSimulatorProvider.kt:69-70 | a new provider has no devices, no effects, an open channel and no monitor running |
| AppleProvider.AppleSimulatorProvider.LaunchMonitor | vendor/vendor-apple/ios/src/main/kotlin/com/malinskiy/marathon/apple/ios/device/AppleSimulatorProvider.kt:108 | the monitor job is running afterwards, and the registry, the effects and the channel are unchanged |
| AppleProvider.AppleSimulatorProvider.Connect | vendor/vendor-apple/ios/src/main/kotlin/com/malinskiy/marathon/apple/ios/device/AppleSimulatorProvider.kt:355-363 | the device is stored under its serial number. A replaced entry is disposed, then Connected is sent for the new device |
| AppleProvider.AppleSimulatorProvider.MonitorPass | vendor/vendor-apple/ios/src/main/kotlin/com/malinskiy/marathon/apple/ios/device/AppleSimulatorProvider.kt:110-126 | the registry is unchanged. The effects are Disconnected then dispose for each stale device, in visiting order, and the re-plans are `Replan` of them |
| AppleProvider.StaleExactly | vendor/vendor-apple/ios/src/main/kotlin/com/malinskiy/marathon/apple/ios/device/AppleSimulatorProvider.kt:111-116 | a registered device is stale exactly when its connection is gone |
| AppleProvider.DisconnectEffectsExactly | vendor/vendor-apple/ios/src/main/kotlin/com/malinskiy/marathon/apple/ios/device/AppleSimulatorProvider.kt:112-116 | exactly the stale devices are disposed and reported as disconnected; a pass never reports a connection or releases one |
| AppleProvider.ReplanCoversStale | vendor/vendor-apple/ios/src/main/kotlin/com/malinskiy/marathon/apple/ios/device/AppleSimulatorProvider.kt:118-125 | every stale udid is re-planned on its own transport as an existing simulator, and nothing else is planned |
| AppleProvider.StaleStep | vendor/vendor-apple/ios/src/main/kotlin/com/malinskiy/marathon/apple/ios/device/AppleSimulatorProvider.kt:111-116 | visiting one more device adds it to the stale ones exactly when its connection is gone |
| AppleProvider.DisconnectEffectsStep | vendor/vendor-apple/ios/src/main/kotlin/com/malinskiy/marathon/apple/ios/device/AppleSimulatorProvider.kt:112-116 | one more stale device adds its Disconnected event and then its dispose, after the earlier ones |
| AppleProvider.AppleSimulatorProvider.Terminate | vendor/vendor-apple/ios/src/main/kotlin/com/malinskiy/marathon/apple/ios/device/AppleSimulatorProvider.kt:299-323 | the monitor stops and the channel closes. Every device is disposed in turn, and its connection is released unless its dispose throws (a parameter `disposeFails`); the swallowed exception never stops termination, and the registry is empty afterwards |
| AppleProvider.TerminateEffects | vendor/vendor-apple/ios/src/main/kotlin/com/malinskiy/marathon/apple/ios/device/AppleSimulatorProvider.kt:308-320 | for each device in iteration order, its dispose, followed by the release of its connection only when the dispose does not throw (the `try`/`catch` at lines 310-315). No contract of its own; `TerminateDisposesAll` and `TerminateTouchesOnlyRegistered` state its properties |
| AppleProvider.TerminateDisposesAll | vendor/vendor-apple/ios/src/main/kotlin/com/malinskiy/marathon/apple/ios/device/AppleSimulatorProvider.kt:308-320 | every registered device is disposed, and its connection is released exactly when its dispose does not throw |
| AppleProvider.TerminateTouchesOnlyRegistered | vendor/vendor-apple/ios/src/main/kotlin/com/malinskiy/marathon/apple/ios/device/AppleSimulatorProvider.kt:308-320 | termination sends no event, disposes or releases only registered devices, and never releases one whose dispose threw |
| SimulatorFactory.RemovePrefix | vendor/vendor-apple/ios/src/main/kotlin/com/malinskiy/marathon/apple/ios/device/SimulatorFactory.kt:54 | `removePrefix` drops the prefix exactly when the name starts with it |
| SimulatorFactory.Create | vendor/vendor-apple/ios/src/main/kotlin/com/malinskiy/marathon/apple/ios/device/SimulatorFactory.kt:42-70 | fails exactly when no listed device has the udid or the first one is flagged unavailable; an unknown availability is accepted. Failing, and only failing, closes the executor. The created device has the requested udid, the transport, and the SDK of its device type |
| SimulatorFactory.FirstEntryDecides | vendor/vendor-apple/ios/src/main/kotlin/com/malinskiy/marathon/apple/ios/device/SimulatorFactory.kt:44-48 | a later available duplicate does not rescue an unavailable first entry |
| SimulatorFactory.SimulatorId | vendor/vendor-apple/ios/src/main/kotlin/com/malinskiy/marathon/apple/ios/device/SimulatorFactory.kt:54 | the device type with the CoreSimulator prefix removed, "" for null. No contract of its own; `QualifiedIdentifierClassified` and `MissingIdentifierIsIphone` state its properties |
| SimulatorFactory.SdkOf | vendor/vendor-apple/ios/src/main/kotlin/com/malinskiy/marathon/apple/ios/device/SimulatorFactory.kt:55-67 | the if/else-if chain on the short device type. No contract of its own; `SdkOfCharacterized` gives each SDK both ways |
| SimulatorFactory.SdkOfCharacterized | vendor/vendor-apple/ios/src/main/kotlin/com/malinskiy/marathon/apple/ios/device/SimulatorFactory.kt:55-67 | TV, Watch and Vision exactly for their prefixes; IPHONESIMULATOR for everything else, so the classification is total |
| SimulatorFactory.QualifiedIdentifierClassified | vendor/vendor-apple/ios/src/main/kotlin/com/malinskiy/marathon/apple/ios/device/SimulatorFactory.kt:54-67 | a fully qualified identifier is classified by the name after the CoreSimulator prefix |
| SimulatorFactory.MissingIdentifierIsIphone | vendor/vendor-apple/ios/src/main/kotlin/com/malinskiy/marathon/apple/ios/device/SimulatorFactory.kt:54-67 | a null identifier becomes "" and is IPHONESIMULATOR |
| DdmlibProvider.DdmlibDeviceProvider.GetDeviceOrPut | vendor/vendor-android/ddmlib/src/main/kotlin/com/malinskiy/marathon/android/ddmlib/DdmlibDeviceProvider.kt:183-192 | an absent serial stores and returns the candidate. A present one returns the stored device, leaves the map as it was, and disposes the candidate when it is another object |
| DdmlibProvider.GetOrPutKeepsEntries | vendor/vendor-android/ddmlib/src/main/kotlin/com/malinskiy/marathon/android/ddmlib/DdmlibDeviceProvider.kt:184-186 | get-or-put keeps every serial and adds the candidate's |
| DdmlibProvider.ReconnectAfterDisconnect | vendor/vendor-android/ddmlib/src/main/kotlin/com/malinskiy/marathon/android/ddmlib/DdmlibDeviceProvider.kt:108-192 | connect, disconnect and reconnect of one serial with a new wrapper: the disposed wrapper stays registered, the new wrapper is set up and disposed, and Connected is published again for the disposed one |
| DdmlibProvider.DdmlibDeviceProvider.constructor | vendor/vendor-android/ddmlib/src/main/kotlin/com/malinskiy/marathon/android/ddmlib/DdmlibDeviceProvider.kt:46-47 | a new provider has an empty registry, no effects and an open channel |
| DdmlibProvider.DdmlibDeviceProvider.ConnectHealthy | vendor/vendor-android/ddmlib/src/main/kotlin/com/malinskiy/marathon/android/ddmlib/DdmlibDeviceProvider.kt:125-129 | setup runs first, then get-or-put, then Connected is sent for the retained device |
| DdmlibProvider.DdmlibDeviceProvider.DeviceConnected | vendor/vendor-android/ddmlib/src/main/kotlin/com/malinskiy/marathon/android/ddmlib/DdmlibDeviceProvider.kt:108-132 | a healthy device is set up, registered unless its serial is known, and Connected is sent for the retained one. An unhealthy device, or null, changes nothing. No entry is removed |
| DdmlibProvider.DdmlibDeviceProvider.DeviceChanged | vendor/vendor-android/ddmlib/src/main/kotlin/com/malinskiy/marathon/android/ddmlib/DdmlibDeviceProvider.kt:79-106 | healthy behaves as `deviceConnected`. Unhealthy sends Disconnected for the fresh wrapper and leaves the registry alone. No entry is removed |
| DdmlibProvider.MatchDdmsToDevice | vendor/vendor-android/ddmlib/src/main/kotlin/com/malinskiy/marathon/android/ddmlib/DdmlibDeviceProvider.kt:194-200 | no match exactly when no registered device wraps the reported one or shares its serial. A match is the last such device in iteration order |
| DdmlibProvider.ValuesIn | vendor/vendor-android/ddmlib/src/main/kotlin/com/malinskiy/marathon/android/ddmlib/DdmlibDeviceProvider.kt:195 | `devices.values` in iteration order: one value per listed key, at its position |
| DdmlibProvider.DdmlibDeviceProvider.DeviceDisconnected | vendor/vendor-android/ddmlib/src/main/kotlin/com/malinskiy/marathon/android/ddmlib/DdmlibDeviceProvider.kt:134-144 | the matching device gets Disconnected and then dispose, and it stays registered. With no match, or null, nothing happens |
| DdmlibProvider.KeepWaiting | vendor/vendor-android/ddmlib/src/main/kotlin/com/malinskiy/marathon/android/ddmlib/DdmlibDeviceProvider.kt:169 | the loop condition `!hasInitialDeviceList \|\| (!hasDevices && countdown >= 0)`. A predicate with no contract of its own; `WaitForDevices` and `WaitBounds` are stated with it |
| DdmlibProvider.WaitForDevices | vendor/vendor-android/ddmlib/src/main/kotlin/com/malinskiy/marathon/android/ddmlib/DdmlibDeviceProvider.kt:167-176 | the loop sleeps exactly as long as `!initialList \|\| (!hasDevices && countdown >= 0)` holds, the countdown dropping by 500 per sleep |
| DdmlibProvider.WaitBounds | vendor/vendor-android/ddmlib/src/main/kotlin/com/malinskiy/marathon/android/ddmlib/DdmlibDeviceProvider.kt:167-176 | the wait never ends before the initial list arrives, and no sleep before the end saw both the list and devices. If the list is known from sleep `settledBy` on, the wait ends within `settledBy + timeout/500 + 1` sleeps, or within `settledBy` for a negative timeout |
| DdmlibProvider.DdmlibDeviceProvider.Initialize | vendor/vendor-android/ddmlib/src/main/kotlin/com/malinskiy/marathon/android/ddmlib/DdmlibDeviceProvider.kt:63-180 | anything but one adb server on the default host fails at once, before any wait. Otherwise the returned sleep count is one at which the wait loop stops and before which it continues. The call succeeds exactly when the bridge then has its initial list and devices, and returns that count. Otherwise it terminates the bridge and fails with no devices |
| DdmlibProvider.DdmlibDeviceProvider.Terminate | vendor/vendor-android/ddmlib/src/main/kotlin/com/malinskiy/marathon/android/ddmlib/DdmlibDeviceProvider.kt:204-209 | the bridge is disconnected and terminated, the channel closed, and the registry untouched |
| AndroidConfig.AndroidConfiguration.TestBundlesCompat | vendor/vendor-android/base/src/main/kotlin/com/malinskiy/marathon/android/configuration/AndroidConfiguration.kt:64-76 | a null `outputs` counts as empty. The outputs come first, in order, followed by one bundle of (applicationOutput, testApplicationOutput) exactly when the latter is set; the length is their sum |
| AndroidConfig.NothingConfigured | vendor/vendor-android/base/src/main/kotlin/com/malinskiy/marathon/android/configuration/AndroidConfiguration.kt:64-67 | with neither outputs nor a test application output there are no bundles |
| AndroidConfig.BundlesComeFromConfiguration | vendor/vendor-android/base/src/main/kotlin/com/malinskiy/marathon/android/configuration/AndroidConfiguration.kt:66-74 | every bundle is a configured output or the compat bundle |

## Left out

- Coroutines, channels and threads: `launch`, `async`, `awaitAll`, `delay`, `Thread.sleep` and the dispatchers are not modelled. An event sent on a channel is an entry appended to the provider's effect log, and the order of concurrent sends is the order of the code. Races on the concurrent maps are not modelled.
- The iteration order of a `ConcurrentHashMap` is not determined by the code; the monitor pass, `terminate` and `matchDdmsToDevice` take it as a parameter listing each key once.
- Foreign calls are not modelled beyond their results: simctl `listDevices`, `create` and `shutdown`, `connectionFactory`, `device.setup()` and `dispose()` (whether a dispose during termination throws is the parameter `disposeFails`), the debug bridge, and the metrics provider. `plan` returns the udids it shuts down instead of calling simctl.
- Device wrappers are compared by identity at DdmlibDeviceProvider.kt:187; the model gives each wrapper an `instance` number and compares records.
- `initialize` of both providers: reading and parsing the devices file (AppleSimulatorProvider.kt:84-90), connecting to each host (140-152), `createExisting` (154-167) and `createNew` (178-211) are foreign or concurrent. The model keeps the worker check and host grouping, and the checks around the bridge.
- `borrow` (AppleSimulatorProvider.kt:133-138) chooses a random device and polls; it is not modelled.
- `delay(16)` between monitor passes and the `while (isActive)` loop around them: one pass is modelled.
- The commented-out `onDisconnect` (AppleSimulatorProvider.kt:325-349) is not code.
- DdmlibProvider.DdmlibDeviceProvider.Initialize: the `AdbEndpoint()` default host is a parameter. The `TimeoutException` on an interrupted sleep is not modelled, since interruption comes from another thread.
- DdmlibProvider.WaitForDevices: the bridge's answers are functions of the number of sleeps taken, and a ghost `settledBy` from which the initial list is known is needed for the loop to end. Without one the source loops for ever.
- Floating point: flakiness rates are exact reals and batch duration estimates are natural numbers of milliseconds; IEEE rounding and NaN are not captured.
- Flakiness.ProbabilityBasedFlakinessStrategy.Equals: an object of another class is `None`, like null; `hashCode` (ProbabilityBasedFlakinessStrategy.kt:59-64) is left out, since it hashes a double and an `Instant`.
- Batching.FixedSizeBatchingStrategy.Equals: `other` is typed as a batching strategy or null, so objects of other classes are not modelled.
- The bundle check at FixedSizeBatchingStrategy.kt:49 is dead (`testBundle` is never assigned at line 36) and is not modelled; there is no single-bundle property.
- `toString` of every class is left out.
- SimpleClassnameFilterFromFile's `equals` and `hashCode` (lines 28-33) are left out: `equals` compares against another filter class that is not part of this model.
- Reading the file (`readLines`) is modelled on its text: lines end at `\n` or `\r`, and an empty file has no first line. Character encodings are not modelled. In particular `testFileContent.length > 5` (SimpleClassnameFilterFromFile.kt:16) counts UTF-16 code units and the model counts characters, so content outside the Basic Multilingual Plane can take different branches; "😀😀ab" is 6 units but 4 characters, and Kotlin takes the regex branch where the model takes the `contains` branch.
- The regular expression of the filter is abstract: its `matches` is a parameter.
- SimulatorFactory: the AppleSimulatorDevice's other fields and the `setup` call (lines 69-87) are foreign, and are not modelled.
- Batching.BatchSize: requires a positive `deviceCount`; with 0 the division at FixedSizeBatchingStrategy.kt:37 throws `ArithmeticException` past the last-mile check, and that error path is not modelled. The caller, which passes the pool's device count, is not part of this model, and the model takes a pool to have at least one device.
- Batching.FixedSizeBatchingStrategy.Process: for the same reason a `deviceCount` of 0 is accepted only for a last-mile queue, where the source never divides by it.
- Batching.AdmitOne: the duplicate check `result.contains(item)` at FixedSizeBatchingStrategy.kt:47 uses the model's `Test` equality, which is structural over package, class, method and annotations, as for a Kotlin data class. Test.kt is not part of this model; were its equality by package, class and method only, a second test with that identity and other annotations would be re-queued by the source and admitted by the model.
- Logging is not modelled: the `println` at SimpleClassnameFilterFromFile.kt:21, and the `logger.debug` and `logger.warn` calls of AppleSimulatorProvider.kt (lines 100 and 121, among others) and DdmlibDeviceProvider.kt have no effect on state.
- AppleProvider.AppleSimulatorProvider.MonitorPass: the `createExisting` call at AppleSimulatorProvider.kt:124 is not modelled. For each re-plan it creates a simulator through `connectionFactory` and the simulator factory and then runs `connect` (lines 355-363), which the pass waits for. The model's pass therefore stops at the re-plans: it leaves out the new entries stored in `devices`, the dispose of each stale entry they replace, and the Connected events sent for them. `Connect` models that last step on its own.
