/**
 * The test entities the strategies and filters work on. Test.kt, TestShard.kt, TestBatch.kt and TestResult.kt
 * are not part of this model; their fields are the ones the core reads.
 */
module TestModel {

  /** An annotation on a test; filters look only at its name. */
  datatype MetaProperty = MetaProperty(name: string)

  /** A test, identified by package, class and method, with its annotations. Equality is structural. */
  datatype Test = Test(pkg: string, clazz: string, methodName: string, metaProperties: seq<MetaProperty>)

  /** The tests assigned to one pool and the extra scheduled repeats derived from them. */
  datatype TestShard = TestShard(tests: seq<Test>, flakyTests: seq<Test>)

  /** One unit of work for one device. */
  datatype TestBatch = TestBatch(tests: seq<Test>)

  datatype TestStatus = Passed | Failed | Ignored

  datatype TestResult = TestResult(test: Test, device: string, status: TestStatus, durationMillis: nat, timestamp: int)

  datatype DevicePoolId = DevicePoolId(name: string)

  /** Epoch milliseconds, standing in for `java.time.Instant`. */
  type Instant = int
}
