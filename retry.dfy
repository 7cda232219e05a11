/** NoRetryStrategy: the retry policy used when retries are disabled. */
module Retry {
  import opened Wrappers
  import opened TestModel

  /** The strategy's `javaClass.canonicalName`. */
  const CANONICAL_NAME: string := "com.malinskiy.marathon.execution.strategy.impl.retry.NoRetryStrategy"

  /** Reduces an integer to a 32-bit two's-complement value, as JVM `Int` arithmetic does. */
  function ToInt32(x: int): (r: int)
    ensures -0x8000_0000 <= r < 0x8000_0000
    ensures (r - x) % 0x1_0000_0000 == 0
  {
    (x + 0x8000_0000) % 0x1_0000_0000 - 0x8000_0000
  }

  /**
   * `String.hashCode`: h = 31 * h + c over the characters, wrapping at 32 bits. Kotlin folds over UTF-16
   * code units and this folds over Dafny characters, so the two agree on strings inside the Basic
   * Multilingual Plane only, such as the ASCII canonical name it is used on.
   */
  function StringHash(s: string): (r: int)
    ensures -0x8000_0000 <= r < 0x8000_0000
  {
    if s == [] then 0 else ToInt32(31 * StringHash(s[..|s| - 1]) + s[|s| - 1] as int)
  }

  /** The hash without wrap-around: the polynomial sum of the character codes in base 31. */
  function ExactHash(s: string): int {
    if s == [] then 0 else 31 * ExactHash(s[..|s| - 1]) + s[|s| - 1] as int
  }

  /** The wrapped hash is the exact one reduced to 32 bits. */
  lemma {:induction false} StringHashWraps(s: string)
    ensures (StringHash(s) - ExactHash(s)) % 0x1_0000_0000 == 0
  {
    if s != [] {
      var p := s[..|s| - 1];
      StringHashWraps(p);
      var k := (StringHash(p) - ExactHash(p)) / 0x1_0000_0000;
      assert StringHash(p) - ExactHash(p) == 0x1_0000_0000 * k;
      var x := 31 * StringHash(p) + s[|s| - 1] as int;
      var j := (StringHash(s) - x) / 0x1_0000_0000;
      assert StringHash(s) - x == 0x1_0000_0000 * j;
      assert x - ExactHash(s) == 0x1_0000_0000 * (31 * k);
      assert StringHash(s) - ExactHash(s) == 0x1_0000_0000 * (j + 31 * k);
    }
  }

  datatype NoRetryStrategy = NoRetryStrategy {
    /**
     * No finished test is ever re-run. The pool's progress accumulator is a type parameter: nothing of it
     * is read.
     */
    function Process<Accumulator>(devicePoolId: DevicePoolId, tests: seq<TestResult>, testShard: TestShard,
                                  poolProgressAccumulator: Accumulator): (r: seq<TestResult>)
      ensures r == []
    {
      []
    }

    function HashCode(): (h: int)
      ensures -0x8000_0000 <= h < 0x8000_0000
      ensures (h - ExactHash(CANONICAL_NAME)) % 0x1_0000_0000 == 0
    {
      StringHashWraps(CANONICAL_NAME);
      StringHash(CANONICAL_NAME)
    }

    /**
     * `equals`: `otherClassName` is the canonical class name of the other object, `None` for null.
     * Equal exactly when the other object is of this class.
     */
    predicate Equals(otherClassName: Option<string>)
      ensures Equals(otherClassName) <==> otherClassName == Some(CANONICAL_NAME)
    {
      match otherClassName
      case None => false
      case Some(name) => CANONICAL_NAME == name
    }
  }

  /** The decision depends on nothing it is given. */
  lemma ProcessIgnoresInputs<A>(s: NoRetryStrategy, p1: DevicePoolId, p2: DevicePoolId, r1: seq<TestResult>, r2: seq<TestResult>,
                                sh1: TestShard, sh2: TestShard, a1: A, a2: A)
    ensures s.Process(p1, r1, sh1, a1) == s.Process(p2, r2, sh2, a2)
  {
  }

  /** Any two instances are equal to each other and hash alike; none equals null. */
  lemma InstancesEqual(a: NoRetryStrategy, b: NoRetryStrategy)
    ensures a.Equals(Some(CANONICAL_NAME)) && b.Equals(Some(CANONICAL_NAME))
    ensures !a.Equals(None)
    ensures a.HashCode() == b.HashCode()
    ensures -0x8000_0000 <= a.HashCode() < 0x8000_0000
  {
  }
}
