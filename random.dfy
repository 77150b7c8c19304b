/** The environment's sources of unpredictable values: `kotlin.random.Random`, `UUID.randomUUID()`
    and `System.currentTimeMillis()`. Each is a nondeterministic method: the verifier must accept
    every value it may return, and the contract says only what the library guarantees. */
module Random {

  predicate InRealRange(x: real, lo: real, hi: real) { lo <= x < hi }

  predicate InIntRange(x: int, lo: int, hi: int) { lo <= x < hi }

  /** `Random.nextDouble(from, until)`. */
  method NextDouble(from: real, until: real) returns (x: real)
    requires from < until
    ensures from <= x < until
  {
    assert InRealRange(from, from, until);
    x :| InRealRange(x, from, until);
    assert InRealRange(x, from, until);
  }

  /** `Random.nextFloat()`. */
  method NextFloat() returns (x: real)
    ensures 0.0 <= x < 1.0
  {
    x := NextDouble(0.0, 1.0);
  }

  /** `Random.nextInt(from, until)`. */
  method NextInt(from: int, until: int) returns (x: int)
    requires from < until
    ensures from <= x < until
  {
    assert InIntRange(from, from, until);
    x :| InIntRange(x, from, until);
    assert InIntRange(x, from, until);
  }

  /** `Random.nextBoolean()`. */
  method NextBoolean() returns (b: bool)
  {
    b := *;
  }

  /** `list.random()`. */
  method Pick<T>(xs: seq<T>) returns (x: T)
    requires |xs| > 0
    ensures x in xs
  {
    var i := NextInt(0, |xs|);
    x := xs[i];
  }

  /** `UUID.randomUUID().toString()`: an unpredictable text. */
  method RandomUuid() returns (s: string)
  {
    s := *;
  }

  /** `System.currentTimeMillis()`. */
  method CurrentTimeMillis() returns (t: int)
  {
    t := *;
  }
}
