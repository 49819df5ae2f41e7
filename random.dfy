/**
 * The random-number source. `Math.random()` is replaced by an oracle that
 * hands out draws in [0, 1); the k-th call of a block reads draw k.
 */
module Random {

  /** A value `Math.random()` can return. */
  type Unit = r: real | 0.0 <= r < 1.0

  /** An infinite stream of draws, indexed by how many were used before. */
  type Source = nat -> Unit

  /** `Math.floor(r * n)`: a uniform index into a list of length `n`. */
  function Pick(r: Unit, n: nat): (i: nat)
    requires n > 0
    ensures i < n
  {
    var x := r * n as real;
    assert 0.0 <= x < n as real by {
      assert r * n as real < 1.0 * n as real;
    }
    x.Floor
  }
}
