/** The one random choice the source makes, `Math.floor(Math.random() * n)`,
    with the random number passed in as a parameter. */
module Chance {

  /** The index picked by `Math.floor(r * n)` for a random `r` in [0, 1):
      always a valid index into a non-empty collection of size `n`. */
  function RandomIndex(r: real, n: nat): (k: nat)
    requires 0.0 <= r < 1.0
    requires n > 0
    ensures k < n
  {
    var x := r * n as real;
    assert 0.0 <= x < n as real;
    x.Floor
  }
}
