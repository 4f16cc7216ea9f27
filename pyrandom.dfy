/**
  Python's `random` module as the generator uses it. CPython builds every
  `random()` result as k / 2^53 from 53 random bits; the Mersenne Twister
  that produces k is a parameter of the model (`Stream`).
 */
module PyRandom {

  const TwoTo53: nat := 0x20_0000_0000_0000

  /** The numerator k of one `random()` result k / 2^53. */
  type Draw53 = k: int | 0 <= k < 0x20_0000_0000_0000

  /**
    `Stream(s, n)` is the n-th `random()` draw (counting from 0) after
    `random.seed(s)`: reseeding with the same s replays the same draws.
   */
  type Stream = (int, nat) -> Draw53
}
