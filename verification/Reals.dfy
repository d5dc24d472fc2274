/** Two facts of real arithmetic, and what the fee and the score need of them. */
module Reals {
  lemma Product(x: real, y: real)
    requires x >= 0.0 && y >= 0.0
    ensures x * y >= 0.0
  {
  }

  lemma Distributes(x: real, y: real, z: real)
    ensures x * (y - z) == x * y - x * z
  {
  }

  /** A product grows with a factor that stays non-negative. */
  lemma ProductMonotone(a: real, b: real, w: real)
    requires a >= b >= 0.0 && w >= 0.0
    ensures w * a >= w * b >= 0.0
  {
    Product(w, b);
    Product(w, a - b);
    Distributes(w, a, b);
  }
}
