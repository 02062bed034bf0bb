/** The randomness the core draws on. */
module Random {
  /** One value of `Math.random()`: a real in [0, 1). */
  type Draw = r: real | 0.0 <= r < 1.0
}
