/** The transcendental operations the calculator takes from JavaScript's
    `Math` object. They are not defined here: every operation of the model
    receives them as a value, so the proofs hold for any functions whatever,
    and a lemma that needs a law of trigonometry names that law in its
    `requires` clause. */
module RealMath {

  /** `Math.PI`, `Math.sqrt`, `Math.cos`, `Math.sin` and `Math.atan2`. */
  datatype MathOps = MathOps(
    pi: real,
    sqrt: real -> real,
    cos: real -> real,
    sin: real -> real,
    atan2: (real, real) -> real)

  /** cos(-a) = cos(a), stated for every pair of opposite angles. */
  ghost predicate CosIsEven(math: MathOps) {
    forall a: real, b: real :: a + b == 0.0 ==> math.cos(a) == math.cos(b)
  }

  /** -1 <= cos(a) <= 1. */
  ghost predicate CosIsBounded(math: MathOps) {
    forall a: real :: -1.0 <= math.cos(a) <= 1.0
  }

  /** The square root of a non-negative number is non-negative. */
  ghost predicate SqrtIsNonNegative(math: MathOps) {
    forall a: real :: 0.0 <= a ==> 0.0 <= math.sqrt(a)
  }

  /** cos(a)^2 + sin(a)^2 = 1. */
  ghost predicate Pythagorean(math: MathOps) {
    forall a: real :: math.cos(a) * math.cos(a) + math.sin(a) * math.sin(a) == 1.0
  }

  function Square(a: real): real {
    a * a
  }

  /** The square root of the square of a non-negative number is that number. */
  ghost predicate SqrtOfSquare(math: MathOps) {
    forall a: real :: 0.0 <= a ==> math.sqrt(Square(a)) == a
  }

  /** cos(0) = 1 and cos(pi) = -1. */
  predicate CosAtZeroAndPi(math: MathOps) {
    math.cos(0.0) == 1.0 && math.cos(math.pi) == -1.0
  }
}
