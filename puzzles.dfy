/** The arithmetic puzzle both generators produce: a displayed question
    `a op b = ?` and the answer the service stores for it. The rendered text
    (with its `×` and `÷` signs) is represented by the structured triple. */
module Puzzles {

  datatype Op = Add | Sub | Mul | Div

  datatype Puzzle = Puzzle(a: int, op: Op, b: int, answer: int)

  /** The answer is the exact value of the displayed question. For division the
      value is the rational `a / b`, which is the answer exactly when `a == b * answer`. */
  predicate Solves(p: Puzzle)
  {
    match p.op
    case Add => p.answer == p.a + p.b
    case Sub => p.answer == p.a - p.b
    case Mul => p.answer == p.a * p.b
    case Div => p.b != 0 && p.a == p.b * p.answer
  }

  /** `a, b = max(a, b), min(a, b)`: the subtraction operands with the larger first. */
  function Ordered(x: int, y: int): (r: (int, int))
    ensures r.0 >= r.1
    ensures multiset{r.0, r.1} == multiset{x, y}
  {
    if x >= y then (x, y) else (y, x)
  }

  /** Multiplying by a non-negative factor keeps the order. */
  lemma MulMonotone(x: int, y: int, z: int)
    requires x <= y && 0 <= z
    ensures x * z <= y * z
  {
    assert (y - x) * z >= 0;
    assert y * z - x * z == (y - x) * z;
  }

  /** Both factors in [lo, hi] with lo >= 0 put the product in [lo*lo, hi*hi]. */
  lemma ProductBounds(a: int, b: int, lo: int, hi: int)
    requires 0 <= lo <= a <= hi && lo <= b <= hi
    ensures lo * lo <= a * b <= hi * hi
  {
    MulMonotone(lo, a, lo);
    MulMonotone(lo, b, a);
    assert lo * a == a * lo && a * lo <= a * b;
    MulMonotone(a, hi, b);
    MulMonotone(b, hi, hi);
    assert hi * b == b * hi;
  }

  /** A dividend built as `divisor * quotient` divides exactly. */
  lemma ExactQuotient(divisor: int, quotient: int)
    requires divisor > 0
    ensures (divisor * quotient) % divisor == 0
    ensures (divisor * quotient) / divisor == quotient
  {
    var n := divisor * quotient;
    var q, r := n / divisor, n % divisor;
    assert n == divisor * q + r && 0 <= r < divisor;
    var k := quotient - q;
    assert divisor * k == r by {
      assert divisor * k == divisor * quotient - divisor * q;
    }
    if k >= 1 {
      MulMonotone(1, k, divisor);
      assert false;
    } else if k <= -1 {
      MulMonotone(k, -1, divisor);
      assert false;
    }
  }

  /** A division puzzle that solves exactly has no remainder and its quotient is the answer. */
  lemma DivisionIsExact(p: Puzzle)
    requires p.op == Div && Solves(p) && p.b > 0
    ensures p.a % p.b == 0 && p.a / p.b == p.answer
  {
    ExactQuotient(p.b, p.answer);
  }
}
