/** The puzzle generator of backend/puzzle_generator.py. Each random draw
    (`random.randint`, `random.choice`) is a parameter whose range is a
    precondition, so every lemma below holds for every outcome of the draws. */
module Generator {
  import opened Tiers
  import opened Puzzles

  /** EASY: a and b drawn from [1, 9], the operation from {+, -}. */
  function GenerateEasy(op: Op, a: int, b: int): (p: Puzzle)
    requires 1 <= a <= 9 && 1 <= b <= 9
    requires op == Add || op == Sub
    ensures p.op == op && Solves(p)
    ensures 1 <= p.a <= 9 && 1 <= p.b <= 9
    ensures op == Add ==> p.a == a && p.b == b && 2 <= p.answer <= 18
    ensures op == Sub ==> p.a >= p.b && multiset{p.a, p.b} == multiset{a, b} && 0 <= p.answer <= 8
  {
    if op == Add then Puzzle(a, Add, b, a + b)
    else
      var (x, y) := Ordered(a, b);
      Puzzle(x, Sub, y, x - y)
  }

  /** The draws of the MEDIUM rules: add and subtract take their operands from
      [10, 50], multiply from [2, 12]. */
  predicate MediumDraws(op: Op, a: int, b: int)
  {
    match op
    case Add => 10 <= a <= 50 && 10 <= b <= 50
    case Sub => 10 <= a <= 50 && 10 <= b <= 50
    case Mul => 2 <= a <= 12 && 2 <= b <= 12
    case Div => false
  }

  function GenerateMedium(op: Op, a: int, b: int): (p: Puzzle)
    requires MediumDraws(op, a, b)
    ensures p.op == op && op != Div && Solves(p)
    ensures op == Add || op == Sub ==> 10 <= p.a <= 50 && 10 <= p.b <= 50
    ensures op == Add ==> p.a == a && p.b == b && 20 <= p.answer <= 100
    ensures op == Sub ==> p.a >= p.b && multiset{p.a, p.b} == multiset{a, b} && 0 <= p.answer <= 40
    ensures op == Mul ==> p.a == a && p.b == b && 4 <= p.answer <= 144
  {
    match op
    case Add => Puzzle(a, Add, b, a + b)
    case Sub =>
      var (x, y) := Ordered(a, b);
      Puzzle(x, Sub, y, x - y)
    case Mul =>
      ProductBounds(a, b, 2, 12);
      Puzzle(a, Mul, b, a * b)
  }

  /** The draws of the HARD rules: add and subtract take their operands from
      [50, 100], multiply from [5, 20]; division draws the divisor `x` and the
      quotient `y` from [2, 12]. */
  predicate HardDraws(op: Op, x: int, y: int)
  {
    match op
    case Add => 50 <= x <= 100 && 50 <= y <= 100
    case Sub => 50 <= x <= 100 && 50 <= y <= 100
    case Mul => 5 <= x <= 20 && 5 <= y <= 20
    case Div => 2 <= x <= 12 && 2 <= y <= 12
  }

  function GenerateHard(op: Op, x: int, y: int): (p: Puzzle)
    requires HardDraws(op, x, y)
    ensures p.op == op && Solves(p)
    ensures op == Add ==> p.a == x && p.b == y && 100 <= p.answer <= 200
    ensures op == Sub ==> p.a >= p.b && multiset{p.a, p.b} == multiset{x, y} && 0 <= p.answer <= 50
    ensures op == Mul ==> p.a == x && p.b == y && 25 <= p.answer <= 400
    ensures op == Div ==> p.b == x && p.answer == y && p.a % p.b == 0 && p.a / p.b == p.answer
    ensures op == Div ==> 4 <= p.a <= 144
  {
    match op
    case Add => Puzzle(x, Add, y, x + y)
    case Sub =>
      var (a, b) := Ordered(x, y);
      Puzzle(a, Sub, b, a - b)
    case Mul =>
      ProductBounds(x, y, 5, 20);
      Puzzle(x, Mul, y, x * y)
    case Div =>
      ExactQuotient(x, y);
      ProductBounds(x, y, 2, 12);
      Puzzle(x * y, Div, x, y)
  }

  /** The draws `generate_puzzle` makes for a tier. */
  predicate Draws(d: Difficulty, op: Op, x: int, y: int)
  {
    match d
    case EASY => (op == Add || op == Sub) && 1 <= x <= 9 && 1 <= y <= 9
    case MEDIUM => MediumDraws(op, x, y)
    case HARD => HardDraws(op, x, y)
  }

  /** `generate_puzzle`: EASY and MEDIUM go to their own rules, anything else to
      the HARD rules. */
  function GeneratePuzzle(d: Difficulty, op: Op, x: int, y: int): (p: Puzzle)
    requires Draws(d, op, x, y)
    ensures Solves(p) && p.op == op
    ensures d == EASY ==> p == GenerateEasy(op, x, y)
    ensures d == MEDIUM ==> p == GenerateMedium(op, x, y)
    ensures d == HARD ==> p == GenerateHard(op, x, y)
  {
    if d == EASY then GenerateEasy(op, x, y)
    else if d == MEDIUM then GenerateMedium(op, x, y)
    else GenerateHard(op, x, y)
  }

  /** Which operations each tier can pose: division only at HARD, multiplication
      from MEDIUM up, subtraction answers never negative. */
  lemma GeneratedOperations(d: Difficulty, op: Op, x: int, y: int)
    requires Draws(d, op, x, y)
    ensures var p := GeneratePuzzle(d, op, x, y);
      && (p.op == Div ==> d == HARD)
      && (p.op == Mul ==> d != EASY)
      && (p.op == Sub ==> p.answer >= 0 && p.answer == p.a - p.b)
      && (p.op == Div ==> p.a % p.b == 0 && p.a / p.b == p.answer)
  {
  }
}
