/** The three difficulty tiers of backend/models.py, totally ordered
    EASY < MEDIUM < HARD by their position in the list the controller indexes. */
module Tiers {

  datatype Difficulty = EASY | MEDIUM | HARD

  /** The list `[EASY, MEDIUM, HARD]` that both copies of the adaptive rule index. */
  const Levels: seq<Difficulty> := [EASY, MEDIUM, HARD]

  /** `Levels.index(d)`: the position of a tier in the ordered list. */
  function IndexOf(d: Difficulty): (i: nat)
    ensures i < |Levels| && Levels[i] == d
  {
    match d
    case EASY => 0
    case MEDIUM => 1
    case HARD => 2
  }

  /** The tier one step up (`Levels[index + 1]`), defined below HARD only. */
  function Harder(d: Difficulty): (r: Difficulty)
    requires d != HARD
    ensures IndexOf(r) == IndexOf(d) + 1
  {
    Levels[IndexOf(d) + 1]
  }

  /** The tier one step down (`Levels[index - 1]`), defined above EASY only. */
  function Easier(d: Difficulty): (r: Difficulty)
    requires d != EASY
    ensures IndexOf(r) + 1 == IndexOf(d)
  {
    Levels[IndexOf(d) - 1]
  }

  /** The string value of the enum member (Difficulty is a `str` enum). */
  function Name(d: Difficulty): string
  {
    match d
    case EASY => "EASY"
    case MEDIUM => "MEDIUM"
    case HARD => "HARD"
  }
}
