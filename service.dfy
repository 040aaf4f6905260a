/** The request handlers of backend/main.py over its two in-memory stores:
    `user_sessions` (user id to session) and `active_puzzles` (puzzle id to the
    stored answer, owner and requested difficulty). This copy of the adaptive
    rule promotes below 8 seconds and records the difficulty string stored with
    the puzzle. Ids drawn by `uuid.uuid4()` and values drawn by `random` are
    parameters. */
module Service {
  import opened Wrappers
  import opened Tiers
  import opened Puzzles
  import opened Policy
  import opened Summaries
  import Engine
  import Generator

  /** Correct answers faster than this many seconds can promote. */
  const FastThreshold: real := 8.0

  /** An HTTPException: status code and detail text. */
  datatype HttpError = HttpError(statusCode: int, detail: string)

  /** An entry of `active_puzzles`. */
  datatype ActivePuzzle = ActivePuzzle(correctAnswer: int, userId: string, difficulty: string)

  datatype StartResponse = StartResponse(userId: string, message: string, initialDifficulty: Difficulty)

  datatype PuzzleResponse = PuzzleResponse(question: Puzzle, correctAnswer: int, difficulty: string, puzzleId: string)

  datatype PerformanceStats = PerformanceStats(
    totalQuestions: nat, correctAnswers: nat, accuracy: real, currentDifficulty: Difficulty)

  datatype AnswerResponse = AnswerResponse(
    isCorrect: bool, correctAnswer: int, nextDifficulty: Difficulty, performanceStats: PerformanceStats)

  datatype SessionSummary = SessionSummary(
    userId: string,
    totalQuestions: nat,
    correctAnswers: nat,
    accuracy: real,
    averageResponseTime: real,
    difficultyHistory: seq<string>,
    recommendation: string)

  /** `request.get('difficulty', 'MEDIUM')`. */
  function RequestedDifficulty(difficulty: Option<string>): (d: string)
    ensures difficulty.None? ==> RulesFor(d) == MEDIUM
    ensures difficulty.Some? ==> d == difficulty.value
  {
    match difficulty
    case None => "MEDIUM"
    case Some(d) => d
  }

  /** The rules `get_puzzle` applies: "EASY" and "MEDIUM" their own, any other
      string the HARD rules. */
  function RulesFor(difficulty: string): (d: Difficulty)
    ensures d == EASY <==> difficulty == "EASY"
    ensures d == MEDIUM <==> difficulty == "MEDIUM"
    ensures d == HARD <==> difficulty != "EASY" && difficulty != "MEDIUM"
  {
    if difficulty == "EASY" then EASY
    else if difficulty == "MEDIUM" then MEDIUM
    else HARD
  }

  /** A tier's own name selects that tier's rules. */
  lemma RulesForName(d: Difficulty)
    ensures RulesFor(Name(d)) == d
  {
    assert Name(d) == "EASY" <==> d == EASY;
    assert Name(d) == "MEDIUM" <==> d == MEDIUM;
  }

  /** The draws of `get_puzzle`: `a` and `b` first, from [1, 10], [10, 50] or
      [50, 100] by tier; MEDIUM multiplication redraws both factors (`redrawA`, `redrawB`)
      from [2, 12]; HARD division draws the divisor `redrawA` and the quotient `redrawB`
      from [2, 12]. */
  predicate ApiDraws(difficulty: string, op: Op, a: int, b: int, redrawA: int, redrawB: int)
  {
    match RulesFor(difficulty)
    case EASY => (op == Add || op == Sub) && 1 <= a <= 10 && 1 <= b <= 10
    case MEDIUM =>
      op != Div && 10 <= a <= 50 && 10 <= b <= 50 && (op == Mul ==> 2 <= redrawA <= 12 && 2 <= redrawB <= 12)
    case HARD =>
      50 <= a <= 100 && 50 <= b <= 100 && (op == Div ==> 2 <= redrawA <= 12 && 2 <= redrawB <= 12)
  }

  /** The puzzle `get_puzzle` computes; HARD multiplication uses the
      [50, 100] operands drawn for addition. */
  function MakePuzzle(difficulty: string, op: Op, a: int, b: int, redrawA: int, redrawB: int): (p: Puzzle)
    requires ApiDraws(difficulty, op, a, b, redrawA, redrawB)
    ensures Solves(p) && p.op == op
    ensures op == Sub ==> p.a >= p.b && multiset{p.a, p.b} == multiset{a, b} && p.answer >= 0
    ensures op == Add ==> p.a == a && p.b == b
    ensures RulesFor(difficulty) == EASY ==>
      1 <= p.a <= 10 && 1 <= p.b <= 10 && (op == Add ==> 2 <= p.answer <= 20) && (op == Sub ==> p.answer <= 9)
    ensures RulesFor(difficulty) == MEDIUM && op == Mul ==> p.a == redrawA && p.b == redrawB && 4 <= p.answer <= 144
    ensures RulesFor(difficulty) == MEDIUM && op != Mul ==> 10 <= p.a <= 50 && 10 <= p.b <= 50
    ensures RulesFor(difficulty) == HARD && op == Mul ==> p.a == a && p.b == b && 2500 <= p.answer <= 10000
    ensures RulesFor(difficulty) == HARD && op == Div ==>
      p.b == redrawA && p.answer == redrawB && p.a % p.b == 0 && p.a / p.b == p.answer
  {
    match RulesFor(difficulty)
    case EASY =>
      if op == Add then Puzzle(a, Add, b, a + b)
      else
        var (x, y) := Ordered(a, b);
        Puzzle(x, Sub, y, x - y)
    case MEDIUM =>
      if op == Add then Puzzle(a, Add, b, a + b)
      else if op == Sub then
        var (x, y) := Ordered(a, b);
        Puzzle(x, Sub, y, x - y)
      else
        ProductBounds(redrawA, redrawB, 2, 12);
        Puzzle(redrawA, Mul, redrawB, redrawA * redrawB)
    case HARD =>
      if op == Add then Puzzle(a, Add, b, a + b)
      else if op == Sub then
        var (x, y) := Ordered(a, b);
        Puzzle(x, Sub, y, x - y)
      else if op == Mul then
        ProductBounds(a, b, 50, 100);
        Puzzle(a, Mul, b, a * b)
      else
        ExactQuotient(redrawA, redrawB);
        Puzzle(redrawA * redrawB, Div, redrawA, redrawB)
  }

  /** The statistics `submit_answer` returns; accuracy has no division when
      the history is empty. */
  function StatsOf(s: Session<string>): (r: PerformanceStats)
    ensures r.totalQuestions == |s.performanceHistory|
    ensures r.correctAnswers == CountCorrect(s.performanceHistory) <= r.totalQuestions
    ensures r.totalQuestions == 0 ==> r.accuracy == 0.0
    ensures r.totalQuestions > 0 ==> r.accuracy * r.totalQuestions as real == r.correctAnswers as real
    ensures r.currentDifficulty == s.currentDifficulty
  {
    var h := s.performanceHistory;
    PerformanceStats(|h|, CountCorrect(h), Accuracy(CountCorrect(h), |h|), s.currentDifficulty)
  }

  /** The summary of a nonempty history: counts, accuracy, mean time, the
      recorded difficulties in order and the recommendation by the thresholds
      0.8 and 0.6, stated on the counts. */
  function SummaryOf(userId: string, h: seq<AnswerRecord<string>>): (t: SessionSummary)
    requires h != []
    ensures t.userId == userId
    ensures t.totalQuestions == |h| && t.correctAnswers == CountCorrect(h)
    ensures t.accuracy == Accuracy(t.correctAnswers, t.totalQuestions)
    ensures t.averageResponseTime == Mean(Times(h))
    ensures |t.difficultyHistory| == |h|
    ensures forall i :: 0 <= i < |h| ==> t.difficultyHistory[i] == h[i].difficulty
    ensures t.recommendation == Message(Recommend(t.accuracy))
    ensures Recommend(t.accuracy) == Excellent <==> 5 * t.correctAnswers > 4 * t.totalQuestions
    ensures Recommend(t.accuracy) == GoodProgress <==> 3 * t.totalQuestions < 5 * t.correctAnswers <= 4 * t.totalQuestions
  {
    var total := |h|;
    var correct := CountCorrect(h);
    var accuracy := Accuracy(correct, total);
    RecommendByCounts(correct, total);
    SessionSummary(userId, total, correct, accuracy, Mean(Times(h)), RecordedDifficulties(h), Message(Recommend(accuracy)))
  }

  /** `get_session_summary` for a known user: 400 for an empty history. */
  function Summarize(userId: string, s: Session<string>): (r: Result<SessionSummary, HttpError>)
    ensures s.performanceHistory == [] <==> r == Failure(HttpError(400, "No performance data available"))
    ensures r.Success? ==> r.value == SummaryOf(userId, s.performanceHistory)
  {
    if s.performanceHistory == [] then Failure(HttpError(400, "No performance data available"))
    else Success(SummaryOf(userId, s.performanceHistory))
  }

  class Backend {
    var userSessions: map<string, Session<string>>
    var activePuzzles: map<string, ActivePuzzle>

    constructor()
      ensures userSessions == map[] && activePuzzles == map[]
    {
      userSessions := map[];
      activePuzzles := map[];
    }

    /** `start_session`: store a new session under the caller-supplied id, at
        MEDIUM when no tier is requested. */
    method StartSession(userId: string, difficulty: Difficulty := MEDIUM) returns (r: StartResponse)
      modifies this
      ensures userSessions == old(userSessions)[userId := NewSession(difficulty)]
      ensures activePuzzles == old(activePuzzles)
      ensures r == StartResponse(userId, "Session started successfully", difficulty)
    {
      userSessions := userSessions[userId := Session(difficulty, 0, 0, [])];
      r := StartResponse(userId, "Session started successfully", difficulty);
    }

    /** `get_puzzle`: 404 for an unknown user; otherwise compute a puzzle and
        store its answer, owner and requested difficulty under `puzzleId`. */
    method GetPuzzle(userId: string, difficulty: Option<string>, puzzleId: string,
                     op: Op, a: int, b: int, redrawA: int, redrawB: int)
      returns (r: Result<PuzzleResponse, HttpError>)
      requires ApiDraws(RequestedDifficulty(difficulty), op, a, b, redrawA, redrawB)
      modifies this
      ensures userSessions == old(userSessions)
      ensures userId !in old(userSessions) ==>
        r == Failure(HttpError(404, "User session not found")) && activePuzzles == old(activePuzzles)
      ensures userId in old(userSessions) ==>
        var d := RequestedDifficulty(difficulty);
        var p := MakePuzzle(d, op, a, b, redrawA, redrawB);
        && r == Success(PuzzleResponse(p, p.answer, d, puzzleId))
        && activePuzzles == old(activePuzzles)[puzzleId := ActivePuzzle(p.answer, userId, d)]
    {
      var d := RequestedDifficulty(difficulty);
      if userId !in userSessions {
        return Failure(HttpError(404, "User session not found"));
      }
      var question := MakePuzzle(d, op, a, b, redrawA, redrawB);
      activePuzzles := activePuzzles[puzzleId := ActivePuzzle(question.answer, userId, d)];
      r := Success(PuzzleResponse(question, question.answer, d, puzzleId));
    }

    /** `submit_answer`: 404 for an unknown puzzle id, changing nothing;
        otherwise judge the answer, append one record carrying the puzzle's
        stored difficulty, apply the adaptive rule and remove the puzzle. */
    method SubmitAnswer(userId: string, puzzleId: string, userAnswer: int, responseTime: real)
      returns (r: Result<AnswerResponse, HttpError>)
      requires puzzleId in activePuzzles ==> userId in userSessions
      modifies this
      ensures puzzleId !in old(activePuzzles) ==>
        && r == Failure(HttpError(404, "Puzzle not found"))
        && userSessions == old(userSessions) && activePuzzles == old(activePuzzles)
      ensures puzzleId in old(activePuzzles) ==>
        var puzzle := old(activePuzzles)[puzzleId];
        var isCorrect := userAnswer == puzzle.correctAnswer;
        var after := Answer(old(userSessions)[userId], isCorrect, responseTime, puzzle.difficulty, FastThreshold);
        && userSessions == old(userSessions)[userId := after]
        && activePuzzles == old(activePuzzles) - {puzzleId}
        && r == Success(AnswerResponse(isCorrect, puzzle.correctAnswer, after.currentDifficulty, StatsOf(after)))
    {
      if puzzleId !in activePuzzles {
        return Failure(HttpError(404, "Puzzle not found"));
      }
      var puzzleData := activePuzzles[puzzleId];
      var correctAnswer := puzzleData.correctAnswer;
      var isCorrect := userAnswer == correctAnswer;

      var session := userSessions[userId];
      var entry := AnswerRecord(isCorrect, responseTime, puzzleData.difficulty);
      session := session.(performanceHistory := session.performanceHistory + [entry]);

      if isCorrect {
        session := session.(consecutiveCorrect := session.consecutiveCorrect + 1, consecutiveWrong := 0);
        if session.consecutiveCorrect >= 2 && responseTime < FastThreshold {
          var currentIndex := IndexOf(session.currentDifficulty);
          if currentIndex < |Levels| - 1 {
            session := session.(currentDifficulty := Levels[currentIndex + 1], consecutiveCorrect := 0);
          }
        }
      } else {
        session := session.(consecutiveWrong := session.consecutiveWrong + 1, consecutiveCorrect := 0);
        if session.consecutiveWrong >= 2 {
          var currentIndex := IndexOf(session.currentDifficulty);
          if currentIndex > 0 {
            session := session.(currentDifficulty := Levels[currentIndex - 1], consecutiveWrong := 0);
          }
        }
      }
      userSessions := userSessions[userId := session];

      var history := session.performanceHistory;
      var totalQuestions := |history|;
      var correctAnswers := CountCorrect(history);
      var accuracy := if totalQuestions > 0 then correctAnswers as real / totalQuestions as real else 0.0;

      activePuzzles := activePuzzles - {puzzleId};

      var stats := PerformanceStats(totalQuestions, correctAnswers, accuracy, session.currentDifficulty);
      r := Success(AnswerResponse(isCorrect, correctAnswer, session.currentDifficulty, stats));
    }

    /** `get_session_summary`: 404 for an unknown user, 400 for an empty history. */
    function GetSessionSummary(userId: string): (r: Result<SessionSummary, HttpError>)
      reads this
      ensures userId !in userSessions ==> r == Failure(HttpError(404, "Session not found"))
      ensures userId in userSessions ==> r == Summarize(userId, userSessions[userId])
    {
      if userId !in userSessions then Failure(HttpError(404, "Session not found"))
      else Summarize(userId, userSessions[userId])
    }
  }

  /** A puzzle id is claimed at most once: answering the same puzzle twice
      succeeds the first time and fails with 404 the second time. */
  method SecondSubmissionFails(userId: string, puzzleId: string, difficulty: Option<string>,
                               op: Op, a: int, b: int, redrawA: int, redrawB: int, answer1: int, answer2: int)
    returns (first: Result<AnswerResponse, HttpError>, second: Result<AnswerResponse, HttpError>)
    requires ApiDraws(RequestedDifficulty(difficulty), op, a, b, redrawA, redrawB)
    ensures first.Success?
    ensures second == Failure(HttpError(404, "Puzzle not found"))
  {
    var backend := new Backend();
    var started := backend.StartSession(userId);
    var issued := backend.GetPuzzle(userId, difficulty, puzzleId, op, a, b, redrawA, redrawB);
    first := backend.SubmitAnswer(userId, puzzleId, answer1, 1.0);
    second := backend.SubmitAnswer(userId, puzzleId, answer2, 1.0);
  }

  /** The two copies of the rule disagree on a correct answer given in 6
      seconds that completes a streak of two at MEDIUM: the engine holds the
      tier, this handler promotes to HARD. */
  lemma ThresholdsDisagree(history: seq<AnswerRecord<Difficulty>>, records: seq<AnswerRecord<string>>, recorded: string)
    ensures Answer(Session(MEDIUM, 1, 0, history), true, 6.0, MEDIUM, Engine.FastThreshold).currentDifficulty == MEDIUM
    ensures Answer(Session(MEDIUM, 1, 0, records), true, 6.0, recorded, FastThreshold).currentDifficulty == HARD
  {
  }

  /** The two generators disagree at HARD multiplication: every product this
      handler poses is larger than every product the generator class poses. */
  lemma HardProductsDisagree(a: int, b: int, redrawA: int, redrawB: int, x: int, y: int)
    requires ApiDraws("HARD", Mul, a, b, redrawA, redrawB)
    requires Generator.HardDraws(Mul, x, y)
    ensures Generator.GenerateHard(Mul, x, y).answer < MakePuzzle("HARD", Mul, a, b, redrawA, redrawB).answer
  {
  }

  /** The two generators disagree at EASY: this handler can pose 10 + 10, whose
      operands lie outside the generator class's range [1, 9]. */
  lemma EasyRangesDisagree()
    ensures ApiDraws("EASY", Add, 10, 10, 0, 0)
    ensures MakePuzzle("EASY", Add, 10, 10, 0, 0) == Puzzle(10, Add, 10, 20)
    ensures !Generator.Draws(EASY, Add, 10, 10)
  {
  }
}
