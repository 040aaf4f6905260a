# Adaptive arithmetic practice: a Dafny model of the backend's decision logic

The backend of this arithmetic-practice service poses puzzles at three tiers,
EASY < MEDIUM < HARD. It moves each learner between tiers from their recent
answers and summarises their progress. This project models its three pieces of
decision logic and proves what they promise:

- **The adaptive difficulty controller.** Each user has a tier, a correct
  streak, a wrong streak and an append-only history of answer records. An
  answer updates the streaks and appends one record. Then a fast correct answer
  that completes a correct streak of two promotes by one tier, and a wrong
  answer that completes a wrong streak of two demotes by one tier. The rule
  exists twice in the source, and the two copies differ:
  - `AdaptiveEngine` in `backend/adaptive_engine.py`: fast means under 5
    seconds; an unknown user is created at MEDIUM; a record keeps the
    session's tier.
  - The `/submit-answer` handler in `backend/main.py`: fast means under 8
    seconds; a record keeps the difficulty string stored with the puzzle.

  The model states the rule once, as `Policy.Answer`, with the threshold as a
  parameter and the recorded difficulty's type as a type parameter. Each copy
  is a class method proved equal to it.
- **The puzzle generators.** Each tier has its own operand ranges and
  operations. The random draws are parameters, and their ranges are
  preconditions. Every generated answer is proved to be the exact value of the
  displayed question. Subtraction is proved never negative, and division is
  proved exact. There are two copies here too, with different ranges:
  - `PuzzleGenerator` in `backend/puzzle_generator.py`: EASY operands in
    [1, 9]; HARD multiplication in [5, 20].
  - `get_puzzle` in `backend/main.py`: EASY operands in [1, 10]; HARD
    multiplication reuses the [50, 100] addition operands.
- **Session bookkeeping and summaries.** `PerformanceTracker`
  (`backend/tracker.py`) keeps attempt and correct-answer counters, a list of
  response times, a difficulty history and a puzzle timer. `backend/main.py`
  keeps two stores: `user_sessions` and `active_puzzles`. A puzzle is removed
  when it is answered, so it can be answered at most once. Every summary
  computes accuracy, a mean response time and a recommendation chosen by the
  thresholds 0.8 and 0.6. These thresholds are proved equivalent to the
  integer inequalities 5·correct > 4·total and 5·correct > 3·total, so 4 of 5
  correct gives "Good progress".

Modules, one per source file or shared concern:

| module | file | models |
|---|---|---|
| `Wrappers` | wrappers.dfy | `Option` (an empty dict result) and `Result` (an HTTP error) |
| `Tiers` | tiers.dfy | the `Difficulty` enum of `backend/models.py` and the ordered list of tiers |
| `Puzzles` | puzzles.dfy | a puzzle as `(a, op, b, answer)`, what it means to solve it, and the `max`/`min` reordering |
| `Generator` | generator.dfy | `backend/puzzle_generator.py` (pure functions) |
| `Summaries` | summaries.dfy | accuracy, mean, and the recommendation |
| `Policy` | policy.dfy | the shared adaptive rule and its properties, over a generic session record |
| `Engine` | engine.dfy | `backend/adaptive_engine.py` (a class over `map<string, Session<Difficulty>>`) |
| `Tracker` | tracker.dfy | `backend/tracker.py` (a class over `map<string, TrackerSession>`) |
| `Service` | service.dfy | `backend/main.py` (a class over the two stores, plus its pure puzzle and summary code) |

Where the source mutates a dict in place, the model has a class whose `map`
field the method reassigns. Each such method's `ensures` gives the new store in
terms of the old store and a pure function: `Policy.Answer`,
`Tracker.AfterAnswer`, `Service.MakePuzzle`. Those functions are what the
lemmas speak about. `Policy.Answer` itself guarantees that at most one streak
is nonzero after every answer, so the engine and the handler need no separate
invariant. The tracker has a `Valid()` invariant that its methods preserve:
correct ≤ attempted, the difficulty history's length = attempted + 1, and the
number of response times ≤ attempted.

Behaviour of the code worth knowing, which the model reproduces:

- `decide_next_difficulty` creates a MEDIUM session for an unknown user
  (backend/adaptive_engine.py:18-19) and never fails.
- tracker.py's `get_session_summary` averages only the measured response times
  (answers recorded while a timer was running) and returns accuracy 0 without
  attempts (backend/tracker.py:55-56); it never fails for a known user.
- `main.py` records the puzzle's requested difficulty string, which need not
  name a tier. So that copy's history holds strings (`Session<string>`). Any
  string other than "EASY" or "MEDIUM" selects the HARD rules
  (`Service.RulesFor`).
- The timer test in `tracker.py` is a Python truth test. A stored start of
  exactly 0.0 therefore counts as "no timer running" (`Tracker.TimerRunning`).

## Model

| member | source | states |
|---|---|---|
| Tiers.IndexOf | backend/adaptive_engine.py:40-41 | the index of a tier in `[EASY, MEDIUM, HARD]` is in range and names that tier |
| Tiers.Harder | backend/adaptive_engine.py:47-48 | promotion goes to the next index, defined only below HARD |
| Tiers.Easier | backend/adaptive_engine.py:55-56 | demotion goes to the previous index, defined only above EASY |
| Puzzles.Ordered | backend/puzzle_generator.py:33 | the reordered subtraction operands are the same two numbers, larger first |
| Puzzles.ExactQuotient | backend/puzzle_generator.py:81-83 | a dividend built as divisor × quotient leaves remainder 0 and divides back to the quotient |
| Puzzles.DivisionIsExact | backend/puzzle_generator.py:80-84 | a division puzzle that solves exactly has `a % b == 0` and `a / b == answer` |
| Generator.GenerateEasy | backend/puzzle_generator.py:22-37 | EASY operands in [1, 9]; addition answers in [2, 18]; subtraction answers in [0, 8] with minuend ≥ subtrahend; the answer solves the displayed question |
| Generator.GenerateMedium | backend/puzzle_generator.py:39-59 | add/subtract operands in [10, 50]; subtraction reordered and ≥ 0; multiply operands in [2, 12] with answer in [4, 144]; never division; the answer solves the question |
| Generator.GenerateHard | backend/puzzle_generator.py:61-86 | add/subtract in [50, 100]; multiply in [5, 20] with answer in [25, 400]; divisor and quotient in [2, 12], dividend = divisor × answer, exact with no remainder; the answer solves the question |
| Generator.GeneratePuzzle | backend/puzzle_generator.py:9-20 | dispatches EASY, MEDIUM and HARD to their own rules; the answer solves the displayed question |
| Generator.GeneratedOperations | backend/puzzle_generator.py:22-86 | division only at HARD, multiplication never at EASY, subtraction never negative, division exact |
| Summaries.Accuracy | backend/tracker.py:55 | accuracy is 0 without attempts; otherwise accuracy × total = correct; it lies in [0, 1] when correct ≤ total |
| Summaries.Mean | backend/tracker.py:56 | the mean is 0 for no times; otherwise mean × count = sum |
| Summaries.SumBounds | backend/main.py:195 | times all in [lo, hi] put their sum in [lo·n, hi·n] (by induction) |
| Summaries.MeanBounds | backend/main.py:195 | the mean of times all in [lo, hi] lies in [lo, hi] |
| Summaries.RecommendByCounts | backend/tracker.py:59-64 | "Excellent" iff 5·correct > 4·total; "Good progress" iff 3·total < 5·correct ≤ 4·total; "fundamentals" iff 5·correct ≤ 3·total |
| Summaries.Sum | backend/tracker.py:56 | the sum of the response times (also adaptive_engine.py:78 and main.py:195); non-negative times give a non-negative sum (by induction) |
| Summaries.Recommend | backend/tracker.py:59-64 | "Excellent" iff accuracy > 0.8, "Good progress" iff 0.6 < accuracy ≤ 0.8, "fundamentals" iff accuracy ≤ 0.6 (the same chain is main.py:198-203) |
| Summaries.Message | backend/tracker.py:60-64 | each recommendation's text opens with its own headline ("Excellent!", "Good progress!", "Consider"), and each headline identifies its recommendation, so the three texts are distinct |
| Summaries.FourOfFiveIsGoodProgress | backend/main.py:198-203 | 4 correct of 5 gives "Good progress": the 0.8 bound is exclusive |
| Policy.NewSession | backend/adaptive_engine.py:9-14 | a new session has the given tier, both streaks 0 and an empty history (also main.py:31-36) |
| Policy.Answer | backend/adaptive_engine.py:24-62 | one answer appends exactly one record after the unchanged history; the streak of the other outcome becomes 0; at most one streak is nonzero; the tier moves at most one step |
| Policy.PromotionIff | backend/adaptive_engine.py:44-51 | the tier rises iff the answer is correct, faster than the threshold, completes a correct streak of two, and the tier is not HARD; it then rises by exactly one and both streaks are 0 |
| Policy.DemotionIff | backend/adaptive_engine.py:52-59 | the tier falls iff the answer is wrong, completes a wrong streak of two, and the tier is not EASY; it then falls by exactly one and both streaks are 0 |
| Policy.HoldKeepsStreak | backend/adaptive_engine.py:44-62 | when the tier holds, the matching streak is incremented and the other is 0; at HARD a correct answer keeps HARD and does not reset the correct streak |
| Policy.FirstAnswerHolds | backend/adaptive_engine.py:7-14 | the first answer after a fresh session never changes the tier |
| Policy.ReplayAppends | backend/adaptive_engine.py:33-37 | after n answers the history has grown by exactly n records and its earlier records are unchanged (by induction) |
| Policy.CountCorrect | backend/adaptive_engine.py:76 | the number of correct answers is at most the history's length, and 0 when no answer is correct |
| Policy.Times | backend/adaptive_engine.py:78 | the response times of the history, one per record, in order |
| Policy.RecordedDifficulties | backend/adaptive_engine.py:86 | the recorded difficulties of the history, one per record, in order |
| Engine.StatsOf | backend/adaptive_engine.py:69-87 | empty for an empty history; otherwise total = the history's length, correct = the correct answers ≤ total, the accuracy and mean response time of those counts and times, the current tier, and the recorded tiers in order |
| Engine.StatsMeaning | backend/adaptive_engine.py:76-78 | for a non-empty history, accuracy × total = correct with accuracy in [0, 1], and average × total = the sum of the response times |
| Engine.SessionOrNew | backend/adaptive_engine.py:18-21 | an unknown user gets a MEDIUM session with zero streaks and no history; a known user gets the stored session |
| Engine.AdaptiveEngine.constructor | backend/adaptive_engine.py:4-5 | the store starts empty |
| Engine.AdaptiveEngine.InitializeUserSession | backend/adaptive_engine.py:7-14 | stores a session with the given tier (MEDIUM when the argument is omitted), zero streaks and an empty history; other users unchanged |
| Engine.AdaptiveEngine.DecideNextDifficulty | backend/adaptive_engine.py:16-62 | the user's session (created at MEDIUM if unknown) becomes `Answer` of it with threshold 5 and the pre-transition tier recorded; other users unchanged; the returned tier is the stored one |
| Engine.AdaptiveEngine.GetUserStats | backend/adaptive_engine.py:64-87 | empty for an unknown user; otherwise the statistics of the stored session |
| Engine.TwoFastCorrectAnswersPromote | backend/adaptive_engine.py:44-51 | from MEDIUM, two correct answers in 2 s each give HARD with the correct streak reset to 0 |
| Engine.TwoWrongAnswersDemote | backend/adaptive_engine.py:52-59 | from MEDIUM, two wrong answers give EASY with the wrong streak reset to 0 |
| Engine.UnknownUserStartsAtMedium | backend/adaptive_engine.py:18-19 | an unknown user's first answer leaves them at MEDIUM with one record |
| Tracker.Started | backend/tracker.py:9-18 | a new tracking session has 0 attempts, 0 correct, no times, `[initial]` as its difficulty history and no timer, and is consistent |
| Tracker.TimerRunning | backend/tracker.py:33 | a timer runs when a start is stored and it is not 0.0 (the Python truth test) |
| Tracker.Elapsed | backend/tracker.py:31-34 | 0 without a running timer; otherwise the time since the stored start |
| Tracker.AfterAnswer | backend/tracker.py:25-44 | exactly one more attempt; one more correct answer iff correct; the difficulty appended; a time appended iff a timer was running; the timer cleared; consistency preserved |
| Tracker.Summarize | backend/tracker.py:51-73 | accuracy is 0 without attempts, otherwise accuracy × attempts = correct, and in [0, 1]; the average is 0 without times, otherwise their mean; the history is returned; the recommendation follows the accuracy |
| Tracker.PerformanceTracker.constructor | backend/tracker.py:6-7 | the store starts empty |
| Tracker.PerformanceTracker.StartSession | backend/tracker.py:9-18 | stores a started session for the user; others unchanged |
| Tracker.PerformanceTracker.StartPuzzleTimer | backend/tracker.py:20-23 | sets only the timer of a known user; does nothing for an unknown user |
| Tracker.PerformanceTracker.RecordAnswer | backend/tracker.py:25-44 | returns 0 and changes nothing for an unknown user; otherwise stores `AfterAnswer` and returns the elapsed time, or 0 without a timer |
| Tracker.PerformanceTracker.GetSessionSummary | backend/tracker.py:46-73 | empty for an unknown user; otherwise the summary of the stored session |
| Tracker.TimedAnswerStoresOneTime | backend/tracker.py:33-35 | starting the timer and then answering stores exactly one response time, `now - start` |
| Service.RequestedDifficulty | backend/main.py:48 | a request without a difficulty gets the MEDIUM rules; otherwise the requested string is used as given |
| Service.RulesFor | backend/main.py:54-79 | "EASY" and "MEDIUM" select their own rules; every other string selects HARD |
| Service.RulesForName | backend/main.py:54-79 | each tier's own name selects that tier's rules |
| Service.MakePuzzle | backend/main.py:53-96 | EASY operands in [1, 10]; MEDIUM multiplication redraws factors in [2, 12]; HARD multiplication uses the [50, 100] operands (answer in [2500, 10000]); subtraction ≥ 0; division exact; the answer solves the question |
| Service.StatsOf | backend/main.py:159-163 | total = the history's length, correct ≤ total, accuracy 0 when total is 0 and otherwise accuracy × total = correct, and the current tier |
| Service.SummaryOf | backend/main.py:192-213 | counts, accuracy, mean response time, recorded difficulties in order, and the recommendation as the integer inequalities 5·correct > 4·total and > 3·total |
| Service.Summarize | backend/main.py:186-190 | 400 "No performance data available" iff the history is empty |
| Service.Backend.constructor | backend/main.py:18-20 | both stores start empty |
| Service.Backend.StartSession | backend/main.py:27-42 | stores a session with the requested tier (MEDIUM when none is requested), zero streaks and an empty history; the puzzle store is unchanged |
| Service.Backend.GetPuzzle | backend/main.py:44-110 | 404 and no change for an unknown user; otherwise the computed puzzle is stored under its id with its answer, owner and requested difficulty (default "MEDIUM") |
| Service.Backend.SubmitAnswer | backend/main.py:112-178 | 404 and no change for an unknown puzzle id; otherwise the user's session becomes `Answer` of it with threshold 8 and the puzzle's stored difficulty recorded, the puzzle is removed, and the response reports the correctness, the answer, the new tier and the stats |
| Service.Backend.GetSessionSummary | backend/main.py:180-213 | 404 for an unknown user; otherwise the summary of the stored session |
| Service.SecondSubmissionFails | backend/main.py:120-121 | answering the same puzzle id twice succeeds once and then fails with 404 |
| Service.ThresholdsDisagree | backend/main.py:141 | a correct answer in 6 s that completes a streak at MEDIUM is held by the engine copy and promoted by this copy |
| Service.HardProductsDisagree | backend/main.py:89-91 | every HARD product `get_puzzle` poses exceeds every HARD product of the generator class |
| Service.EasyRangesDisagree | backend/main.py:55 | `get_puzzle` can pose 10 + 10 at EASY, whose operands are outside the generator class's [1, 9] |

## Left out

- Ids drawn with `uuid.uuid4()` (a user id, a puzzle id) are parameters. The
  handlers store them as given and, like the source, overwrite an entry on a
  collision.
- Generator.GeneratePuzzle: the puzzle id that `generate_puzzle` draws and
  returns with the question is not modelled. It is random and never inspected.
- `random.randint` and `random.choice` are parameters whose ranges are
  preconditions. Which values are drawn, and how often, is not modelled.
- `time.time()` is the `now` parameter. The session start time is stored but
  never read.
- Question text, including the `×` and `÷` signs, is represented by the
  structured triple `(a, op, b)`.
- Service.Backend.SubmitAnswer: the user's answer is an integer, and
  correctness is exact equality. The source compares floats with a tolerance
  of 0.001, which gives the same verdict for integer answers.
- Service.Backend.SubmitAnswer: a request without `response_time` defaults to
  0 in the source; here the caller always supplies it.
- Service.Backend.SubmitAnswer: a submission whose user has no session raises
  an unhandled `KeyError` in the source. Here that is a precondition. Like the
  source, the model never checks that the submitting user owns the puzzle.
- Request fields of the wrong JSON type (a numeric difficulty, a missing
  answer) are not modelled: the difficulty is an optional string and the
  answer an integer.
- Response times, averages and accuracy are `real`, not binary floating point.
- FastAPI app construction, CORS, the `/health` endpoint, the server start-up
  and the Streamlit front end are transport and presentation, not decision
  logic.
- Concurrency: every call is treated as sequential, as the source has no
  locking.
