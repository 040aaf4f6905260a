/** The performance tracker of backend/tracker.py: per-user counters, a list
    of response times, a difficulty history and a running puzzle timer,
    updated in place. Clock readings (`time.time()`) are passed in as `now`. */
module Tracker {
  import opened Wrappers
  import opened Tiers
  import opened Summaries

  datatype TrackerSession = TrackerSession(
    startTime: real,
    puzzlesAttempted: nat,
    correctAnswers: nat,
    responseTimes: seq<real>,
    difficultyHistory: seq<Difficulty>,
    currentPuzzleStart: Option<real>)

  /** What the counters of a session always satisfy. */
  predicate Consistent(s: TrackerSession)
  {
    && s.correctAnswers <= s.puzzlesAttempted
    && |s.difficultyHistory| == s.puzzlesAttempted + 1
    && |s.responseTimes| <= s.puzzlesAttempted
  }

  /** `if session['current_puzzle_start']:` is a truth test, so a missing start
      and a start reading of exactly 0.0 both count as no running timer. */
  predicate TimerRunning(s: TrackerSession)
  {
    s.currentPuzzleStart.Some? && s.currentPuzzleStart.value != 0.0
  }

  /** A new session: no attempts, no times, the initial tier as the whole
      difficulty history and no timer. */
  function Started(initialDifficulty: Difficulty, now: real): (s: TrackerSession)
    ensures Consistent(s)
    ensures s.puzzlesAttempted == 0 && s.correctAnswers == 0 && s.responseTimes == []
    ensures s.difficultyHistory == [initialDifficulty] && !TimerRunning(s)
  {
    TrackerSession(now, 0, 0, [], [initialDifficulty], None)
  }

  /** The response time `record_answer` measures: the time since the timer
      started, or 0 when no timer is running. */
  function Elapsed(s: TrackerSession, now: real): (r: real)
    ensures !TimerRunning(s) ==> r == 0.0
    ensures TimerRunning(s) ==> s.currentPuzzleStart.value + r == now
  {
    if TimerRunning(s) then now - s.currentPuzzleStart.value else 0.0
  }

  /** The session after `record_answer`: one more attempt, one more correct
      answer exactly when the answer is correct, the difficulty appended, a
      response time appended exactly when a timer was running, the timer
      cleared. */
  function AfterAnswer(s: TrackerSession, isCorrect: bool, difficulty: Difficulty, now: real): (r: TrackerSession)
    ensures r.puzzlesAttempted == s.puzzlesAttempted + 1
    ensures r.correctAnswers == s.correctAnswers + (if isCorrect then 1 else 0)
    ensures r.difficultyHistory == s.difficultyHistory + [difficulty]
    ensures TimerRunning(s) ==> r.responseTimes == s.responseTimes + [now - s.currentPuzzleStart.value]
    ensures !TimerRunning(s) ==> r.responseTimes == s.responseTimes
    ensures r.currentPuzzleStart == None && r.startTime == s.startTime
    ensures Consistent(s) ==> Consistent(r)
  {
    var times := if TimerRunning(s) then s.responseTimes + [Elapsed(s, now)] else s.responseTimes;
    s.(responseTimes := times,
       puzzlesAttempted := s.puzzlesAttempted + 1,
       difficultyHistory := s.difficultyHistory + [difficulty],
       correctAnswers := if isCorrect then s.correctAnswers + 1 else s.correctAnswers,
       currentPuzzleStart := None)
  }

  /** What `get_session_summary` returns for a known user. */
  datatype TrackerSummary = TrackerSummary(
    totalQuestions: nat,
    correctAnswers: nat,
    accuracy: real,
    averageResponseTime: real,
    difficultyHistory: seq<Difficulty>,
    recommendation: string)

  /** The summary of one session: accuracy 0 without attempts, average 0
      without response times, and the recommendation by the 0.8 and 0.6
      thresholds. */
  function Summarize(s: TrackerSession): (r: TrackerSummary)
    ensures r.totalQuestions == s.puzzlesAttempted && r.correctAnswers == s.correctAnswers
    ensures s.puzzlesAttempted == 0 ==> r.accuracy == 0.0
    ensures s.puzzlesAttempted > 0 ==> r.accuracy * s.puzzlesAttempted as real == s.correctAnswers as real
    ensures Consistent(s) ==> 0.0 <= r.accuracy <= 1.0
    ensures s.responseTimes == [] ==> r.averageResponseTime == 0.0
    ensures s.responseTimes != [] ==> r.averageResponseTime * |s.responseTimes| as real == Sum(s.responseTimes)
    ensures r.difficultyHistory == s.difficultyHistory
    ensures r.recommendation == Message(Recommend(r.accuracy))
  {
    var accuracy := Accuracy(s.correctAnswers, s.puzzlesAttempted);
    TrackerSummary(s.puzzlesAttempted, s.correctAnswers, accuracy, Mean(s.responseTimes),
                   s.difficultyHistory, Message(Recommend(accuracy)))
  }

  class PerformanceTracker {
    var userSessions: map<string, TrackerSession>

    ghost predicate Valid()
      reads this
    {
      forall u :: u in userSessions ==> Consistent(userSessions[u])
    }

    constructor()
      ensures Valid() && userSessions == map[]
    {
      userSessions := map[];
    }

    /** `start_session`: (re)start a user's tracking at the given tier. */
    method StartSession(userId: string, initialDifficulty: Difficulty, now: real)
      requires Valid()
      modifies this
      ensures Valid()
      ensures userSessions == old(userSessions)[userId := Started(initialDifficulty, now)]
    {
      userSessions := userSessions[userId := TrackerSession(now, 0, 0, [], [initialDifficulty], None)];
    }

    /** `start_puzzle_timer`: set the timer of a known user; nothing otherwise. */
    method StartPuzzleTimer(userId: string, now: real)
      requires Valid()
      modifies this
      ensures Valid()
      ensures userId !in old(userSessions) ==> userSessions == old(userSessions)
      ensures userId in old(userSessions) ==>
        userSessions == old(userSessions)[userId := old(userSessions)[userId].(currentPuzzleStart := Some(now))]
    {
      if userId in userSessions {
        var session := userSessions[userId];
        userSessions := userSessions[userId := session.(currentPuzzleStart := Some(now))];
      }
    }

    /** `record_answer`: count the answer of a known user and return its
        response time; 0 and nothing changed for an unknown user. */
    method RecordAnswer(userId: string, isCorrect: bool, difficulty: Difficulty, now: real) returns (responseTime: real)
      requires Valid()
      modifies this
      ensures Valid()
      ensures userId !in old(userSessions) ==> responseTime == 0.0 && userSessions == old(userSessions)
      ensures userId in old(userSessions) ==>
        var before := old(userSessions)[userId];
        && userSessions == old(userSessions)[userId := AfterAnswer(before, isCorrect, difficulty, now)]
        && responseTime == Elapsed(before, now)
    {
      if userId !in userSessions {
        return 0.0;
      }
      var session := userSessions[userId];
      responseTime := 0.0;

      if session.currentPuzzleStart.Some? && session.currentPuzzleStart.value != 0.0 {
        responseTime := now - session.currentPuzzleStart.value;
        session := session.(responseTimes := session.responseTimes + [responseTime]);
      }

      session := session.(puzzlesAttempted := session.puzzlesAttempted + 1);
      session := session.(difficultyHistory := session.difficultyHistory + [difficulty]);

      if isCorrect {
        session := session.(correctAnswers := session.correctAnswers + 1);
      }

      session := session.(currentPuzzleStart := None);
      userSessions := userSessions[userId := session];
    }

    /** `get_session_summary`: nothing (the empty dict) for an unknown user. */
    function GetSessionSummary(userId: string): (r: Option<TrackerSummary>)
      reads this
      ensures userId !in userSessions ==> r.None?
      ensures userId in userSessions ==> r == Some(Summarize(userSessions[userId]))
    {
      if userId !in userSessions then None else Some(Summarize(userSessions[userId]))
    }
  }

  /** A timed answer: starting the timer and then recording the answer stores
      exactly one new response time, `now - start`. */
  method TimedAnswerStoresOneTime(start: real, now: real) returns (stored: seq<real>, responseTime: real)
    requires start != 0.0
    ensures stored == [now - start] && responseTime == now - start
  {
    var tracker := new PerformanceTracker();
    tracker.StartSession("learner", MEDIUM, start);
    tracker.StartPuzzleTimer("learner", start);
    responseTime := tracker.RecordAnswer("learner", true, MEDIUM, now);
    stored := tracker.userSessions["learner"].responseTimes;
  }
}
