/** The adaptive engine of backend/adaptive_engine.py: a store of per-user
    sessions that `decide_next_difficulty` updates in place, using the fast
    answer threshold of 5 seconds and creating a MEDIUM session for an
    unknown user. */
module Engine {
  import opened Wrappers
  import opened Tiers
  import opened Policy
  import opened Summaries

  /** Correct answers faster than this many seconds can promote. */
  const FastThreshold: real := 5.0

  /** What `get_user_stats` returns for a user with at least one answer. */
  datatype UserStats = UserStats(
    totalQuestions: nat,
    correctAnswers: nat,
    accuracy: real,
    averageResponseTime: real,
    currentDifficulty: Difficulty,
    difficultyHistory: seq<Difficulty>)

  /** The statistics of one session; none (the empty dict) while its history is empty. */
  function StatsOf(s: Session<Difficulty>): (r: Option<UserStats>)
    ensures r.None? <==> s.performanceHistory == []
    ensures r.Some? ==>
      var h := s.performanceHistory;
      && r.value.totalQuestions == |h|
      && r.value.correctAnswers == CountCorrect(h) <= r.value.totalQuestions
      && r.value.accuracy == Accuracy(r.value.correctAnswers, r.value.totalQuestions)
      && r.value.averageResponseTime == Mean(Times(h))
      && r.value.currentDifficulty == s.currentDifficulty
      && |r.value.difficultyHistory| == |h|
      && (forall i :: 0 <= i < |h| ==> r.value.difficultyHistory[i] == h[i].difficulty)
  {
    var h := s.performanceHistory;
    if h == [] then None
    else
      var total := |h|;
      var correct := CountCorrect(h);
      Some(UserStats(total, correct, Accuracy(correct, total), Mean(Times(h)), s.currentDifficulty, RecordedDifficulties(h)))
  }

  /** What the statistics mean: accuracy is the fraction of correct answers
      and lies in [0, 1], and the average response time is the mean of the
      recorded times. */
  lemma StatsMeaning(s: Session<Difficulty>)
    requires s.performanceHistory != []
    ensures var st := StatsOf(s).value;
      && st.accuracy * st.totalQuestions as real == st.correctAnswers as real
      && 0.0 <= st.accuracy <= 1.0
      && st.averageResponseTime * st.totalQuestions as real == Sum(Times(s.performanceHistory))
  {
    var st := StatsOf(s).value;
    assert |Times(s.performanceHistory)| == st.totalQuestions;
  }

  /** The session `decide_next_difficulty` works on: the stored one, or a new
      MEDIUM session for an unknown user. */
  function SessionOrNew(sessions: map<string, Session<Difficulty>>, userId: string): (s: Session<Difficulty>)
    ensures userId !in sessions ==>
      s.currentDifficulty == MEDIUM && s.consecutiveCorrect == 0 && s.consecutiveWrong == 0 && s.performanceHistory == []
    ensures userId in sessions ==> s == sessions[userId]
  {
    if userId in sessions then sessions[userId] else NewSession(MEDIUM)
  }

  class AdaptiveEngine {
    var userSessions: map<string, Session<Difficulty>>

    constructor()
      ensures userSessions == map[]
    {
      userSessions := map[];
    }

    /** `initialize_user_session`: (re)start a user at the given tier, MEDIUM
        when none is given. */
    method InitializeUserSession(userId: string, initialDifficulty: Difficulty := MEDIUM)
      modifies this
      ensures userSessions == old(userSessions)[userId := NewSession(initialDifficulty)]
    {
      userSessions := userSessions[userId := Session(initialDifficulty, 0, 0, [])];
    }

    /** `decide_next_difficulty`: record one answer and return the tier for the
        next puzzle, which is also the stored tier. */
    method DecideNextDifficulty(userId: string, isCorrect: bool, responseTime: real) returns (next: Difficulty)
      modifies this
      ensures var before := SessionOrNew(old(userSessions), userId);
        var after := Answer(before, isCorrect, responseTime, before.currentDifficulty, FastThreshold);
        userSessions == old(userSessions)[userId := after] && next == after.currentDifficulty
    {
      if userId !in userSessions {
        InitializeUserSession(userId);
      }
      var session := userSessions[userId];
      var currentDifficulty := session.currentDifficulty;

      if isCorrect {
        session := session.(consecutiveCorrect := session.consecutiveCorrect + 1, consecutiveWrong := 0);
      } else {
        session := session.(consecutiveWrong := session.consecutiveWrong + 1, consecutiveCorrect := 0);
      }

      var entry := AnswerRecord(isCorrect, responseTime, currentDifficulty);
      session := session.(performanceHistory := session.performanceHistory + [entry]);

      var currentIndex := IndexOf(currentDifficulty);
      if isCorrect {
        if responseTime < FastThreshold && session.consecutiveCorrect >= 2 {
          if currentIndex < |Levels| - 1 {
            next := Levels[currentIndex + 1];
            session := session.(consecutiveCorrect := 0, currentDifficulty := next);
            userSessions := userSessions[userId := session];
            return;
          }
        }
      } else {
        if session.consecutiveWrong >= 2 {
          if currentIndex > 0 {
            next := Levels[currentIndex - 1];
            session := session.(consecutiveWrong := 0, currentDifficulty := next);
            userSessions := userSessions[userId := session];
            return;
          }
        }
      }
      userSessions := userSessions[userId := session];
      next := currentDifficulty;
    }

    /** `get_user_stats`: nothing for an unknown user or an empty history. */
    function GetUserStats(userId: string): (r: Option<UserStats>)
      reads this
      ensures userId !in userSessions ==> r.None?
      ensures userId in userSessions ==> r == StatsOf(userSessions[userId])
    {
      if userId !in userSessions then None else StatsOf(userSessions[userId])
    }
  }

  /** A user who starts at MEDIUM and answers two puzzles correctly in 2 seconds
      each reaches HARD with the correct streak reset. */
  method TwoFastCorrectAnswersPromote() returns (tier: Difficulty, streak: nat)
    ensures tier == HARD && streak == 0
  {
    var engine := new AdaptiveEngine();
    engine.InitializeUserSession("learner", MEDIUM);
    tier := engine.DecideNextDifficulty("learner", true, 2.0);
    assert tier == MEDIUM;
    tier := engine.DecideNextDifficulty("learner", true, 2.0);
    streak := engine.userSessions["learner"].consecutiveCorrect;
  }

  /** A user who starts at MEDIUM and answers two puzzles wrongly reaches EASY
      with the wrong streak reset. */
  method TwoWrongAnswersDemote() returns (tier: Difficulty, streak: nat)
    ensures tier == EASY && streak == 0
  {
    var engine := new AdaptiveEngine();
    engine.InitializeUserSession("learner", MEDIUM);
    tier := engine.DecideNextDifficulty("learner", false, 2.0);
    tier := engine.DecideNextDifficulty("learner", false, 2.0);
    streak := engine.userSessions["learner"].consecutiveWrong;
  }

  /** An unknown user is first created at MEDIUM, so their first answer, right
      or wrong, leaves them at MEDIUM with a one-record history. */
  method UnknownUserStartsAtMedium(isCorrect: bool, responseTime: real) returns (tier: Difficulty, records: nat)
    ensures tier == MEDIUM && records == 1
  {
    var engine := new AdaptiveEngine();
    tier := engine.DecideNextDifficulty("newcomer", isCorrect, responseTime);
    records := |engine.userSessions["newcomer"].performanceHistory|;
  }
}
