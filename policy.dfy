/** The adaptive rule shared, with different constants, by
    backend/adaptive_engine.py (`decide_next_difficulty`) and backend/main.py
    (`submit_answer`): a per-user state of a tier, a correct streak, a wrong
    streak and an append-only answer history. The type `D` is what a history
    record keeps as its difficulty: the engine records the session's tier, the
    HTTP handler the raw difficulty string stored with the puzzle. */
module Policy {
  import opened Tiers

  datatype AnswerRecord<D> = AnswerRecord(isCorrect: bool, responseTime: real, difficulty: D)

  datatype Session<D> = Session(
    currentDifficulty: Difficulty,
    consecutiveCorrect: nat,
    consecutiveWrong: nat,
    performanceHistory: seq<AnswerRecord<D>>)

  /** A freshly started session: the given tier, both streaks 0, no history. */
  function NewSession<D>(initial: Difficulty): (s: Session<D>)
    ensures s.currentDifficulty == initial
    ensures s.consecutiveCorrect == 0 && s.consecutiveWrong == 0 && s.performanceHistory == []
    ensures AtMostOneStreak(s)
  {
    Session(initial, 0, 0, [])
  }

  /** The streak invariant: at most one of the two streaks is nonzero. */
  predicate AtMostOneStreak<D>(s: Session<D>)
  {
    s.consecutiveCorrect == 0 || s.consecutiveWrong == 0
  }

  /** Whether a correct answer given in `responseTime` seconds promotes a session
      whose correct streak, counting this answer, is `streak`. */
  predicate Promotes(tier: Difficulty, streak: nat, responseTime: real, fastThreshold: real)
  {
    responseTime < fastThreshold && streak >= 2 && tier != HARD
  }

  /** Whether a wrong answer demotes a session whose wrong streak, counting this
      answer, is `streak`. */
  predicate Demotes(tier: Difficulty, streak: nat)
  {
    streak >= 2 && tier != EASY
  }

  /** One answer: update the streaks, append a record, then promote on a fast
      correct answer that completes a streak of two, or demote on a wrong
      answer that completes a streak of two. A streak is reset only when the
      tier actually changes. */
  function Answer<D>(s: Session<D>, isCorrect: bool, responseTime: real, recorded: D, fastThreshold: real): (r: Session<D>)
    ensures r.performanceHistory == s.performanceHistory + [AnswerRecord(isCorrect, responseTime, recorded)]
    ensures AtMostOneStreak(r)
    ensures isCorrect ==> r.consecutiveWrong == 0
    ensures !isCorrect ==> r.consecutiveCorrect == 0
    ensures || r.currentDifficulty == s.currentDifficulty
            || IndexOf(r.currentDifficulty) == IndexOf(s.currentDifficulty) + 1
            || IndexOf(r.currentDifficulty) + 1 == IndexOf(s.currentDifficulty)
  {
    var cc := if isCorrect then s.consecutiveCorrect + 1 else 0;
    var cw := if isCorrect then 0 else s.consecutiveWrong + 1;
    var history := s.performanceHistory + [AnswerRecord(isCorrect, responseTime, recorded)];
    if isCorrect && Promotes(s.currentDifficulty, cc, responseTime, fastThreshold) then
      Session(Harder(s.currentDifficulty), 0, cw, history)
    else if !isCorrect && Demotes(s.currentDifficulty, cw) then
      Session(Easier(s.currentDifficulty), cc, 0, history)
    else
      Session(s.currentDifficulty, cc, cw, history)
  }

  /** Promotion happens exactly on a fast correct answer that completes a
      correct streak of two below HARD; it raises the tier one step and resets
      the correct streak. */
  lemma PromotionIff<D>(s: Session<D>, isCorrect: bool, responseTime: real, recorded: D, fastThreshold: real)
    ensures var r := Answer(s, isCorrect, responseTime, recorded, fastThreshold);
      IndexOf(r.currentDifficulty) > IndexOf(s.currentDifficulty)
      <==> isCorrect && responseTime < fastThreshold && s.consecutiveCorrect + 1 >= 2 && s.currentDifficulty != HARD
    ensures var r := Answer(s, isCorrect, responseTime, recorded, fastThreshold);
      IndexOf(r.currentDifficulty) > IndexOf(s.currentDifficulty) ==>
        IndexOf(r.currentDifficulty) == IndexOf(s.currentDifficulty) + 1 && r.consecutiveCorrect == 0 && r.consecutiveWrong == 0
  {
  }

  /** Demotion happens exactly on a wrong answer that completes a wrong streak
      of two above EASY; it lowers the tier one step and resets the wrong streak. */
  lemma DemotionIff<D>(s: Session<D>, isCorrect: bool, responseTime: real, recorded: D, fastThreshold: real)
    ensures var r := Answer(s, isCorrect, responseTime, recorded, fastThreshold);
      IndexOf(r.currentDifficulty) < IndexOf(s.currentDifficulty)
      <==> !isCorrect && s.consecutiveWrong + 1 >= 2 && s.currentDifficulty != EASY
    ensures var r := Answer(s, isCorrect, responseTime, recorded, fastThreshold);
      IndexOf(r.currentDifficulty) < IndexOf(s.currentDifficulty) ==>
        IndexOf(r.currentDifficulty) + 1 == IndexOf(s.currentDifficulty) && r.consecutiveCorrect == 0 && r.consecutiveWrong == 0
  {
  }

  /** When the tier holds, the streak matching the outcome is incremented and
      the other is 0; in particular a qualifying correct answer at HARD keeps
      HARD and does not reset the correct streak. */
  lemma HoldKeepsStreak<D>(s: Session<D>, isCorrect: bool, responseTime: real, recorded: D, fastThreshold: real)
    ensures var r := Answer(s, isCorrect, responseTime, recorded, fastThreshold);
      r.currentDifficulty == s.currentDifficulty ==>
        if isCorrect then r.consecutiveCorrect == s.consecutiveCorrect + 1 && r.consecutiveWrong == 0
        else r.consecutiveWrong == s.consecutiveWrong + 1 && r.consecutiveCorrect == 0
    ensures s.currentDifficulty == HARD && isCorrect ==>
      var r := Answer(s, isCorrect, responseTime, recorded, fastThreshold);
      r.currentDifficulty == HARD && r.consecutiveCorrect == s.consecutiveCorrect + 1
  {
  }

  /** The first answer of a fresh session never changes its tier: both moves
      need a streak of two. */
  lemma FirstAnswerHolds<D>(initial: Difficulty, isCorrect: bool, responseTime: real, recorded: D, fastThreshold: real)
    ensures Answer(NewSession<D>(initial), isCorrect, responseTime, recorded, fastThreshold).currentDifficulty == initial
  {
  }

  /** One answer event as the caller supplies it. */
  datatype Event<D> = Event(isCorrect: bool, responseTime: real, recorded: D)

  /** A session after a sequence of answers, applied in order. */
  function Replay<D>(s: Session<D>, events: seq<Event<D>>, fastThreshold: real): Session<D>
    decreases |events|
  {
    if events == [] then s
    else
      var e := events[0];
      Replay(Answer(s, e.isCorrect, e.responseTime, e.recorded, fastThreshold), events[1..], fastThreshold)
  }

  /** The history only grows, by one record per answer, and earlier records
      are never changed. */
  lemma {:induction false} ReplayAppends<D>(s: Session<D>, events: seq<Event<D>>, fastThreshold: real)
    ensures var r := Replay(s, events, fastThreshold);
      |r.performanceHistory| == |s.performanceHistory| + |events| &&
      r.performanceHistory[..|s.performanceHistory|] == s.performanceHistory
    decreases |events|
  {
    if events != [] {
      var e := events[0];
      var s' := Answer(s, e.isCorrect, e.responseTime, e.recorded, fastThreshold);
      ReplayAppends(s', events[1..], fastThreshold);
      var r := Replay(s', events[1..], fastThreshold);
      assert r.performanceHistory[..|s.performanceHistory|] == r.performanceHistory[..|s'.performanceHistory|][..|s.performanceHistory|];
    }
  }

  /** Number of correct answers in a history. */
  function CountCorrect<D>(h: seq<AnswerRecord<D>>): (n: nat)
    ensures n <= |h|
    ensures n == 0 <== forall i :: 0 <= i < |h| ==> !h[i].isCorrect
  {
    if h == [] then 0
    else CountCorrect(h[..|h| - 1]) + (if h[|h| - 1].isCorrect then 1 else 0)
  }

  /** The response times of a history, in order. */
  function Times<D>(h: seq<AnswerRecord<D>>): (ts: seq<real>)
    ensures |ts| == |h| && forall i :: 0 <= i < |h| ==> ts[i] == h[i].responseTime
  {
    seq(|h|, i requires 0 <= i < |h| => h[i].responseTime)
  }

  /** The recorded difficulties of a history, in order. */
  function RecordedDifficulties<D>(h: seq<AnswerRecord<D>>): (ds: seq<D>)
    ensures |ds| == |h| && forall i :: 0 <= i < |h| ==> ds[i] == h[i].difficulty
  {
    seq(|h|, i requires 0 <= i < |h| => h[i].difficulty)
  }
}
