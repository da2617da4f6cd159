/** The safety quiz a new mentor takes after applying. */
module SafetyQuiz {
  import opened Models

  /** The questions and their correct answers, in the order they are checked. */
  const AnswerKey: seq<(string, string)> := [("q1", "b"), ("q2", "a"), ("q3", "c")]

  /** The submitted form answered question `q` with `a`; a question left out matches nothing. */
  predicate Answered(answers: map<string, string>, q: string, a: string)
  {
    q in answers && answers[q] == a
  }

  /** The number of entries of `key` the answers match. */
  function Score(answers: map<string, string>, key: seq<(string, string)>): nat
  {
    if key == [] then 0
    else Score(answers, key[..|key| - 1]) + (if Answered(answers, key[|key| - 1].0, key[|key| - 1].1) then 1 else 0)
  }

  /** The score never exceeds the number of questions, and reaches it exactly when every answer is right. */
  lemma {:induction false} ScoreFull(answers: map<string, string>, key: seq<(string, string)>)
    ensures Score(answers, key) <= |key|
    ensures Score(answers, key) == |key| <==> forall i :: 0 <= i < |key| ==> Answered(answers, key[i].0, key[i].1)
  {
    if key != [] {
      var init := key[..|key| - 1];
      ScoreFull(answers, init);
      assert forall i :: 0 <= i < |init| ==> init[i] == key[i];
    }
  }

  /** Counts the right answers one question at a time; passing takes all three. */
  method ScoreQuiz(answers: map<string, string>) returns (score: nat, passed: bool)
    ensures score == Score(answers, AnswerKey) && score <= 3
    ensures passed <==> forall i :: 0 <= i < |AnswerKey| ==> Answered(answers, AnswerKey[i].0, AnswerKey[i].1)
  {
    score := 0;
    var i := 0;
    while i < |AnswerKey|
      invariant 0 <= i <= |AnswerKey|
      invariant score == Score(answers, AnswerKey[..i])
    {
      assert AnswerKey[..i + 1][..i] == AnswerKey[..i];
      if AnswerKey[i].0 in answers && answers[AnswerKey[i].0] == AnswerKey[i].1 {
        score := score + 1;
      }
      i := i + 1;
    }
    assert AnswerKey[..i] == AnswerKey;
    ScoreFull(answers, AnswerKey);
    passed := score == |AnswerKey|;
  }

  /**
   * A mentor's quiz submission: a mentor who already passed keeps the
   * record as it is; otherwise the result of this attempt is recorded.
   */
  method TakeSafetyQuiz(mentor: Mentor, answers: map<string, string>) returns (updated: Mentor)
    ensures mentor.passedSafetyQuiz ==> updated == mentor
    ensures !mentor.passedSafetyQuiz ==> updated == mentor.(passedSafetyQuiz := updated.passedSafetyQuiz)
    ensures updated.passedSafetyQuiz <==>
      mentor.passedSafetyQuiz || forall i :: 0 <= i < |AnswerKey| ==> Answered(answers, AnswerKey[i].0, AnswerKey[i].1)
  {
    if mentor.passedSafetyQuiz {
      return mentor;
    }
    var score, passed := ScoreQuiz(answers);
    updated := mentor.(passedSafetyQuiz := passed);
  }
}
