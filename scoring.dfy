/** Scoring of one answer and of a day's answers (App.tsx:45-50 and 59). */
module Scoring {
  import opened Wrappers
  import opened Types

  /**
   * The answer recorded for `q` when the player picked `selected`
   * (None on a timeout). It is correct exactly when the pick is the
   * correct key, so a timeout is never correct.
   */
  function Answer(q: Question, selected: Option<string>): (a: UserAnswer)
    ensures a.question == q && a.selectedOption == selected
    ensures a.isCorrect <==> selected.Some? && selected.value == q.respuestaCorrecta
    ensures selected.None? ==> !a.isCorrect
  {
    UserAnswer(q, selected, selected == Some(q.respuestaCorrecta))
  }

  /** `answers.filter(a => a.isCorrect)`: the correct answers, in order. */
  function CorrectAnswers(answers: seq<UserAnswer>): (r: seq<UserAnswer>)
    ensures |r| <= |answers|
    ensures forall a :: a in r ==> a in answers && a.isCorrect
    ensures forall a :: a in answers && a.isCorrect ==> a in r
  {
    if answers == [] then []
    else (if answers[0].isCorrect then [answers[0]] else []) + CorrectAnswers(answers[1..])
  }

  /**
   * The filter keeps every correct answer as many times as it occurs and
   * drops every wrong one, so its length is the number of correct answers.
   */
  lemma {:induction false} CorrectAnswersMultiset(answers: seq<UserAnswer>)
    ensures multiset(CorrectAnswers(answers)) <= multiset(answers)
    ensures forall a :: multiset(CorrectAnswers(answers))[a] == if a.isCorrect then multiset(answers)[a] else 0
  {
    if answers != [] {
      CorrectAnswersMultiset(answers[1..]);
      assert answers == [answers[0]] + answers[1..];
      assert multiset(answers) == multiset{answers[0]} + multiset(answers[1..]);
    }
  }

  /** The score of a day: how many of its answers are correct. */
  function Score(answers: seq<UserAnswer>): nat
  {
    |CorrectAnswers(answers)|
  }

  /** Filtering distributes over concatenation, so appending one answer adds one point iff it is correct. */
  lemma {:induction false} CorrectAnswersAppend(a: seq<UserAnswer>, b: seq<UserAnswer>)
    ensures CorrectAnswers(a + b) == CorrectAnswers(a) + CorrectAnswers(b)
    ensures Score(a + b) == Score(a) + Score(b)
  {
    if a == [] {
      assert a + b == b;
    } else {
      assert (a + b)[0] == a[0];
      assert (a + b)[1..] == a[1..] + b;
      CorrectAnswersAppend(a[1..], b);
    }
  }

  /** A score is full exactly when every answer is correct, and zero exactly when none is. */
  lemma {:induction false} ScoreExtremes(answers: seq<UserAnswer>)
    ensures Score(answers) == |answers| <==> forall k :: 0 <= k < |answers| ==> answers[k].isCorrect
    ensures Score(answers) == 0 <==> forall k :: 0 <= k < |answers| ==> !answers[k].isCorrect
  {
    if answers != [] {
      ScoreExtremes(answers[1..]);
      assert forall k :: 1 <= k < |answers| ==> answers[k] == answers[1..][k - 1];
    }
  }

  /** Each answer of `answers` was given, in order, to the question at its position in `qs`. */
  ghost predicate AnswersFollow(answers: seq<UserAnswer>, qs: seq<Question>)
  {
    && |answers| <= |qs|
    && forall k :: 0 <= k < |answers| ==> answers[k] == Answer(qs[k], answers[k].selectedOption)
  }

  /** The options picked, in order (None for a timeout). */
  function Selections(answers: seq<UserAnswer>): seq<Option<string>>
  {
    seq(|answers|, k requires 0 <= k < |answers| => answers[k].selectedOption)
  }

  /** Reference count: the positions k at which pick k is the correct key of question k. */
  function Hits(qs: seq<Question>, picks: seq<Option<string>>): nat
    requires |picks| <= |qs|
  {
    if picks == [] then 0
    else Hits(qs, picks[..|picks| - 1])
         + (if picks[|picks| - 1] == Some(qs[|picks| - 1].respuestaCorrecta) then 1 else 0)
  }

  /**
   * The score of answers given in order to `qs` is the number of positions
   * whose pick was the correct key: timeouts and wrong picks score nothing.
   */
  lemma {:induction false} ScoreIsHits(answers: seq<UserAnswer>, qs: seq<Question>)
    requires AnswersFollow(answers, qs)
    ensures Score(answers) == Hits(qs, Selections(answers))
  {
    if answers != [] {
      var n := |answers| - 1;
      var init := answers[..n];
      assert answers == init + [answers[n]];
      assert AnswersFollow(init, qs);
      ScoreIsHits(init, qs);
      CorrectAnswersAppend(init, [answers[n]]);
      assert Selections(answers)[..n] == Selections(init);
      assert CorrectAnswers([answers[n]]) == (if answers[n].isCorrect then [answers[n]] else []);
    }
  }
}
