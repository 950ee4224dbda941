/**
 * The state of the quiz component (App.tsx:11-100): a day's session from
 * `startDay` through one answer per question to the saved day record.
 *
 * React's state setters become field assignments, the one-second interval
 * becomes an explicit `Tick`, and the clock becomes the `today` parameter
 * (the calendar day on which the call happens).
 */
module QuizApp {
  import opened Wrappers
  import opened Types
  import opened Scoring
  import opened Questions
  import opened Availability

  class App {
    /** The question bank (RAW_DATA). */
    const bank: seq<QuizData>

    var gameState: GameState
    var dayIndex: nat
    var currentQuestionIdx: nat
    var answers: seq<UserAnswer>
    var timer: int
    var progress: Progress

    /** `dailyQuestions` for the selected day. */
    function DayQuestions(): seq<Question>
      reads this
    {
      DailyQuestions(bank, dayIndex)
    }

    /**
     * `dailyQuestions[currentQuestionIdx]`, None when that index is past the
     * day's list. During a quiz over a day of at least twelve questions there
     * is always a question on screen; a quiz without one is stuck at the end
     * of a shorter list.
     */
    function CurrentQuestion(): (q: Option<Question>)
      reads this
      ensures Valid() && gameState == Quiz && |DayQuestions()| >= QuestionsPerDay ==> q.Some?
      ensures Valid() && gameState == Quiz && q.None? ==>
                currentQuestionIdx == |DayQuestions()| < QuestionsPerDay
    {
      if currentQuestionIdx < |DayQuestions()| then Some(DayQuestions()[currentQuestionIdx]) else None
    }

    /**
     * During a quiz one answer has been given per question passed and the
     * timer is running; on the results screen the day's record holds the
     * twelve answers and their score.
     */
    ghost predicate Valid()
      reads this
    {
      && (gameState == Quiz ==>
            && |answers| == currentQuestionIdx
            && currentQuestionIdx < QuestionsPerDay
            && AnswersFollow(answers, DayQuestions())
            && 1 <= timer <= SecondsPerQuestion
            && Unlocked(progress, dayIndex))
      && (gameState == Results ==>
            && |answers| == QuestionsPerDay
            && AnswersFollow(answers, DayQuestions())
            && dayIndex in progress
            && progress[dayIndex].dayIndex == dayIndex
            && progress[dayIndex].completed
            && progress[dayIndex].answers == answers
            && progress[dayIndex].score == Score(answers))
    }

    /**
     * The component as first rendered, with `saved` the progress read back
     * from storage (an empty map when nothing was stored).
     */
    constructor (bank: seq<QuizData>, saved: Progress)
      ensures Valid()
      ensures this.bank == bank && progress == saved
      ensures gameState == Home && dayIndex == 0 && currentQuestionIdx == 0
      ensures answers == [] && timer == SecondsPerQuestion
    {
      this.bank := bank;
      gameState := Home;
      dayIndex := 0;
      currentQuestionIdx := 0;
      answers := [];
      timer := SecondsPerQuestion;
      progress := saved;
    }

    /**
     * `startDay(idx)`, reached from the day's button on the home screen,
     * which is disabled while the day is Locked or WaitForTomorrow.
     */
    method StartDay(idx: nat, today: int)
      requires Valid()
      requires gameState == Home
      requires idx < DaysCount
      requires GetDayStatus(progress, idx, today) == Completed || GetDayStatus(progress, idx, today) == Available
      modifies this
      ensures Valid()
      ensures gameState == Quiz && dayIndex == idx && currentQuestionIdx == 0
      ensures answers == [] && timer == SecondsPerQuestion
      ensures progress == old(progress)
    {
      dayIndex := idx;
      currentQuestionIdx := 0;
      answers := [];
      timer := SecondsPerQuestion;
      gameState := Quiz;
    }

    /**
     * What `handleNextQuestion(selected)` does to every field but the timer:
     * nothing without a current question; otherwise it appends the scored
     * answer and either moves to the next question or, on the twelfth,
     * saves the completed day in its slot and shows the results.
     */
    twostate predicate Answered(selected: Option<string>, today: int)
      reads this
    {
      && dayIndex == old(dayIndex)
      && (old(CurrentQuestion()).None? ==>
            && gameState == old(gameState)
            && currentQuestionIdx == old(currentQuestionIdx)
            && answers == old(answers)
            && progress == old(progress))
      && (old(CurrentQuestion()).Some? ==>
            && answers == old(answers) + [Answer(old(CurrentQuestion()).value, selected)]
            && if old(currentQuestionIdx) < QuestionsPerDay - 1 then
                 && gameState == Quiz
                 && currentQuestionIdx == old(currentQuestionIdx) + 1
                 && progress == old(progress)
               else
                 && gameState == Results
                 && currentQuestionIdx == old(currentQuestionIdx)
                 && progress == old(progress)[dayIndex := DailyProgress(dayIndex, Score(answers), true, today, answers)])
    }

    /**
     * `handleNextQuestion(selected)`, called by an option button (or the
     * timer, with None); both exist only on the quiz screen.
     */
    method SubmitAnswer(selected: Option<string>, today: int)
      requires Valid()
      requires gameState == Quiz
      modifies this
      ensures Valid()
      ensures Answered(selected, today)
      ensures old(CurrentQuestion()).None? ==> timer == old(timer)
      ensures old(CurrentQuestion()).Some? && gameState == Quiz ==> timer == SecondsPerQuestion
      ensures gameState == Results ==> timer == old(timer)
      ensures gameState == Results ==>
                && |answers| == QuestionsPerDay
                && progress[dayIndex].completed
                && progress[dayIndex].score == Score(answers)
                && progress[dayIndex].date == today
                && 0 <= progress[dayIndex].score <= QuestionsPerDay
                && progress[dayIndex].score == Hits(DayQuestions(), Selections(answers))
      ensures forall i :: i != dayIndex ==> (i in progress <==> i in old(progress))
      ensures forall i :: i != dayIndex && i in progress ==> progress[i] == old(progress)[i]
      ensures Chained(old(progress)) ==> Chained(progress)
    {
      var current := CurrentQuestion();
      if current.None? {
        return;
      }
      var newAnswers := answers + [Answer(current.value, selected)];
      answers := newAnswers;
      if currentQuestionIdx < QuestionsPerDay - 1 {
        currentQuestionIdx := currentQuestionIdx + 1;
        timer := SecondsPerQuestion;
      } else {
        var record := DailyProgress(dayIndex, Score(newAnswers), true, today, newAnswers);
        if Chained(progress) {
          SaveKeepsChained(progress, dayIndex, record);
        }
        ScoreIsHits(newAnswers, DayQuestions());
        progress := progress[dayIndex := record];
        gameState := Results;
      }
    }

    /**
     * One second of the interval that runs while the quiz screen is shown:
     * count down, and at 1 or below submit a timeout and restart the count.
     */
    method Tick(today: int)
      requires Valid()
      modifies this
      ensures Valid()
      ensures old(gameState) != Quiz ==> unchanged(this)
      ensures old(gameState) == Quiz && old(timer) > 1 ==>
                && timer == old(timer) - 1
                && gameState == old(gameState) && dayIndex == old(dayIndex)
                && currentQuestionIdx == old(currentQuestionIdx)
                && answers == old(answers) && progress == old(progress)
      ensures old(gameState) == Quiz && old(timer) <= 1 ==>
                Answered(None, today) && timer == SecondsPerQuestion
      ensures Chained(old(progress)) ==> Chained(progress)
    {
      if gameState != Quiz {
        return;
      }
      if timer <= 1 {
        SubmitAnswer(None, today);
        timer := SecondsPerQuestion;
      } else {
        timer := timer - 1;
      }
    }

    /** The "back home" button of the results screen. */
    method ReturnHome()
      requires Valid()
      requires gameState == Results
      modifies this`gameState
      ensures Valid()
      ensures gameState == Home
    {
      gameState := Home;
    }
  }
}
