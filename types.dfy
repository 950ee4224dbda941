/**
 * The records of the quiz (types.ts) and the constants of App.tsx.
 *
 * A completion timestamp is abstracted to the calendar day (in the player's
 * local time zone) on which it falls, numbered by an integer: that is the only
 * thing the program ever does with it.
 */
module Types {
  import opened Wrappers

  /** Number of days of the challenge (App.tsx:7). */
  const DaysCount: nat := 11
  /** Number of answers that finish a day (App.tsx:8). */
  const QuestionsPerDay: nat := 12
  /** Seconds given for one question (App.tsx:9). */
  const SecondsPerQuestion: nat := 15

  /** One question of the bank; `categoryName` is only set once the question is picked for a day. */
  datatype Question = Question(
    id: int,
    pregunta: string,
    opciones: map<string, string>,
    respuestaCorrecta: string,
    categoryName: Option<string>)

  /** One category ("capitulo") of the bank with its questions in order. */
  datatype QuizData = QuizData(capitulo: string, preguntas: seq<Question>)

  /** An answer given to a question; `selectedOption` is None when the time ran out. */
  datatype UserAnswer = UserAnswer(question: Question, selectedOption: Option<string>, isCorrect: bool)

  /** The record saved for a played day; `date` is the calendar day of completion. */
  datatype DailyProgress = DailyProgress(
    dayIndex: nat,
    score: int,
    completed: bool,
    date: int,
    answers: seq<UserAnswer>)

  /** The screens of the application; the unused COUNTDOWN value is not modelled. */
  datatype GameState = Home | Quiz | Results | Supervisor

  /**
   * The saved progress: a JavaScript array indexed by day that may have holes
   * (a hole reads back as `null`), so a map from day index to record.
   */
  type Progress = map<nat, DailyProgress>
}
