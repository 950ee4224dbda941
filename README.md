# Korrika daily quiz — a Dafny model of its game logic

Korrika is a single-player trivia challenge in Basque that runs over eleven
days. Each day serves twelve questions, two from each category of a fixed
question bank. Every question has a 15-second countdown, and running out of
time records an empty, wrong answer. Finishing a day saves a record with its
score. The next day unlocks once the previous day is completed, but not on the
same calendar date. The results screen picks one of six feedback messages from
the score.

This project models that logic from `App.tsx`, with the records of
`types.ts` as datatypes:

- `wrappers.dfy`, module `Wrappers`: `Option`, which stands for JavaScript's
  `null` and `undefined`.
- `types.dfy`, module `Types`: `Question`, `QuizData` (a category),
  `UserAnswer`, `DailyProgress` and `GameState`, plus the constants
  `DAYS_COUNT = 11`, `QUESTIONS_PER_DAY = 12` and `SECONDS_PER_QUESTION = 15`.
  The saved progress is a sparse array in the program, so it becomes a
  `map<nat, DailyProgress>`.
- `scoring.dfy`, module `Scoring`: how one answer is scored, and the score of a
  day as the length of `answers.filter(a => a.isCorrect)`.
- `questions.dfy`, module `Questions`: `dailyQuestions`, written as a recursive
  function over the bank, which is a parameter.
- `availability.dfy`, module `Availability`: `getDayStatus`.
- `feedback.dfy`, module `Feedback`: `getResultFeedback`. Each message is named
  after its emoji.
- `quiz_app.dfy`, module `QuizApp`: the component state as the class
  `QuizApp.App`, with fields `gameState`, `dayIndex`, `currentQuestionIdx`,
  `answers`, `timer` and `progress`. Its methods are `StartDay`,
  `SubmitAnswer` (the body of `handleNextQuestion`), `Tick` (one firing of
  the one-second interval) and `ReturnHome`. The object invariant `Valid()`
  says two things. During a quiz, `|answers| == currentQuestionIdx < 12`, the
  answers follow the day's questions in order, the timer lies in `[1, 15]`
  and the day being played is unlocked. On the results screen, the saved
  record of the day holds exactly the twelve answers and their score.

Time is a parameter. `today` is an integer that numbers calendar days in the
player's local time zone. A record's `date` is the calendar day on which it
was saved. The source compares `toDateString()` values, and that comparison
becomes integer equality.

Behaviour of the code that the model keeps:

- A question gets 15 seconds (App.tsx:9).
- A completed day's button is not disabled (App.tsx:163, 168), so a completed
  day can be started again. Finishing it again overwrites its record,
  including the date.
- `handleNextQuestion` has no game-state guard (App.tsx:43). It cannot act
  after completion only because its callers do not exist then: the option
  buttons appear only on the quiz screen, and the interval runs only while
  the quiz screen shows (App.tsx:79). `SubmitAnswer` therefore requires
  `gameState == Quiz`.
- The day ends after `QUESTIONS_PER_DAY` answers, whatever the length of the
  day's list (App.tsx:55). If a day has fewer than twelve questions (a bank
  with fewer than six categories, or a category that is too short), the
  session sticks at the end of the list. From then on every submit, including
  the timer's, changes nothing but the timer's restart, and the day never
  completes. `SubmitAnswer` states this, and so does `Valid()`: the results
  screen implies at least twelve questions.

## Model

| member | source | states |
|---|---|---|
| `Scoring.Answer` | App.tsx:45-50 | The answer records the question and the pick. It is correct exactly when the pick is present and equals `respuesta_correcta`, so a timeout (`null`) is never correct. |
| `Scoring.CorrectAnswers` | App.tsx:59 | The filter keeps only correct answers from the input, keeps every correct answer, and is never longer than the input. |
| `Scoring.CorrectAnswersMultiset` | App.tsx:59 | `CorrectAnswers`, and through it `Score`: the filter keeps every correct answer exactly as often as it occurs and drops every wrong one, so its length, which is the day's score, is the number of correct answers. |
| `Scoring.CorrectAnswersAppend` | App.tsx:52-59 | `CorrectAnswers` and `Score`: filtering and scoring distribute over concatenation. So appending one answer adds a point exactly when that answer is correct. |
| `Scoring.ScoreExtremes` | App.tsx:59 | `Score`: the score equals the number of answers exactly when all are correct, and is 0 exactly when none is. |
| `Scoring.ScoreIsHits` | App.tsx:45-59 | `Score`: for answers given in order to a list of questions, the score equals an independent count: the positions whose pick is that question's correct key. |
| `Questions.DailyQuestions` | App.tsx:29-38 | The day's list has at most `2·|bank|` questions, and exactly `2·|bank|` when every category has at least `2d+2` questions. Every question in it carries a category name. |
| `Questions.DailyQuestionsMembers` | App.tsx:31-35 | A question is in day `d`'s list exactly when it is the question at position `2d` or `2d+1` of some category, stamped with that category's `capitulo`. |
| `Questions.DailyQuestionsStamped` | App.tsx:34-35 | Every picked question's `categoryName` is the `capitulo` of some category of the bank. |
| `Questions.DailyQuestionsSplit` | App.tsx:31-36 | The list keeps category order: for every k, the questions of the first k categories come before those of the rest. |
| `Questions.DailyQuestionsAt` | App.tsx:29-38 | When every category has both questions, position `2c+j` holds question `2d+j` of category c with c's name. The list has exactly `2·|bank|` entries. |
| `Availability.DayStatusCases` | App.tsx:102-112 | `GetDayStatus`: both directions for each outcome. A completed day is COMPLETED. Otherwise day 0 is AVAILABLE, and a later day is LOCKED if the previous day is missing or not completed. Otherwise it is WAIT_FOR_TOMORROW if the previous day was completed today, and AVAILABLE if not. |
| `Availability.LockedIffNotUnlocked` | App.tsx:102-107 | `GetDayStatus`: whatever the date, a day is LOCKED exactly when it is not completed, is not day 0, and its predecessor is not completed. |
| `Availability.WaitClearsOnOtherDays` | App.tsx:108-111 | `GetDayStatus`: a day that waits today is AVAILABLE on every other date, so the wait needs no stored state to clear. |
| `Availability.CompletedBefore` | App.tsx:102-112 | In a chained progress (a record exists only after a completed day), every day before a saved day is completed. |
| `Availability.AvailableIsFirstOpenDay` | App.tsx:102-112 | `GetDayStatus`: in a chained progress, an AVAILABLE day is not completed and every earlier day is completed. |
| `Availability.AtMostOneAvailableDay` | App.tsx:102-112 | `GetDayStatus`: in a chained progress, at most one day is AVAILABLE on any date. |
| `Availability.SaveKeepsChained` | App.tsx:68-69 | Saving a completed record for a day that is not LOCKED keeps the progress chained. |
| `Feedback.FeedbackRanges` | App.tsx:114-121 | `ResultFeedback`: for scores up to 12: 12 gives the crown. 10–11, 7–9, 4–6 and 1–3 each give their own bucket, and 0 or less gives the lowest. |
| `Feedback.FeedbackMonotone` | App.tsx:114-121 | `ResultFeedback`: up to 12, a higher score never gets a lower bucket. |
| `Feedback.FeedbackAboveMaximum` | App.tsx:115-116 | `ResultFeedback`: above 12 the equality test misses, so such a score falls to the second bucket. Monotonicity needs the bound 12, which a day's score always meets (`SubmitAnswer` ensures the saved score lies in `[0, 12]`). |
| `QuizApp.App.CurrentQuestion` | App.tsx:40 | During a quiz over a day of at least 12 questions, there is always a question on screen. A quiz with no current question is stuck at the end of a list shorter than 12. |
| `QuizApp.App.constructor` | App.tsx:12-26 | The initial state: home screen, day 0, no answers, a full timer, and the progress read back from storage. |
| `QuizApp.App.StartDay` | App.tsx:94-100 | Starting a COMPLETED or AVAILABLE day resets the session: quiz screen, question 0, no answers, a full timer. Progress is unchanged, and `Valid()` holds. |
| `QuizApp.App.SubmitAnswer` | App.tsx:42-75 | No current question: nothing changes. Before the last question: exactly one scored answer is appended, the index goes up by one, the timer resets to 15, and progress and screen stay the same. On the last question: the day's slot gets a completed record with all 12 answers, score = number correct = the reference hit count (so within `[0, 12]`), and today's date; the screen becomes RESULTS and the other slots are unchanged. A chained progress stays chained. |
| `QuizApp.App.Tick` | App.tsx:78-92 | Outside the quiz screen, nothing changes. Above 1, the timer counts down and nothing else changes. At 1 or below, it submits a timeout exactly as `SubmitAnswer(None)` would and resets the timer to 15, so the timer stays within `[1, 15]` during a quiz. |
| `QuizApp.App.ReturnHome` | App.tsx:276 | The results screen's button returns to the home screen and keeps `Valid()`. |

## Left out

- Rendering, styles, emoji and the feedback texts (App.tsx:128-386) are presentation. The feedback is modelled only as which of the six messages is chosen.
- Reading and writing `localStorage` and the JSON encoding (App.tsx:21-26, 71) are I/O. Loading becomes the constructor's `saved` argument, and saving becomes the assignment to `progress`. `JSON.parse` throws on malformed stored data, and that failure is not modelled.
- The wall clock (`new Date()`, `toISOString`, `toDateString`) becomes the integer calendar day `today`. Time zones and timestamps within a day are not modelled.
- `setInterval`/`clearInterval` and React's scheduling are not modelled: batching, stale closures, and updater functions run twice in strict mode. One firing of the interval is the explicit method `Tick`.
- The supervisor screen and its category filter (App.tsx:123-126, 152, 321) are a read-only view of the bank. `GameState.Supervisor` is declared, but in the model nothing enters or leaves it. The unused `COUNTDOWN` state of `types.ts` is not modelled.
- The timer ring's floating-point geometry is presentation.
- The question bank's contents (`questionsData`) are not part of this model. The bank is a parameter.
