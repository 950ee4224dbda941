/**
 * Which days can be played (App.tsx:102-112). Day i+1 opens once day i is
 * completed, but not on the calendar day on which day i was completed.
 */
module Availability {
  import opened Types

  datatype DayStatus = Completed | Available | Locked | WaitForTomorrow

  /** `progress[i]?.completed`: a hole or a record not marked completed reads as false. */
  predicate IsCompleted(progress: Progress, i: nat)
  {
    i in progress && progress[i].completed
  }

  /** `getDayStatus(idx)` on calendar day `today`. */
  function GetDayStatus(progress: Progress, idx: nat, today: int): DayStatus
  {
    if IsCompleted(progress, idx) then Completed
    else if idx == 0 then Available
    else if !IsCompleted(progress, idx - 1) then Locked
    else if progress[idx - 1].date == today then WaitForTomorrow
    else Available
  }

  /** A day that is not Locked: completed, day 0, or the day after a completed one. */
  predicate Unlocked(progress: Progress, idx: nat)
  {
    IsCompleted(progress, idx) || idx == 0 || IsCompleted(progress, idx - 1)
  }

  /**
   * The record of a day exists only if the previous day is completed: the
   * shape the game keeps, since only an unlocked day can be played and saved.
   */
  ghost predicate Chained(progress: Progress)
  {
    forall i :: i in progress && i > 0 ==> IsCompleted(progress, i - 1)
  }

  /** The four outcomes of the classifier, each with the exact condition that yields it. */
  lemma DayStatusCases(progress: Progress, idx: nat, today: int)
    ensures GetDayStatus(progress, idx, today) == Completed <==> IsCompleted(progress, idx)
    ensures GetDayStatus(progress, idx, today) == Locked <==>
              !IsCompleted(progress, idx) && idx > 0 && !IsCompleted(progress, idx - 1)
    ensures GetDayStatus(progress, idx, today) == WaitForTomorrow <==>
              !IsCompleted(progress, idx) && idx > 0 && IsCompleted(progress, idx - 1)
              && progress[idx - 1].date == today
    ensures GetDayStatus(progress, idx, today) == Available <==>
              !IsCompleted(progress, idx)
              && (idx == 0 || (IsCompleted(progress, idx - 1) && progress[idx - 1].date != today))
  {
  }

  /** Whatever the date, a day is Locked exactly when it is not unlocked. */
  lemma LockedIffNotUnlocked(progress: Progress, idx: nat, today: int)
    ensures GetDayStatus(progress, idx, today) == Locked <==> !Unlocked(progress, idx)
  {
  }

  /** The wait clears by itself: a day waiting today is available on any other date. */
  lemma WaitClearsOnOtherDays(progress: Progress, idx: nat, today: int, other: int)
    requires GetDayStatus(progress, idx, today) == WaitForTomorrow
    requires other != today
    ensures GetDayStatus(progress, idx, other) == Available
  {
  }

  /** In a chained progress, a saved day is preceded only by completed days. */
  lemma {:induction false} CompletedBefore(progress: Progress, i: nat, j: nat)
    requires Chained(progress)
    requires i in progress && j < i
    ensures IsCompleted(progress, j)
    decreases i
  {
    assert IsCompleted(progress, i - 1);
    if j < i - 1 {
      CompletedBefore(progress, i - 1, j);
    }
  }

  /** An available day in a chained progress is the first uncompleted one. */
  lemma AvailableIsFirstOpenDay(progress: Progress, idx: nat, today: int)
    requires Chained(progress)
    requires GetDayStatus(progress, idx, today) == Available
    ensures !IsCompleted(progress, idx)
    ensures forall j :: 0 <= j < idx ==> IsCompleted(progress, j)
  {
    forall j | 0 <= j < idx ensures IsCompleted(progress, j) {
      if j < idx - 1 {
        CompletedBefore(progress, idx - 1, j);
      }
    }
  }

  /** In a chained progress at most one day is Available at any date. */
  lemma AtMostOneAvailableDay(progress: Progress, a: nat, b: nat, today: int)
    requires Chained(progress)
    requires GetDayStatus(progress, a, today) == Available
    requires GetDayStatus(progress, b, today) == Available
    ensures a == b
  {
    AvailableIsFirstOpenDay(progress, a, today);
    AvailableIsFirstOpenDay(progress, b, today);
  }

  /** Saving a completed record for an unlocked day keeps the progress chained, whatever the other slots hold. */
  lemma SaveKeepsChained(progress: Progress, idx: nat, rec: DailyProgress)
    requires Chained(progress)
    requires Unlocked(progress, idx)
    requires rec.completed
    ensures Chained(progress[idx := rec])
  {
    var p := progress[idx := rec];
    forall i | i in p && i > 0 ensures IsCompleted(p, i - 1) {
      if i == idx && IsCompleted(progress, idx) {
        assert IsCompleted(progress, idx - 1);
      }
    }
  }
}
