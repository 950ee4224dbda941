/**
 * The questions of one day (App.tsx:29-38): for every category of the bank,
 * in bank order, the questions at positions 2*day and 2*day+1 that exist,
 * each stamped with its category's name.
 */
module Questions {
  import opened Wrappers
  import opened Types

  /**
   * The question in slot `j` (0 or 1) of category `c` on `day`, stamped with
   * the category name (`{ ...q, categoryName: capitulo }`), or None when the
   * category has no question at that position.
   */
  function Slot(c: QuizData, day: nat, j: nat): Option<Question>
  {
    if 2 * day + j < |c.preguntas| then Some(c.preguntas[2 * day + j].(categoryName := Some(c.capitulo)))
    else None
  }

  /** What one category pushes: slot 0 then slot 1, skipping missing ones. */
  function Picks(c: QuizData, day: nat): seq<Question>
  {
    (if Slot(c, day, 0).Some? then [Slot(c, day, 0).value] else [])
    + (if Slot(c, day, 1).Some? then [Slot(c, day, 1).value] else [])
  }

  /** Every category has both questions for `day`. */
  ghost predicate Full(bank: seq<QuizData>, day: nat)
  {
    forall c :: 0 <= c < |bank| ==> |bank[c].preguntas| >= 2 * day + 2
  }

  /** `dailyQuestions` for the day `day` over the bank `bank`. */
  function DailyQuestions(bank: seq<QuizData>, day: nat): (r: seq<Question>)
    ensures |r| <= 2 * |bank|
    ensures Full(bank, day) ==> |r| == 2 * |bank|
    ensures forall q :: q in r ==> q.categoryName.Some?
  {
    if bank == [] then []
    else Picks(bank[0], day) + DailyQuestions(bank[1..], day)
  }

  /** `q` is the question in one of the two slots of some category of `bank`. */
  ghost predicate InSomeSlot(bank: seq<QuizData>, day: nat, q: Question)
  {
    exists c, j :: 0 <= c < |bank| && 0 <= j < 2 && Slot(bank[c], day, j) == Some(q)
  }

  /** The questions one category contributes are exactly its present slots. */
  lemma PicksMembers(c: QuizData, day: nat, q: Question)
    ensures q in Picks(c, day) <==> Slot(c, day, 0) == Some(q) || Slot(c, day, 1) == Some(q)
  {
  }

  /** Every picked question fills a slot of some category. */
  lemma {:induction false} PickedIsInSomeSlot(bank: seq<QuizData>, day: nat, q: Question)
    requires q in DailyQuestions(bank, day)
    ensures InSomeSlot(bank, day, q)
  {
    var rest := bank[1..];
    assert DailyQuestions(bank, day) == Picks(bank[0], day) + DailyQuestions(rest, day);
    if q in Picks(bank[0], day) {
      PicksMembers(bank[0], day, q);
    } else {
      PickedIsInSomeSlot(rest, day, q);
      var c, j :| 0 <= c < |rest| && 0 <= j < 2 && Slot(rest[c], day, j) == Some(q);
      assert Slot(bank[c + 1], day, j) == Some(q);
    }
  }

  /** Every filled slot of every category is picked. */
  lemma {:induction false} SlotIsPicked(bank: seq<QuizData>, day: nat, c: nat, j: nat, q: Question)
    requires c < |bank| && j < 2 && Slot(bank[c], day, j) == Some(q)
    ensures q in DailyQuestions(bank, day)
  {
    var rest := bank[1..];
    assert DailyQuestions(bank, day) == Picks(bank[0], day) + DailyQuestions(rest, day);
    if c == 0 {
      PicksMembers(bank[0], day, q);
    } else {
      assert rest[c - 1] == bank[c];
      SlotIsPicked(rest, day, c - 1, j, q);
    }
  }

  /**
   * A question is picked for `day` exactly when it is one of the two slots of
   * some category, stamped with that category's name.
   */
  lemma DailyQuestionsMembers(bank: seq<QuizData>, day: nat, q: Question)
    ensures q in DailyQuestions(bank, day) <==>
            exists c, j :: 0 <= c < |bank| && 0 <= j < 2 && Slot(bank[c], day, j) == Some(q)
  {
    if q in DailyQuestions(bank, day) {
      PickedIsInSomeSlot(bank, day, q);
    }
    if InSomeSlot(bank, day, q) {
      var c, j :| 0 <= c < |bank| && 0 <= j < 2 && Slot(bank[c], day, j) == Some(q);
      SlotIsPicked(bank, day, c, j, q);
    }
  }

  /** Every picked question carries the name of a category of the bank. */
  lemma DailyQuestionsStamped(bank: seq<QuizData>, day: nat, q: Question)
    requires q in DailyQuestions(bank, day)
    ensures exists c :: 0 <= c < |bank| && q.categoryName == Some(bank[c].capitulo)
  {
    DailyQuestionsMembers(bank, day, q);
    var c, j :| 0 <= c < |bank| && 0 <= j < 2 && Slot(bank[c], day, j) == Some(q);
  }

  /**
   * Category order: the questions of the first k categories come first, then
   * those of the rest.
   */
  lemma {:induction false} DailyQuestionsSplit(bank: seq<QuizData>, day: nat, k: nat)
    requires k <= |bank|
    ensures DailyQuestions(bank, day) == DailyQuestions(bank[..k], day) + DailyQuestions(bank[k..], day)
  {
    if k > 0 {
      var rest := bank[1..];
      assert bank[..k][1..] == rest[..k - 1];
      assert bank[k..] == rest[k - 1..];
      DailyQuestionsSplit(rest, day, k - 1);
      assert DailyQuestions(bank[..k], day) == Picks(bank[0], day) + DailyQuestions(rest[..k - 1], day);
    } else {
      assert bank[k..] == bank;
    }
  }

  /**
   * When every category has both questions, category c's slot j sits at
   * position 2c+j: the day is exactly q(2d), q(2d+1) of each category in turn.
   */
  lemma {:induction false} DailyQuestionsAt(bank: seq<QuizData>, day: nat, c: nat, j: nat)
    requires Full(bank, day)
    requires c < |bank| && j < 2
    ensures |DailyQuestions(bank, day)| == 2 * |bank|
    ensures DailyQuestions(bank, day)[2 * c + j]
            == bank[c].preguntas[2 * day + j].(categoryName := Some(bank[c].capitulo))
  {
    if c > 0 {
      assert Full(bank[1..], day) by {
        forall i | 0 <= i < |bank[1..]| ensures |bank[1..][i].preguntas| >= 2 * day + 2 {
          assert bank[1..][i] == bank[i + 1];
        }
      }
      DailyQuestionsAt(bank[1..], day, c - 1, j);
      assert bank[1..][c - 1] == bank[c];
    }
  }
}
