/** The feedback shown on the results screen for a day's score (App.tsx:114-121). */
module Feedback {

  /** The six feedback messages, named after the emoji each one shows. */
  datatype Bucket = Scream | Snail | Monocle | Handshake | Runner | Crown

  /** `getResultFeedback(score)`. */
  function ResultFeedback(score: int): Bucket
  {
    if score == 12 then Crown
    else if score >= 10 then Runner
    else if score >= 7 then Handshake
    else if score >= 4 then Monocle
    else if score >= 1 then Snail
    else Scream
  }

  /** The buckets from worst (0) to best (5). */
  function Rank(b: Bucket): nat
  {
    match b
    case Scream => 0
    case Snail => 1
    case Monocle => 2
    case Handshake => 3
    case Runner => 4
    case Crown => 5
  }

  /** The score range of every bucket, for the scores a day can produce and below. */
  lemma FeedbackRanges(score: int)
    requires score <= 12
    ensures ResultFeedback(score) == Crown <==> score == 12
    ensures ResultFeedback(score) == Runner <==> 10 <= score <= 11
    ensures ResultFeedback(score) == Handshake <==> 7 <= score <= 9
    ensures ResultFeedback(score) == Monocle <==> 4 <= score <= 6
    ensures ResultFeedback(score) == Snail <==> 1 <= score <= 3
    ensures ResultFeedback(score) == Scream <==> score <= 0
  {
  }

  /** A better score never gets worse feedback, up to the maximum score of 12. */
  lemma FeedbackMonotone(s: int, t: int)
    requires s <= t <= 12
    ensures Rank(ResultFeedback(s)) <= Rank(ResultFeedback(t))
  {
  }

  /** Above 12 the test `score === 12` no longer matches, so monotonicity stops there. */
  lemma FeedbackAboveMaximum(score: int)
    requires score > 12
    ensures ResultFeedback(score) == Runner
    ensures Rank(ResultFeedback(score)) < Rank(ResultFeedback(12))
  {
  }
}
