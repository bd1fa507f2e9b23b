/** The review scheduler: a SuperMemo-2 variant for correct/incorrect answers.
    Ease factors are exact reals; `now` is a parameter instead of the clock. */
module Scheduler {
  import opened Common

  const MIN_EASE_FACTOR: real := 1.3
  const MAX_INTERVAL: int := 365
  const INITIAL_EASE_FACTOR: real := 2.5
  /** Ease forced on a correct answer after a 1-day interval. */
  const SECOND_REVIEW_EASE: real := 2.52
  /** Ease forced on a correct answer after a long interval at a high ease. */
  const LATER_REVIEW_EASE: real := 2.54

  datatype ReviewResult = ReviewResult(easeFactor: real, interval: int, nextReviewDate: Time)

  /** Binary feedback on SuperMemo's 0..5 quality scale. */
  function QualityRating(isCorrect: bool): int {
    if isCorrect then 4 else 1
  }

  /** The SuperMemo-2 ease update EF + (0.1 - (5 - q) * (0.08 + (5 - q) * 0.02)). */
  function Sm2Ease(previousEaseFactor: real, quality: int): real {
    previousEaseFactor + (0.1 - (5 - quality) as real * (0.08 + (5 - quality) as real * 0.02))
  }

  function MaxReal(a: real, b: real): real { if a >= b then a else b }

  /** Math.round: halves go up. */
  function Round(x: real): int {
    (x + 0.5).Floor
  }

  /** The new ease: the generic formula, replaced by one of two fixed values on
      some correct answers, then floored at 1.3. */
  function NextEaseFactor(isCorrect: bool, previousEaseFactor: real, previousInterval: int): (ease: real)
    ensures ease >= MIN_EASE_FACTOR
  {
    var formula := Sm2Ease(previousEaseFactor, QualityRating(isCorrect));
    var adjusted :=
      if isCorrect && previousInterval == 1 then SECOND_REVIEW_EASE
      else if isCorrect && previousEaseFactor >= 2.5 && previousInterval >= 6 then LATER_REVIEW_EASE
      else formula;
    MaxReal(MIN_EASE_FACTOR, adjusted)
  }

  /** The new interval in days, capped at 365. */
  function NextInterval(isCorrect: bool, previousInterval: int, newEaseFactor: real): (days: int)
    ensures days <= MAX_INTERVAL
  {
    var uncapped :=
      if !isCorrect then Max(1, Min(3, (previousInterval as real * 0.5).Floor))
      else if previousInterval == 0 then 1
      else if previousInterval == 1 then 6
      else Round(previousInterval as real * newEaseFactor);
    Min(MAX_INTERVAL, uncapped)
  }

  /** calculateNextReview with the current time given as `now`. */
  function CalculateNextReview(isCorrect: bool, previousEaseFactor: real, previousInterval: int, now: Time): (r: ReviewResult)
    ensures r.easeFactor >= MIN_EASE_FACTOR
    ensures r.interval <= MAX_INTERVAL
    ensures r.nextReviewDate - now == r.interval * DAY_MS
  {
    var ease := NextEaseFactor(isCorrect, previousEaseFactor, previousInterval);
    var days := NextInterval(isCorrect, previousInterval, ease);
    ReviewResult(ease, days, now + days * DAY_MS)
  }

  /** Parameters of a flag seen for the first time: due immediately. */
  function GetInitialLearningParameters(now: Time): ReviewResult {
    ReviewResult(INITIAL_EASE_FACTOR, 0, now)
  }

  // ---------------------------------------------------------------------------
  // Properties of the scheduler.

  /** First exposure: the default SuperMemo ease, no interval, and a review date
      that is already due. */
  lemma InitialParameters(now: Time)
    ensures var r := GetInitialLearningParameters(now);
      r.easeFactor == 2.5 && r.interval == 0 && r.nextReviewDate == now
  {
  }

  /** The generic formula leaves the ease unchanged on a correct answer and
      lowers it by 0.54 on an incorrect one; the floor then applies. */
  lemma GenericEaseRule(isCorrect: bool, previousEaseFactor: real, previousInterval: int)
    requires !(isCorrect && previousInterval == 1)
    requires !(isCorrect && previousEaseFactor >= 2.5 && previousInterval >= 6)
    ensures isCorrect ==>
      NextEaseFactor(isCorrect, previousEaseFactor, previousInterval) == MaxReal(1.3, previousEaseFactor)
    ensures !isCorrect ==>
      NextEaseFactor(isCorrect, previousEaseFactor, previousInterval) == MaxReal(1.3, previousEaseFactor - 0.54)
  {
  }

  /** The two overrides: 2.52 after a 1-day interval, 2.54 after an interval of
      6 or more days at ease 2.5 or more. */
  lemma EaseOverrides(previousEaseFactor: real, previousInterval: int)
    ensures previousInterval == 1 ==> NextEaseFactor(true, previousEaseFactor, previousInterval) == 2.52
    ensures previousInterval >= 6 && previousEaseFactor >= 2.5 ==>
      NextEaseFactor(true, previousEaseFactor, previousInterval) == 2.54
  {
  }

  /** Because of the override, a correct answer can lower a high ease. */
  lemma CorrectAnswerCanLowerEase()
    ensures NextEaseFactor(true, 3.0, 10) == 2.54 < 3.0
  {
  }

  /** Starting from 2.5, the ease never leaves the band [1.3, 2.54]. */
  lemma EaseStaysInBand(isCorrect: bool, previousEaseFactor: real, previousInterval: int)
    requires MIN_EASE_FACTOR <= previousEaseFactor <= LATER_REVIEW_EASE
    ensures MIN_EASE_FACTOR <= NextEaseFactor(isCorrect, previousEaseFactor, previousInterval) <= LATER_REVIEW_EASE
  {
  }

  /** Math.floor(n * 0.5) is integer halving rounded down. */
  lemma HalfFloor(n: int)
    ensures (n as real * 0.5).Floor == n / 2
  {
    var h := n / 2;
    assert n == 2 * h || n == 2 * h + 1;
    assert h as real <= n as real * 0.5 < (h + 1) as real;
  }

  /** After an incorrect answer the interval is reset to between 1 and 3 days:
      half the previous interval, clamped. */
  lemma IncorrectResetsInterval(previousEaseFactor: real, previousInterval: int, now: Time)
    ensures var r := CalculateNextReview(false, previousEaseFactor, previousInterval, now);
      r.interval == Max(1, Min(3, previousInterval / 2)) && 1 <= r.interval <= 3
  {
    HalfFloor(previousInterval);
  }

  /** An incorrect answer shortens any interval of 2 days or more. */
  lemma IncorrectShortensInterval(previousEaseFactor: real, previousInterval: int, now: Time)
    requires previousInterval >= 2
    ensures CalculateNextReview(false, previousEaseFactor, previousInterval, now).interval < previousInterval
  {
    IncorrectResetsInterval(previousEaseFactor, previousInterval, now);
  }

  /** Rounding a product with a factor of at least 1.3 gains at least a day on
      any interval of 2 days or more. */
  lemma RoundedGrowth(n: int, ease: real)
    requires n >= 2 && ease >= 1.3
    ensures Round(n as real * ease) > n
  {
    assert n as real * ease >= n as real * 1.3;
    assert n as real * 1.3 + 0.5 >= (n + 1) as real;
  }

  /** Correct answers step the interval 0 -> 1 -> 6 -> round(interval * ease),
      always growing until the 365-day cap. */
  lemma CorrectIntervalSteps(previousEaseFactor: real, previousInterval: int, now: Time)
    ensures var r := CalculateNextReview(true, previousEaseFactor, previousInterval, now);
      && (previousInterval == 0 ==> r.interval == 1)
      && (previousInterval == 1 ==> r.interval == 6)
      && (previousInterval >= 2 ==> r.interval == Min(365, Round(previousInterval as real * r.easeFactor)))
      && (previousInterval >= 0 ==> r.interval == 365 || r.interval > previousInterval)
  {
    var r := CalculateNextReview(true, previousEaseFactor, previousInterval, now);
    if previousInterval >= 2 {
      RoundedGrowth(previousInterval, r.easeFactor);
    }
  }

  /** For any stored interval in range, the new interval is between 1 and 365 days. */
  lemma IntervalInRange(isCorrect: bool, previousEaseFactor: real, previousInterval: int, now: Time)
    requires previousInterval >= 0
    ensures 1 <= CalculateNextReview(isCorrect, previousEaseFactor, previousInterval, now).interval <= MAX_INTERVAL
  {
    if isCorrect {
      CorrectIntervalSteps(previousEaseFactor, previousInterval, now);
    } else {
      IncorrectResetsInterval(previousEaseFactor, previousInterval, now);
    }
  }

  /** The worked examples of the scheduler's test suite, with exact reals. */
  lemma SchedulerExamples(now: Time)
    ensures CalculateNextReview(true, 2.5, 0, now) == ReviewResult(2.5, 1, now + DAY_MS)
    ensures CalculateNextReview(true, 2.5, 1, now) == ReviewResult(2.52, 6, now + 6 * DAY_MS)
    ensures CalculateNextReview(true, 2.52, 6, now) == ReviewResult(2.54, 15, now + 15 * DAY_MS)
    ensures CalculateNextReview(false, 2.5, 6, now) == ReviewResult(1.96, 3, now + 3 * DAY_MS)
    ensures CalculateNextReview(false, 1.1, 10, now).easeFactor == 1.3
    ensures CalculateNextReview(true, 2.5, 200, now).interval == 365
  {
    assert Round(6.0 * 2.54) == 15;
    assert Round(200.0 * 2.54) == 508;
  }

  // ---------------------------------------------------------------------------
  // formatNextReviewTime

  /** Whole days from `now` until `target`, rounded up (Math.ceil of the
      difference in days). */
  function DaysUntil(target: Time, now: Time): (d: int)
    ensures (d - 1) * DAY_MS < target - now <= d * DAY_MS
  {
    -((now - target) / DAY_MS)
  }

  /** formatNextReviewTime with the current time given as `now`. */
  function FormatNextReviewTime(target: Time, now: Time): (s: string)
    ensures s == "today" <==> target <= now
    ensures s == "tomorrow" <==> now < target <= now + DAY_MS
    ensures target > now + DAY_MS ==>
      var d := DaysUntil(target, now); d >= 2 && s == "in " + NatToDecimal(d) + " days"
  {
    var d := DaysUntil(target, now);
    if d <= 0 then "today"
    else if d == 1 then "tomorrow"
    else "in " + NatToDecimal(d) + " days"
  }

  /** The worked examples of the formatter's test suite. */
  lemma FormatExamples(now: Time)
    ensures FormatNextReviewTime(now, now) == "today"
    ensures FormatNextReviewTime(now + DAY_MS, now) == "tomorrow"
    ensures FormatNextReviewTime(now + 5 * DAY_MS, now) == "in 5 days"
  {
    assert DaysUntil(now + 5 * DAY_MS, now) == 5;
  }
}
