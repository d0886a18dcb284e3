/** The SM-2 spaced-repetition scheduler: the transition that computes a
    card's next review state from a recall quality, the filter that selects
    the cards due today, and the retention-rate percentage.

    The clock is a parameter (`now`, `today`), easiness is an exact `real`,
    and `Math.round` is rounding to the nearest integer with halves going up.
 */
module SpacedRepetition {

  import opened Calendar

  datatype Option<T> = None | Some(value: T)

  /** The scheduling state stored with a reviewed card. */
  datatype ReviewData = ReviewData(
    repetitions: nat,    // successful reviews in a row
    easiness: real,      // easiness factor
    interval: nat,       // days from the review to the next one
    nextReview: Instant  // when the card is next due
  )

  /** A flashcard; `reviewData` is None for a card never reviewed. */
  datatype Card = Card(id: string, front: string, back: string, reviewData: Option<ReviewData>)

  const MinEasiness: real := 1.3

  /** The lowest quality that counts as a successful recall. */
  const PassingQuality: int := 3

  // ---------------------------------------------------------------------
  // Arithmetic the scheduler is built from
  // ---------------------------------------------------------------------

  /** `Math.round`: the integer nearest to x, halves rounded up. */
  function Round(x: real): (n: int)
    ensures n as real - 0.5 <= x < n as real + 0.5
  {
    (x + 0.5).Floor
  }

  /** Round is determined by its contract: the nearest integer is unique. */
  lemma RoundUnique(x: real, m: int)
    requires m as real - 0.5 <= x < m as real + 0.5
    ensures Round(x) == m
  {
  }

  /** `Math.max(0, Math.min(5, quality))`. */
  function Clamp(quality: int): (q: int)
    ensures 0 <= q <= 5
    ensures 0 <= quality <= 5 ==> q == quality
    ensures quality > 5 ==> q == 5
    ensures quality < 0 ==> q == 0
  {
    if quality < 0 then 0 else if quality > 5 then 5 else quality
  }

  /** The SM-2 change in easiness for a clamped quality q. */
  function EasinessDelta(q: int): real
  {
    0.1 - (5 - q) as real * (0.08 + (5 - q) as real * 0.02)
  }

  /** The easiness after a review of quality q: the SM-2 update, floored at 1.3. */
  function NextEasiness(easiness: real, q: int): (e: real)
    ensures e >= MinEasiness
    ensures e >= easiness + EasinessDelta(q)
    ensures e == easiness + EasinessDelta(q) || e == MinEasiness
  {
    var e := easiness + EasinessDelta(q);
    if e < MinEasiness then MinEasiness else e
  }

  /** The interval after the third and later successes: the prior interval
      scaled by the new easiness and rounded. It never shrinks, and from a
      prior interval of two days on it strictly grows. */
  function GrownInterval(interval: nat, easiness: real): (n: nat)
    requires easiness >= MinEasiness
    ensures n as real - 0.5 <= interval as real * easiness < n as real + 0.5
    ensures n >= interval
    ensures interval >= 2 ==> n > interval
  {
    var x := interval as real * easiness;
    assert x >= interval as real * MinEasiness;
    Round(x)
  }

  // ---------------------------------------------------------------------
  // calculateNextReview
  // ---------------------------------------------------------------------

  /** The review state after a review of the given quality at instant `now`,
      from the prior repetitions, easiness and interval (the defaults are
      those of a card never reviewed). */
  function CalculateNextReview(now: Instant, quality: int, repetitions: nat := 0,
                               easiness: real := 2.5, interval: nat := 1): (d: ReviewData)
    ensures d.easiness == NextEasiness(easiness, Clamp(quality))
    ensures quality < PassingQuality ==> d.repetitions == 0 && d.interval == 1
    ensures quality >= PassingQuality ==> d.repetitions == repetitions + 1
    ensures quality >= PassingQuality && repetitions == 0 ==> d.interval == 1
    ensures quality >= PassingQuality && repetitions == 1 ==> d.interval == 6
    ensures quality >= PassingQuality && repetitions >= 2 ==>
              d.interval == GrownInterval(interval, d.easiness)
    ensures d.nextReview == AddDays(now, d.interval)
  {
    var q := Clamp(quality);
    var newEasiness := NextEasiness(easiness, q);
    var newRepetitions: nat := if q < PassingQuality then 0 else repetitions + 1;
    var newInterval: nat :=
      if q < PassingQuality then 1
      else if newRepetitions == 1 then 1
      else if newRepetitions == 2 then 6
      else GrownInterval(interval, newEasiness);
    ReviewData(newRepetitions, newEasiness, newInterval, AddDays(now, newInterval))
  }

  /** Quality is clamped to [0, 5]: any quality above 5 schedules like 5
      and any quality below 0 like 0. */
  lemma QualityIsClamped(now: Instant, quality: int, repetitions: nat, easiness: real, interval: nat)
    ensures CalculateNextReview(now, quality, repetitions, easiness, interval)
         == CalculateNextReview(now, Clamp(quality), repetitions, easiness, interval)
    ensures quality > 5 ==>
              CalculateNextReview(now, quality, repetitions, easiness, interval)
              == CalculateNextReview(now, 5, repetitions, easiness, interval)
    ensures quality < 0 ==>
              CalculateNextReview(now, quality, repetitions, easiness, interval)
              == CalculateNextReview(now, 0, repetitions, easiness, interval)
  {
  }

  /** The change in easiness for each quality, as a table. */
  lemma EasinessDeltaTable()
    ensures EasinessDelta(5) == 0.1
    ensures EasinessDelta(4) == 0.0
    ensures EasinessDelta(3) == -0.14
    ensures EasinessDelta(2) == -0.32
    ensures EasinessDelta(1) == -0.54
    ensures EasinessDelta(0) == -0.8
  {
  }

  /** A better recall never yields a lower easiness. */
  lemma EasinessMonotoneInQuality(easiness: real, q1: int, q2: int)
    requires q1 <= q2
    ensures NextEasiness(easiness, Clamp(q1)) <= NextEasiness(easiness, Clamp(q2))
  {
    EasinessDeltaTable();
    var c1, c2 := Clamp(q1), Clamp(q2);
    assert c1 <= c2;
    assert c1 == 0 || c1 == 1 || c1 == 2 || c1 == 3 || c1 == 4 || c1 == 5;
    assert c2 == 0 || c2 == 1 || c2 == 2 || c2 == 3 || c2 == 4 || c2 == 5;
  }

  /** Quality 5 adds 0.1 to an easiness of at least 1.2; quality 4 leaves an
      easiness of at least 1.3 unchanged; quality 3 takes off 0.14 down to
      the floor; a failed review of any prior easiness leaves at least 1.3. */
  lemma EasinessByQuality(now: Instant, repetitions: nat, easiness: real, interval: nat)
    ensures easiness >= 1.2 ==>
              CalculateNextReview(now, 5, repetitions, easiness, interval).easiness == easiness + 0.1
    ensures easiness >= MinEasiness ==>
              CalculateNextReview(now, 4, repetitions, easiness, interval).easiness == easiness
    ensures CalculateNextReview(now, 3, repetitions, easiness, interval).easiness
         == (if easiness - 0.14 < MinEasiness then MinEasiness else easiness - 0.14)
    ensures CalculateNextReview(now, 0, repetitions, easiness, interval).easiness >= MinEasiness
  {
  }

  /** The easiness factor has no upper bound: a perfect review of a new
      card already takes it above its starting value of 2.5. */
  lemma EasinessExceedsStartingValue(now: Instant)
    ensures CalculateNextReview(now, 5).easiness == 2.6
  {
  }

  /** A failed review restarts the schedule at one day, whatever the prior state. */
  lemma FailureResets(now: Instant, quality: int, repetitions: nat, easiness: real, interval: nat)
    requires quality < PassingQuality
    ensures var d := CalculateNextReview(now, quality, repetitions, easiness, interval);
            d.repetitions == 0 && d.interval == 1 && DayOf(d.nextReview) == DayOf(now) + 1
  {
  }

  /** From the third success on, the interval is at least the prior one
      (never below one day if the prior was not) and strictly longer once the
      prior interval is two days or more. */
  lemma LaterSuccessesGrow(now: Instant, quality: int, repetitions: nat, easiness: real, interval: nat)
    requires quality >= PassingQuality && repetitions >= 2
    ensures var d := CalculateNextReview(now, quality, repetitions, easiness, interval);
            && d.repetitions >= 3
            && d.interval >= interval
            && (interval >= 1 ==> d.interval >= 1)
            && (interval >= 2 ==> d.interval > interval)
            && d.interval as real - 0.5 <= interval as real * d.easiness < d.interval as real + 0.5
  {
  }

  /** The calendar fixes only the next-review instant: reviewing the same
      state at another instant gives the same repetitions, easiness and
      interval, and a next review shifted by exactly the same amount. */
  lemma ClockOnlyShiftsNextReview(now1: Instant, now2: Instant, quality: int,
                                  repetitions: nat, easiness: real, interval: nat)
    ensures var d1 := CalculateNextReview(now1, quality, repetitions, easiness, interval);
            var d2 := CalculateNextReview(now2, quality, repetitions, easiness, interval);
            && d1.repetitions == d2.repetitions
            && d1.easiness == d2.easiness
            && d1.interval == d2.interval
            && d2.nextReview - d1.nextReview == now2 - now1
  {
  }

  // ---------------------------------------------------------------------
  // The invariant of stored review data
  // ---------------------------------------------------------------------

  /** Every review state the scheduler stores has easiness at least 1.3 and
      an interval of at least one day. */
  predicate ValidReviewData(d: ReviewData)
  {
    d.easiness >= MinEasiness && d.interval >= 1
  }

  /** A review keeps the invariant, from any prior state with an interval of
      at least a day; so does the first review of a new card. */
  lemma ReviewPreservesValidity(now: Instant, quality: int, repetitions: nat, easiness: real, interval: nat)
    requires interval >= 1
    ensures ValidReviewData(CalculateNextReview(now, quality, repetitions, easiness, interval))
    ensures ValidReviewData(CalculateNextReview(now, quality))
  {
  }

  // ---------------------------------------------------------------------
  // A card's review history
  // ---------------------------------------------------------------------

  /** One review: the instant it took place and the quality given. */
  datatype Review = Review(at: Instant, quality: int)

  /** The state a caller stores after a sequence of reviews, each result
      replacing the previous one. */
  function Replay(prior: ReviewData, reviews: seq<Review>): ReviewData
  {
    if reviews == [] then prior
    else
      var d := Replay(prior, reviews[..|reviews| - 1]);
      var r := reviews[|reviews| - 1];
      CalculateNextReview(r.at, r.quality, d.repetitions, d.easiness, d.interval)
  }

  /** The number of successful reviews at the end of the history. */
  function TrailingSuccesses(reviews: seq<Review>): nat
  {
    if reviews == [] || reviews[|reviews| - 1].quality < PassingQuality then 0
    else 1 + TrailingSuccesses(reviews[..|reviews| - 1])
  }

  /** `repetitions` is the number of successful reviews in a row: the
      successes at the end of the history, plus the prior count when no
      review in the history failed. */
  lemma {:induction false} RepetitionsCountSuccessesInARow(prior: ReviewData, reviews: seq<Review>)
    ensures Replay(prior, reviews).repetitions
         == TrailingSuccesses(reviews)
            + (if TrailingSuccesses(reviews) == |reviews| then prior.repetitions else 0)
  {
    if reviews != [] {
      RepetitionsCountSuccessesInARow(prior, reviews[..|reviews| - 1]);
    }
  }

  /** The invariant holds after any history that starts from a valid state. */
  lemma {:induction false} ReplayPreservesValidity(prior: ReviewData, reviews: seq<Review>)
    requires ValidReviewData(prior)
    ensures ValidReviewData(Replay(prior, reviews))
  {
    if reviews != [] {
      ReplayPreservesValidity(prior, reviews[..|reviews| - 1]);
      var d := Replay(prior, reviews[..|reviews| - 1]);
      var r := reviews[|reviews| - 1];
      ReviewPreservesValidity(r.at, r.quality, d.repetitions, d.easiness, d.interval);
    }
  }

  /** A run of perfect reviews raises the easiness by 0.1 each. */
  lemma {:induction false} PerfectRunEasiness(prior: ReviewData, reviews: seq<Review>)
    requires prior.easiness >= 1.2
    requires forall i :: 0 <= i < |reviews| ==> reviews[i].quality >= 5
    ensures Replay(prior, reviews).easiness == prior.easiness + 0.1 * |reviews| as real
  {
    if reviews != [] {
      PerfectRunEasiness(prior, reviews[..|reviews| - 1]);
      var d := Replay(prior, reviews[..|reviews| - 1]);
      var r := reviews[|reviews| - 1];
      EasinessByQuality(r.at, d.repetitions, d.easiness, d.interval);
      QualityIsClamped(r.at, r.quality, d.repetitions, d.easiness, d.interval);
    }
  }

  /** Three perfect reviews of a new card give intervals of 1, 6 and then
      round(6 * 2.8) = 17 days. */
  lemma ThreePerfectReviews(t1: Instant, t2: Instant, t3: Instant)
    ensures var d1 := CalculateNextReview(t1, 5);
            var d2 := CalculateNextReview(t2, 5, d1.repetitions, d1.easiness, d1.interval);
            var d3 := CalculateNextReview(t3, 5, d2.repetitions, d2.easiness, d2.interval);
            && d1.interval == 1 && d2.interval == 6 && d3.interval == 17
            && d3.repetitions == 3 && d3.easiness == 2.8
  {
  }

  /** Two perfect reviews then a blackout: back to zero repetitions and one day. */
  lemma TwoSuccessesThenBlackout(t1: Instant, t2: Instant, t3: Instant)
    ensures var d1 := CalculateNextReview(t1, 5);
            var d2 := CalculateNextReview(t2, 5, d1.repetitions, d1.easiness, d1.interval);
            var d3 := CalculateNextReview(t3, 0, d2.repetitions, d2.easiness, d2.interval);
            && d2.repetitions == 2 && d3.repetitions == 0 && d3.interval == 1
  {
  }

  // ---------------------------------------------------------------------
  // getDueCards
  // ---------------------------------------------------------------------

  /** A card is due when it was never reviewed, or when the start of its
      next-review day is no later than the start of today. */
  predicate IsDue(card: Card, today: Instant)
  {
    match card.reviewData
    case None => true
    case Some(d) => StartOfDay(d.nextReview) <= StartOfDay(today)
  }

  /** `a` is `b` with some elements removed, the rest in their order. */
  ghost predicate IsSubsequence<T>(a: seq<T>, b: seq<T>)
    decreases |b|
  {
    a == [] || (b != [] && ((a[0] == b[0] && IsSubsequence(a[1..], b[1..])) || IsSubsequence(a, b[1..])))
  }

  /** The cards due today, in their input order: a subsequence of the
      input made of due cards only. */
  function DueCards(cards: seq<Card>, today: Instant): (due: seq<Card>)
    ensures IsSubsequence(due, cards)
    ensures forall i :: 0 <= i < |due| ==> IsDue(due[i], today)
  {
    if cards == [] then []
    else
      var rest := DueCards(cards[1..], today);
      if IsDue(cards[0], today) then [cards[0]] + rest else rest
  }

  /** The selection drops no due card: every occurrence of a due card is
      kept, and no occurrence of any other. */
  lemma {:induction false} DueCardsKeepsEveryDueCard(cards: seq<Card>, today: Instant, c: Card)
    ensures multiset(DueCards(cards, today))[c] == (if IsDue(c, today) then multiset(cards)[c] else 0)
  {
    if cards != [] {
      assert cards == [cards[0]] + cards[1..];
      DueCardsKeepsEveryDueCard(cards[1..], today, c);
    }
  }

  /** Membership in calendar-day terms: a card is selected iff it is in the
      input and is new or scheduled for today or an earlier day. */
  lemma DueCardsMembership(cards: seq<Card>, today: Instant, c: Card)
    ensures c in DueCards(cards, today)
        <==> c in cards && (c.reviewData.None? || DayOf(c.reviewData.value.nextReview) <= DayOf(today))
  {
  }

  /** New cards are always selected; a card scheduled at any time today is
      selected and one scheduled at any time tomorrow is not. */
  lemma DueTodayNotTomorrow(cards: seq<Card>, today: Instant, c: Card)
    requires c in cards
    ensures c.reviewData.None? ==> c in DueCards(cards, today)
    ensures (c.reviewData.Some? && DayOf(c.reviewData.value.nextReview) == DayOf(today))
              ==> c in DueCards(cards, today)
    ensures (c.reviewData.Some? && DayOf(c.reviewData.value.nextReview) == DayOf(today) + 1)
              ==> c !in DueCards(cards, today)
  {
  }

  /** Selecting again selects nothing more: the due cards are all due. */
  lemma {:induction false} DueCardsIdempotent(cards: seq<Card>, today: Instant)
    ensures DueCards(DueCards(cards, today), today) == DueCards(cards, today)
  {
    if cards != [] {
      DueCardsIdempotent(cards[1..], today);
    }
  }

  /** Selecting from two lists of cards is selecting from each in turn. */
  lemma {:induction false} DueCardsAppend(a: seq<Card>, b: seq<Card>, today: Instant)
    ensures DueCards(a + b, today) == DueCards(a, today) + DueCards(b, today)
  {
    if a != [] {
      var ab := a + b;
      assert ab != [] && ab[0] == a[0] && ab[1..] == a[1..] + b;
      DueCardsAppend(a[1..], b, today);
      if IsDue(a[0], today) {
        calc {
          DueCards(ab, today);
          [a[0]] + DueCards(a[1..] + b, today);
          [a[0]] + (DueCards(a[1..], today) + DueCards(b, today));
          ([a[0]] + DueCards(a[1..], today)) + DueCards(b, today);
        }
      }
    } else {
      assert a + b == b;
    }
  }

  /** A card just reviewed at `now` is due again exactly from the day that
      lies `interval` days after the review day; with an interval of a day
      or more it is never due again on the review day itself. */
  lemma ReviewedCardDueAfterInterval(card: Card, now: Instant, today: Instant, quality: int,
                                     repetitions: nat, easiness: real, interval: nat)
    ensures var d := CalculateNextReview(now, quality, repetitions, easiness, interval);
            && (IsDue(card.(reviewData := Some(d)), today) <==> DayOf(today) >= DayOf(now) + d.interval)
            && (d.interval >= 1 && DayOf(today) == DayOf(now) ==> !IsDue(card.(reviewData := Some(d)), today))
  {
  }

  // ---------------------------------------------------------------------
  // calculateRetentionRate
  // ---------------------------------------------------------------------

  /** The rounded percentage of correct responses; 0 when there were none. */
  function RetentionRate(correct: int, total: int): (rate: int)
    ensures total == 0 ==> rate == 0
    ensures 0 <= correct <= total ==> 0 <= rate <= 100
  {
    if total == 0 then 0
    else
      var x := correct as real / total as real * 100.0;
      assert 0 <= correct <= total ==> 0.0 <= x <= 100.0;
      Round(x)
  }

  /** For a positive total the rate is the integer quotient
      (200 * correct + total) div (2 * total), computed without reals. */
  lemma RetentionRateIntegerForm(correct: int, total: int)
    requires total > 0
    ensures RetentionRate(correct, total) == (200 * correct + total) / (2 * total)
  {
    var n := 100 * correct;
    assert correct as real / total as real * 100.0 == n as real / total as real;
    NearestQuotient(n, total);
    RoundUnique(n as real / total as real, (2 * n + total) / (2 * total));
  }

  /** (2n + m) div 2m is the integer nearest to n / m, halves rounded up. */
  lemma NearestQuotient(n: int, m: int)
    requires m > 0
    ensures var q := (2 * n + m) / (2 * m);
            q as real - 0.5 <= n as real / m as real < q as real + 0.5
  {
    var q := (2 * n + m) / (2 * m);
    var r := (2 * n + m) % (2 * m);
    assert 2 * n + m == 2 * m * q + r && 0 <= r < 2 * m;
    var k := q * m;
    assert 2 * n == 2 * k + r - m;
    var y := n as real / m as real;
    assert y * m as real == n as real;
    assert q as real * m as real == k as real;
    assert (q as real - 0.5) * m as real == k as real - 0.5 * m as real;
    assert (q as real + 0.5) * m as real == k as real + 0.5 * m as real;
    ScaleCancel(q as real - 0.5, y, q as real + 0.5, m as real);
  }

  /** Dividing out a positive factor keeps the bounds. */
  lemma ScaleCancel(lo: real, y: real, hi: real, m: real)
    requires m > 0.0 && lo * m <= y * m < hi * m
    ensures lo <= y < hi
  {
  }

  /** Worked values: no responses gives 0, 9 of 12 gives 75, 1 of 8
      (12.5%) rounds up to 13. */
  lemma RetentionRateExamples()
    ensures RetentionRate(0, 0) == 0
    ensures RetentionRate(9, 12) == 75
    ensures RetentionRate(1, 8) == 13
  {
  }
}
