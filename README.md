# SM-2 spaced-repetition scheduler

A Dafny model of the scheduler in `lib/spaced-repetition.ts` of a flashcard
application. The scheduler has three pure operations:

- `calculateNextReview` is the SM-2 transition. It clamps the recall quality
  to 0..5 and updates the easiness factor, with a floor of 1.3. It then
  chooses the next repetition count and interval. A failed review (quality
  below 3) restarts at one day. The first and second successes give 1 and 6
  days. Later successes give `round(prior interval × new easiness)`. The next
  review is that many days after `now`.
- `getDueCards` keeps, in input order, the cards never reviewed and the cards
  whose next-review calendar day is today or earlier.
- `calculateRetentionRate` gives the rounded percentage of correct
  responses. It gives 0 when there were no responses.

Modelling choices:

- The wall clock is a parameter: `now` for a review, `today` for the due filter.
- An instant is an integer count of milliseconds on the local clock, and a
  calendar day is a block of 86 400 000 of them (module `Calendar`).
- `setHours(0, 0, 0, 0)` is `StartOfDay`, and `setDate(getDate() + n)` is
  `AddDays`, which keeps the time of day.
- Easiness is an exact `real`. Quality is an `int`. Repetitions and interval
  are `nat`.
- `Math.round` is `Round(x) = floor(x + 1/2)`: the nearest integer, with halves
  rounded up.
- The defaults of `calculateNextReview` (0 repetitions, easiness 2.5,
  interval 1) are Dafny default parameter values.

Two consequences of the recurrence that are easy to get wrong:

- The comment on `easiness` (lib/spaced-repetition.ts:6) gives its range as
  1.3 to 2.5. The code has no upper bound: a perfect first review already
  gives 2.6 (`EasinessExceedsStartingValue`), and each perfect review adds 0.1
  (`PerfectRunEasiness`). The model follows the code.
- With the easiness held at its starting value of 2.5, three perfect
  reviews would give intervals of 1, 6 and 6 × 2.5 = 15 days. The recurrence
  raises the easiness on every review, so it gives 1, 6 and 17: the easiness
  reaches 2.8, and round(6 × 2.8) = 17 (`ThreePerfectReviews`).

A review history is modelled by `Replay`. It applies `CalculateNextReview`
once per review, and each result replaces the card's state. This is the
intended use that the comment on `repetitions` (lib/spaced-repetition.ts:5,
"successful reviews in a row") assumes. No caller in the repository stores
the result: the review page calls its own copy of the scheduler and only
logs what it returns. `Replay` is used to state what `repetitions` means.

## Model

| member | source | states |
|---|---|---|
| Calendar.DayOf | lib/spaced-repetition.ts:68-69 | the day number d of an instant satisfies d·86 400 000 ≤ t < (d+1)·86 400 000 |
| Calendar.StartOfDay | lib/spaced-repetition.ts:74-75 | `setHours(0,0,0,0)` gives an instant no later than t, in t's day, whose predecessor lies in the previous day, so it is the first instant of the day |
| Calendar.AddDays | lib/spaced-repetition.ts:55-56 | `setDate(getDate()+n)` moves to the day n later and keeps the time of day |
| Calendar.StartOfDayOrder | lib/spaced-repetition.ts:77 | comparing the starts of two days is the same as comparing the day numbers |
| SpacedRepetition.Round | lib/spaced-repetition.ts:50 | `Math.round` returns the integer within half a unit of x, with halves rounded up |
| SpacedRepetition.Clamp | lib/spaced-repetition.ts:27 | the clamped quality lies in [0,5], equals the input inside that range, and is 5 above it and 0 below it |
| SpacedRepetition.NextEasiness | lib/spaced-repetition.ts:30-31 | the new easiness is never below 1.3; it is E + 0.1 − (5−q)(0.08 + 0.02(5−q)) unless that is below 1.3, in which case it is 1.3 |
| SpacedRepetition.GrownInterval | lib/spaced-repetition.ts:49-51 | the later-success interval is within half a day of prior interval × easiness; it is never shorter than the prior interval, and strictly longer once the prior is ≥ 2 |
| SpacedRepetition.CalculateNextReview | lib/spaced-repetition.ts:25-64 | a failure gives 0 repetitions and 1 day; a success gives prior repetitions + 1 and an interval of 1, 6 or the grown interval; the easiness is the clamped-quality update; the next review is `interval` days after `now` |
| SpacedRepetition.QualityIsClamped | lib/spaced-repetition.ts:27 | any quality above 5 schedules exactly like 5, and any below 0 exactly like 0 |
| SpacedRepetition.EasinessDeltaTable | lib/spaced-repetition.ts:30 | easiness changes by +0.1, 0, −0.14, −0.32, −0.54 and −0.8 for qualities 5 down to 0 |
| SpacedRepetition.EasinessMonotoneInQuality | lib/spaced-repetition.ts:27-31 | a higher quality never gives a lower easiness, for any prior easiness |
| SpacedRepetition.EasinessByQuality | lib/spaced-repetition.ts:30-31 | quality 5 adds 0.1 when E ≥ 1.2; quality 4 keeps E when E ≥ 1.3; quality 3 subtracts 0.14 down to the 1.3 floor; a blackout leaves at least 1.3 |
| SpacedRepetition.EasinessExceedsStartingValue | lib/spaced-repetition.ts:30-31 | a perfect first review of a new card gives easiness 2.6, above the 2.5 upper bound in the field's comment |
| SpacedRepetition.FailureResets | lib/spaced-repetition.ts:37-40 | quality < 3 gives 0 repetitions and a 1-day interval, due the next calendar day, whatever the prior state |
| SpacedRepetition.LaterSuccessesGrow | lib/spaced-repetition.ts:49-51 | from the third success on, the interval is round(prior interval × new easiness); it is ≥ the prior interval, ≥ 1 when the prior is, and > the prior when the prior is ≥ 2 |
| SpacedRepetition.ClockOnlyShiftsNextReview | lib/spaced-repetition.ts:55-63 | reviewing at another instant gives the same repetitions, easiness and interval, and the next review moves by exactly the same amount |
| SpacedRepetition.ReviewPreservesValidity | lib/spaced-repetition.ts:25-64 | every produced state has easiness ≥ 1.3 and interval ≥ 1, given a prior interval ≥ 1 or the defaults |
| SpacedRepetition.RepetitionsCountSuccessesInARow | lib/spaced-repetition.ts:37-43 | after any history of reviews, `repetitions` is the number of successes at its end, plus the prior count when none failed |
| SpacedRepetition.ReplayPreservesValidity | lib/spaced-repetition.ts:25-64 | easiness ≥ 1.3 and interval ≥ 1 hold after any history of reviews that starts from a state where they hold |
| SpacedRepetition.PerfectRunEasiness | lib/spaced-repetition.ts:30-31 | n reviews of quality ≥ 5 raise an easiness of at least 1.2 by exactly 0.1·n |
| SpacedRepetition.ThreePerfectReviews | lib/spaced-repetition.ts:41-51 | three perfect reviews of a new card give intervals 1, 6 and 17, 3 repetitions and easiness 2.8 |
| SpacedRepetition.TwoSuccessesThenBlackout | lib/spaced-repetition.ts:37-48 | two perfect reviews then a blackout go from 2 repetitions back to 0 with a 1-day interval |
| SpacedRepetition.DueCards | lib/spaced-repetition.ts:67-79 | the result is a subsequence of the input (order kept) and every card in it is due |
| SpacedRepetition.DueCardsKeepsEveryDueCard | lib/spaced-repetition.ts:71-78 | each due card occurs in the result as often as in the input, and every other card does not occur |
| SpacedRepetition.DueCardsMembership | lib/spaced-repetition.ts:72-77 | a card is selected iff it is in the input and is either new or scheduled for today's calendar day or earlier |
| SpacedRepetition.DueTodayNotTomorrow | lib/spaced-repetition.ts:68-77 | new cards are always selected; a card scheduled at any time today is selected; one scheduled tomorrow is not |
| SpacedRepetition.DueCardsIdempotent | lib/spaced-repetition.ts:71-78 | filtering the due cards a second time changes nothing |
| SpacedRepetition.DueCardsAppend | lib/spaced-repetition.ts:71-78 | filtering a concatenation is concatenating the filtered parts |
| SpacedRepetition.ReviewedCardDueAfterInterval | lib/spaced-repetition.ts:55-77 | a card reviewed at `now` is due exactly from the day `interval` days after the review day, so with interval ≥ 1 it is not due again on the review day |
| SpacedRepetition.RetentionRate | lib/spaced-repetition.ts:82-85 | a total of 0 gives 0; with 0 ≤ correct ≤ total the rate lies in [0,100] |
| SpacedRepetition.RetentionRateIntegerForm | lib/spaced-repetition.ts:84 | for a positive total the rate equals (200·correct + total) div (2·total), an integer-only definition |
| SpacedRepetition.RetentionRateExamples | lib/spaced-repetition.ts:82-85 | (0,0) gives 0, (9,12) gives 75, and (1,8) = 12.5% rounds up to 13 |

## Left out

- The wall clock: `new Date()` in both `calculateNextReview` and `getDueCards` is replaced by the parameters `now` and `today`.
- Time zones and daylight saving: a day is always 86 400 000 ms of local time, so `setDate` and `setHours` near a daylight-saving change are not modelled.
- CalculateNextReview: easiness uses exact real arithmetic, not IEEE-754 doubles. For example, 2.5 + 0.1 + 0.1 + 0.1 is 2.8000000000000003 in doubles. A product that lands exactly on a .5 in exact arithmetic may round differently in doubles.
- CalculateNextReview: quality is an integer and repetitions and interval are natural numbers. A JavaScript `number` also admits fractions and negative values, and those inputs are not modelled.
- RetentionRate: the counts are integers; fractional counts are not modelled, and the real division is exact rather than a double. For example, (29, 200) gives 15 in the model, but in doubles 29 / 200 × 100 is 14.499999999999998, so the source gives 14.
- DueCards: a review record whose `nextReview` is missing is not modelled, because the record's type always has one. The source treats such a card as due.
- `Card.id`, `front` and `back` are carried as strings and not checked. Checking them belongs to the card-authoring pages.
- The review page's own simplified copy of the scheduler (app/review/[deckId]/page.tsx) is not part of this model. It maps every quality to 0 or 5.
- The statistics page's inline retention formula is not part of this model. It repeats the percentage without the zero-total guard.
- The other page components are presentation over sample data and are not part of this model.
