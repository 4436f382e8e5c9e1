# A verified model of the pivotr site's client-side logic

This project is a Dafny model of the behaviour behind the marketing site's interactive parts.
It has five parts, with proofs about each:

- **The live metrics ticker** (`src/components/hero/LiveMetricsTicker.client.tsx`). It makes
  plausible "live" operations numbers with no backend. The ticker hashes seed strings with
  `xmur3` and draws from three `sfc32` generators: one seeded by the 5-second bucket, one by
  the India Standard Time (IST) day and one by the IST month. It turns the draws into seven
  metric items. Each displayed number eases towards its latest value once per animation frame.
- **The typewriter hook** (`src/hooks/use-typewriter.ts`). It types, pauses on, and deletes a
  list of words, one character per timer tick.
- **The character reveal** of the about paragraph (`src/components/about/AboutParagraph.client.tsx`).
  Once the paragraph has been seen, it shows one more character every 25 ms.
- **The ROI calculator** (`src/components/ROICalculator.tsx`). It turns six inputs into eight
  result slots. It animates each result with an eased count-up, and it disables its stepper
  buttons at the bounds.
- **The client logo rows** (`src/components/ClientSection.tsx`). The client list is split into
  two rows, which are repeated in two marquee strips.

Modules:

| file | module | models |
|---|---|---|
| `wrappers.dfy` | `Wrappers` | `Option`, standing for `null` and `NaN` |
| `arith.dfy` | `Arith` | two facts about Euclidean division |
| `decimal.dfy` | `Decimal` | integer-to-text rendering (`toString`, template literals) and `padStart(2, "0")` |
| `seeded_rng.dfy` | `SeededRng` | `xmur3`, `sfc32`, `rngFromSeed` and UTF-16 code units |
| `time_bucket.dfy` | `TimeBucket` | `getBucket` and the delay in `scheduleNextBucket` |
| `ist_time.dfy` | `IstTime` | the ECMA-262 calendar of a time value; `istDayKey`, `istMonthKey`, `istFractionOfDay` |
| `metrics.dfy` | `Metrics` | `clamp`, `clamp01`, `easeInOutSine`, `computeDeterministicMetrics` |
| `animated_number.dfy` | `AnimatedNumber` | the frame step of `useAnimatedNumber` |
| `typewriter.dfy` | `Typewriter` | `useTypewriter` |
| `about_paragraph.dfy` | `AboutParagraph` | the reveal effect and the visibility latch |
| `roi_calculator.dfy` | `RoiCalculator` | `clampNumber`, `calculate`, `useCountUp` and the stepper predicates |
| `client_section.dfy` | `ClientSection` | the row split, the two strips and their keys |

Modelling choices:

- **32-bit words are integers in [0, 2^32).** This reads the bits as unsigned.
  - `Math.imul` and `+ … | 0` are arithmetic modulo 2^32.
  - `>>>` is division by a power of two.
  - A rotation is the sum of two bit ranges that do not overlap.
  - `^` is `XorBits`, an exclusive-or defined bit by bit.
  - JavaScript's signed results have the same bits, so the unsigned reading loses nothing.
- **`sfc32` is modelled as the code writes it.** The output is `t = a + b`. The counter `d` is
  incremented but never added in, and `OutputsIgnoreD` proves that `d` has no influence.
- **The calendar follows ECMA-262, section 21.4.1.**
  - `DayFromYear` is defined year by year from 1970. `DayFromYearFormula` proves it equal to
    the standard's closed form.
  - YearFromTime is a search for the only year that contains the day.
  - `new Date(v)` gives an invalid date when `|v| > 8.64e15`, as TimeClip (section 21.4.1.31)
    says. The model keeps this case:
    - each key then reads `NaN-NaN-NaN` or `NaN-NaN`;
    - the fraction of the day and the invoice and latency values are `None`.
- **Numbers are reals.**
  - `Math.sin` and `Math.cos` are function parameters. Bounds that depend on their range
    require `Bounded`.
  - `Math.floor(rng() * k)` is the integer quotient `(w * k) div 2^32`. `ScaledDraw` proves it
    equal to the floor of the real product.
- **The ROI inputs are already numbers.** The string parsing is not modelled: each input is
  given as a `JsNumber`, which is finite, an infinity, or NaN.
- **State that the source changes in place is a class.**
  - The ticker's closures: `Xmur3`, `Sfc32`.
  - The easing state: `AnimatedDisplay`.
  - The hooks: `TypewriterHook`, `Paragraph`, `CountUp`.
  - The eight ROI result slots: `Results`.
  - Each method is tied to a pure function of the old state. The properties are lemmas about
    those functions.

Points of the ticker's code that the model keeps as written:

- On-prem instances are 30 to 69, cloud instances 15 to 44, and the module multiplier is 2 to 7.
- The invoice count is a plain `Math.floor` of target × progress, clamped at zero, with no
  tolerance added before the floor.
- `useAnimatedNumber` ignores the reduced-motion preference and always eases.
- A time outside ±8.64e15 after the IST shift is not rejected. It gives `NaN` keys and `NaN`
  invoice and latency values.

## Model

| member | source | states |
|---|---|---|
| SeededRng.CodeUnits | src/components/hero/LiveMetricsTicker.client.tsx:232 | a character below U+10000 is one code unit equal to itself; a character above is a surrogate pair |
| SeededRng.Utf16 | src/components/hero/LiveMetricsTicker.client.tsx:230-232 | a string has between one and two UTF-16 code units per character |
| SeededRng.Utf16OfBmp | src/components/hero/LiveMetricsTicker.client.tsx:230-232 | for a string of characters below U+10000, `str.length` is the character count and `charCodeAt(i)` is the i-th character |
| SeededRng.XmurState | src/components/hero/LiveMetricsTicker.client.tsx:229-234 | definition: the hash the loop leaves, `Absorb` of every code unit from `1779033703 ^ length`; properties in `AbsorbSnoc` and `Xmur3.constructor` |
| SeededRng.Mix | src/components/hero/LiveMetricsTicker.client.tsx:236-238 | definition: the fmix32 finaliser of one `seed()` call; tied to the closure by `Xmur3.Next` |
| SeededRng.AbsorbSnoc | src/components/hero/LiveMetricsTicker.client.tsx:231-234 | folding in one more code unit is one more multiply-and-rotate step on the carried hash |
| SeededRng.Xmur3.constructor | src/components/hero/LiveMetricsTicker.client.tsx:229-234 | the loop leaves the hash of `1779033703 ^ length` with every code unit folded in, first unit first; defined for every string, the empty one included |
| SeededRng.Xmur3.Next | src/components/hero/LiveMetricsTicker.client.tsx:235-239 | each call applies the fmix32 finaliser to the carried state, stores the result as the new state and returns it |
| SeededRng.Output | src/components/hero/LiveMetricsTicker.client.tsx:248 | definition: `t = (a + b) | 0` of the captured state; properties in `StepIgnoresD`, `OutputsAt` |
| SeededRng.StepState | src/components/hero/LiveMetricsTicker.client.tsx:249-253 | definition: the four captured words after one call; tied to the closure by `Sfc32.Next` |
| SeededRng.Iterate | src/components/hero/LiveMetricsTicker.client.tsx:243-255 | definition: the captured words after `i` calls |
| SeededRng.Unit | src/components/hero/LiveMetricsTicker.client.tsx:254 | the scaled output lies in [0, 1) and is exactly the word divided by 2^32 |
| SeededRng.Outputs | src/components/hero/LiveMetricsTicker.client.tsx:242-256 | n calls return n words, the first being `a + b` of the current state; the whole stream is described by `OutputsAt` and `OutputsPrefix` |
| SeededRng.Sfc32.constructor | src/components/hero/LiveMetricsTicker.client.tsx:242 | the closure captures the four seed words as its state, in argument order |
| SeededRng.Sfc32.Next | src/components/hero/LiveMetricsTicker.client.tsx:243-255 | one call moves the four captured words to `StepState` of the old ones and returns `(a + b mod 2^32) / 2^32` of the old state |
| SeededRng.OutputsAt | src/components/hero/LiveMetricsTicker.client.tsx:243-255 | the `i`-th call returns `a + b` of the state after `i` earlier calls |
| SeededRng.OutputsPrefix | src/components/hero/LiveMetricsTicker.client.tsx:243-255 | later calls never change earlier results: `m` calls return the first `m` of the words of `n >= m` calls |
| SeededRng.StepIgnoresD | src/components/hero/LiveMetricsTicker.client.tsx:248-253 | the new `a`, `b`, `c` and the output of a call depend only on the old `a`, `b`, `c` |
| SeededRng.OutputsIgnoreD | src/components/hero/LiveMetricsTicker.client.tsx:242-256 | two generators that differ only in `d` return the same words for any number of calls |
| SeededRng.SeedState | src/components/hero/LiveMetricsTicker.client.tsx:259-260 | definition: the four finalised hashes passed to `sfc32`, in argument order; tied to the method by `RngFromSeed` |
| SeededRng.Draws | src/components/hero/LiveMetricsTicker.client.tsx:258-261 | the first n draws of a seeded generator are n words |
| SeededRng.DrawsStream | src/components/hero/LiveMetricsTicker.client.tsx:258-261 | the `i`-th draw of a seeded generator is the output after `i` calls from the seed state, and more draws never change earlier ones |
| SeededRng.RngFromSeed | src/components/hero/LiveMetricsTicker.client.tsx:258-261 | the new generator starts from the first four finalised hashes of the seed string, in argument order |
| TimeBucket.GetBucket | src/components/hero/LiveMetricsTicker.client.tsx:263-265 | the bucket is a multiple of the bucket length with `bucket <= now < bucket + bucketMs` |
| TimeBucket.BucketUnique | src/components/hero/LiveMetricsTicker.client.tsx:263-265 | any multiple of the length in `(now - bucketMs, now]` is the bucket |
| TimeBucket.BucketIdempotent | src/components/hero/LiveMetricsTicker.client.tsx:263-265 | the bucket of a bucket start is itself |
| TimeBucket.BucketMonotone | src/components/hero/LiveMetricsTicker.client.tsx:263-265 | later times never fall in earlier buckets |
| TimeBucket.NextBucketDelay | src/components/hero/LiveMetricsTicker.client.tsx:267-270 | the delay is in (0, bucketMs] and ends on a bucket boundary, the start of the next bucket |
| TimeBucket.DelayIsFirstBoundary | src/components/hero/LiveMetricsTicker.client.tsx:268-274 | every time before the delay runs out is still in the current bucket |
| Decimal.NatToDecimal | src/components/hero/LiveMetricsTicker.client.tsx:284-286 | the rendering is at least one digit, all digits, with no leading zero |
| Decimal.DecimalRoundTrip | src/components/hero/LiveMetricsTicker.client.tsx:284-286 | reading back the rendering of n gives n |
| Decimal.DecimalInjective | src/components/hero/LiveMetricsTicker.client.tsx:284-286 | different numbers have different renderings |
| Decimal.IntToDecimal | src/components/hero/LiveMetricsTicker.client.tsx:312 | a leading minus exactly for negative numbers, followed by the digits of the magnitude |
| Decimal.Pad2 | src/components/hero/LiveMetricsTicker.client.tsx:284-285 | `padStart(2, "0")` gives two digits below 100 with the same value, and leaves longer renderings alone |
| IstTime.DayFromYearFormula | src/components/hero/LiveMetricsTicker.client.tsx:278-283 | counting years from 1970 gives ECMA-262's closed form of DayFromYear |
| IstTime.DayFromYearMonotone | src/components/hero/LiveMetricsTicker.client.tsx:283 | later years start at least 365 days per year later |
| IstTime.YearFromDay | src/components/hero/LiveMetricsTicker.client.tsx:283 | the year found contains the day |
| IstTime.YearFromDayUnique | src/components/hero/LiveMetricsTicker.client.tsx:283 | only one year contains a day, so the year found is YearFromTime's "largest year starting on or before" |
| IstTime.DaysInMonth | src/components/hero/LiveMetricsTicker.client.tsx:284-285 | every month has 28 to 31 days |
| IstTime.MonthFromDayInYear | src/components/hero/LiveMetricsTicker.client.tsx:284 | the month found is in 0..11 and contains the day of the year |
| IstTime.MonthUnique | src/components/hero/LiveMetricsTicker.client.tsx:284 | only one month contains a day of the year |
| IstTime.CivilInYear | src/components/hero/LiveMetricsTicker.client.tsx:283-285 | a day of year y gives a valid date in year y whose month start plus date minus one is that day |
| IstTime.CivilFromDay | src/components/hero/LiveMetricsTicker.client.tsx:283-285 | the year, month and date fields of a day number form a valid date whose day number is that day |
| IstTime.CivilRoundTrip | src/components/hero/LiveMetricsTicker.client.tsx:283-285 | from a valid date to its day number and back gives the same date |
| IstTime.DayInYearRange | src/components/hero/LiveMetricsTicker.client.tsx:283-285 | the day within its year of a valid date lies in that year |
| IstTime.CivilInYearRoundTrip | src/components/hero/LiveMetricsTicker.client.tsx:283-285 | the date found from a valid date's day within its year is that date |
| IstTime.CivilFromDayInjective | src/components/hero/LiveMetricsTicker.client.tsx:283-285 | different days have different dates |
| IstTime.SecondsOfDay | src/components/hero/LiveMetricsTicker.client.tsx:296-299 | `h * 3600 + min * 60 + sec` is the whole seconds since midnight, in [0, 86400) |
| IstTime.IstTimeValue | src/components/hero/LiveMetricsTicker.client.tsx:277-280 | the shifted date is valid exactly when `ms + 19800000` is within ±8.64e15, and its time value is then `ms + 19800000` |
| IstTime.IstCivil | src/components/hero/LiveMetricsTicker.client.tsx:278-285 | definition: the UTC year, month and date of the shifted time, or none for an invalid date; properties in `CivilFromDay`, `CivilRoundTrip` |
| IstTime.IstDayKey | src/components/hero/LiveMetricsTicker.client.tsx:281-287 | definition: `${y}-${m}-${dd}` of the shifted date, `NaN-NaN-NaN` for an invalid one; properties in `DayKeyIdentifiesIstDay`, `MonthKeyIsDayKeyPrefix`, `DayKeyFields` |
| IstTime.IstMonthKey | src/components/hero/LiveMetricsTicker.client.tsx:288-293 | definition: `${y}-${m}` of the shifted date, `NaN-NaN` for an invalid one; properties in `MonthKeyIdentifiesIstMonth` |
| IstTime.DayTextShape | src/components/hero/LiveMetricsTicker.client.tsx:281-293 | a date's day text is its month text followed by `-` and two digits |
| IstTime.MonthKeyIsDayKeyPrefix | src/components/hero/LiveMetricsTicker.client.tsx:281-293 | the month key is a proper prefix of the day key, followed by `-`; for valid dates the day key is three characters longer |
| IstTime.DayKeyFields | src/components/hero/LiveMetricsTicker.client.tsx:284-286 | the day key ends in the two-digit month (1-based) and the two-digit date |
| IstTime.CivilFieldRanges | src/components/hero/LiveMetricsTicker.client.tsx:284-285 | a valid date shows a month from 1 to 12 and a date from 1 to 31 |
| IstTime.DayTextInjective | src/components/hero/LiveMetricsTicker.client.tsx:281-287 | different dates have different day texts |
| IstTime.IntToDecimalInjective | src/components/hero/LiveMetricsTicker.client.tsx:284 | different years have different renderings |
| IstTime.YearMonthTextInjective | src/components/hero/LiveMetricsTicker.client.tsx:288-293 | different months have different month texts |
| IstTime.DayKeyOfValid | src/components/hero/LiveMetricsTicker.client.tsx:281-287 | unfolding step: the day key of a valid time is the text of the date of the shifted time's day |
| IstTime.DayKeyIdentifiesIstDay | src/components/hero/LiveMetricsTicker.client.tsx:281-287 | two valid times share a day key exactly when their shifted times fall on the same day |
| IstTime.MonthKeyIdentifiesIstMonth | src/components/hero/LiveMetricsTicker.client.tsx:288-293 | two valid times share a month key exactly when their IST year and month agree |
| IstTime.IstFractionOfDay | src/components/hero/LiveMetricsTicker.client.tsx:294-300 | NaN exactly for an invalid date, else the whole seconds since IST midnight over 86400, in [0, 1) |
| IstTime.FractionIsDaily | src/components/hero/LiveMetricsTicker.client.tsx:294-300 | the fraction is the same one day later |
| Metrics.Clamp | src/components/hero/LiveMetricsTicker.client.tsx:403-405 | the result is within [min, max], equals n inside the range and the nearer bound outside it |
| Metrics.Clamp01 | src/components/hero/LiveMetricsTicker.client.tsx:307-309 | the result is in [0, 1], equals n inside and the nearer end outside |
| Metrics.EaseInOutSine | src/components/hero/LiveMetricsTicker.client.tsx:304-306 | when the cosine is in [-1, 1], the eased value is in [0, 1] |
| Metrics.Round | src/components/hero/LiveMetricsTicker.client.tsx:341 | `Math.round` is within one half of its argument, with halves rounded up |
| Metrics.Scaled | src/components/hero/LiveMetricsTicker.client.tsx:320 | the scaled draw is an integer in [0, k) |
| Metrics.ScaledDraw | src/components/hero/LiveMetricsTicker.client.tsx:320 | `Math.floor((w / 2^32) * k)` equals the integer quotient `(w * k) div 2^32` |
| Metrics.Onprem | src/components/hero/LiveMetricsTicker.client.tsx:320 | on-prem instances are from 30 to 69 |
| Metrics.Cloud | src/components/hero/LiveMetricsTicker.client.tsx:321 | cloud instances are from 15 to 44 |
| Metrics.ModuleFactor | src/components/hero/LiveMetricsTicker.client.tsx:324 | the module multiplier is from 2 to 7 |
| Metrics.SlaDaily | src/components/hero/LiveMetricsTicker.client.tsx:326 | the daily uptime base is in [99.93, 99.99) |
| Metrics.Sla | src/components/hero/LiveMetricsTicker.client.tsx:327 | the uptime shown is in [99.9, 99.995] |
| Metrics.TargetTotal | src/components/hero/LiveMetricsTicker.client.tsx:336 | the invoice target is from 18000 to 29999 |
| Metrics.Share | src/components/hero/LiveMetricsTicker.client.tsx:338 | the floor of a share in [0, 1] of a total is from 0 to the total |
| Metrics.Progress | src/components/hero/LiveMetricsTicker.client.tsx:337 | definition: `easeInOutSine(clamp01((f - 0.17) / 0.7))`; properties in `ProgressBounds` |
| Metrics.ProgressBounds | src/components/hero/LiveMetricsTicker.client.tsx:337 | with a bounded cosine the day's progress is in [0, 1] |
| Metrics.Invoices | src/components/hero/LiveMetricsTicker.client.tsx:336-338 | NaN exactly when the fraction of the day is NaN, else never negative, and at most the target while the progress is in [0, 1] |
| Metrics.Latency | src/components/hero/LiveMetricsTicker.client.tsx:340-341 | NaN exactly when the fraction of the day is NaN, else a whole number from 140 to 240 |
| Metrics.ValuesFromDraws | src/components/hero/LiveMetricsTicker.client.tsx:320-341 | definition: the quantities from 3 month, 4 day and 3 bucket draws in the source's order; properties in the bounds lemmas and `DrawMetrics` |
| Metrics.Items | src/components/hero/LiveMetricsTicker.client.tsx:343-351 | definition: the seven metric items; properties in `ItemsShape` |
| Metrics.DeterministicMetrics | src/components/hero/LiveMetricsTicker.client.tsx:311-352 | definition: `computeDeterministicMetrics` as a function of the bucket; properties in `SameIstMonthSameInstances`, `SameIstDaySameTarget`, the bounds lemmas and `ComputeDeterministicMetrics` |
| Metrics.InstanceBounds | src/components/hero/LiveMetricsTicker.client.tsx:320-322 | for any draws, on-prem is 30..69, cloud is 15..44, and deployments is their sum, 45..113 |
| Metrics.ModuleBounds | src/components/hero/LiveMetricsTicker.client.tsx:324 | modules are the deployments times a multiplier from 2 to 7, so from 90 to 791 |
| Metrics.UptimeBounds | src/components/hero/LiveMetricsTicker.client.tsx:326-327 | for any draws, the daily base is in [99.93, 99.99) and the uptime in [99.9, 99.995] |
| Metrics.TargetBounds | src/components/hero/LiveMetricsTicker.client.tsx:336 | for any draws, the target is from 18000 to 29999 |
| Metrics.InvoiceBounds | src/components/hero/LiveMetricsTicker.client.tsx:336-338 | with a bounded cosine, the invoice count is present exactly when the fraction is, and is from 0 to the target |
| Metrics.LatencyBounds | src/components/hero/LiveMetricsTicker.client.tsx:340-341 | for any draws, the latency is present exactly when the fraction is, and is 140..240 |
| Metrics.MonthMetricsFollowMonthDraws | src/components/hero/LiveMetricsTicker.client.tsx:320-324 | on-prem, cloud and modules depend only on the month draws |
| Metrics.DayMetricsFollowDayDraws | src/components/hero/LiveMetricsTicker.client.tsx:326-336 | the daily uptime base and the invoice target depend only on the day draws |
| Metrics.SameIstMonthSameInstances | src/components/hero/LiveMetricsTicker.client.tsx:313-324 | two buckets in the same IST year and month show the same on-prem, cloud and module counts |
| Metrics.SameIstDaySameTarget | src/components/hero/LiveMetricsTicker.client.tsx:313-336 | two buckets on the same IST day share the daily uptime base and the invoice target |
| Metrics.BucketFractionPresent | src/components/hero/LiveMetricsTicker.client.tsx:329 | a bucket's fraction of the day is present exactly for a valid date |
| Metrics.ItemsShape | src/components/hero/LiveMetricsTicker.client.tsx:343-351 | exactly seven items, keyed deployments, onprem, cloud, invoices, modules, latency, uptime; only uptime is a float; each carries its quantity |
| Metrics.OnpremFromUnit | src/components/hero/LiveMetricsTicker.client.tsx:320 | the floating-point on-prem formula gives the integer-quotient value |
| Metrics.CloudFromUnit | src/components/hero/LiveMetricsTicker.client.tsx:321 | the same for cloud instances |
| Metrics.ModuleFactorFromUnit | src/components/hero/LiveMetricsTicker.client.tsx:324 | the same for the module multiplier |
| Metrics.TargetTotalFromUnit | src/components/hero/LiveMetricsTicker.client.tsx:336 | the same for the invoice target |
| Metrics.DrawInstances | src/components/hero/LiveMetricsTicker.client.tsx:320-324 | three month draws give on-prem, cloud, their sum and the modules, and advance the month generator three steps |
| Metrics.DrawUptime | src/components/hero/LiveMetricsTicker.client.tsx:326-327 | one day draw and one bucket draw give the daily base and the uptime |
| Metrics.DrawUsers | src/components/hero/LiveMetricsTicker.client.tsx:332-334 | the discarded user count consumes two day draws and one bucket draw |
| Metrics.DrawInvoices | src/components/hero/LiveMetricsTicker.client.tsx:336-338 | the fourth day draw gives the target, and the invoices follow from it and the fraction |
| Metrics.DrawLatency | src/components/hero/LiveMetricsTicker.client.tsx:340-341 | the third bucket draw gives the latency |
| Metrics.DrawMetrics | src/components/hero/LiveMetricsTicker.client.tsx:320-351 | drawing in the source's order yields the items of the quantities defined from 3 month, 4 day and 3 bucket draws |
| Metrics.ValuesOfSeeds | src/components/hero/LiveMetricsTicker.client.tsx:316-318 | unfolding step: the quantities come from generators seeded by `pivotr|month|…`, `pivotr|day|…` and `pivotr|bucket|…` |
| Metrics.MetricsFromInputs | src/components/hero/LiveMetricsTicker.client.tsx:316-351 | seeding the three generators and drawing gives the items of the seeded quantities |
| Metrics.ComputeDeterministicMetrics | src/components/hero/LiveMetricsTicker.client.tsx:311-352 | the procedure returns exactly the items determined by the bucket's text, IST day key, month key and fraction of the day |
| AnimatedNumber.AnimateStep | src/components/hero/LiveMetricsTicker.client.tsx:362-367 | snaps onto the target when the gap is below 0.5; else moves 15% of the gap, stays between the value and the target, and leaves 85% of the gap |
| AnimatedNumber.Frames | src/components/hero/LiveMetricsTicker.client.tsx:361-368 | definition: the value after `n` frames towards a fixed target; properties in the lemmas below |
| AnimatedNumber.Shrunk | src/components/hero/LiveMetricsTicker.client.tsx:363-366 | definition: `0.85^n * g`; bounded in `ShrunkBound` |
| AnimatedNumber.StaysOnTarget | src/components/hero/LiveMetricsTicker.client.tsx:365 | once on the target, every later frame stays there |
| AnimatedNumber.FramesBetween | src/components/hero/LiveMetricsTicker.client.tsx:361-368 | every frame's value lies between the start and the target: no overshoot |
| AnimatedNumber.GapShrinks | src/components/hero/LiveMetricsTicker.client.tsx:363-366 | after n frames the gap is at most 0.85^n of the first gap |
| AnimatedNumber.SettlesWithin | src/components/hero/LiveMetricsTicker.client.tsx:363-366 | if 0.85^n times the first gap is below 0.5, n + 1 frames land exactly on the target |
| AnimatedNumber.ShrunkBound | src/components/hero/LiveMetricsTicker.client.tsx:363-366 | `0.85^n * g * (1 + 3n/17) <= g`, so the gap bound falls below any positive level |
| AnimatedNumber.FramesSplit | src/components/hero/LiveMetricsTicker.client.tsx:361-369 | `m + n` frames are `m` frames and then `n` more |
| AnimatedNumber.Settles | src/components/hero/LiveMetricsTicker.client.tsx:361-369 | from any value, after `floor(34 * gap / 3) + 2` frames the shown value is exactly the target, and so is every later frame |
| AnimatedNumber.AnimatedDisplay.constructor | src/components/hero/LiveMetricsTicker.client.tsx:355-356 | the first render shows the target itself |
| AnimatedNumber.AnimatedDisplay.SetTarget | src/components/hero/LiveMetricsTicker.client.tsx:356-357 | a new target replaces the old one and keeps the shown value |
| AnimatedNumber.AnimatedDisplay.Frame | src/components/hero/LiveMetricsTicker.client.tsx:361-368 | a frame replaces the shown value by one step towards the latest target |
| Typewriter.Next | src/hooks/use-typewriter.ts:34-67 | definition: one run of the effect with the update it schedules; properties in `NextWellFormed`, `TypingAppends` … `FixedPoints` |
| Typewriter.Run | src/hooks/use-typewriter.ts:34-70 | definition: `n` steps; properties in `RunWellFormed`, `TypesPrefix`, `StoppedIsFinal`, `NoWordsNoSteps` |
| Typewriter.InitialWellFormed | src/hooks/use-typewriter.ts:22-24 | the initial state (word 0, empty text, typing) satisfies the invariant |
| Typewriter.NextWellFormed | src/hooks/use-typewriter.ts:34-67 | every step keeps the index in range and the text a prefix of the current word |
| Typewriter.RunWellFormed | src/hooks/use-typewriter.ts:34-70 | any number of steps keeps the invariant |
| Typewriter.TypingAppends | src/hooks/use-typewriter.ts:39-43 | typing an unfinished word appends exactly its next character |
| Typewriter.TypingFinishes | src/hooks/use-typewriter.ts:44-47 | at full length, typing moves to the pause with the text equal to the word |
| Typewriter.TypesPrefix | src/hooks/use-typewriter.ts:39-43 | n typing steps lengthen the typed prefix by n |
| Typewriter.TypesWholeWord | src/hooks/use-typewriter.ts:39-47 | from an empty text a word is typed in one step per character, and the pause follows |
| Typewriter.PauseThenDelete | src/hooks/use-typewriter.ts:48-50 | the pause goes straight to deleting, with text and index unchanged |
| Typewriter.DeletingDropsLast | src/hooks/use-typewriter.ts:52-55 | deleting removes exactly one trailing character |
| Typewriter.NextWordAfterDelete | src/hooks/use-typewriter.ts:56-65 | after deleting a word, unless stopped, the index becomes `(index + 1) mod |words|`, which is in range, and typing starts |
| Typewriter.StoppedIsFinal | src/hooks/use-typewriter.ts:58-62 | a non-looping hook that has deleted its last word never changes again |
| Typewriter.FixedPoints | src/hooks/use-typewriter.ts:34-67 | a step changes nothing exactly when there are no words or the hook has stopped |
| Typewriter.NoWordsNoSteps | src/hooks/use-typewriter.ts:35 | with no words, nothing ever changes |
| Typewriter.Flags | src/hooks/use-typewriter.ts:72-76 | `isComplete` holds exactly for the pause on the last word of a non-looping hook and never two steps in a row; the stopped state reports deleting, not complete |
| Typewriter.TypewriterHook.constructor | src/hooks/use-typewriter.ts:22-24 | the hook starts at word 0 with empty text, typing |
| Typewriter.TypewriterHook.Step | src/hooks/use-typewriter.ts:34-67 | one effect run and its scheduled update move the three slots to `Next` of the old ones and keep the invariant |
| AboutParagraph.Observe | src/components/about/AboutParagraph.client.tsx:21-24 | definition: the observer callback; properties in `ObserveRevealed` |
| AboutParagraph.Tick | src/components/about/AboutParagraph.client.tsx:32-40 | definition: the reveal effect and its timeout; properties in `TickRevealed`, `TicksReveal`, `HiddenNeverTicks` |
| AboutParagraph.InitialRevealed | src/components/about/AboutParagraph.client.tsx:11-13 | the initial state shows nothing and satisfies the invariant |
| AboutParagraph.TickRevealed | src/components/about/AboutParagraph.client.tsx:32-40 | a timeout keeps `displayed == text[..index]`; it advances the index by exactly one when visible and incomplete, and changes nothing otherwise |
| AboutParagraph.ObserveRevealed | src/components/about/AboutParagraph.client.tsx:21-24 | the observer only ever raises the visibility flag, exactly when intersecting |
| AboutParagraph.TicksReveal | src/components/about/AboutParagraph.client.tsx:32-48 | n timeouts on a visible paragraph show `min(index + n, |text|)` characters |
| AboutParagraph.HiddenNeverTicks | src/components/about/AboutParagraph.client.tsx:33 | while hidden, no timeout changes anything |
| AboutParagraph.FullyRevealed | src/components/about/AboutParagraph.client.tsx:32-40 | once seen, `|text|` timeouts show the whole text and remove the caret |
| AboutParagraph.CaretWhileIncomplete | src/components/about/AboutParagraph.client.tsx:57-58 | the caret is shown exactly while part of the text is missing |
| AboutParagraph.Paragraph.constructor | src/components/about/AboutParagraph.client.tsx:11-13 | the component starts with empty text, index 0, hidden |
| AboutParagraph.Paragraph.OnIntersection | src/components/about/AboutParagraph.client.tsx:21-24 | the observer callback applies `Observe` and keeps the invariant |
| AboutParagraph.Paragraph.OnTimeout | src/components/about/AboutParagraph.client.tsx:32-40 | the effect with its timeout applies `Tick` and keeps the invariant |
| AboutParagraph.Paragraph.Caret | src/components/about/AboutParagraph.client.tsx:58 | the caret is rendered iff `currentIndex < text.length`, which is iff the shown text is not the whole text |
| RoiCalculator.ClampNumber | src/components/ROICalculator.tsx:39-40 | NaN exactly for a non-finite input; else `min(max(n, lo), hi)`, within [lo, hi] when `lo <= hi`, and n itself when n is in range |
| RoiCalculator.ClampMonotone | src/components/ROICalculator.tsx:39-40 | clamping keeps the order of finite inputs |
| RoiCalculator.Percent | src/components/ROICalculator.tsx:280 | dividing by 100 keeps finiteness, and the finite result times 100 is the input |
| RoiCalculator.TimeSavedPerMonth | src/components/ROICalculator.tsx:270-271 | definition: hours saved per month; properties in `TimeSavedMonotone` |
| RoiCalculator.HourlyRate | src/components/ROICalculator.tsx:272 | definition: salary over the hours of a working month |
| RoiCalculator.MonthlySavings | src/components/ROICalculator.tsx:262-274 | definition: `computeMonthlySavingsForReduction`; properties in `SavingsMonotone`, `MonthlyIsSavingsAtReduction`, `BandContainsMonthly` |
| RoiCalculator.Normalise | src/components/ROICalculator.tsx:277-282 | no inputs exactly when one is NaN or infinite; else the reduction is in [0, 1], the weekly hours and weeks are at least 1, and the other inputs are non-negative |
| RoiCalculator.CoreInsights | src/components/ROICalculator.tsx:304-313 | definition: the core savings and the extra insights as `calculate` writes them inline; properties in `MonthlyIsSavingsAtReduction`, `DailyAndFte` |
| RoiCalculator.BandFraction | src/components/ROICalculator.tsx:315-317 | definition: the band ends as fractions; properties in `BandFractionsBracket` |
| RoiCalculator.BandSavings | src/components/ROICalculator.tsx:318-333 | definition: `computeMonthlySavingsForReduction` at a band end; properties in `BandContainsMonthly` |
| RoiCalculator.Compute | src/components/ROICalculator.tsx:303-342 | definition: the eight slots of valid inputs; properties in `DailyAndFte`, `AnnualIsTwelveMonths`, `BandContainsMonthly` |
| RoiCalculator.Calculate | src/components/ROICalculator.tsx:276-343 | definition: `calculate`; properties in `AllOrNothing` and the lemmas below; tied to the slots by `Results.Recalculate` |
| RoiCalculator.HasResults | src/components/ROICalculator.tsx:350-354 | definition: `hasResults`; properties in `AllOrNothing` |
| RoiCalculator.AllOrNothing | src/components/ROICalculator.tsx:284-301 | all eight slots are cleared exactly when an input is not finite, and all set otherwise; `hasResults` tells the two apart |
| RoiCalculator.MonthlyIsSavingsAtReduction | src/components/ROICalculator.tsx:304-307 | the gross saving `calculate` computes inline equals `computeMonthlySavingsForReduction` at the entered reduction, and the inline hours saved equal the helper's |
| RoiCalculator.AnnualIsTwelveMonths | src/components/ROICalculator.tsx:240-241 | unfolding step: the annual saving (line 337) and the annual band are twelve times the monthly ones |
| RoiCalculator.DailyAndFte | src/components/ROICalculator.tsx:310-313 | (`Spread`) the monthly saving, the hours saved, the daily saving, the FTE count and the hours per employee are all set; the daily saving times `7 * weeks` is the monthly saving; the FTE count times the monthly hours is the hours saved; the hours per employee times the head count is the hours saved |
| RoiCalculator.TimeSavedMonotone | src/components/ROICalculator.tsx:270-271 | with non-negative inputs, the hours saved grow with the reduction |
| RoiCalculator.SavingsMonotone | src/components/ROICalculator.tsx:262-274 | with non-negative inputs, the monthly saving grows with the reduction |
| RoiCalculator.BandFractionsBracket | src/components/ROICalculator.tsx:315-317 | the band's reductions satisfy `0 <= minPct <= reduction <= maxPct <= 1` |
| RoiCalculator.BandContainsMonthly | src/components/ROICalculator.tsx:315-333 | `rangeMonthlyMin <= monthlySavings <= rangeMonthlyMax` |
| RoiCalculator.Results.constructor | src/components/ROICalculator.tsx:229-238 | every result slot starts as `null` |
| RoiCalculator.Results.Recalculate | src/components/ROICalculator.tsx:276-343 | one `calculate()` overwrites all eight slots with `Calculate` of the inputs |
| RoiCalculator.Progress | src/components/ROICalculator.tsx:193 | the frame progress is at most 1, non-negative from the start time, and exactly 1 from `start + duration` |
| RoiCalculator.Eased | src/components/ROICalculator.tsx:194 | definition: `1 - (1 - p)^3`; properties in `EasedBounds` |
| RoiCalculator.CountUpValue | src/components/ROICalculator.tsx:192-195 | definition: the value a frame shows; properties in `CountUpShape`, tied to the hook by `CountUp.Tick` |
| RoiCalculator.EasedBounds | src/components/ROICalculator.tsx:194 | the ease-out cubic runs from 0 to 1 and never decreases on [0, 1] |
| RoiCalculator.ProgressMonotone | src/components/ROICalculator.tsx:193 | later frames have at least the progress of earlier ones |
| RoiCalculator.CountUpShape | src/components/ROICalculator.tsx:192-197 | each frame shows a value between 0 and the target that moves monotonically towards the target, and from `start + duration` on exactly the target |
| RoiCalculator.CountUp.constructor | src/components/ROICalculator.tsx:171-172 | the display starts at 0 with no frame scheduled |
| RoiCalculator.CountUp.Effect | src/components/ROICalculator.tsx:174-203 | nothing runs when not running or without a value; reduced motion shows the value at once; else a count-up from 0 starts at the current time |
| RoiCalculator.CountUp.Tick | src/components/ROICalculator.tsx:192-197 | a frame shows `to * (1 - (1 - p)^3)` and schedules another frame exactly while `p < 1` |
| RoiCalculator.MinusDisabled | src/components/ROICalculator.tsx:101-104 | definition: `minusDisabled`; properties in `StepperButtons` |
| RoiCalculator.PlusDisabled | src/components/ROICalculator.tsx:105-108 | definition: `plusDisabled`; properties in `StepperButtons` |
| RoiCalculator.StepperButtons | src/components/ROICalculator.tsx:98-108 | unfolding step for the first two clauses: minus is disabled iff the value and min are finite and `value <= min`; plus iff they are finite and `value >= max`; with `min < max` never both |
| ClientSection.CeilHalf | src/components/ClientSection.tsx:49 | `h` is `Math.ceil(n / 2)`: `n <= 2h <= n + 1` |
| ClientSection.FirstRow | src/components/ClientSection.tsx:49 | definition: `clients.slice(0, ceil(n/2))`; properties in `RowsSplit` |
| ClientSection.SecondRow | src/components/ClientSection.tsx:50 | definition: `clients.slice(ceil(n/2))`; properties in `RowsSplit` |
| ClientSection.RowsSplit | src/components/ClientSection.tsx:49-50 | the two rows concatenate to the client list, with lengths `ceil(n/2)` and `floor(n/2)`, differing by 0 or 1 |
| ClientSection.TopStrip | src/components/ClientSection.tsx:60 | definition: `[...firstRow, ...secondRow, ...firstRow]`; properties in `TopStripShape` |
| ClientSection.BottomStrip | src/components/ClientSection.tsx:66 | definition: `[...secondRow, ...firstRow, ...secondRow, ...firstRow, ...secondRow]`; properties in `BottomStripShape` |
| ClientSection.TopStripShape | src/components/ClientSection.tsx:60 | the top strip is the list followed by the first row: `n + ceil(n/2)` logos |
| ClientSection.BottomStripShape | src/components/ClientSection.tsx:66 | the bottom strip is the second row followed by the list twice: `2n + floor(n/2)` logos |
| ClientSection.Key | src/components/ClientSection.tsx:61 | definition: `${prefix}${client.name}-${index}`; properties in `KeyDeterminesIndex` |
| ClientSection.StripKeys | src/components/ClientSection.tsx:60-62 | a strip has one key per logo |
| ClientSection.KeyDeterminesIndex | src/components/ClientSection.tsx:61 | a key fixes the position, whatever the client names contain |
| ClientSection.StripKeysDistinct | src/components/ClientSection.tsx:60-62 | the keys of a strip are pairwise distinct |
| ClientSection.StripsKeyed | src/components/ClientSection.tsx:58-71 | the `first-` and `second-` strips have keys for every logo and no key twice |

## Left out

- Times are integers, so a non-finite time (`NaN` or an infinity from the clock) is not
  modelled. Only the out-of-range case is.
- Typewriter.Next: counts characters, where `slice` and `length` in the source count UTF-16
  code units. A character above U+FFFF, such as an emoji, is typed and deleted one surrogate
  half per tick in the source and whole in the model. The words in use are all in the BMP
  (U+0000 to U+FFFF).
- SeededRng.Utf16: a Dafny `string` cannot hold a lone UTF-16 surrogate, but a JavaScript string
  can. A string with a lone surrogate is not modelled, neither in the hash nor in the typed or
  revealed texts.
- AboutParagraph.Tick: counts characters in the same way, where `text[currentIndex]` and
  `text.length` count code units. The paragraph texts in use are all in the BMP.
- Timers, animation frames, `IntersectionObserver`, `matchMedia` and the clocks belong to the
  host. Each callback is a method, and times and the reduced-motion flag are parameters.
- `Intl.NumberFormat`, `toLocaleString`, `toFixed`, `formatValue`, `safeInt`, `safeToFixed` and
  the accessibility sentence are locale formatting and are not modelled.
- The marquee scroll offset depends on the DOM's `scrollWidth` and is not modelled.
- The stepper's `stepUp`/`stepDown` calls and the PageUp/PageDown loops use DOM stepping rules
  and are not modelled. Only the disabled predicates are.
- Floating point:
  - numbers are exact reals;
  - `Math.sin` and `Math.cos` are arbitrary functions, bounded where a lemma needs it;
  - `Math.pow(x, 3)` is `x * x * x`;
  - `Math.PI` is its decimal expansion;
  - rounding of the doubles and overflow to Infinity are not modelled.
- `parseFloat` and `Number` of the input strings are not modelled; their results are parameters.
- The active-user count (src/components/hero/LiveMetricsTicker.client.tsx:330-334) is thrown
  away by the source. The model makes its three draws, so the draw order is kept, but does not
  compute it.
- `${bucketMs}` is rendered as plain digits. JavaScript switches to exponent notation from
  10^21, far beyond every valid time value, and that case is not modelled.
- The hooks' props (`words`, `loop`, `text`, `duration`) are fixed for an instance, so a prop
  change between renders is not modelled.
- `eqEmployees`, `inView` and the rendering of results are presentation and are not modelled.
- SeededRng.Draws: its own contract states only the number of words. Each word and the stream's
  prefix property are stated by `DrawsStream`. No literal output values are recorded.
- SeededRng.Outputs: its own contract states only the length and the first word. The rest is in
  `OutputsAt` and `OutputsPrefix`.
- SeededRng.Utf16: states only the bounds on the number of code units. `Utf16OfBmp` gives the
  exact units for the ASCII keys the ticker hashes.
- RoiCalculator.MonthlySavings: requires `weeklyHours * weeks != 0`. JavaScript would return
  Infinity or NaN there, and every call passes values of at least one.
- RoiCalculator.HourlyRate: the same precondition as `MonthlySavings`.
- RoiCalculator.CountUpShape: the bounds and monotonicity are stated for frames at or after
  the start time. An animation frame with an earlier timestamp is not covered.
- RoiCalculator.Progress: the duration must be positive. The source always passes 700, 800 or
  900.
- RoiCalculator.CountUp.constructor: the duration must be positive, as for `Progress`.
- RoiCalculator.CountUp.Tick: the duration must be positive, and a frame runs only while an
  animation is scheduled.
- AnimatedNumber.SettlesWithin: the number of frames is given by `0.85^n * gap < 0.5`.
  `Settles` gives an explicit count, `floor(34 * gap / 3) + 2`. That count is an upper bound,
  not the least number of frames.
- Metrics.InvoiceBounds: requires a cosine bounded by -1 and 1.
- Metrics.ProgressBounds: the same requirement on the cosine.
