/** The arithmetic of the ROI calculator (src/components/ROICalculator.tsx): six parsed
    inputs become eight result slots that are all set or all cleared together, an eased
    count-up animates each result, and the stepper buttons disable at the input's bounds.
    Finite JavaScript numbers are reals; `parseFloat`/`Number` of the input strings are the
    callers' business, so the inputs are already numbers. */
module RoiCalculator {
  import opened Wrappers

  /** A JavaScript number: a finite value, an infinity or NaN. */
  datatype JsNumber = Finite(r: real) | PosInf | NegInf | NaN

  function Min(x: real, y: real): real {
    if x <= y then x else y
  }

  function Max(x: real, y: real): real {
    if x <= y then y else x
  }

  /** `clampNumber(n, min, max)` with a finite `min` and `max` either finite (`Some`) or
      `Number.POSITIVE_INFINITY` (`None`): NaN (here `None`) for a non-finite input, else
      `Math.min(Math.max(n, min), max)`, which lies in `[min, max]` when `min <= max` and is
      `n` itself when `n` already does. */
  function ClampNumber(n: JsNumber, lo: real, hi: Option<real>): (c: Option<real>)
    ensures c.Some? <==> n.Finite?
    ensures c.Some? && hi.None? ==> c.value == Max(n.r, lo)
    ensures c.Some? && hi.Some? ==> c.value == Min(Max(n.r, lo), hi.value)
    ensures c.Some? ==> (hi.None? || lo <= hi.value ==> lo <= c.value)
    ensures c.Some? && hi.Some? ==> c.value <= hi.value
    ensures c.Some? && lo <= n.r && (hi.None? || n.r <= hi.value) ==> c.value == n.r
  {
    if !n.Finite? then None
    else
      var lower := Max(n.r, lo);
      if hi.Some? then Some(Min(lower, hi.value)) else Some(lower)
  }

  /** Clamping keeps the order of finite inputs. */
  lemma ClampMonotone(x: real, y: real, lo: real, hi: Option<real>)
    requires x <= y
    ensures ClampNumber(Finite(x), lo, hi).value <= ClampNumber(Finite(y), lo, hi).value
  {}

  /** JavaScript division by 100. */
  function Percent(n: JsNumber): (p: JsNumber)
    ensures p.Finite? <==> n.Finite?
    ensures n.Finite? ==> p.r * 100.0 == n.r
  {
    match n
    case Finite(r) => Finite(r / 100.0)
    case PosInf => PosInf
    case NegInf => NegInf
    case NaN => NaN
  }

  /** Hours saved per month: `hoursSpent * reduction * numEmployees * weeks`. */
  function TimeSavedPerMonth(hoursSpent: real, reductionFraction: real, numEmployees: real, weeks: real): real {
    hoursSpent * reductionFraction * numEmployees * weeks
  }

  /** The hourly rate: the monthly salary over the hours worked in a month. */
  function HourlyRate(avgSalary: real, weeklyHours: real, weeks: real): real
    requires weeklyHours * weeks != 0.0
  {
    avgSalary / (weeklyHours * weeks)
  }

  /** `computeMonthlySavingsForReduction`: hours saved per month times the hourly rate. The
      divisor `weeklyHours * weeks` is never zero at the calls. `calculate` writes its own
      monthly saving inline; `MonthlyIsSavingsAtReduction` shows the two agree. */
  function MonthlySavings(numEmployees: real, avgSalary: real, hoursSpent: real,
                          weeklyHours: real, weeks: real, reductionFraction: real): real
    requires weeklyHours * weeks != 0.0
  {
    TimeSavedPerMonth(hoursSpent, reductionFraction, numEmployees, weeks) * HourlyRate(avgSalary, weeklyHours, weeks)
  }

  /** The six parsed input strings. */
  datatype RoiInputs = RoiInputs(employees: JsNumber, salary: JsNumber, hours: JsNumber,
                                 timeReductionPct: JsNumber, workHoursPerWeek: JsNumber,
                                 weeksPerMonth: JsNumber)

  /** The six inputs after clamping. */
  datatype Normalised = Normalised(numEmployees: real, avgSalary: real, hoursSpent: real,
                                   reduction: real, weeklyHours: real, weeks: real)

  /** The clamping at the top of `calculate`; `None` when one of the six is NaN. The
      reduction is a fraction in `[0, 1]`, the weekly hours and weeks per month are at least
      one, and the other three are non-negative. */
  function Normalise(inp: RoiInputs): (n: Option<Normalised>)
    ensures n.None? <==> !(inp.employees.Finite? && inp.salary.Finite? && inp.hours.Finite?
                           && inp.timeReductionPct.Finite? && inp.workHoursPerWeek.Finite?
                           && inp.weeksPerMonth.Finite?)
    ensures n.Some? ==> (var v := n.value;
      0.0 <= v.reduction <= 1.0 && 1.0 <= v.weeklyHours && 1.0 <= v.weeks
      && 0.0 <= v.numEmployees && 0.0 <= v.avgSalary && 0.0 <= v.hoursSpent)
    ensures n.Some? ==> n.value.reduction == ClampNumber(Percent(inp.timeReductionPct), 0.0, Some(1.0)).value
  {
    var numEmployees := ClampNumber(inp.employees, 0.0, None);
    var avgSalary := ClampNumber(inp.salary, 0.0, None);
    var hoursSpent := ClampNumber(inp.hours, 0.0, None);
    var reduction := ClampNumber(Percent(inp.timeReductionPct), 0.0, Some(1.0));
    var weeklyHours := ClampNumber(inp.workHoursPerWeek, 1.0, None);
    var weeks := ClampNumber(inp.weeksPerMonth, 1.0, None);
    if numEmployees.None? || avgSalary.None? || hoursSpent.None? || reduction.None?
       || weeklyHours.None? || weeks.None?
    then None
    else Some(Normalised(numEmployees.value, avgSalary.value, hoursSpent.value,
                         reduction.value, weeklyHours.value, weeks.value))
  }

  /** The eight result slots; `None` is `null`. */
  datatype RoiResults = RoiResults(timeSavings: Option<real>, monthlySavings: Option<real>,
                                   annualSavings: Option<real>, fteUnlocked: Option<real>,
                                   hoursPerEmployeePerMonth: Option<real>,
                                   dailySavings: Option<real>, rangeMonthlyMin: Option<real>,
                                   rangeMonthlyMax: Option<real>)

  const NO_RESULTS: RoiResults := RoiResults(None, None, None, None, None, None, None, None)

  /** The ends of the scenario band: the reduction ten points either side of the entered
      percentage, as fractions clamped to `[0, 1]`; NaN (`None`) when the percentage is. */
  function BandFraction(timeReductionPct: JsNumber, offset: real): Option<real> {
    var basePct := ClampNumber(timeReductionPct, 0.0, Some(100.0));
    if basePct.None? then None
    else ClampNumber(Finite((basePct.value + offset) / 100.0), 0.0, Some(1.0))
  }

  /** `computeMonthlySavingsForReduction` at a fraction that may be NaN. */
  function BandSavings(v: Normalised, fraction: Option<real>): Option<real>
    requires 1.0 <= v.weeklyHours && 1.0 <= v.weeks
  {
    if fraction.None? then None
    else Some(MonthlySavings(v.numEmployees, v.avgSalary, v.hoursSpent, v.weeklyHours, v.weeks, fraction.value))
  }

  /** The core savings and the extra insights, as `calculate` writes them inline. */
  datatype Insights = Insights(totalTimeSavedPerMonth: real, grossMonthlySavings: real,
                               fte: real, perEmpMonthly: real, perDay: real)

  /** Lines 304-313 of `calculate`. */
  function CoreInsights(v: Normalised): Insights
    requires 1.0 <= v.weeklyHours && 1.0 <= v.weeks
  {
    var timeSavedPerEmployeePerWeek := v.hoursSpent * v.reduction;
    var totalTimeSavedPerMonth := timeSavedPerEmployeePerWeek * v.numEmployees * v.weeks;
    var hourlyRate := v.avgSalary / (v.weeklyHours * v.weeks);
    var grossMonthlySavings := totalTimeSavedPerMonth * hourlyRate;
    var fte := totalTimeSavedPerMonth / (v.weeklyHours * v.weeks);
    var perEmpMonthly := timeSavedPerEmployeePerWeek * v.weeks;
    var daysPerMonth := v.weeks * 7.0;
    var perDay := if daysPerMonth > 0.0 then grossMonthlySavings / daysPerMonth else 0.0;
    Insights(totalTimeSavedPerMonth, grossMonthlySavings, fte, perEmpMonthly, perDay)
  }

  /** The results `calculate` computes from valid inputs. */
  function Compute(v: Normalised, timeReductionPct: JsNumber): RoiResults
    requires 1.0 <= v.weeklyHours && 1.0 <= v.weeks
  {
    var c := CoreInsights(v);
    RoiResults(Some(c.totalTimeSavedPerMonth), Some(c.grossMonthlySavings),
               Some(c.grossMonthlySavings * 12.0), Some(c.fte), Some(c.perEmpMonthly), Some(c.perDay),
               BandSavings(v, BandFraction(timeReductionPct, -10.0)),
               BandSavings(v, BandFraction(timeReductionPct, 10.0)))
  }

  /** `calculate`: all eight slots cleared when an input is NaN, else all computed. */
  function Calculate(inp: RoiInputs): RoiResults {
    var n := Normalise(inp);
    if n.None? then NO_RESULTS else Compute(n.value, inp.timeReductionPct)
  }

  /** Every slot is set. */
  predicate AllSet(r: RoiResults) {
    r.timeSavings.Some? && r.monthlySavings.Some? && r.annualSavings.Some?
    && r.fteUnlocked.Some? && r.hoursPerEmployeePerMonth.Some? && r.dailySavings.Some?
    && r.rangeMonthlyMin.Some? && r.rangeMonthlyMax.Some?
  }

  /** `hasResults`. */
  predicate HasResults(r: RoiResults) {
    r.timeSavings.Some? && r.monthlySavings.Some? && r.annualSavings.Some? && r.fteUnlocked.Some?
  }

  /** The update is all or nothing: the slots are all cleared exactly when one of the six
      inputs is NaN or infinite, and all set otherwise; `hasResults` tells the two apart. */
  lemma AllOrNothing(inp: RoiInputs)
    ensures Calculate(inp) == NO_RESULTS <==> Normalise(inp).None?
    ensures Calculate(inp) == NO_RESULTS || AllSet(Calculate(inp))
    ensures HasResults(Calculate(inp)) <==> Normalise(inp).Some?
  {
    if Normalise(inp).Some? {
      assert Percent(inp.timeReductionPct).Finite?;
    }
  }

  /** The inline formulas of `calculate` are the helper's formulas on the same inputs. */
  lemma CoreIsHelper(v: Normalised)
    requires 1.0 <= v.weeklyHours && 1.0 <= v.weeks
    ensures CoreInsights(v).grossMonthlySavings
      == MonthlySavings(v.numEmployees, v.avgSalary, v.hoursSpent, v.weeklyHours, v.weeks, v.reduction)
    ensures CoreInsights(v).totalTimeSavedPerMonth
      == TimeSavedPerMonth(v.hoursSpent, v.reduction, v.numEmployees, v.weeks)
  {}

  /** The monthly saving `calculate` computes inline is `computeMonthlySavingsForReduction`
      at the entered reduction, and its hours saved are that helper's hours saved. */
  lemma MonthlyIsSavingsAtReduction(inp: RoiInputs)
    requires Normalise(inp).Some?
    ensures var v := Normalise(inp).value;
      Calculate(inp).monthlySavings
        == Some(MonthlySavings(v.numEmployees, v.avgSalary, v.hoursSpent, v.weeklyHours, v.weeks, v.reduction))
    ensures var v := Normalise(inp).value;
      Calculate(inp).timeSavings == Some(TimeSavedPerMonth(v.hoursSpent, v.reduction, v.numEmployees, v.weeks))
  {
    CoreIsHelper(Normalise(inp).value);
  }

  /** `rangeAnnualMin`/`rangeAnnualMax`: twelve times the monthly band, `null` stays `null`. */
  function Annual(monthly: Option<real>): Option<real> {
    if monthly.Some? then Some(monthly.value * 12.0) else None
  }

  /** The annual saving and the annual band are twelve times the monthly ones. This unfolds
      `Compute` and `Annual`; it records lines 240-241 and 337 side by side. */
  lemma AnnualIsTwelveMonths(inp: RoiInputs)
    ensures var r := Calculate(inp);
      r.annualSavings == Annual(r.monthlySavings)
      && (r.rangeMonthlyMin.Some? ==> Annual(r.rangeMonthlyMin).value == 12.0 * r.rangeMonthlyMin.value)
      && (r.rangeMonthlyMax.Some? ==> Annual(r.rangeMonthlyMax).value == 12.0 * r.rangeMonthlyMax.value)
  {}

  /** The daily saving spreads the monthly one over `7 * weeks` days, the full-time
      equivalent divides the hours saved by the hours in a working month, and the hours per
      employee times the head count are the hours saved. */
  predicate Spread(v: Normalised, r: RoiResults) {
    r.dailySavings.Some? && r.monthlySavings.Some? && r.fteUnlocked.Some? && r.timeSavings.Some?
    && r.dailySavings.value * (v.weeks * 7.0) == r.monthlySavings.value
    && r.fteUnlocked.value * (v.weeklyHours * v.weeks) == r.timeSavings.value
    && r.hoursPerEmployeePerMonth.Some?
    && r.hoursPerEmployeePerMonth.value * v.numEmployees == r.timeSavings.value
  }

  /** The results of valid inputs are spread this way. */
  lemma DailyAndFte(inp: RoiInputs)
    requires Normalise(inp).Some?
    ensures Spread(Normalise(inp).value, Calculate(inp))
  {
    var v := Normalise(inp).value;
    CalculateOfValid(inp, v);
    ComputeSpread(v, inp.timeReductionPct);
  }

  /** Valid inputs give the results `Compute` builds from their clamped values. */
  lemma CalculateOfValid(inp: RoiInputs, v: Normalised)
    requires Normalise(inp) == Some(v)
    ensures 1.0 <= v.weeklyHours && 1.0 <= v.weeks
    ensures Calculate(inp) == Compute(v, inp.timeReductionPct)
  {}

  /** `DailyAndFte` on the result slots of valid inputs. */
  lemma ComputeSpread(v: Normalised, timeReductionPct: JsNumber)
    requires 1.0 <= v.weeklyHours && 1.0 <= v.weeks
    ensures Spread(v, Compute(v, timeReductionPct))
  {
    InsightsSpread(v);
  }

  /** `DailyAndFte` on the inline formulas. */
  lemma InsightsSpread(v: Normalised)
    requires 1.0 <= v.weeklyHours && 1.0 <= v.weeks
    ensures var c := CoreInsights(v);
      c.perDay * (v.weeks * 7.0) == c.grossMonthlySavings
      && c.fte * (v.weeklyHours * v.weeks) == c.totalTimeSavedPerMonth
      && c.perEmpMonthly * v.numEmployees == c.totalTimeSavedPerMonth
  {
    var c := CoreInsights(v);
    var t := v.hoursSpent * v.reduction;
    assert c.perEmpMonthly == t * v.weeks && c.totalTimeSavedPerMonth == t * v.numEmployees * v.weeks;
    assert t * v.weeks * v.numEmployees == t * v.numEmployees * v.weeks;
    DivMul(c.grossMonthlySavings, v.weeks * 7.0);
    DivMul(c.totalTimeSavedPerMonth, v.weeklyHours * v.weeks);
  }

  lemma DivMul(a: real, b: real)
    requires b != 0.0
    ensures (a / b) * b == a
  {}

  /** Products of non-negative factors keep the order of the factor that varies. */
  lemma MulMonotone(a: real, b: real, c: real)
    requires a <= b && 0.0 <= c
    ensures a * c <= b * c
  {}

  lemma DivMonotone(a: real, b: real, c: real)
    requires a <= b && 0.0 < c
    ensures a / c <= b / c
  {
    assert b / c - a / c == (b - a) / c;
  }

  lemma MulNonNegative(a: real, b: real)
    requires 0.0 <= a && 0.0 <= b
    ensures 0.0 <= a * b
  {}

  lemma DivNonNegative(a: real, b: real)
    requires 0.0 <= a && 0.0 < b
    ensures 0.0 <= a / b
  {}

  /** With non-negative factors the hours saved grow with the reduction. */
  lemma TimeSavedMonotone(h: real, r1: real, r2: real, e: real, w: real)
    requires 0.0 <= h && 0.0 <= e && 0.0 <= w && r1 <= r2
    ensures TimeSavedPerMonth(h, r1, e, w) <= TimeSavedPerMonth(h, r2, e, w)
  {
    MulMonotone(r1, r2, h);
    assert h * r1 <= h * r2;
    MulMonotone(h * r1, h * r2, e);
    MulMonotone(h * r1 * e, h * r2 * e, w);
  }

  /** With non-negative inputs the saving grows with the reduction. */
  lemma SavingsMonotone(e: real, s: real, h: real, wh: real, w: real, r1: real, r2: real)
    requires 0.0 <= e && 0.0 <= s && 0.0 <= h && 1.0 <= wh && 1.0 <= w && r1 <= r2
    ensures MonthlySavings(e, s, h, wh, w, r1) <= MonthlySavings(e, s, h, wh, w, r2)
  {
    MulNonNegative(wh, w);
    assert 1.0 <= wh * w by {
      MulMonotone(1.0, wh, w);
    }
    DivNonNegative(s, wh * w);
    TimeSavedMonotone(h, r1, r2, e, w);
    MulMonotone(TimeSavedPerMonth(h, r1, e, w), TimeSavedPerMonth(h, r2, e, w), HourlyRate(s, wh, w));
  }

  /** The ends of the band bracket the entered reduction, all within `[0, 1]`. */
  lemma BandFractionsBracket(inp: RoiInputs)
    requires Normalise(inp).Some?
    ensures var lo := BandFraction(inp.timeReductionPct, -10.0);
      var hi := BandFraction(inp.timeReductionPct, 10.0);
      var red := Normalise(inp).value.reduction;
      lo.Some? && hi.Some? && 0.0 <= lo.value <= red <= hi.value <= 1.0
  {
    var p := inp.timeReductionPct.r;
    var basePct := ClampNumber(inp.timeReductionPct, 0.0, Some(100.0)).value;
    var red := ClampNumber(Finite(p / 100.0), 0.0, Some(1.0)).value;
    assert Percent(inp.timeReductionPct) == Finite(p / 100.0);
    assert ClampNumber(Finite((basePct - 10.0) / 100.0), 0.0, Some(1.0)).value <= red;
    assert red <= ClampNumber(Finite((basePct + 10.0) / 100.0), 0.0, Some(1.0)).value;
  }

  /** The scenario band contains the monthly saving. */
  lemma BandContainsMonthly(inp: RoiInputs)
    requires Normalise(inp).Some?
    ensures var r := Calculate(inp);
      r.rangeMonthlyMin.value <= r.monthlySavings.value <= r.rangeMonthlyMax.value
  {
    var v := Normalise(inp).value;
    BandFractionsBracket(inp);
    var lo := BandFraction(inp.timeReductionPct, -10.0).value;
    var hi := BandFraction(inp.timeReductionPct, 10.0).value;
    SavingsMonotone(v.numEmployees, v.avgSalary, v.hoursSpent, v.weeklyHours, v.weeks, lo, v.reduction);
    SavingsMonotone(v.numEmployees, v.avgSalary, v.hoursSpent, v.weeklyHours, v.weeks, v.reduction, hi);
    MonthlyIsSavingsAtReduction(inp);
  }

  /** The component's result slots. */
  class Results {
    var timeSavings: Option<real>
    var monthlySavings: Option<real>
    var annualSavings: Option<real>
    var fteUnlocked: Option<real>
    var hoursPerEmployeePerMonth: Option<real>
    var dailySavings: Option<real>
    var rangeMonthlyMin: Option<real>
    var rangeMonthlyMax: Option<real>

    function Slots(): RoiResults
      reads this
    {
      RoiResults(timeSavings, monthlySavings, annualSavings, fteUnlocked,
                 hoursPerEmployeePerMonth, dailySavings, rangeMonthlyMin, rangeMonthlyMax)
    }

    /** Every slot starts as `null`. */
    constructor ()
      ensures Slots() == NO_RESULTS
    {
      timeSavings, monthlySavings, annualSavings, fteUnlocked := None, None, None, None;
      hoursPerEmployeePerMonth, dailySavings, rangeMonthlyMin, rangeMonthlyMax := None, None, None, None;
    }

    /** `calculate()`: overwrite all eight slots from the current inputs. */
    method Recalculate(inp: RoiInputs)
      modifies this
      ensures Slots() == Calculate(inp)
    {
      var n := Normalise(inp);
      if n.None? {
        timeSavings := None;
        monthlySavings := None;
        annualSavings := None;
        fteUnlocked := None;
        hoursPerEmployeePerMonth := None;
        dailySavings := None;
        rangeMonthlyMin := None;
        rangeMonthlyMax := None;
        return;
      }
      var r := Compute(n.value, inp.timeReductionPct);
      timeSavings := r.timeSavings;
      monthlySavings := r.monthlySavings;
      annualSavings := r.annualSavings;
      fteUnlocked := r.fteUnlocked;
      hoursPerEmployeePerMonth := r.hoursPerEmployeePerMonth;
      dailySavings := r.dailySavings;
      rangeMonthlyMin := r.rangeMonthlyMin;
      rangeMonthlyMax := r.rangeMonthlyMax;
    }
  }

  /** `1 - (1 - p)^3`, the ease-out cubic of the count-up. */
  function Eased(p: real): real {
    1.0 - (1.0 - p) * (1.0 - p) * (1.0 - p)
  }

  /** `Math.min(1, (t - start) / duration)`: the progress of a frame at time `t`. */
  function Progress(t: real, start: real, duration: real): (p: real)
    requires 0.0 < duration
    ensures p <= 1.0
    ensures start <= t ==> 0.0 <= p
    ensures start + duration <= t ==> p == 1.0
  {
    Min(1.0, (t - start) / duration)
  }

  /** The value a frame shows, counting up from zero to `to`. */
  function CountUpValue(to: real, t: real, start: real, duration: real): real
    requires 0.0 < duration
  {
    0.0 + (to - 0.0) * Eased(Progress(t, start, duration))
  }

  lemma CubeMonotone(a: real, b: real)
    requires 0.0 <= a <= b
    ensures a * a * a <= b * b * b
  {
    MulMonotone(a, b, a);
    MulMonotone(a, b, b);
    MulNonNegative(a, a);
    MulMonotone(a * a, b * b, a);
    MulNonNegative(b, b);
    MulMonotone(a, b, b * b);
  }

  /** The easing runs from 0 to 1 without going back. */
  lemma EasedBounds(p: real, q: real)
    requires 0.0 <= p <= q <= 1.0
    ensures 0.0 <= Eased(p) <= Eased(q) <= 1.0
    ensures Eased(1.0) == 1.0 && Eased(0.0) == 0.0
  {
    CubeMonotone(1.0 - q, 1.0 - p);
    CubeMonotone(0.0, 1.0 - q);
    CubeMonotone(1.0 - p, 1.0);
  }

  /** A frame shows a value between zero and the target, the shown values only move towards
      the target as time passes, and from `start + duration` on the target itself is
      shown. */
  lemma CountUpShape(to: real, start: real, duration: real, t1: real, t2: real)
    requires 0.0 < duration && start <= t1 <= t2
    ensures var d1 := CountUpValue(to, t1, start, duration);
      var d2 := CountUpValue(to, t2, start, duration);
      Min(0.0, to) <= d1 <= Max(0.0, to)
      && (0.0 <= to ==> d1 <= d2)
      && (to < 0.0 ==> d2 <= d1)
      && (start + duration <= t2 ==> d2 == to)
  {
    ProgressMonotone(t1, t2, start, duration);
    EasedBounds(Progress(t1, start, duration), Progress(t2, start, duration));
    ScaleBetween(Eased(Progress(t1, start, duration)), Eased(Progress(t2, start, duration)), to);
  }

  /** Later frames have at least the progress of earlier ones. */
  lemma ProgressMonotone(t1: real, t2: real, start: real, duration: real)
    requires 0.0 < duration && t1 <= t2
    ensures Progress(t1, start, duration) <= Progress(t2, start, duration)
  {
    DivMonotone(t1 - start, t2 - start, duration);
  }

  /** Scaling a target by two fractions in `[0, 1]`. */
  lemma ScaleBetween(e1: real, e2: real, to: real)
    requires 0.0 <= e1 <= e2 <= 1.0
    ensures Min(0.0, to) <= (to - 0.0) * e1 <= Max(0.0, to)
    ensures 0.0 <= to ==> (to - 0.0) * e1 <= (to - 0.0) * e2
    ensures to < 0.0 ==> (to - 0.0) * e2 <= (to - 0.0) * e1
  {
    assert (to - 0.0) * e1 == e1 * to && (to - 0.0) * e2 == e2 * to;
    if 0.0 <= to {
      MulMonotone(e1, e2, to);
      MulMonotone(e1, 1.0, to);
      MulMonotone(0.0, e1, to);
      calc {
        (to - 0.0) * e1;
      ==
        e1 * to;
      <=
        1.0 * to;
      ==
        Max(0.0, to);
      }
    } else {
      MulMonotone(e1, e2, -to);
      MulMonotone(e1, 1.0, -to);
      MulMonotone(0.0, e1, -to);
      assert e1 * -to == -(e1 * to) && e2 * -to == -(e2 * to);
    }
  }

  /** `useCountUp`: the shown value and the pending animation frame, if any. */
  class CountUp {
    const duration: real
    var display: real
    var running: bool
    var start: real
    var to: real

    /** `useState(0)`, nothing scheduled. */
    constructor (duration: real)
      requires 0.0 < duration
      ensures this.duration == duration && display == 0.0 && !running
    {
      this.duration := duration;
      display := 0.0;
      running := false;
      start := 0.0;
      to := 0.0;
    }

    /** The effect, after the cleanup of its previous run cancelled any pending frame:
        nothing when not running or without a finite value; the value itself under reduced
        motion; else a fresh count-up from zero starting at `now`. */
    method Effect(value: Option<real>, run: bool, prefersReduced: bool, now: real)
      modifies this
      ensures !run || value.None? ==> display == old(display) && !running
      ensures run && value.Some? && prefersReduced ==> display == value.value && !running
      ensures run && value.Some? && !prefersReduced ==>
        display == old(display) && running && start == now && to == value.value
    {
      running := false;
      if !run || value.None? {
        return;
      }
      if prefersReduced {
        display := value.value;
        return;
      }
      start := now;
      to := value.value;
      running := true;
    }

    /** One `tick(t)` callback: show the eased value; schedule another frame while the
        progress is below one. */
    method Tick(t: real)
      requires 0.0 < duration && running
      modifies this
      ensures display == CountUpValue(to, t, start, duration)
      ensures running <==> Progress(t, start, duration) < 1.0
      ensures start == old(start) && to == old(to)
    {
      var p := Min(1.0, (t - start) / duration);
      var eased := 1.0 - (1.0 - p) * (1.0 - p) * (1.0 - p);
      display := 0.0 + (to - 0.0) * eased;
      running := p < 1.0;
    }
  }

  /** `Number.isFinite(x)` for an optional bound (`undefined` is not finite). */
  predicate FiniteBound(b: Option<JsNumber>) {
    b.Some? && b.value.Finite?
  }

  /** `minusDisabled`. */
  predicate MinusDisabled(value: JsNumber, min: Option<JsNumber>) {
    if value.Finite? && FiniteBound(min) then value.r <= min.value.r else false
  }

  /** `plusDisabled`. */
  predicate PlusDisabled(value: JsNumber, max: Option<JsNumber>) {
    if value.Finite? && FiniteBound(max) then value.r >= max.value.r else false
  }

  /** The buttons disable only at a finite bound: neither is disabled for a value that is
      not a finite number or strictly inside its bounds, and with `min < max` at most one
      is. The first two clauses unfold `MinusDisabled` and `PlusDisabled`. */
  lemma StepperButtons(value: JsNumber, min: Option<JsNumber>, max: Option<JsNumber>)
    ensures MinusDisabled(value, min) <==> value.Finite? && FiniteBound(min) && value.r <= min.value.r
    ensures PlusDisabled(value, max) <==> value.Finite? && FiniteBound(max) && value.r >= max.value.r
    ensures FiniteBound(min) && FiniteBound(max) && min.value.r < max.value.r
      ==> !(MinusDisabled(value, min) && PlusDisabled(value, max))
  {}
}
