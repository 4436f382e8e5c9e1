/** Metric synthesis of the live metrics ticker (`clamp`, `clamp01`, `easeInOutSine` and
    `computeDeterministicMetrics` in src/components/hero/LiveMetricsTicker.client.tsx).

    Numbers are modelled over `real`; a value that is NaN in the source is `None`. `Math.sin`
    and `Math.cos` are parameters: any functions on reals. The properties that need their
    range ask for it with `Bounded`. */
module Metrics {
  import opened Wrappers
  import opened Decimal
  import opened SeededRng
  import opened IstTime

  /** `PI` and `TAU` of the source: `Math.PI` and `Math.PI * 2`, written out as the decimals
      of those doubles where they are used. */

  /** A function bounded by -1 and 1, as `Math.sin` and `Math.cos` are. */
  ghost predicate Bounded(g: real -> real) {
    forall x :: -1.0 <= g(x) <= 1.0
  }

  /** `Math.min(max, Math.max(min, n))`. */
  function Clamp(n: real, lo: real, hi: real): (r: real)
    ensures lo <= hi ==> lo <= r <= hi
    ensures lo <= n <= hi ==> r == n
    ensures n < lo <= hi ==> r == lo
    ensures lo <= hi < n ==> r == hi
  {
    if hi < (if n < lo then lo else n) then hi else if n < lo then lo else n
  }

  /** `Math.min(1, Math.max(0, n))`. */
  function Clamp01(n: real): (r: real)
    ensures 0.0 <= r <= 1.0
    ensures 0.0 <= n <= 1.0 ==> r == n
    ensures n < 0.0 ==> r == 0.0
    ensures 1.0 < n ==> r == 1.0
  {
    Clamp(n, 0.0, 1.0)
  }

  /** `0.5 - 0.5 * Math.cos(PI * clamp01(t))`: a progress value, in [0, 1] when the cosine
      is. */
  function EaseInOutSine(t: real, cos: real -> real): (r: real)
    ensures -1.0 <= cos(3.141592653589793 * Clamp01(t)) <= 1.0 ==> 0.0 <= r <= 1.0
  {
    0.5 - 0.5 * cos(3.141592653589793 * Clamp01(t))
  }

  /** `Math.floor(x)` of a real. */
  function Floor(x: real): int {
    x.Floor
  }

  /** `Math.floor` keeps bounds that are whole numbers. */
  lemma FloorBetween(x: real, lo: int, hi: int)
    requires lo as real <= x <= hi as real
    ensures lo <= Floor(x) <= hi
  {}

  /** A share of a non-negative amount is between nothing and all of it. */
  lemma ShareBounds(total: real, share: real)
    requires 0.0 <= total && 0.0 <= share <= 1.0
    ensures 0.0 <= total * share <= total
  {
    assert total - total * share == total * (1.0 - share);
    assert 0.0 <= total * (1.0 - share);
    assert 0.0 <= total * share;
  }

  /** `Math.round(x)`: the nearest integer, halves rounded up. */
  function Round(x: real): (n: int)
    ensures x - 0.5 < n as real <= x + 0.5
  {
    (x + 0.5).Floor
  }

  /** `Math.floor(rng() * k)` of a draw whose raw word is `w`, as the integer quotient
      `(w * k) div 2^32`; `ScaledDraw` shows the two agree. */
  function Scaled(w: Word, k: nat): (n: int)
    requires 0 < k
    ensures 0 <= n < k
  {
    assert w * k < TWO_32 * k;
    (w * k) / TWO_32
  }

  /** Scaling the unit draw and flooring it gives the integer quotient exactly. */
  lemma ScaledDraw(w: Word, k: nat)
    requires 0 < k
    ensures Floor(Unit(w) * k as real) == Scaled(w, k)
  {
    var n := w * k;
    var q, r := n / TWO_32, n % TWO_32;
    assert n == q * TWO_32 + r;
    assert n as real == q as real * 4294967296.0 + r as real;
    assert Unit(w) * k as real == n as real / 4294967296.0;
  }

  /** Draws taken from each generator: the month generator is called three times, the day
      generator four times (the second and third are for the discarded user count), the
      bucket generator three times (the second for the user count). */
  const MONTH_DRAWS: nat := 3
  const DAY_DRAWS: nat := 4
  const BUCKET_DRAWS: nat := 3

  // ---------- values ----------

  /** `30 + Math.floor(rngMonth() * 40)`: on-prem instances, from 30 to 69. */
  function Onprem(w: Word): (n: int)
    ensures 30 <= n <= 69
  {
    30 + Scaled(w, 40)
  }

  /** `15 + Math.floor(rngMonth() * 30)`: cloud instances, from 15 to 44. */
  function Cloud(w: Word): (n: int)
    ensures 15 <= n <= 44
  {
    15 + Scaled(w, 30)
  }

  /** `2 + Math.floor(rngMonth() * 6)`: modules per deployment, from 2 to 7. */
  function ModuleFactor(w: Word): (n: int)
    ensures 2 <= n <= 7
  {
    2 + Scaled(w, 6)
  }

  /** `99.93 + rngDay() * 0.06`: the day's uptime base, in [99.93, 99.99). */
  function SlaDaily(w: Word): (x: real)
    ensures 99.93 <= x < 99.99
  {
    99.93 + Unit(w) * 0.06
  }

  /** `clamp(slaDaily + (rngBucket() - 0.5) * 0.01, 99.9, 99.995)`: the shown uptime. */
  function Sla(slaDaily: real, w: Word): (x: real)
    ensures 99.9 <= x <= 99.995
  {
    Clamp(slaDaily + (Unit(w) - 0.5) * 0.01, 99.9, 99.995)
  }

  /** `18000 + Math.floor(rngDay() * 12000)`: the day's invoice target, from 18000 to 29999. */
  function TargetTotal(w: Word): (n: int)
    ensures 18000 <= n <= 29999
  {
    18000 + Scaled(w, 12000)
  }

  /** `Math.floor(total * p)`: for a share `p` in [0, 1], a whole number from 0 to `total`. */
  function Share(total: nat, p: real): (n: int)
    ensures 0.0 <= p <= 1.0 ==> 0 <= n <= total
  {
    var x := total as real * p;
    if 0.0 <= p <= 1.0 then
      ShareBounds(total as real, p);
      FloorBetween(x, 0, total);
      Floor(x)
    else Floor(x)
  }

  /** `easeInOutSine(Math.min(1, Math.max(0, (f - 0.17) / 0.7)))`: how far through the day's
      invoices the fraction `f` of the IST day is. */
  function Progress(f: real, cos: real -> real): real {
    EaseInOutSine(Clamp01((f - 0.17) / 0.7), cos)
  }

  /** With a bounded cosine the progress lies in [0, 1]. */
  lemma ProgressBounds(f: real, cos: real -> real)
    requires Bounded(cos)
    ensures 0.0 <= Progress(f, cos) <= 1.0
  {
    var x := 3.141592653589793 * Clamp01(Clamp01((f - 0.17) / 0.7));
    assert -1.0 <= cos(x) <= 1.0;
  }

  /** `Math.max(0, Math.floor(targetTotal * progress))`: NaN when the fraction of the day is,
      else a count that is never negative and, while the progress is in [0, 1], no more than
      the target. */
  function Invoices(targetTotal: nat, f: Option<real>, cos: real -> real): (n: Option<int>)
    ensures n.Some? <==> f.Some?
    ensures n.Some? ==> 0 <= n.value
    ensures n.Some? && 0.0 <= Progress(f.value, cos) <= 1.0 ==> n.value <= targetTotal
  {
    if f.None? then None
    else
      var n := Share(targetTotal, Progress(f.value, cos));
      Some(if n < 0 then 0 else n)
  }

  /** `Math.round(clamp(170 + Math.sin(TAU * f) * 15 + (rngBucket() - 0.5) * 20, 140, 240))`
      for the draw `u = rngBucket()`: NaN when the fraction of the day is, else a whole number
      of milliseconds from 140 to 240. */
  function Latency(f: Option<real>, u: real, sin: real -> real): (n: Option<int>)
    ensures n.Some? <==> f.Some?
    ensures n.Some? ==> 140 <= n.value <= 240
  {
    if f.None? then None
    else
      var baseLatency := 170.0 + sin(6.283185307179586 * f.value) * 15.0;
      Some(Round(Clamp(baseLatency + (u - 0.5) * 20.0, 140.0, 240.0)))
  }

  /** Every quantity `computeDeterministicMetrics` derives, before it is packed into items. */
  datatype MetricValues = MetricValues(
    onprem: int, cloud: int, deployments: int, multiplier: int, modules: int,
    slaDaily: real, sla: real,
    targetTotal: int, invoices: Option<int>, latency: Option<int>)

  /** The quantities for one bucket from the three generators' draws: month draws 0 to 2, day
      draws 0 and 3, bucket draws 0 and 2 (day draws 1 and 2 and bucket draw 1 go to the
      discarded user count). */
  function ValuesFromDraws(m: seq<Word>, d: seq<Word>, b: seq<Word>, f: Option<real>,
                           sin: real -> real, cos: real -> real): MetricValues
    requires |m| == MONTH_DRAWS && |d| == DAY_DRAWS && |b| == BUCKET_DRAWS
  {
    var onprem := Onprem(m[0]);
    var cloud := Cloud(m[1]);
    var factor := ModuleFactor(m[2]);
    var slaDaily := SlaDaily(d[0]);
    var target := TargetTotal(d[3]);
    MetricValues(onprem, cloud, onprem + cloud, factor, (onprem + cloud) * factor,
                 slaDaily, Sla(slaDaily, b[0]), target, Invoices(target, f, cos), Latency(f, Unit(b[2]), sin))
  }

  // ---------- seeds ----------

  /** The three seed strings, from the bucket's decimal text and its IST day and month keys. */
  function BucketSeed(bucketText: string): string {
    "pivotr|bucket|" + bucketText
  }

  function DaySeed(dayKey: string): string {
    "pivotr|day|" + dayKey
  }

  function MonthSeed(monthKey: string): string {
    "pivotr|month|" + monthKey
  }

  /** The inputs `computeDeterministicMetrics` derives from the bucket before drawing. */
  datatype BucketInputs = BucketInputs(bucketText: string, dayKey: string, monthKey: string,
                                       fraction: Option<real>)

  function InputsOf(bucketMs: int): BucketInputs {
    BucketInputs(IntToDecimal(bucketMs), IstDayKey(bucketMs), IstMonthKey(bucketMs),
                 IstFractionOfDay(bucketMs))
  }

  /** The quantities drawn from generators seeded by `k`'s keys. */
  function ValuesOf(k: BucketInputs, sin: real -> real, cos: real -> real): MetricValues {
    ValuesFromDraws(Draws(MonthSeed(k.monthKey), MONTH_DRAWS), Draws(DaySeed(k.dayKey), DAY_DRAWS),
                    Draws(BucketSeed(k.bucketText), BUCKET_DRAWS), k.fraction, sin, cos)
  }

  /** The quantities for the bucket starting at `bucketMs`. */
  function Values(bucketMs: int, sin: real -> real, cos: real -> real): MetricValues {
    ValuesOf(InputsOf(bucketMs), sin, cos)
  }

  // ---------- properties of the quantities ----------

  /** The instance counts, for any draws: on-prem from 30 to 69, cloud from 15 to 44,
      deployments their sum, from 45 to 113. */
  lemma InstanceBounds(m: seq<Word>, d: seq<Word>, b: seq<Word>, f: Option<real>, sin: real -> real, cos: real -> real)
    requires |m| == MONTH_DRAWS && |d| == DAY_DRAWS && |b| == BUCKET_DRAWS
    ensures 30 <= ValuesFromDraws(m, d, b, f, sin, cos).onprem <= 69
    ensures 15 <= ValuesFromDraws(m, d, b, f, sin, cos).cloud <= 44
    ensures ValuesFromDraws(m, d, b, f, sin, cos).deployments
         == ValuesFromDraws(m, d, b, f, sin, cos).onprem + ValuesFromDraws(m, d, b, f, sin, cos).cloud
    ensures 45 <= ValuesFromDraws(m, d, b, f, sin, cos).deployments <= 113
  {}

  /** The enabled modules: the deployments times a factor from 2 to 7, so from 90 to 791. */
  lemma ModuleBounds(m: seq<Word>, d: seq<Word>, b: seq<Word>, f: Option<real>, sin: real -> real, cos: real -> real)
    requires |m| == MONTH_DRAWS && |d| == DAY_DRAWS && |b| == BUCKET_DRAWS
    ensures 2 <= ValuesFromDraws(m, d, b, f, sin, cos).multiplier <= 7
    ensures ValuesFromDraws(m, d, b, f, sin, cos).modules
         == ValuesFromDraws(m, d, b, f, sin, cos).deployments * ValuesFromDraws(m, d, b, f, sin, cos).multiplier
    ensures 90 <= ValuesFromDraws(m, d, b, f, sin, cos).modules <= 791
  {
    var v := ValuesFromDraws(m, d, b, f, sin, cos);
    ProductBounds(v.deployments, v.multiplier, 45, 113, 2, 7);
  }

  /** Bounds of a product of two bounded naturals. */
  lemma ProductBounds(x: int, y: int, xlo: nat, xhi: nat, ylo: nat, yhi: nat)
    requires xlo <= x <= xhi && ylo <= y <= yhi
    ensures xlo * ylo <= x * y <= xhi * yhi
  {
    assert x * y - xlo * ylo == (x - xlo) * y + xlo * (y - ylo);
    assert xhi * yhi - x * y == (xhi - x) * yhi + x * (yhi - y);
  }

  /** The uptime: the daily base in [99.93, 99.99), the shown value within its clamp
      [99.9, 99.995]. */
  lemma UptimeBounds(m: seq<Word>, d: seq<Word>, b: seq<Word>, f: Option<real>, sin: real -> real, cos: real -> real)
    requires |m| == MONTH_DRAWS && |d| == DAY_DRAWS && |b| == BUCKET_DRAWS
    ensures 99.93 <= ValuesFromDraws(m, d, b, f, sin, cos).slaDaily < 99.99
    ensures 99.9 <= ValuesFromDraws(m, d, b, f, sin, cos).sla <= 99.995
  {}

  /** The day's invoice target, from 18000 to 29999. */
  lemma TargetBounds(m: seq<Word>, d: seq<Word>, b: seq<Word>, f: Option<real>, sin: real -> real, cos: real -> real)
    requires |m| == MONTH_DRAWS && |d| == DAY_DRAWS && |b| == BUCKET_DRAWS
    ensures 18000 <= ValuesFromDraws(m, d, b, f, sin, cos).targetTotal <= 29999
  {}

  /** The invoices, for a bounded cosine: a count present exactly when the fraction of the
      day is, from 0 to the day's target. */
  lemma InvoiceBounds(m: seq<Word>, d: seq<Word>, b: seq<Word>, f: Option<real>,
                      sin: real -> real, cos: real -> real)
    requires |m| == MONTH_DRAWS && |d| == DAY_DRAWS && |b| == BUCKET_DRAWS
    requires Bounded(cos)
    ensures ValuesFromDraws(m, d, b, f, sin, cos).invoices.Some? <==> f.Some?
    ensures ValuesFromDraws(m, d, b, f, sin, cos).invoices.Some? ==>
      0 <= ValuesFromDraws(m, d, b, f, sin, cos).invoices.value <= ValuesFromDraws(m, d, b, f, sin, cos).targetTotal
  {
    if f.Some? {
      ProgressBounds(f.value, cos);
    }
  }

  /** The latency: present exactly when the fraction of the day is, a whole number of
      milliseconds from 140 to 240. */
  lemma LatencyBounds(m: seq<Word>, d: seq<Word>, b: seq<Word>, f: Option<real>, sin: real -> real, cos: real -> real)
    requires |m| == MONTH_DRAWS && |d| == DAY_DRAWS && |b| == BUCKET_DRAWS
    ensures ValuesFromDraws(m, d, b, f, sin, cos).latency.Some? <==> f.Some?
    ensures ValuesFromDraws(m, d, b, f, sin, cos).latency.Some? ==>
      140 <= ValuesFromDraws(m, d, b, f, sin, cos).latency.value <= 240
  {}

  /** The month metrics are computed from the month draws alone. */
  lemma MonthMetricsFollowMonthDraws(m: seq<Word>, d1: seq<Word>, b1: seq<Word>, f1: Option<real>,
                                     d2: seq<Word>, b2: seq<Word>, f2: Option<real>, sin: real -> real, cos: real -> real)
    requires |m| == MONTH_DRAWS && |d1| == |d2| == DAY_DRAWS && |b1| == |b2| == BUCKET_DRAWS
    ensures ValuesFromDraws(m, d1, b1, f1, sin, cos).onprem == ValuesFromDraws(m, d2, b2, f2, sin, cos).onprem
    ensures ValuesFromDraws(m, d1, b1, f1, sin, cos).cloud == ValuesFromDraws(m, d2, b2, f2, sin, cos).cloud
    ensures ValuesFromDraws(m, d1, b1, f1, sin, cos).modules == ValuesFromDraws(m, d2, b2, f2, sin, cos).modules
  {}

  /** The daily uptime base and the invoice target are computed from the day draws alone. */
  lemma DayMetricsFollowDayDraws(m1: seq<Word>, d: seq<Word>, b1: seq<Word>, f1: Option<real>,
                                 m2: seq<Word>, b2: seq<Word>, f2: Option<real>, sin: real -> real, cos: real -> real)
    requires |m1| == |m2| == MONTH_DRAWS && |d| == DAY_DRAWS && |b1| == |b2| == BUCKET_DRAWS
    ensures ValuesFromDraws(m1, d, b1, f1, sin, cos).slaDaily == ValuesFromDraws(m2, d, b2, f2, sin, cos).slaDaily
    ensures ValuesFromDraws(m1, d, b1, f1, sin, cos).targetTotal == ValuesFromDraws(m2, d, b2, f2, sin, cos).targetTotal
  {}

  /** Two buckets in the same IST month show the same instance and module counts. */
  lemma SameIstMonthSameInstances(t1: int, t2: int, sin: real -> real, cos: real -> real)
    requires IstCivil(t1).Some? && IstCivil(t2).Some?
    requires IstCivil(t1).value.year == IstCivil(t2).value.year
    requires IstCivil(t1).value.month == IstCivil(t2).value.month
    ensures Values(t1, sin, cos).onprem == Values(t2, sin, cos).onprem
    ensures Values(t1, sin, cos).cloud == Values(t2, sin, cos).cloud
    ensures Values(t1, sin, cos).modules == Values(t2, sin, cos).modules
  {
    MonthKeyIdentifiesIstMonth(t1, t2);
    var k1, k2 := InputsOf(t1), InputsOf(t2);
    MonthMetricsFollowMonthDraws(Draws(MonthSeed(k1.monthKey), MONTH_DRAWS),
      Draws(DaySeed(k1.dayKey), DAY_DRAWS), Draws(BucketSeed(k1.bucketText), BUCKET_DRAWS), k1.fraction,
      Draws(DaySeed(k2.dayKey), DAY_DRAWS), Draws(BucketSeed(k2.bucketText), BUCKET_DRAWS), k2.fraction,
      sin, cos);
  }

  /** Two buckets on the same IST day share the daily uptime base and the invoice target. */
  lemma SameIstDaySameTarget(t1: int, t2: int, sin: real -> real, cos: real -> real)
    requires IstTimeValue(t1).Some? && IstTimeValue(t2).Some?
    requires Day(t1 + IST_OFFSET_MS) == Day(t2 + IST_OFFSET_MS)
    ensures Values(t1, sin, cos).slaDaily == Values(t2, sin, cos).slaDaily
    ensures Values(t1, sin, cos).targetTotal == Values(t2, sin, cos).targetTotal
  {
    DayKeyIdentifiesIstDay(t1, t2);
    var k1, k2 := InputsOf(t1), InputsOf(t2);
    DayMetricsFollowDayDraws(Draws(MonthSeed(k1.monthKey), MONTH_DRAWS),
      Draws(DaySeed(k1.dayKey), DAY_DRAWS), Draws(BucketSeed(k1.bucketText), BUCKET_DRAWS), k1.fraction,
      Draws(MonthSeed(k2.monthKey), MONTH_DRAWS), Draws(BucketSeed(k2.bucketText), BUCKET_DRAWS), k2.fraction,
      sin, cos);
  }

  /** For a bucket, the fraction of the day, and with it the invoice count and the latency,
      is present exactly for a valid date. */
  lemma BucketFractionPresent(bucketMs: int)
    ensures InputsOf(bucketMs).fraction.Some? <==> IstTimeValue(bucketMs).Some?
  {}

  // ---------- items ----------

  datatype MetricType = IntMetric | FloatMetric

  /** One entry of the returned list: `title` is the source's `label`; `value` is `None` where
      the source's number is NaN. */
  datatype MetricItem = MetricItem(key: string, title: string, value: Option<real>,
                                   kind: MetricType, suffix: Option<string>)

  function IntValue(n: int): Option<real> {
    Some(n as real)
  }

  function OptIntValue(n: Option<int>): Option<real> {
    if n.None? then None else Some(n.value as real)
  }

  /** The seven items, in display order. */
  function Items(v: MetricValues): seq<MetricItem> {
    [ MetricItem("deployments", "Active Deployments", IntValue(v.deployments), IntMetric, None),
      MetricItem("onprem", "On\U{2011}prem Instances", IntValue(v.onprem), IntMetric, None),
      MetricItem("cloud", "Cloud Instances", IntValue(v.cloud), IntMetric, None),
      MetricItem("invoices", "Invoices Processed (Today)", OptIntValue(v.invoices), IntMetric, None),
      MetricItem("modules", "Modules Enabled", IntValue(v.modules), IntMetric, None),
      MetricItem("latency", "Avg Response (India)", OptIntValue(v.latency), IntMetric, Some("ms")),
      MetricItem("uptime", "SLA Uptime (90d)", Some(v.sla), FloatMetric, Some("%")) ]
  }

  /** `computeDeterministicMetrics(bucketMs)` as a value. */
  function DeterministicMetrics(bucketMs: int, sin: real -> real, cos: real -> real): seq<MetricItem> {
    Items(Values(bucketMs, sin, cos))
  }

  const KEYS: seq<string> := ["deployments", "onprem", "cloud", "invoices", "modules", "latency", "uptime"]

  /** Exactly seven items in a fixed key order; only the uptime is a float; the values are
      the derived quantities, every one but the uptime a whole number (or NaN). */
  lemma ItemsShape(v: MetricValues)
    ensures |Items(v)| == 7
    ensures forall i :: 0 <= i < 7 ==> Items(v)[i].key == KEYS[i]
    ensures forall i :: 0 <= i < 7 ==> (Items(v)[i].kind == FloatMetric <==> i == 6)
    ensures Items(v)[0].value == Some(v.deployments as real)
    ensures Items(v)[1].value == Some(v.onprem as real)
    ensures Items(v)[2].value == Some(v.cloud as real)
    ensures Items(v)[3].value == OptIntValue(v.invoices)
    ensures Items(v)[4].value == Some(v.modules as real)
    ensures Items(v)[5].value == OptIntValue(v.latency)
    ensures Items(v)[6].value == Some(v.sla)
  {}

  // ---------- the generating procedure ----------

  /** The source's floating-point formulas over a draw agree with the integer quotients the
      quantities are defined by. */
  lemma OnpremFromUnit(w: Word)
    ensures 30 + Floor(Unit(w) * 40.0) == Onprem(w)
  {
    ScaledDraw(w, 40);
  }

  lemma CloudFromUnit(w: Word)
    ensures 15 + Floor(Unit(w) * 30.0) == Cloud(w)
  {
    ScaledDraw(w, 30);
  }

  lemma ModuleFactorFromUnit(w: Word)
    ensures 2 + Floor(Unit(w) * 6.0) == ModuleFactor(w)
  {
    ScaledDraw(w, 6);
  }

  lemma TargetTotalFromUnit(w: Word)
    ensures 18000 + Floor(Unit(w) * 12000.0) == TargetTotal(w)
  {
    ScaledDraw(w, 12000);
  }

  /** The instance and module counts: three draws from the month generator. */
  method DrawInstances(rngMonth: Sfc32)
    returns (onprem: int, cloud: int, deployments: int, factor: int, modules: int)
    modifies rngMonth
    ensures onprem == Onprem(Output(old(rngMonth.State())))
    ensures cloud == Cloud(Output(StepState(old(rngMonth.State()))))
    ensures factor == ModuleFactor(Output(StepState(StepState(old(rngMonth.State())))))
    ensures deployments == onprem + cloud && modules == deployments * factor
    ensures rngMonth.State() == StepState(StepState(StepState(old(rngMonth.State()))))
  {
    ghost var s := rngMonth.State();
    var m0 := rngMonth.Next();
    OnpremFromUnit(Output(s));
    onprem := 30 + Floor(m0 * 40.0);
    var m1 := rngMonth.Next();
    CloudFromUnit(Output(StepState(s)));
    cloud := 15 + Floor(m1 * 30.0);
    deployments := onprem + cloud;
    var m2 := rngMonth.Next();
    ModuleFactorFromUnit(Output(StepState(StepState(s))));
    factor := 2 + Floor(m2 * 6.0);
    modules := deployments * factor;
  }

  /** The uptime: the daily base from the day generator, the jitter from the bucket
      generator. */
  method DrawUptime(rngDay: Sfc32, rngBucket: Sfc32) returns (slaDaily: real, sla: real)
    requires rngDay != rngBucket
    modifies rngDay, rngBucket
    ensures slaDaily == SlaDaily(Output(old(rngDay.State())))
    ensures sla == Sla(slaDaily, Output(old(rngBucket.State())))
    ensures rngDay.State() == StepState(old(rngDay.State()))
    ensures rngBucket.State() == StepState(old(rngBucket.State()))
  {
    var d0 := rngDay.Next();
    slaDaily := 99.93 + d0 * 0.06;
    var b0 := rngBucket.Next();
    sla := Clamp(slaDaily + (b0 - 0.5) * 0.01, 99.9, 99.995);
  }

  /** The active-user count, drawn and not returned: two day draws and one bucket draw. */
  method DrawUsers(rngDay: Sfc32, rngBucket: Sfc32)
    requires rngDay != rngBucket
    modifies rngDay, rngBucket
    ensures rngDay.State() == StepState(StepState(old(rngDay.State())))
    ensures rngBucket.State() == StepState(old(rngBucket.State()))
  {
    var usersMax := rngDay.Next();
    var usersMin := rngDay.Next();
    var usersJitter := rngBucket.Next();
  }

  /** The invoice target from the day generator, and the count for the fraction of the
      day. */
  method DrawInvoices(rngDay: Sfc32, f: Option<real>, cos: real -> real)
    returns (targetTotal: int, invoices: Option<int>)
    modifies rngDay
    ensures targetTotal == TargetTotal(Output(old(rngDay.State())))
    ensures invoices == Invoices(targetTotal, f, cos)
    ensures rngDay.State() == StepState(old(rngDay.State()))
  {
    ghost var s := rngDay.State();
    var d3 := rngDay.Next();
    TargetTotalFromUnit(Output(s));
    targetTotal := 18000 + Floor(d3 * 12000.0);
    invoices := Invoices(targetTotal, f, cos);
  }

  /** The latency from the bucket generator and the fraction of the day. */
  method DrawLatency(rngBucket: Sfc32, f: Option<real>, sin: real -> real) returns (latency: Option<int>)
    modifies rngBucket
    ensures latency == Latency(f, Unit(Output(old(rngBucket.State()))), sin)
    ensures rngBucket.State() == StepState(old(rngBucket.State()))
  {
    var b2 := rngBucket.Next();
    latency := Latency(f, b2, sin);
  }

  /** The drawing part of `computeDeterministicMetrics`, from the three generators, drawn
      from in the source's order. Each generator ends having been called as often as its
      draws count. */
  method DrawMetrics(rngMonth: Sfc32, rngDay: Sfc32, rngBucket: Sfc32, f: Option<real>,
                     sin: real -> real, cos: real -> real)
    returns (items: seq<MetricItem>)
    requires rngMonth != rngDay && rngMonth != rngBucket && rngDay != rngBucket
    modifies rngMonth, rngDay, rngBucket
    ensures items == Items(ValuesFromDraws(Outputs(old(rngMonth.State()), MONTH_DRAWS),
                                           Outputs(old(rngDay.State()), DAY_DRAWS),
                                           Outputs(old(rngBucket.State()), BUCKET_DRAWS),
                                           f, sin, cos))
    ensures rngMonth.State() == StepState(StepState(StepState(old(rngMonth.State()))))
    ensures rngDay.State() == StepState(StepState(StepState(StepState(old(rngDay.State())))))
    ensures rngBucket.State() == StepState(StepState(StepState(old(rngBucket.State()))))
  {
    ghost var sm, sd, sb := rngMonth.State(), rngDay.State(), rngBucket.State();
    var onprem, cloud, deployments, factor, modules := DrawInstances(rngMonth);
    var slaDaily, sla := DrawUptime(rngDay, rngBucket);
    DrawUsers(rngDay, rngBucket);
    var targetTotal, invoices := DrawInvoices(rngDay, f, cos);
    var latency := DrawLatency(rngBucket, f, sin);
    var v := MetricValues(onprem, cloud, deployments, factor, modules, slaDaily, sla, targetTotal, invoices, latency);
    ThreeOutputs(sm);
    FourOutputs(sd);
    ThreeOutputs(sb);
    AssembledValues(Outputs(sm, MONTH_DRAWS), Outputs(sd, DAY_DRAWS), Outputs(sb, BUCKET_DRAWS), f, sin, cos, v);
    items := Items(v);
  }

  /** Quantities that agree draw by draw with the definitions are the quantities of those
      draws. */
  lemma AssembledValues(m: seq<Word>, d: seq<Word>, b: seq<Word>, f: Option<real>,
                        sin: real -> real, cos: real -> real, v: MetricValues)
    requires |m| == MONTH_DRAWS && |d| == DAY_DRAWS && |b| == BUCKET_DRAWS
    requires v.onprem == Onprem(m[0]) && v.cloud == Cloud(m[1]) && v.multiplier == ModuleFactor(m[2])
    requires v.deployments == v.onprem + v.cloud && v.modules == v.deployments * v.multiplier
    requires v.slaDaily == SlaDaily(d[0]) && v.sla == Sla(v.slaDaily, b[0])
    requires v.targetTotal == TargetTotal(d[3]) && v.invoices == Invoices(v.targetTotal, f, cos)
    requires v.latency == Latency(f, Unit(b[2]), sin)
    ensures v == ValuesFromDraws(m, d, b, f, sin, cos)
  {}

  /** The quantities are those drawn from the three seeded states: an unfolding step from
      `Values` to the draw lists, used by `MetricsFromInputs`. */
  lemma ValuesOfSeeds(k: BucketInputs, sin: real -> real, cos: real -> real)
    ensures ValuesOf(k, sin, cos)
         == ValuesFromDraws(Outputs(SeedState(Utf16(MonthSeed(k.monthKey))), MONTH_DRAWS),
                            Outputs(SeedState(Utf16(DaySeed(k.dayKey))), DAY_DRAWS),
                            Outputs(SeedState(Utf16(BucketSeed(k.bucketText))), BUCKET_DRAWS),
                            k.fraction, sin, cos)
  {}

  /** Seeds the three generators from `k`'s keys and draws. */
  method MetricsFromInputs(k: BucketInputs, sin: real -> real, cos: real -> real) returns (items: seq<MetricItem>)
    ensures items == Items(ValuesOf(k, sin, cos))
  {
    var rngBucket := RngFromSeed(BucketSeed(k.bucketText));
    ghost var sb := rngBucket.State();
    var rngDay := RngFromSeed(DaySeed(k.dayKey));
    ghost var sd := rngDay.State();
    var rngMonth := RngFromSeed(MonthSeed(k.monthKey));
    ghost var sm := rngMonth.State();
    assert rngBucket.State() == sb && rngDay.State() == sd;
    ValuesOfSeeds(k, sin, cos);
    items := DrawMetrics(rngMonth, rngDay, rngBucket, k.fraction, sin, cos);
  }

  /** `computeDeterministicMetrics(bucketMs)`: derive the keys and the fraction of the IST day,
      then draw. */
  method ComputeDeterministicMetrics(bucketMs: int, sin: real -> real, cos: real -> real)
    returns (items: seq<MetricItem>)
    ensures items == DeterministicMetrics(bucketMs, sin, cos)
  {
    var utcBucketKey := IntToDecimal(bucketMs);
    var dayKey := IstDayKey(bucketMs);
    var monthKey := IstMonthKey(bucketMs);
    var f := IstFractionOfDay(bucketMs);
    items := MetricsFromInputs(BucketInputs(utcBucketKey, dayKey, monthKey, f), sin, cos);
  }
}
