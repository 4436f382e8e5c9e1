/** The easing of the displayed metric values (`useAnimatedNumber` in
    src/components/hero/LiveMetricsTicker.client.tsx): every animation frame moves the shown
    number 15% of the way to the latest target, and snaps onto the target once the remaining
    gap is below one half. Numbers are reals. */
module AnimatedNumber {

  function Abs(x: real): real {
    if x < 0.0 then -x else x
  }

  function Min(x: real, y: real): real {
    if x <= y then x else y
  }

  function Max(x: real, y: real): real {
    if x <= y then y else x
  }

  /** One frame of `setDisplay((current) => ...)`: the target itself when the gap is below
      0.5, else the current value plus 15% of the gap. The result never passes the target:
      it lies between the current value and the target, on the target's side, and the gap
      shrinks to 85% (or to nothing when it snaps). */
  function AnimateStep(current: real, target: real): (next: real)
    ensures Abs(target - current) < 0.5 ==> next == target
    ensures Min(current, target) <= next <= Max(current, target)
    ensures Abs(target - current) >= 0.5 ==> Abs(target - next) == 0.85 * Abs(target - current)
    ensures Abs(target - next) <= 0.85 * Abs(target - current)
  {
    var delta := target - current;
    var step := delta * 0.15;
    if Abs(delta) < 0.5 then target else current + step
  }

  /** The shown value after `n` frames towards a fixed target. */
  function Frames(current: real, target: real, n: nat): real
    decreases n
  {
    if n == 0 then current else Frames(AnimateStep(current, target), target, n - 1)
  }

  /** `0.85^n * g`: a gap `g` reduced to 85% `n` times. */
  function Shrunk(n: nat, g: real): real
    decreases n
  {
    if n == 0 then g else 0.85 * Shrunk(n - 1, g)
  }

  /** Once on the target the value stays there. */
  lemma {:induction false} StaysOnTarget(target: real, n: nat)
    ensures Frames(target, target, n) == target
    decreases n
  {
    if n > 0 {
      StaysOnTarget(target, n - 1);
    }
  }

  /** Frames never overshoot: every value lies between the start and the target. */
  lemma {:induction false} FramesBetween(current: real, target: real, n: nat)
    ensures Min(current, target) <= Frames(current, target, n) <= Max(current, target)
    decreases n
  {
    if n > 0 {
      FramesBetween(AnimateStep(current, target), target, n - 1);
    }
  }

  /** Shrinking keeps the order of two gaps. */
  lemma {:induction false} ShrunkMonotone(n: nat, g: real, h: real)
    requires g <= h
    ensures Shrunk(n, g) <= Shrunk(n, h)
    decreases n
  {
    if n > 0 {
      ShrunkMonotone(n - 1, g, h);
    }
  }

  /** Shrinking once first and `n - 1` times after is shrinking `n` times. */
  lemma {:induction false} ShrunkFirst(n: nat, g: real)
    requires n > 0
    ensures Shrunk(n - 1, 0.85 * g) == Shrunk(n, g)
    decreases n
  {
    if n > 1 {
      ShrunkFirst(n - 1, g);
    }
  }

  /** The gap after `n` frames is at most `0.85^n` of the first one. */
  lemma {:induction false} GapShrinks(current: real, target: real, n: nat)
    ensures Abs(target - Frames(current, target, n)) <= Shrunk(n, Abs(target - current))
    decreases n
  {
    if n > 0 {
      var next := AnimateStep(current, target);
      GapShrinks(next, target, n - 1);
      ShrunkMonotone(n - 1, Abs(target - next), 0.85 * Abs(target - current));
      ShrunkFirst(n, Abs(target - current));
    }
  }

  /** The value lands exactly on the target: once `0.85^n` times the first gap is below one
      half, `n + 1` frames reach it. */
  lemma {:induction false} SettlesWithin(current: real, target: real, n: nat)
    requires Shrunk(n, Abs(target - current)) < 0.5
    ensures Frames(current, target, n + 1) == target
    decreases n
  {
    if Abs(target - current) < 0.5 {
      StaysOnTarget(target, n);
    } else {
      var next := AnimateStep(current, target);
      ShrunkFirst(n, Abs(target - current));
      SettlesWithin(next, target, n - 1);
    }
  }

  /** Multiplying by a non-negative factor keeps an order. */
  lemma MulLe(a: real, x: real, y: real)
    requires 0.0 <= a && x <= y
    ensures a * x <= a * y
  {}

  /** `0.85^n <= 1 / (1 + 3n/17)`: the shrunk gap times `1 + 3n/17` never exceeds the first
      gap (Bernoulli's inequality for `1/0.85 = 1 + 3/17`). */
  lemma {:induction false} ShrunkBound(n: nat, g: real)
    requires 0.0 <= g
    ensures 0.0 <= Shrunk(n, g)
    ensures Shrunk(n, g) * (1.0 + 3.0 * (n as real) / 17.0) <= g
    decreases n
  {
    if n > 0 {
      ShrunkBound(n - 1, g);
      var a := Shrunk(n - 1, g);
      var x := 0.85 * (1.0 + 3.0 * (n as real) / 17.0);
      var y := 1.0 + 3.0 * ((n - 1) as real) / 17.0;
      assert x <= y;
      MulLe(a, x, y);
      assert Shrunk(n, g) * (1.0 + 3.0 * (n as real) / 17.0) == a * x;
    }
  }

  /** A number of frames after which a gap `g` has certainly closed: `floor(34g/3) + 2`. */
  function SettleFrames(g: real): nat
    requires 0.0 <= g
  {
    (34.0 * g / 3.0).Floor + 2
  }

  /** The animation settles: from any value, `SettleFrames` of the gap frames land exactly on
      the target, and every later frame stays there. */
  lemma Settles(current: real, target: real, m: nat)
    ensures Frames(current, target, SettleFrames(Abs(target - current)) + m) == target
  {
    var g := Abs(target - current);
    var k: nat := (34.0 * g / 3.0).Floor + 1;
    var f := 1.0 + 3.0 * (k as real) / 17.0;
    ShrunkBound(k, g);
    assert f > 2.0 * g + 1.0;
    if Shrunk(k, g) >= 0.5 {
      MulLe(f, 0.5, Shrunk(k, g));
      assert false;
    }
    SettlesWithin(current, target, k);
    FramesSplit(current, target, k + 1, m);
    StaysOnTarget(target, m);
  }

  /** `m + n` frames are `m` frames and then `n` more. */
  lemma {:induction false} FramesSplit(current: real, target: real, m: nat, n: nat)
    ensures Frames(current, target, m + n) == Frames(Frames(current, target, m), target, n)
    decreases m
  {
    if m > 0 {
      FramesSplit(AnimateStep(current, target), target, m - 1, n);
    }
  }

  /** The hook's state: the shown value and `targetRef.current`, the target of the latest
      render. */
  class AnimatedDisplay {
    var display: real
    var target: real

    /** `useState(target)`: the first render shows the target itself. */
    constructor (initial: real)
      ensures display == initial && target == initial
    {
      display := initial;
      target := initial;
    }

    /** A render with a new target: `targetRef.current = target`; the shown value is kept. */
    method SetTarget(t: real)
      modifies this
      ensures target == t && display == old(display)
    {
      target := t;
    }

    /** One `animate` callback, stepping towards the latest target. */
    method Frame()
      modifies this
      ensures display == AnimateStep(old(display), target) && target == old(target)
    {
      var delta := target - display;
      var step := delta * 0.15;
      if Abs(delta) < 0.5 {
        display := target;
      } else {
        display := display + step;
      }
    }
  }
}
