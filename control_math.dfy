/** Arithmetic shared by both controller variants: the anti-windup PI step,
    the exponential temperature filter, the duty-cycle optimizer, the
    optimizer weights derived from the operator's percentage input, and the
    bounded increment/decrement used by every control-panel button. */
module ControlMath {

  /** Anti-windup limit of the PI integrator (both directions). */
  const IntegralLimit: real := 5.0

  function Min(a: real, b: real): real { if a <= b then a else b }
  function Max(a: real, b: real): real { if a <= b then b else a }
  function Abs(x: real): real { if x < 0.0 then -x else x }

  /** Saturation as the controller writes it: test the upper limit first,
      then the lower one. */
  function Clamp(x: real, lo: real, hi: real): (r: real)
    requires lo <= hi
    ensures lo <= r <= hi
    ensures lo <= x <= hi ==> r == x
    ensures x > hi ==> r == hi
    ensures x < lo ==> r == lo
  {
    if x > hi then hi else if x < lo then lo else x
  }

  lemma ClampMonotone(x: real, y: real, lo: real, hi: real)
    requires lo <= hi && x <= y
    ensures Clamp(x, lo, hi) <= Clamp(y, lo, hi)
  {
  }

  // ---------------------------------------------------------------------
  // PI controller
  // ---------------------------------------------------------------------

  /** Output of one PI step: the duty cycle in percent and the new error sum. */
  datatype PiOut = PiOut(duty: real, esum: real)

  /** One PI step with anti-windup: the error sum grows by error*dt and is
      held in [-5, 5]; the control value kp*error + ki*esum is held in [0, 1]
      and reported in percent. */
  function PiCtrl(sp: real, pv: real, kp: real, ki: real, esum: real, dt: real): (r: PiOut)
    ensures -IntegralLimit <= r.esum <= IntegralLimit
    ensures 0.0 <= r.duty <= 100.0
  {
    var error := sp - pv;
    var sum := Integrate(esum, error, dt);
    PiOut(ControlValue(kp, ki, error, sum) * 100.0, sum)
  }

  /** The anti-windup integrator update. */
  function Integrate(esum: real, error: real, dt: real): real {
    Clamp(esum + error * dt, -IntegralLimit, IntegralLimit)
  }

  /** The saturated control value in [0, 1]. */
  function ControlValue(kp: real, ki: real, error: real, sum: real): real {
    Clamp(kp * error + ki * sum, 0.0, 1.0)
  }

  /** Inside the anti-windup band and the output band the step is the plain
      PI law; outside, each quantity sits exactly on the limit it crossed. */
  lemma PiCtrlLaw(sp: real, pv: real, kp: real, ki: real, esum: real, dt: real)
    ensures var raw := esum + (sp - pv) * dt;
            var r := PiCtrl(sp, pv, kp, ki, esum, dt);
            (-IntegralLimit <= raw <= IntegralLimit ==> r.esum == raw) &&
            (raw > IntegralLimit ==> r.esum == IntegralLimit) &&
            (raw < -IntegralLimit ==> r.esum == -IntegralLimit)
    ensures var r := PiCtrl(sp, pv, kp, ki, esum, dt);
            var u := kp * (sp - pv) + ki * r.esum;
            (0.0 <= u <= 1.0 ==> r.duty == 100.0 * u) &&
            (u > 1.0 ==> r.duty == 100.0) &&
            (u < 0.0 ==> r.duty == 0.0)
  {
  }

  lemma IntegrateMonotone(esum: real, e1: real, e2: real, dt: real)
    requires e1 <= e2 && 0.0 <= dt
    ensures Integrate(esum, e1, dt) <= Integrate(esum, e2, dt)
  {
    MulLeftMonotone(dt, e1, e2);
    assert e1 * dt <= e2 * dt;
    ClampMonotone(esum + e1 * dt, esum + e2 * dt, -IntegralLimit, IntegralLimit);
  }

  lemma ControlValueMonotone(kp: real, ki: real, e1: real, e2: real, s1: real, s2: real)
    requires 0.0 <= kp && 0.0 <= ki && e1 <= e2 && s1 <= s2
    ensures ControlValue(kp, ki, e1, s1) <= ControlValue(kp, ki, e2, s2)
  {
    MulLeftMonotone(kp, e1, e2);
    MulLeftMonotone(ki, s1, s2);
    AddMonotone(kp * e1, kp * e2, ki * s1, ki * s2);
    ClampMonotone(kp * e1 + ki * s1, kp * e2 + ki * s2, 0.0, 1.0);
  }

  /** A higher setpoint (or a colder vessel) never yields less heat nor a
      smaller error sum, for non-negative gains and period. */
  lemma PiCtrlMonotone(sp1: real, sp2: real, pv: real, kp: real, ki: real, esum: real, dt: real)
    requires sp1 <= sp2 && 0.0 <= kp && 0.0 <= ki && 0.0 <= dt
    ensures PiCtrl(sp1, pv, kp, ki, esum, dt).esum <= PiCtrl(sp2, pv, kp, ki, esum, dt).esum
    ensures PiCtrl(sp1, pv, kp, ki, esum, dt).duty <= PiCtrl(sp2, pv, kp, ki, esum, dt).duty
  {
    var e1, e2 := sp1 - pv, sp2 - pv;
    IntegrateMonotone(esum, e1, e2, dt);
    var s1, s2 := Integrate(esum, e1, dt), Integrate(esum, e2, dt);
    ControlValueMonotone(kp, ki, e1, e2, s1, s2);
  }

  lemma MulLeftMonotone(k: real, a: real, b: real)
    requires 0.0 <= k && a <= b
    ensures k * a <= k * b
  {
    MulNonNegative(k, b - a);
    assert k * b - k * a == k * (b - a);
  }

  lemma AddMonotone(a1: real, a2: real, b1: real, b2: real)
    requires a1 <= a2 && b1 <= b2
    ensures a1 + b1 <= a2 + b2
  {
  }

  lemma MulNonNegative(a: real, b: real)
    requires 0.0 <= a && 0.0 <= b
    ensures 0.0 <= a * b
  {
  }

  lemma MulPositive(a: real, b: real)
    requires 0.0 < a && 0.0 < b
    ensures 0.0 < a * b
  {
  }

  /** At the setpoint the error is zero: an error sum inside the band is
      kept as it is, and with an empty integrator the heater is off. */
  lemma PiCtrlAtSetpoint(sp: real, kp: real, ki: real, esum: real, dt: real)
    requires -IntegralLimit <= esum <= IntegralLimit
    ensures PiCtrl(sp, sp, kp, ki, esum, dt).esum == esum
    ensures esum == 0.0 ==> PiCtrl(sp, sp, kp, ki, esum, dt).duty == 0.0
  {
  }

  // ---------------------------------------------------------------------
  // Temperature filter
  // ---------------------------------------------------------------------

  /** First-order exponential moving average with coefficient alpha. */
  function Ema(alpha: real, raw: real, prev: real): (r: real)
    requires 0.0 < alpha < 1.0
    ensures Min(prev, raw) <= r <= Max(prev, raw)
    ensures prev != raw ==> r != prev && r != raw
  {
    EmaSteps(alpha, raw, prev);
    alpha * raw + (1.0 - alpha) * prev
  }

  /** The average moves from prev towards raw by the fraction alpha and
      stops short of raw by the fraction 1 - alpha. */
  lemma EmaSteps(alpha: real, raw: real, prev: real)
    requires 0.0 < alpha < 1.0
    ensures var r := alpha * raw + (1.0 - alpha) * prev;
            Min(prev, raw) <= r <= Max(prev, raw) && (prev != raw ==> r != prev && r != raw)
  {
    var r := alpha * raw + (1.0 - alpha) * prev;
    var beta := 1.0 - alpha;
    var d := raw - prev;
    assert r - prev == alpha * d;
    assert raw - r == beta * d;
    if 0.0 < d {
      MulPositive(alpha, d);
      MulPositive(beta, d);
    } else if d < 0.0 {
      MulPositive(alpha, -d);
      MulPositive(beta, -d);
      assert alpha * d == -(alpha * -d);
      assert beta * d == -(beta * -d);
    }
  }

  /** One filter update: on the first sample after (re)connection the
      previous value is replaced by the raw reading before averaging. */
  function FilterStep(first: bool, alpha: real, raw: real, prev: real): (r: real)
    requires 0.0 < alpha < 1.0
    ensures first ==> r == raw
    ensures !first ==> Min(prev, raw) <= r <= Max(prev, raw)
  {
    Ema(alpha, raw, if first then raw else prev)
  }

  lemma EmaFixedPoint(alpha: real, c: real)
    requires 0.0 < alpha < 1.0
    ensures Ema(alpha, c, c) == c
  {
  }

  /** The filter run over a series of raw readings, oldest first. */
  function Smooth(alpha: real, raws: seq<real>, prev: real): real
    requires 0.0 < alpha < 1.0
    decreases |raws|
  {
    if raws == [] then prev else Smooth(alpha, raws[1..], Ema(alpha, raws[0], prev))
  }

  /** Filtered values never leave the band spanned by the previous value and
      every raw reading. */
  lemma {:induction false} SmoothStaysInBand(alpha: real, raws: seq<real>, prev: real, lo: real, hi: real)
    requires 0.0 < alpha < 1.0
    requires lo <= prev <= hi
    requires forall i :: 0 <= i < |raws| ==> lo <= raws[i] <= hi
    ensures lo <= Smooth(alpha, raws, prev) <= hi
    decreases |raws|
  {
    if raws != [] {
      var next := Ema(alpha, raws[0], prev);
      assert lo <= next <= hi;
      forall i | 0 <= i < |raws[1..]| ensures lo <= raws[1..][i] <= hi {
        assert raws[1..][i] == raws[i + 1];
      }
      SmoothStaysInBand(alpha, raws[1..], next, lo, hi);
    }
  }

  /** A constant reading that the filter already holds is kept forever. */
  lemma {:induction false} SmoothConstant(alpha: real, raws: seq<real>, c: real)
    requires 0.0 < alpha < 1.0
    requires forall i :: 0 <= i < |raws| ==> raws[i] == c
    ensures Smooth(alpha, raws, c) == c
    decreases |raws|
  {
    if raws != [] {
      EmaFixedPoint(alpha, c);
      forall i | 0 <= i < |raws[1..]| ensures raws[1..][i] == c {
        assert raws[1..][i] == raws[i + 1];
      }
      SmoothConstant(alpha, raws[1..], c);
    }
  }

  // ---------------------------------------------------------------------
  // Duty-cycle optimizer
  // ---------------------------------------------------------------------

  /** Resolved duty cycles (fractions in [0, 1]) and whether the optimizer
      redistributed them. */
  datatype Resolved = Resolved(uM: real, uB: real, active: bool)

  /** Shared-power resolution: demands that fit are passed through; otherwise
      the boil share becomes wM*(1 - uM) + wB*uB and mash gets the rest. */
  function Optimize(uM: real, uB: real, wM: real, wB: real): (r: Resolved)
    ensures r.active <==> uB + uM > 1.0
    ensures !r.active ==> r.uM == uM && r.uB == uB
    ensures r.active ==> r.uM + r.uB == 1.0
  {
    if uB + uM > 1.0 then
      var b := wM * (1.0 - uM) + wB * uB;
      Resolved(1.0 - b, b, true)
    else
      Resolved(uM, uB, false)
  }

  /** Weighted squared deviation between demanded and resolved duty cycles,
      the cost the optimizer's formula minimises. */
  function Cost(uM: real, uB: real, wM: real, wB: real, xM: real, xB: real): real {
    wB * (uB - xB) * (uB - xB) + wM * (uM - xM) * (uM - xM)
  }

  /** With weights summing to one, the resolved pair costs no more than any
      other pair that uses the whole power budget. */
  lemma OptimizeMinimizesCost(uM: real, uB: real, wM: real, wB: real, x: real)
    requires wM + wB == 1.0
    requires uB + uM > 1.0
    ensures var r := Optimize(uM, uB, wM, wB);
            Cost(uM, uB, wM, wB, r.uM, r.uB) <= Cost(uM, uB, wM, wB, 1.0 - x, x)
  {
    var r := Optimize(uM, uB, wM, wB);
    var b := r.uB;
    assert b == wM * (1.0 - uM) + wB * uB;
    var d := x - b;
    // cost(x) = cost(b) + (wM + wB) * d^2 because b is the stationary point
    assert Cost(uM, uB, wM, wB, 1.0 - x, x) - Cost(uM, uB, wM, wB, r.uM, r.uB)
        == (wM + wB) * d * d + 2.0 * d * (wM * (uM - 1.0 + b) - wB * (uB - b));
    assert wM * (uM - 1.0 + b) - wB * (uB - b) == 0.0;
    assert d * d >= 0.0;
  }

  /** For demands in [0, 1] and non-negative weights summing to one the
      resolved values are fractions whose sum is at most one, and an active
      optimizer never raises either heater above its demand. */
  lemma OptimizeInRange(uM: real, uB: real, wM: real, wB: real)
    requires 0.0 <= uM <= 1.0 && 0.0 <= uB <= 1.0
    requires 0.0 <= wM && 0.0 <= wB && wM + wB == 1.0
    ensures var r := Optimize(uM, uB, wM, wB);
            0.0 <= r.uM <= 1.0 && 0.0 <= r.uB <= 1.0 && r.uM + r.uB <= 1.0
    ensures var r := Optimize(uM, uB, wM, wB);
            r.active ==> r.uM <= uM && r.uB <= uB && 1.0 - uM <= r.uB
  {
    if uB + uM > 1.0 {
      var b := wM * (1.0 - uM) + wB * uB;
      var gap := uB - (1.0 - uM);
      // b is a convex combination of 1 - uM and uB, and 1 - uM < uB
      assert wM == 1.0 - wB;
      assert b - (1.0 - uM) == wB * gap;
      assert uB - b == wM * gap;
      MulNonNegative(wB, gap);
      MulNonNegative(wM, gap);
    }
  }

  lemma OptimizeExample()
    ensures Optimize(0.6, 0.6, 0.5, 0.5) == Resolved(0.5, 0.5, true)
  {
  }

  // ---------------------------------------------------------------------
  // Optimizer weights and bounded operator inputs
  // ---------------------------------------------------------------------

  /** Weights (mash, boil) from the mash weight in percent. */
  function Weights(mashPercent: int): (r: (real, real))
    ensures r.0 + r.1 == 1.0
    ensures 1 <= mashPercent <= 99 ==> 0.01 <= r.0 <= 0.99 && 0.01 <= r.1 <= 0.99
  {
    (mashPercent as real / 100.0, (100 - mashPercent) as real / 100.0)
  }

  /** The four operator inputs that the +1/+10/-1/-10 buttons adjust. */
  datatype Field = BoilSetpoint | BoilDuty | MashSetpoint | MashWeight

  function Lo(f: Field): int {
    match f
    case BoilSetpoint => 70
    case BoilDuty => 0
    case MashSetpoint => 70
    case MashWeight => 1
  }

  function Hi(f: Field): int {
    match f
    case BoilSetpoint => 212
    case BoilDuty => 100
    case MashSetpoint => 180
    case MashWeight => 99
  }

  /** The four buttons beside every operator input. */
  datatype Press = Plus1 | Plus10 | Minus1 | Minus10

  function Amount(p: Press): int {
    match p
    case Plus1 => 1
    case Plus10 => 10
    case Minus1 => 1
    case Minus10 => 10
  }

  predicate IsRaise(p: Press) { p == Plus1 || p == Plus10 }

  /** Add and cap at the upper limit. */
  function Raise(x: int, d: int, hi: int): (r: int)
    ensures r <= hi
    ensures x + d < hi ==> r == x + d
  {
    if x + d >= hi then hi else x + d
  }

  /** Subtract and floor at the lower limit. */
  function Lower(x: int, d: int, lo: int): (r: int)
    ensures r >= lo
    ensures x - d > lo ==> r == x - d
  {
    if x - d <= lo then lo else x - d
  }

  /** One press on an input bounded by [lo, hi]. */
  function Adjust(x: int, p: Press, lo: int, hi: int): int {
    if IsRaise(p) then Raise(x, Amount(p), hi) else Lower(x, Amount(p), lo)
  }

  /** The body shared by the sixteen input_* handlers: add or subtract the
      button's amount, then hold the value at the limit it crossed. */
  method AdjustStep(x: int, p: Press, lo: int, hi: int) returns (y: int)
    ensures y == Adjust(x, p, lo, hi)
  {
    if IsRaise(p) {
      y := x + Amount(p);
      if y >= hi {
        y := hi;
      }
    } else {
      y := x - Amount(p);
      if y <= lo {
        y := lo;
      }
    }
  }

  /** A press never moves a value inside the range out of it, and always
      moves it in the pressed direction by at most the button's amount. */
  lemma AdjustInRange(x: int, p: Press, lo: int, hi: int)
    requires lo <= x <= hi
    ensures lo <= Adjust(x, p, lo, hi) <= hi
    ensures IsRaise(p) ==> x <= Adjust(x, p, lo, hi) <= x + Amount(p)
    ensures !IsRaise(p) ==> x - Amount(p) <= Adjust(x, p, lo, hi) <= x
  {
  }

  /** Away from the limits, a press followed by the opposite press of the
      same size restores the value. */
  lemma AdjustUndo(x: int, lo: int, hi: int)
    requires lo <= x && x + 10 < hi
    ensures Adjust(Adjust(x, Plus10, lo, hi), Minus10, lo, hi) == x
    ensures Adjust(Adjust(x, Plus1, lo, hi), Minus1, lo, hi) == x
  {
  }

  /** A series of presses, oldest first. */
  function AdjustAll(x: int, ps: seq<Press>, lo: int, hi: int): int
    decreases |ps|
  {
    if ps == [] then x else AdjustAll(Adjust(x, ps[0], lo, hi), ps[1..], lo, hi)
  }

  /** Any series of presses keeps a value that starts in range in range. */
  lemma {:induction false} AdjustAllInRange(x: int, ps: seq<Press>, lo: int, hi: int)
    requires lo <= x <= hi
    ensures lo <= AdjustAll(x, ps, lo, hi) <= hi
    decreases |ps|
  {
    if ps != [] {
      AdjustInRange(x, ps[0], lo, hi);
      AdjustAllInRange(Adjust(x, ps[0], lo, hi), ps[1..], lo, hi);
    }
  }
}
