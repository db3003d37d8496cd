/**
 * `src/lib/finance.ts`: net present value of a list of yearly cash flows, the
 * bisection search for an internal rate of return, and `calculateFinancials`,
 * which prices a fixed yearly saving against an up-front capital cost.
 */
module Finance {
  import opened Wrappers
  import opened JsMath

  /**
   * `calculateNPV(cashFlows, rate)`: each flow discounted by `(1 + rate)^year`,
   * summed from the first year on. At `rate = -1` the source divides by zero,
   * so that one rate is excluded.
   */
  function Npv(flows: seq<real>, rate: real): real
    requires rate != -1.0
  {
    if flows == [] then 0.0
    else Npv(flows[..|flows| - 1], rate) + flows[|flows| - 1] / Pow(1.0 + rate, |flows| - 1)
  }

  /** Undiscounted, the net present value is the plain sum of the flows (0 for no flows). */
  lemma {:induction false} NpvAtZeroIsSum(flows: seq<real>)
    ensures Npv(flows, 0.0) == Sum(flows)
  {
    if flows != [] {
      NpvAtZeroIsSum(flows[..|flows| - 1]);
    }
  }

  /** With every flow after the first non-positive, the value never rises above the first flow. */
  lemma {:induction false} NpvAtMostFirst(flows: seq<real>, rate: real)
    requires rate > -1.0 && |flows| >= 1
    requires forall i :: 1 <= i < |flows| ==> flows[i] <= 0.0
    ensures Npv(flows, rate) <= flows[0]
  {
    if |flows| > 1 {
      var init := flows[..|flows| - 1];
      NpvAtMostFirst(init, rate);
      var p := Pow(1.0 + rate, |flows| - 1);
      assert flows[|flows| - 1] / p <= 0.0;
    } else {
      assert flows[..0] == [];
    }
  }

  /** `calculateIRR` stops once the value is within this distance of zero. */
  const IrrTolerance: real := 0.000001

  /** `calculateIRR` makes at most this many halvings. */
  const IrrIterations: nat := 100

  /**
   * The bisection of `calculateIRR` from iteration `k` on, with the bracket
   * `[low, high]`: a midpoint is returned as soon as the value there is within
   * tolerance of zero; a positive value moves `low` up to it, anything else moves
   * `high` down; after the last iteration there is no answer.
   */
  function Bisect(flows: seq<real>, low: real, high: real, k: nat): (r: Option<real>)
    requires -0.9 <= low < high <= 1.0
    ensures r.Some? ==> low < r.value < high && Abs(Npv(flows, r.value)) < IrrTolerance
    decreases IrrIterations - k
  {
    if k >= IrrIterations then None
    else
      var guess := (low + high) / 2.0;
      var npv := Npv(flows, guess);
      if Abs(npv) < IrrTolerance then Some(guess)
      else if npv > 0.0 then Bisect(flows, guess, high, k + 1)
      else Bisect(flows, low, guess, k + 1)
  }

  /** The answer of `calculateIRR`: the bisection over the bracket [-0.9, 1.0]. */
  function Irr(flows: seq<real>): (r: Option<real>)
    ensures r.Some? ==> -0.9 < r.value < 1.0 && Abs(Npv(flows, r.value)) < IrrTolerance
  {
    Bisect(flows, -0.9, 1.0, 0)
  }

  lemma HalvedWidth(k: nat)
    ensures 1.9 / Pow(2.0, k + 1) == (1.9 / Pow(2.0, k)) / 2.0
  {
    var p := Pow(2.0, k);
    assert Pow(2.0, k + 1) == 2.0 * p;
    assert p > 0.0;
  }

  /**
   * `calculateIRR(cashFlows)`. The bracket stays ordered, inside [-0.9, 1.0],
   * and halves on each iteration; a rate is returned only where the value is
   * within tolerance of zero, and `None` only after all 100 iterations.
   */
  method CalculateIrr(flows: seq<real>) returns (r: Option<real>)
    ensures r == Irr(flows)
    ensures r.Some? ==> -0.9 < r.value < 1.0 && Abs(Npv(flows, r.value)) < IrrTolerance
  {
    var low, high, guess := -0.9, 1.0, 0.0;
    var i := 0;
    while i < IrrIterations
      invariant 0 <= i <= IrrIterations
      invariant -0.9 <= low < high <= 1.0
      invariant high - low == 1.9 / Pow(2.0, i)
      invariant Bisect(flows, low, high, i) == Irr(flows)
    {
      guess := (low + high) / 2.0;
      var npv := Npv(flows, guess);
      if Abs(npv) < IrrTolerance {
        return Some(guess);
      }
      HalvedWidth(i);
      assert guess - low == (high - low) / 2.0 && high - guess == (high - low) / 2.0;
      if npv > 0.0 {
        low := guess;
      } else {
        high := guess;
      }
      i := i + 1;
    }
    return None;
  }

  /** The flows `calculateFinancials` builds: `-capital`, then `projectLife` equal yearly nets. */
  function SavingsFlows(capital: real, projectLife: nat, yearlyNet: real): (flows: seq<real>)
    ensures |flows| == projectLife + 1
    ensures flows[0] == -capital
    ensures forall i :: 1 <= i < |flows| ==> flows[i] == yearlyNet
  {
    [-capital] + seq(projectLife, _ => yearlyNet)
  }

  datatype Financials = Financials(npv: real, irr: Option<real>, annualSavings: real)

  /**
   * `calculateFinancials(storageOptimization, costBreakdown, inputs)`: the
   * yearly saving is the water price times the tank size for 365 days; the
   * value is taken at `discountRate` percent and the rate of return on the same
   * flows. `projectLife` must be a whole number (the source's `Array(n)` rejects
   * anything else).
   */
  method CalculateFinancials(waterPrice: real, optimalSize: real, capital: real, maintenance: real,
                             projectLife: nat, discountRate: real) returns (r: Financials)
    requires discountRate != -100.0
    ensures r.annualSavings == waterPrice * optimalSize * 365.0
    ensures r.npv == Npv(SavingsFlows(capital, projectLife, r.annualSavings - maintenance), discountRate / 100.0)
    ensures r.irr == Irr(SavingsFlows(capital, projectLife, r.annualSavings - maintenance))
  {
    var annualSavings := waterPrice * optimalSize * 365.0;
    var cashFlows := SavingsFlows(capital, projectLife, annualSavings - maintenance);
    var npv := Npv(cashFlows, discountRate / 100.0);
    var irr := CalculateIrr(cashFlows);
    return Financials(npv, irr, annualSavings);
  }
}
