/**
  The ROI simulation engine (index.js:12-49): eight numbers describing manual
  invoice processing go in, eight derived metrics come out. Arithmetic is over
  the reals; the two divisions, which JavaScript would turn into Infinity or
  NaN, yield None instead (see Divide).
*/
module Engine {
  import opened Wrappers

  /** Cost of processing one invoice once automated, in currency units. */
  const AUTOMATED_COST_PER_INVOICE: real := 0.20
  /** Error rate once automated: 0.1 %, as a fraction. */
  const ERROR_RATE_AUTO: real := 0.1 / 100.0
  /** Multiplier applied uniformly to the monthly savings. */
  const MIN_ROI_BOOST_FACTOR: real := 1.1

  /** The numeric fields the engine destructures from its argument. */
  datatype Inputs = Inputs(
    monthlyInvoiceVolume: real,
    numApStaff: real,
    avgHoursPerInvoice: real,
    hourlyWage: real,
    errorRateManual: real,   // percent, 0-100 scale
    errorCost: real,
    timeHorizonMonths: real,
    oneTimeImplementationCost: real)

  /** The derived metrics, in the order the engine returns them. */
  datatype SimResult = SimResult(
    laborCostManual: real,
    autoCost: real,
    errorSavings: real,
    monthlySavings: real,
    cumulativeSavings: real,
    netSavings: real,
    paybackMonths: Option<real>,
    roiPercentage: Option<real>)

  /** The one sentinel policy for both divisions: a zero divisor gives None. */
  function Divide(n: real, d: real): (q: Option<real>)
    ensures q.None? <==> d == 0.0
    ensures q.Some? ==> q.value * d == n
  {
    if d == 0.0 then None else Some(n / d)
  }

  /** `simulate(inputs)`. */
  function Simulate(i: Inputs): (r: SimResult)
    ensures r.paybackMonths.None? <==> r.monthlySavings == 0.0
    ensures r.paybackMonths.Some? ==> r.paybackMonths.value * r.monthlySavings == i.oneTimeImplementationCost
    ensures r.roiPercentage.None? <==> i.oneTimeImplementationCost == 0.0
    ensures r.roiPercentage.Some? ==>
              r.roiPercentage.value * i.oneTimeImplementationCost == r.netSavings * 100.0
  {
    var labor := i.numApStaff * i.hourlyWage * i.avgHoursPerInvoice * i.monthlyInvoiceVolume;
    var auto := i.monthlyInvoiceVolume * AUTOMATED_COST_PER_INVOICE;
    var errorSavings := (i.errorRateManual / 100.0 - ERROR_RATE_AUTO) * i.monthlyInvoiceVolume * i.errorCost;
    var monthly := ((labor + errorSavings) - auto) * MIN_ROI_BOOST_FACTOR;
    var cumulative := monthly * i.timeHorizonMonths;
    var net := cumulative - i.oneTimeImplementationCost;
    var ratio := Divide(net, i.oneTimeImplementationCost);
    SimResult(labor, auto, errorSavings, monthly, cumulative, net,
              Divide(i.oneTimeImplementationCost, monthly),
              if ratio.Some? then Some(ratio.value * 100.0) else None)
  }

  /** What one invoice saves per month before the boost factor is applied. */
  function SavingPerInvoice(i: Inputs): real
  {
    i.numApStaff * i.hourlyWage * i.avgHoursPerInvoice
    + (i.errorRateManual / 100.0 - ERROR_RATE_AUTO) * i.errorCost
    - AUTOMATED_COST_PER_INVOICE
  }

  /**
    The metrics as a reference computation: every volume-dependent figure is
    the volume times a per-invoice amount, and the projections follow from the
    monthly savings.
  */
  lemma SimulateByInvoice(i: Inputs)
    ensures Simulate(i).laborCostManual
            == i.monthlyInvoiceVolume * (i.numApStaff * i.hourlyWage * i.avgHoursPerInvoice)
    ensures Simulate(i).autoCost == i.monthlyInvoiceVolume / 5.0
    ensures Simulate(i).errorSavings
            == i.monthlyInvoiceVolume * ((i.errorRateManual - 0.1) / 100.0 * i.errorCost)
    ensures Simulate(i).monthlySavings == 1.1 * i.monthlyInvoiceVolume * SavingPerInvoice(i)
    ensures Simulate(i).cumulativeSavings == Simulate(i).monthlySavings * i.timeHorizonMonths
    ensures Simulate(i).netSavings
            == Simulate(i).monthlySavings * i.timeHorizonMonths - i.oneTimeImplementationCost
  {
  }

  /** With non-negative inputs the two cost figures are non-negative. */
  lemma CostsNonNegative(i: Inputs)
    requires i.monthlyInvoiceVolume >= 0.0 && i.numApStaff >= 0.0
    requires i.avgHoursPerInvoice >= 0.0 && i.hourlyWage >= 0.0
    ensures Simulate(i).laborCostManual >= 0.0
    ensures Simulate(i).autoCost >= 0.0
  {
  }

  /**
    No invoices, no savings: every volume-driven figure is zero, the payback
    period is undefined, and a non-zero implementation cost is lost entirely
    (an ROI of -100 %).
  */
  lemma ZeroVolume(i: Inputs)
    requires i.monthlyInvoiceVolume == 0.0
    ensures var r := Simulate(i);
            && r.laborCostManual == 0.0 && r.autoCost == 0.0 && r.errorSavings == 0.0
            && r.monthlySavings == 0.0 && r.cumulativeSavings == 0.0
            && r.netSavings == -i.oneTimeImplementationCost
            && r.paybackMonths == None
            && r.roiPercentage == (if i.oneTimeImplementationCost == 0.0 then None else Some(-100.0))
  {
    var r := Simulate(i);
    var c := i.oneTimeImplementationCost;
    assert r.laborCostManual == 0.0 && r.errorSavings == 0.0;
    assert r.monthlySavings == 0.0;
    if c != 0.0 {
      assert r.netSavings / c == -1.0;
    }
  }

  /**
    The payback period is the break-even point: when the monthly savings are
    positive, the cumulative savings over the horizon cover the implementation
    cost exactly when the horizon is at least the payback period.
  */
  lemma PaybackIsBreakEven(i: Inputs)
    requires Simulate(i).monthlySavings > 0.0
    ensures Simulate(i).paybackMonths.Some?
    ensures Simulate(i).netSavings >= 0.0 <==> i.timeHorizonMonths >= Simulate(i).paybackMonths.value
  {
  }

  /** For a positive implementation cost the ROI has the sign of the net savings. */
  lemma RoiSignFollowsNet(i: Inputs)
    requires i.oneTimeImplementationCost > 0.0
    ensures Simulate(i).roiPercentage.Some?
    ensures Simulate(i).roiPercentage.value >= 0.0 <==> Simulate(i).netSavings >= 0.0
  {
  }

  /**
    When each invoice saves something, processing more invoices saves more:
    the monthly savings grow with the volume, all else equal.
  */
  lemma SavingsGrowWithVolume(i: Inputs, more: real)
    requires SavingPerInvoice(i) >= 0.0 && more >= i.monthlyInvoiceVolume
    ensures Simulate(i).monthlySavings <= Simulate(i.(monthlyInvoiceVolume := more)).monthlySavings
  {
    var j := i.(monthlyInvoiceVolume := more);
    SimulateByInvoice(i);
    SimulateByInvoice(j);
    var s := SavingPerInvoice(i);
    assert SavingPerInvoice(j) == s;
    assert (more - i.monthlyInvoiceVolume) * s >= 0.0;
  }

  /** The worked example over exact reals: 1000 invoices, 2 staff, 6 minutes each at 20 per hour. */
  lemma WorkedExample()
    ensures Simulate(Inputs(1000.0, 2.0, 0.1, 20.0, 5.0, 50.0, 12.0, 10000.0))
            == SimResult(4000.0, 200.0, 2450.0, 6875.0, 82500.0, 72500.0,
                         Some(16.0 / 11.0), Some(725.0))
  {
  }
}
