/**
  The server's handlers around the engine (index.js:53-124), without the
  transport: how a request body becomes engine inputs, what the /scenarios
  handler hands to the database, and which file name and text lines the
  report handler gives the PDF writer.
*/
module Backend {
  import opened Wrappers
  import opened Objects
  import opened Engine

  /** A value in a parsed JSON request body (only the kinds the handlers use). */
  datatype Value = Num(n: real) | Text(s: string)

  /** A parsed JSON request body: its entries in order. */
  type Body = seq<(string, Value)>

  const SCENARIO_NAME: string := "scenario_name"

  /** The keys `simulate` destructures, in the order it names them. */
  const INPUT_KEYS: seq<string> := [
    "monthly_invoice_volume", "num_ap_staff", "avg_hours_per_invoice", "hourly_wage",
    "error_rate_manual", "error_cost", "time_horizon_months", "one_time_implementation_cost"]

  /** The keys of the object `simulate` returns, in the order it lists them. */
  const RESULT_KEYS: seq<string> := [
    "labor_cost_manual", "auto_cost", "error_savings", "monthly_savings",
    "cumulative_savings", "net_savings", "payback_months", "roi_percentage"]

  /** The body's value at `key` when it is a number. */
  function NumberAt(body: Body, key: string): Option<real>
  {
    var v := Lookup(body, key);
    if v.Some? && v.value.Num? then Some(v.value.n) else None
  }

  /**
    The destructuring at the head of `simulate`: defined exactly when all
    eight keys hold numbers, and then each field is the number at its key.
  */
  function ReadInputs(body: Body): (r: Option<Inputs>)
    ensures r.Some? <==> forall j :: 0 <= j < |INPUT_KEYS| ==> NumberAt(body, INPUT_KEYS[j]).Some?
    ensures r.Some? ==>
              && NumberAt(body, INPUT_KEYS[0]) == Some(r.value.monthlyInvoiceVolume)
              && NumberAt(body, INPUT_KEYS[1]) == Some(r.value.numApStaff)
              && NumberAt(body, INPUT_KEYS[2]) == Some(r.value.avgHoursPerInvoice)
              && NumberAt(body, INPUT_KEYS[3]) == Some(r.value.hourlyWage)
              && NumberAt(body, INPUT_KEYS[4]) == Some(r.value.errorRateManual)
              && NumberAt(body, INPUT_KEYS[5]) == Some(r.value.errorCost)
              && NumberAt(body, INPUT_KEYS[6]) == Some(r.value.timeHorizonMonths)
              && NumberAt(body, INPUT_KEYS[7]) == Some(r.value.oneTimeImplementationCost)
  {
    var vol, staff := NumberAt(body, INPUT_KEYS[0]), NumberAt(body, INPUT_KEYS[1]);
    var hours, wage := NumberAt(body, INPUT_KEYS[2]), NumberAt(body, INPUT_KEYS[3]);
    var rate, cost := NumberAt(body, INPUT_KEYS[4]), NumberAt(body, INPUT_KEYS[5]);
    var horizon, oneTime := NumberAt(body, INPUT_KEYS[6]), NumberAt(body, INPUT_KEYS[7]);
    if vol.Some? && staff.Some? && hours.Some? && wage.Some?
       && rate.Some? && cost.Some? && horizon.Some? && oneTime.Some?
    then
      Some(Inputs(vol.value, staff.value, hours.value, wage.value,
                  rate.value, cost.value, horizon.value, oneTime.value))
    else
      None
  }

  /** `simulate(req.body)`, as the /simulate handler calls it. */
  function SimulateBody(body: Body): (r: Option<SimResult>)
    ensures r.Some? <==> ReadInputs(body).Some?
    ensures r.Some? ==> r.value == Simulate(ReadInputs(body).value)
  {
    match ReadInputs(body)
    case Some(i) => Some(Simulate(i))
    case None => None
  }

  /** `simulate` looks at the eight input keys and at nothing else in the body. */
  lemma SimulateReadsOnlyInputKeys(b1: Body, b2: Body)
    requires forall j :: 0 <= j < |INPUT_KEYS| ==> Lookup(b1, INPUT_KEYS[j]) == Lookup(b2, INPUT_KEYS[j])
    ensures SimulateBody(b1) == SimulateBody(b2)
  {
  }

  /** Taking the scenario name out of a body does not change what `simulate` computes from it. */
  lemma SimulateIgnoresScenarioName(body: Body)
    ensures SimulateBody(Without(body, SCENARIO_NAME)) == SimulateBody(body)
  {
    assert SCENARIO_NAME !in INPUT_KEYS;
    forall j | 0 <= j < |INPUT_KEYS|
      ensures Lookup(Without(body, SCENARIO_NAME), INPUT_KEYS[j]) == Lookup(body, INPUT_KEYS[j])
    {
      assert INPUT_KEYS[j] in INPUT_KEYS;
      LookupWithout(body, SCENARIO_NAME, INPUT_KEYS[j]);
    }
    SimulateReadsOnlyInputKeys(Without(body, SCENARIO_NAME), body);
  }

  /** The three values the /scenarios handler passes to its INSERT. */
  datatype ScenarioRow = ScenarioRow(name: Option<Value>, inputs: Body, result: Option<SimResult>)

  /**
    The /scenarios handler: split off the scenario name, simulate the rest.
    The stored inputs keep every other entry, and the stored result is the
    one /simulate gives for the whole body.
  */
  function SaveScenario(body: Body): (row: ScenarioRow)
    ensures row.name == Lookup(body, SCENARIO_NAME)
    ensures row.inputs == Without(body, SCENARIO_NAME)
    ensures SCENARIO_NAME !in Keys(row.inputs)
    ensures forall k :: k != SCENARIO_NAME ==> Lookup(row.inputs, k) == Lookup(body, k)
    ensures row.result == SimulateBody(body)
  {
    var inputs := Without(body, SCENARIO_NAME);
    SimulateIgnoresScenarioName(body);
    assert forall k :: k != SCENARIO_NAME ==> Lookup(inputs, k) == Lookup(body, k) by {
      forall k | k != SCENARIO_NAME ensures Lookup(inputs, k) == Lookup(body, k) {
        LookupWithout(body, SCENARIO_NAME, k);
      }
    }
    ScenarioRow(Lookup(body, SCENARIO_NAME), inputs, SimulateBody(inputs))
  }

  /** Template interpolation `${v}`; `show` is JavaScript's number-to-text conversion. */
  function Interpolate(v: Value, show: real -> string): string
  {
    match v
    case Num(n) => show(n)
    case Text(s) => s
  }

  /** JavaScript truthiness: the empty string and the number 0 are false. */
  predicate Truthy(v: Value)
  {
    match v
    case Num(n) => n != 0.0
    case Text(s) => s != ""
  }

  /** `JSON.stringify` of a metric: an undefined quotient (Infinity or NaN in JavaScript) prints as null. */
  function JsonNumber(x: Option<real>, show: real -> string): (text: string)
    ensures x.Some? ==> text == show(x.value)
    ensures x.None? ==> text == "null"
  {
    match x
    case Some(n) => show(n)
    case None => "null"
  }

  /** The name of the report file: `ROI_Report_<scenario name or 'Unnamed'>.pdf`. */
  function ReportFileName(inputs: Body, show: real -> string): (name: string)
    ensures |name| >= 15 && name[..11] == "ROI_Report_" && name[|name| - 4..] == ".pdf"
    ensures var n := Lookup(inputs, SCENARIO_NAME);
            if n.Some? && Truthy(n.value) then name[11..|name| - 4] == Interpolate(n.value, show)
            else name == "ROI_Report_Unnamed.pdf"
  {
    var n := Lookup(inputs, SCENARIO_NAME);
    "ROI_Report_" + (if n.Some? && Truthy(n.value) then Interpolate(n.value, show) else "Unnamed") + ".pdf"
  }

  /** One `key: value` line per entry, in entry order (the `forEach` over `Object.entries`). */
  function EntryLines<V>(e: seq<(string, V)>, text: V -> string): (lines: seq<string>)
    ensures |lines| == |e|
    ensures forall i :: 0 <= i < |e| ==> lines[i] == e[i].0 + ": " + text(e[i].1)
  {
    if e == [] then [] else [e[0].0 + ": " + text(e[0].1)] + EntryLines(e[1..], text)
  }

  /** `Object.entries(sim)`: the metrics keyed as the engine names them. */
  function ResultEntries(sim: SimResult): (e: seq<(string, Option<real>)>)
    ensures Keys(e) == RESULT_KEYS
  {
    [("labor_cost_manual", Some(sim.laborCostManual)),
     ("auto_cost", Some(sim.autoCost)),
     ("error_savings", Some(sim.errorSavings)),
     ("monthly_savings", Some(sim.monthlySavings)),
     ("cumulative_savings", Some(sim.cumulativeSavings)),
     ("net_savings", Some(sim.netSavings)),
     ("payback_months", sim.paybackMonths),
     ("roi_percentage", sim.roiPercentage)]
  }

  /**
    The text lines of the report in the order they are written: title,
    scenario name, recipient, generation time, one line per input entry, one
    line per metric. `generatedOn` is the formatted clock reading.
  */
  function ReportLines(email: string, inputs: Body, sim: SimResult, generatedOn: string,
                       show: real -> string): (lines: seq<string>)
    ensures |lines| == |inputs| + 14
    ensures lines[0] == "Invoicing ROI Report"
    ensures lines[1] == "Scenario Name: " + (match Lookup(inputs, SCENARIO_NAME)
                                            case Some(v) => Interpolate(v, show)
                                            case None => "undefined")
    ensures lines[2] == "Email: " + email
    ensures lines[3] == "Generated on: " + generatedOn
    ensures lines[4] == "Input Summary"
    ensures forall i :: 0 <= i < |inputs| ==> lines[5 + i] == inputs[i].0 + ": " + Interpolate(inputs[i].1, show)
    ensures lines[5 + |inputs|] == "Simulation Results"
    ensures var n := |inputs|;
            && lines[n + 6] == "labor_cost_manual: " + show(sim.laborCostManual)
            && lines[n + 7] == "auto_cost: " + show(sim.autoCost)
            && lines[n + 8] == "error_savings: " + show(sim.errorSavings)
            && lines[n + 9] == "monthly_savings: " + show(sim.monthlySavings)
            && lines[n + 10] == "cumulative_savings: " + show(sim.cumulativeSavings)
            && lines[n + 11] == "net_savings: " + show(sim.netSavings)
            && lines[n + 12] == "payback_months: " + JsonNumber(sim.paybackMonths, show)
            && lines[n + 13] == "roi_percentage: " + JsonNumber(sim.roiPercentage, show)
  {
    var name := match Lookup(inputs, SCENARIO_NAME)
                case Some(v) => Interpolate(v, show)
                case None => "undefined";
    var header := ["Invoicing ROI Report", "Scenario Name: " + name, "Email: " + email,
                   "Generated on: " + generatedOn, "Input Summary"];
    var inputLines := EntryLines(inputs, v => Interpolate(v, show));
    var resultLines := EntryLines(ResultEntries(sim), x => JsonNumber(x, show));
    header + inputLines + ["Simulation Results"] + resultLines
  }

  /** Why the report handler refuses a request. */
  datatype ReportError =
    | MissingEmailOrInputs   // the 400 response
    | InputsNotNumeric       // an input field is missing or not a number

  /** What the report handler writes: the file name and the text lines of the document. */
  datatype Report = Report(fileName: string, lines: seq<string>)

  /**
    The /report/generate handler: refuse a request without a (non-empty)
    email or without inputs, otherwise re-run the simulation and lay out the
    report.
  */
  function GenerateReport(email: Option<string>, inputs: Option<Body>, generatedOn: string,
                          show: real -> string): (r: Result<Report, ReportError>)
    ensures r == Err(MissingEmailOrInputs) <==> email.None? || email == Some("") || inputs.None?
    ensures r == Err(InputsNotNumeric) <==>
              email.Some? && email != Some("") && inputs.Some? && ReadInputs(inputs.value).None?
    ensures r.Ok? ==>
              && r.value.fileName == ReportFileName(inputs.value, show)
              && SimulateBody(inputs.value).Some?
              && r.value.lines == ReportLines(email.value, inputs.value, SimulateBody(inputs.value).value,
                                              generatedOn, show)
  {
    if email.None? || email.value == "" || inputs.None? then
      Err(MissingEmailOrInputs)
    else
      match SimulateBody(inputs.value)
      case None => Err(InputsNotNumeric)
      case Some(sim) =>
        Ok(Report(ReportFileName(inputs.value, show),
                  ReportLines(email.value, inputs.value, sim, generatedOn, show)))
  }
}
