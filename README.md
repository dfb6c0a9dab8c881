# Invoicing ROI simulator — a Dafny model

The ROI simulator estimates what a business saves by automating invoice
processing. A server function, `simulate`, takes eight numbers: invoice
volume, staff count, hours per invoice, hourly wage, manual error rate, cost
per error, projection horizon and one-time implementation cost. It derives
eight metrics from them: manual labour cost, automated cost, error savings,
monthly savings, cumulative savings, net savings, payback period and ROI.
Three fixed constants are involved: 0.20 per automated invoice, a 0.1 %
automated error rate and a 1.1 boost factor. Around the engine the server
has three request handlers, and the browser client has a nine-field form:

- `/simulate` simulates a request body.
- `/scenarios` strips the scenario name from the body, simulates the rest and stores both.
- `/report/generate` re-simulates the inputs and writes a PDF report.
- The form can be validated for presence, edited one field at a time and cleared, and it guards the report download.

The model has five modules:

- `Wrappers` (wrappers.dfy): `Option` and `Result`.
- `Objects` (objects.dfy): JavaScript plain objects as ordered entry lists. `Lookup` is property access, `Without` is rest-destructuring and `Set` is a spread update.
- `Engine` (engine.dfy): the simulation over `real`. Both divisions go through `Divide`, which returns `None` for a zero divisor. JavaScript would produce Infinity or NaN there instead.
- `Backend` (backend.dfy): request bodies, the engine inputs read from them, the row the `/scenarios` handler inserts, the report file name, the report's text lines and the report handler's refusals.
- `App` (app.dfy): field labels, the download file name, and the `Form` class. `Form` holds the form entries and the shown result. Its methods are `Change`, `ValidateForm`, `ClearForm`, `ShowResult` and `DownloadReport`.

Points where the program's behaviour is easy to misread:

- The report prints the raw snake_case keys (index.js:108, 114); only the client's labels replace `_` by a space.
- A report file without a scenario name is called `ROI_Report_Unnamed.pdf` on the server (index.js:93). The client names the downloaded file `ROI_Report_Report.pdf` (App.jsx:107). Both fallbacks are modelled as written.
- JSON.stringify prints an Infinity or NaN metric as `null`. `JsonNumber` therefore prints the `None` sentinel as `null`.

## Model

| member | source | states |
|---|---|---|
| Objects.Keys | App.jsx:145 | the key list has one entry per object entry, in entry order |
| Objects.Lookup | index.js:18-27 | property access finds nothing exactly when the key is absent; otherwise it returns the value of the first entry with that key |
| Objects.Without | index.js:59 | the rest object of `{ scenario_name, ...inputs }` lacks the key and holds exactly the other entries, none added |
| Objects.WithoutConcat | index.js:59 | stripping a key from two entry lists joined end to end gives the two stripped lists joined in the same order; with the one-entry case this fixes the order and the multiplicity of the kept entries |
| Objects.Set | App.jsx:24 | the spread update keeps the key list when the key exists and appends the entry when it does not |
| Objects.LookupSetSame | App.jsx:24 | after the update, the named key reads as the new value |
| Objects.LookupSetOther | App.jsx:24 | after the update, every other key reads as before |
| Objects.LookupWithout | index.js:59 | stripping one key leaves the value of every other key unchanged |
| Engine.Divide | index.js:36-37 | the quotient is undefined exactly when the divisor is zero; otherwise quotient times divisor gives the dividend back |
| Engine.Simulate | index.js:17-49 | payback is undefined exactly when monthly savings are zero, and otherwise payback × monthly savings = implementation cost; ROI is undefined exactly when the implementation cost is zero, and otherwise ROI × cost = net savings × 100 |
| Engine.SimulateByInvoice | index.js:29-35 | labour, automated cost and error savings are each the volume times a per-invoice amount; monthly savings = 1.1 × volume × per-invoice saving; cumulative = monthly × horizon; net = cumulative − cost |
| Engine.CostsNonNegative | index.js:29-30 | labour cost and automated cost are non-negative when volume, staff, hours and wage are |
| Engine.ZeroVolume | index.js:29-37 | with zero volume every volume-driven metric is zero, net savings are minus the cost, payback is undefined, and ROI is −100 % (undefined for zero cost) |
| Engine.PaybackIsBreakEven | index.js:34-36 | with positive monthly savings, net savings are non-negative exactly when the horizon is at least the payback period |
| Engine.RoiSignFollowsNet | index.js:35-37 | for a positive cost, ROI is non-negative exactly when net savings are |
| Engine.SavingsGrowWithVolume | index.js:29-33 | when each invoice saves a non-negative amount, a larger volume with everything else equal gives monthly savings at least as large |
| Engine.WorkedExample | index.js:13-37 | over exact reals, the worked example gives labour 4000, automated 200, error savings 2450, monthly 6875, cumulative 82500, net 72500, payback 16/11 and ROI 725 |
| Backend.ReadInputs | index.js:18-27 | engine inputs exist exactly when all eight keys hold numbers, and each field is the number at its key |
| Backend.SimulateBody | index.js:53-55 | `/simulate` gives a result exactly when the body holds the eight numeric inputs, and that result is the engine's result for them |
| Backend.SimulateReadsOnlyInputKeys | index.js:17-27 | two bodies that agree on the eight input keys simulate to the same result |
| Backend.SimulateIgnoresScenarioName | index.js:58-60 | simulating the body without its scenario name gives the same result as simulating the whole body |
| Backend.SaveScenario | index.js:58-63 | the inserted row carries the body's scenario name, the rest object itself (the body's entries without that key, in order; so every other key is unchanged), and the same result `/simulate` gives for the whole body |
| Backend.JsonNumber | index.js:114 | a defined metric prints as its number text; an undefined one (Infinity or NaN in JavaScript) prints as `null` |
| Backend.ReportFileName | index.js:93 | the file name is `ROI_Report_` + the scenario name + `.pdf` when the name is truthy, otherwise `ROI_Report_Unnamed.pdf` |
| Backend.EntryLines | index.js:107-109 | one `key: value` line per entry, in entry order |
| Backend.ResultEntries | index.js:39-48 | the result object's keys are the eight metric names in declaration order |
| Backend.ReportLines | index.js:98-115 | the report has 14 lines plus one per input entry, in this order: title, scenario name (`undefined` when absent), email, generation time, `Input Summary`, each input entry, `Simulation Results`, then the eight metrics, each under its own key and in declaration order (`labor_cost_manual` shows the labour cost, …, `roi_percentage` the ROI), with an undefined metric printed as `null` |
| Backend.GenerateReport | index.js:84-115 | the request is refused exactly when the email is missing or empty or the inputs are missing; a numeric field that cannot be read is refused separately; otherwise the report carries the file name and the line list |
| App.Label | App.jsx:31 | the label has the key's length and no underscore; every `_` becomes a space and every other character stays |
| App.EmptyForm | App.jsx:8-18 | the nine field names in order, each with the empty string |
| App.FirstBlank | App.jsx:28-36 | nothing is reported exactly when no value is empty or null; otherwise the result is the key of a blank field with no blank field before it |
| App.ClearedFormIsInvalid | App.jsx:121-133 | validation of a cleared form fails and reports `scenario_name` |
| App.DownloadFileName | App.jsx:107 | the file name is `ROI_Report_` + the scenario name + `.pdf` when the name is non-empty, otherwise `ROI_Report_Report.pdf` |
| App.Form.constructor | App.jsx:8-20 | a new form has every field empty and no result |
| App.Form.Change | App.jsx:23-25 | the form becomes the spread update of the named field (see the `Objects.LookupSet` lemmas); the result is unchanged |
| App.Form.ValidateForm | App.jsx:28-36 | the loop stops at the first blank field in order and reports its key; it succeeds exactly when there is none |
| App.Form.ClearForm | App.jsx:121-134 | all nine fields become empty and the result is cleared |
| App.Form.ShowResult | App.jsx:51-52 | the result shown is the one received; the form is unchanged |
| App.Form.DownloadReport | App.jsx:77-95 | without a result, nothing is asked or sent; with a result but an empty or cancelled email, nothing is sent; otherwise the email and the whole form are sent |

## Left out

- HTTP routing, body parsing, CORS, status codes and the listener (index.js:1-10, 53-56, 64-66, 69-74, 127): transport. The handlers are modelled as functions of the parsed body.
- The MySQL database (db.js, index.js:61-73) is not part of this model because it is a foreign service. `SaveScenario` gives the three values passed to the INSERT. The record id, the timestamp, the listing and its `created_at` order live in the database.
- PDF rendering (index.js:92-124) is not modelled: fonts, spacing, the file streams, the file write into the server directory and the fixed 500 ms wait before reading it back. `ReportLines` models only the text lines in the order they are written.
- `new Date().toLocaleString()` (index.js:103) depends on the clock and the locale, so the formatted time is the parameter `generatedOn`.
- JavaScript's number-to-text conversion is the parameter `show: real -> string`. It is used by template strings and by JSON.stringify.
- Floating point is not modelled: the arithmetic is over exact reals, with no rounding and no overflow. Infinity and NaN from the two divisions appear as `None`. Other NaN sources are not modelled.
- Backend.ReadInputs: string-to-number coercion is not modelled. The client sends every field as a string (App.jsx:47), and JavaScript multiplies such strings as numbers. The model reads only numeric values, so a text or missing numeric field gives `None` where the source would compute with the coerced number or NaN. The same gap reaches Backend.SimulateBody and Backend.SaveScenario: for the bodies the client actually posts (App.jsx:47, 58), they give or store `None` where the program computes real metrics.
- Backend.GenerateReport: inputs without eight numeric fields give `InputsNotNumeric`. For the numeric strings the client sends (App.jsx:94), the source coerces them in `simulate` (index.js:29-37) and prints real metrics. Only for a missing or non-numeric field does it print a report whose metrics are NaN, shown as `null`.
- Objects.Keys, Objects.Set, Backend.ReportLines: JavaScript lists array-index keys (such as `"0"`) first, in numeric order, before all other keys, and a spread update puts such a new key among them. This ordering is not modelled: entries keep their text order. The program's own client never uses such keys.
- Request bodies hold only numbers and strings: JSON null, booleans, arrays and nested objects are not modelled. Objects are assumed to have distinct keys, as real JavaScript objects do.
- `handleSimulate` (App.jsx:39-74) posts the form and shows alerts; it is network and UI code. Only its `setResult` is modelled, as `Form.ShowResult`.
- `alert` and `prompt` texts, React rendering, and the Blob/URL/anchor download (App.jsx:103-116, 136-190) are UI code. The prompt's answer is the `enteredEmail` parameter of `DownloadReport`.
