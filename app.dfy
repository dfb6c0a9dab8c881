/**
  The client (App.jsx): a nine-field form, the last result shown, field
  labels, and the checks made before a simulation or a report download.
  Rendering, `fetch`, `alert` and `prompt` are not modelled; the answer to the
  email prompt is a parameter.
*/
module App {
  import opened Wrappers
  import opened Objects
  import Engine

  /** The form state: its entries in order; a value is a string, or None for null. */
  type FormFields = seq<(string, Option<string>)>

  /** The form's keys, in the order the initial state lists them. */
  const FIELD_NAMES: seq<string> := [
    "scenario_name", "monthly_invoice_volume", "num_ap_staff", "avg_hours_per_invoice",
    "hourly_wage", "error_rate_manual", "error_cost", "time_horizon_months",
    "one_time_implementation_cost"]

  /** `key.replace(/_/g, ' ')`: the text shown for a field name. */
  function Label(key: string): (r: string)
    ensures |r| == |key|
    ensures forall i :: 0 <= i < |key| ==> r[i] == if key[i] == '_' then ' ' else key[i]
    ensures '_' !in r
  {
    if key == [] then [] else [if key[0] == '_' then ' ' else key[0]] + Label(key[1..])
  }

  /** Every field set to the empty string, as at start-up and after clearing. */
  function EmptyForm(): (f: FormFields)
    ensures Keys(f) == FIELD_NAMES
    ensures forall i :: 0 <= i < |f| ==> f[i].1 == Some("")
  {
    seq(|FIELD_NAMES|, i requires 0 <= i < |FIELD_NAMES| => (FIELD_NAMES[i], Some("")))
  }

  /** The validator's test for a missing value: the empty string or null. */
  predicate Blank(v: Option<string>)
  {
    v == None || v == Some("")
  }

  /** The first key, in form order, whose value is blank; None when every value is filled. */
  function FirstBlank(f: FormFields): (r: Option<string>)
    ensures r.None? <==> forall i :: 0 <= i < |f| ==> !Blank(f[i].1)
    ensures r.Some? ==>
              exists i :: 0 <= i < |f| && f[i].0 == r.value && Blank(f[i].1)
                          && forall j :: 0 <= j < i ==> !Blank(f[j].1)
  {
    if f == [] then None
    else if Blank(f[0].1) then Some(f[0].0)
    else
      var r := FirstBlank(f[1..]);
      assert forall i :: 1 <= i < |f| ==> f[i] == f[1..][i - 1];
      r
  }

  /** A cleared form never passes validation: the scenario name, first in order, is reported. */
  lemma ClearedFormIsInvalid()
    ensures FirstBlank(EmptyForm()) == Some(FIELD_NAMES[0])
  {
  }

  /** The name of the downloaded file: `ROI_Report_<scenario name or 'Report'>.pdf`. */
  function DownloadFileName(f: FormFields): (name: string)
    ensures |name| >= 15 && name[..11] == "ROI_Report_" && name[|name| - 4..] == ".pdf"
    ensures var n := Lookup(f, FIELD_NAMES[0]);
            if n.Some? && !Blank(n.value) then name[11..|name| - 4] == n.value.value
            else name == "ROI_Report_Report.pdf"
  {
    var n := Lookup(f, FIELD_NAMES[0]);
    "ROI_Report_" + (if n.Some? && !Blank(n.value) then n.value.value else "Report") + ".pdf"
  }

  /** What pressing "Download Report" leads to. */
  datatype Download =
    | NeedSimulation                                  // no result yet: nothing is sent
    | NeedEmail                                       // the prompt was cancelled or left empty
    | Send(email: string, inputs: FormFields)         // the body of the report request

  class Form {
    var fields: FormFields
    var result: Option<Engine.SimResult>

    constructor ()
      ensures fields == EmptyForm() && result == None
    {
      fields := EmptyForm();
      result := None;
    }

    /** `handleChange`: the named field takes the typed value. */
    method Change(name: string, value: string)
      modifies this
      ensures fields == Set(old(fields), name, Some(value))
      ensures result == old(result)
    {
      fields := Set(fields, name, Some(value));
    }

    /**
      `validateForm`: walk the fields in order and stop at the first blank
      one, reporting its key; succeed when there is none.
    */
    method ValidateForm() returns (ok: bool, missing: Option<string>)
      ensures missing == FirstBlank(fields)
      ensures ok <==> missing.None?
    {
      var i := 0;
      while i < |fields|
        invariant 0 <= i <= |fields|
        invariant FirstBlank(fields[i..]) == FirstBlank(fields)
      {
        assert fields[i..][0] == fields[i] && fields[i..][1..] == fields[i + 1..];
        if Blank(fields[i].1) {
          return false, Some(fields[i].0);
        }
        i := i + 1;
      }
      assert fields[i..] == [];
      return true, None;
    }

    /** `handleClearForm`: every field back to empty, no result. */
    method ClearForm()
      modifies this
      ensures fields == EmptyForm() && result == None
    {
      fields := EmptyForm();
      result := None;
    }

    /** `setResult(data.result)` after a successful simulation request. */
    method ShowResult(r: Engine.SimResult)
      modifies this
      ensures result == Some(r) && fields == old(fields)
    {
      result := Some(r);
    }

    /**
      `handleDownloadReport` up to the request: without a result nothing is
      asked; without a non-empty email nothing is sent; otherwise the email
      and the whole form go out.
    */
    method DownloadReport(enteredEmail: Option<string>) returns (d: Download)
      ensures result.None? ==> d == NeedSimulation
      ensures d.Send? <==> result.Some? && enteredEmail.Some? && enteredEmail.value != ""
      ensures d.Send? ==> d.email == enteredEmail.value && d.inputs == fields
      ensures d == NeedEmail <==> result.Some? && Blank(enteredEmail)
    {
      if result.None? {
        return NeedSimulation;
      }
      if enteredEmail.None? || enteredEmail.value == "" {
        return NeedEmail;
      }
      return Send(enteredEmail.value, fields);
    }
  }
}
