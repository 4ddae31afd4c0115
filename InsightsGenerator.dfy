/** The insights panel: its form state, the region sync, the climate-condition
    checkboxes, and the submit handler that calls the generate-insights action. */
module InsightsGenerator {
  import opened Collections
  import opened Schemas
  import opened Actions
  import DashboardContext

  /** The climate-condition checkbox ids, in display order. */
  const ClimateOptions: seq<string> := ["Temperature", "Rainfall", "Humidity", "Vegetation"]

  /** The values the form starts from. */
  const DefaultFormValues: InsightsFormValues := InsightsFormValues("", "", None, [])

  /** The default values fail validation on every field, so a fresh form cannot reach the flow. */
  lemma DefaultValuesInvalid(llm: GenerateInsightsInput -> LlmOutcome)
    ensures !IsValid(DefaultFormValues)
    ensures HandleGenerateInsights(DefaultFormValues, llm).fieldErrors == Some(FieldErrors(DefaultFormValues))
    ensures Keys(FieldErrors(DefaultFormValues)) == FieldNames
  {
    EmptyFormFailsEveryField();
  }

  // ---------------------------------------------------------------------------
  // Climate-condition checkboxes. The field's value may be undefined, read as [].

  /** Checking a box: the id is appended at the end, with no deduplication. */
  function CheckCondition(value: Option<seq<string>>, id: string): (r: seq<string>)
    ensures |r| == |value.GetOr([])| + 1
    ensures r[..|r| - 1] == value.GetOr([]) && r[|r| - 1] == id
    ensures multiset(r)[id] == multiset(value.GetOr([]))[id] + 1
  {
    value.GetOr([]) + [id]
  }

  /** Unchecking a box: every occurrence of the id goes, the others stay in order. */
  function UncheckCondition(value: Option<seq<string>>, id: string): (r: seq<string>)
    ensures id !in r
    ensures forall x :: x in r <==> x in value.GetOr([]) && x != id
    ensures IsSubsequence(r, value.GetOr([]))
  {
    Filter(value.GetOr([]), x => x != id)
  }

  /** `field.value?.includes(id)`: an undefined value shows every box unchecked. */
  predicate ConditionChecked(value: Option<seq<string>>, id: string) {
    value.Some? && id in value.value
  }

  /** After checking a box it shows checked; after unchecking it shows unchecked,
      and every other box keeps its state. */
  lemma ToggleShowsChecked(value: Option<seq<string>>, id: string, other: string)
    requires other != id
    ensures ConditionChecked(Some(CheckCondition(value, id)), id)
    ensures !ConditionChecked(Some(UncheckCondition(value, id)), id)
    ensures ConditionChecked(Some(CheckCondition(value, id)), other) <==> ConditionChecked(Some(value.GetOr([])), other)
    ensures ConditionChecked(Some(UncheckCondition(value, id)), other) <==> ConditionChecked(Some(value.GetOr([])), other)
  {
    var r := CheckCondition(value, id);
    assert r == value.GetOr([]) + [id];
  }

  /** Unchecking keeps every other id as often as it was listed. */
  lemma UncheckKeepsOthers(value: Option<seq<string>>, id: string, other: string)
    ensures multiset(UncheckCondition(value, id))[other] ==
      if other == id then 0 else multiset(value.GetOr([]))[other]
  {
    FilterCounts(value.GetOr([]), x => x != id, other);
  }

  /** Unchecking right after checking gives what unchecking alone gives. */
  lemma {:induction false} UncheckUndoesCheck(value: Option<seq<string>>, id: string)
    ensures UncheckCondition(Some(CheckCondition(value, id)), id) == UncheckCondition(value, id)
  {
    var p := x => x != id;
    FilterConcat(value.GetOr([]), [id], p);
    assert Filter([id], p) == [];
  }

  /** Unchecking an id that is not listed leaves the list as it was. */
  lemma UncheckAbsent(value: seq<string>, id: string)
    requires id !in value
    ensures UncheckCondition(Some(value), id) == value
  {
    FilterKeepsAll(value, x => x != id);
  }

  // ---------------------------------------------------------------------------
  // Field-error fan-out.

  /** The first message of the field's error list, when it has a non-empty one. */
  function FirstMessage(fieldErrors: Dict<seq<string>>, field: string): Option<string> {
    match Get(fieldErrors, field)
    case Some(es) => if |es| > 0 then Some(es[0]) else None
    case None => None
  }

  /** `setError(field, errors[0])` for each entry whose list is non-empty, in entry order. */
  function WithFieldErrors(errors: map<string, string>, fieldErrors: Dict<seq<string>>): (r: map<string, string>)
    decreases |fieldErrors|
    ensures forall field :: field in r <==>
      field in errors || exists i | 0 <= i < |fieldErrors| :: fieldErrors[i].0 == field && |fieldErrors[i].1| > 0
    ensures forall field :: field in errors && field !in Keys(fieldErrors) ==> r[field] == errors[field]
  {
    if fieldErrors == [] then errors
    else
      var (field, es) := fieldErrors[0];
      WithFieldErrors(if |es| > 0 then errors[field := es[0]] else errors, fieldErrors[1..])
  }

  /** With distinct fields, each field with a non-empty list ends up holding exactly its
      first message, and every other field's error is left as it was. */
  lemma {:induction false} FieldErrorFanOut(errors: map<string, string>, fieldErrors: Dict<seq<string>>, field: string)
    requires Distinct(Keys(fieldErrors))
    decreases |fieldErrors|
    ensures var r := WithFieldErrors(errors, fieldErrors);
      && (FirstMessage(fieldErrors, field).Some? ==> field in r && r[field] == FirstMessage(fieldErrors, field).value)
      && (FirstMessage(fieldErrors, field).None? ==>
            (field in r <==> field in errors) && (field in errors ==> r[field] == errors[field]))
  {
    if fieldErrors != [] {
      var (f, es) := fieldErrors[0];
      var rest := fieldErrors[1..];
      var next := if |es| > 0 then errors[f := es[0]] else errors;
      assert fieldErrors == [fieldErrors[0]] + rest;
      assert Keys(rest) == Keys(fieldErrors)[1..];
      GetConcat([fieldErrors[0]], rest, field);
      assert Keys([fieldErrors[0]]) == [f];
      FieldErrorFanOut(next, rest, field);
      if field == f {
        assert Keys(fieldErrors)[0] == f;
        assert field !in Keys(rest);
      }
    }
  }

  /** A failed validation fans out into the form's errors: each failing field gets its
      rule's message and the passing fields keep their earlier errors. */
  lemma InvalidSubmitErrors(errors: map<string, string>, v: InsightsFormValues, field: string)
    requires field in FieldNames
    ensures var r := WithFieldErrors(errors, FieldErrors(v));
      && (FieldIssue(v, field).Some? ==> field in r && r[field] == FieldIssue(v, field).value)
      && (FieldIssue(v, field).None? ==> (field in r <==> field in errors) && (field in errors ==> r[field] == errors[field]))
  {
    FieldErrorsOrder(v);
    FieldErrorFor(v, field);
    FieldErrorFanOut(errors, FieldErrors(v), field);
  }

  // ---------------------------------------------------------------------------
  // The panel's state.

  class InsightsForm {
    var region: string
    var timePeriod: string
    var disease: Option<string>
    var climateConditions: seq<string>
    /** The message shown under each field that has an error. */
    var errors: map<string, string>
    var isLoading: bool
    var generatedSummary: Option<string>

    /** The form's current values, as handed to the submit handler. */
    function Values(): InsightsFormValues
      reads this
    {
      InsightsFormValues(region, timePeriod, disease, climateConditions)
    }

    constructor()
      ensures Values() == DefaultFormValues
      ensures errors == map[] && !isLoading && generatedSummary.None?
    {
      region, timePeriod, disease, climateConditions := "", "", None, [];
      errors := map[];
      isLoading, generatedSummary := false, None;
    }

    /** The effect on the context's selected region: a non-empty region that differs
        from the form's replaces it; otherwise the form keeps its own. */
    method SyncRegion(selectedRegion: Option<string>)
      modifies this
      ensures region == (if DashboardContext.IsSet(selectedRegion) then selectedRegion.value else old(region))
      ensures timePeriod == old(timePeriod) && disease == old(disease)
      ensures climateConditions == old(climateConditions) && errors == old(errors)
      ensures isLoading == old(isLoading) && generatedSummary == old(generatedSummary)
    {
      if DashboardContext.IsSet(selectedRegion) && region != selectedRegion.value {
        region := selectedRegion.value;
      }
    }

    /** A checkbox's change handler. */
    method ToggleCondition(id: string, checked: bool)
      modifies this
      ensures climateConditions ==
        (if checked then CheckCondition(Some(old(climateConditions)), id)
         else UncheckCondition(Some(old(climateConditions)), id))
      ensures region == old(region) && timePeriod == old(timePeriod) && disease == old(disease)
      ensures errors == old(errors) && isLoading == old(isLoading) && generatedSummary == old(generatedSummary)
    {
      if checked {
        climateConditions := climateConditions + [id];
      } else {
        climateConditions := UncheckCondition(Some(climateConditions), id);
      }
    }

    /** Whether the box for `id` shows checked. */
    predicate Checked(id: string)
      reads this
    {
      ConditionChecked(Some(climateConditions), id)
    }

    /** The start of a submit: loading on, any earlier summary cleared. */
    method BeginSubmit()
      modifies this
      ensures isLoading && generatedSummary.None?
      ensures Values() == old(Values()) && errors == old(errors)
    {
      isLoading := true;
      generatedSummary := None;
    }

    /** `setError` for each entry of the result's field errors, in entry order. */
    method ApplyFieldErrors(fieldErrors: Dict<seq<string>>)
      modifies this
      ensures errors == WithFieldErrors(old(errors), fieldErrors)
      ensures Values() == old(Values()) && isLoading == old(isLoading) && generatedSummary == old(generatedSummary)
    {
      var i := 0;
      while i < |fieldErrors|
        invariant 0 <= i <= |fieldErrors|
        invariant WithFieldErrors(errors, fieldErrors[i..]) == WithFieldErrors(old(errors), fieldErrors)
        invariant Values() == old(Values()) && isLoading == old(isLoading) && generatedSummary == old(generatedSummary)
      {
        var (field, es) := fieldErrors[i];
        assert fieldErrors[i..][1..] == fieldErrors[i + 1..];
        if |es| > 0 {
          errors := errors[field := es[0]];
        }
        i := i + 1;
      }
    }

    /** The end of a submit: loading off; the summary on success with data; otherwise
        the field errors, when there are any, are applied. */
    method FinishSubmit(result: ActionResult)
      modifies this
      ensures !isLoading
      ensures generatedSummary ==
        (if result.success && result.data.Some? then Some(result.data.value.summary) else old(generatedSummary))
      ensures errors ==
        (if !(result.success && result.data.Some?) && result.fieldErrors.Some?
         then WithFieldErrors(old(errors), result.fieldErrors.value) else old(errors))
      ensures Values() == old(Values())
    {
      isLoading := false;
      if result.success && result.data.Some? {
        generatedSummary := Some(result.data.value.summary);
      } else {
        if result.fieldErrors.Some? {
          ApplyFieldErrors(result.fieldErrors.value);
        }
      }
    }

    /** `onSubmit` with the form's current values, `llm` standing for the flow call. */
    method Submit(llm: GenerateInsightsInput -> LlmOutcome) returns (result: ActionResult)
      modifies this
      ensures result == HandleGenerateInsights(old(Values()), llm)
      ensures Values() == old(Values()) && !isLoading
      ensures result.success ==> generatedSummary == Some(result.data.value.summary) && errors == old(errors)
      ensures !result.success ==> generatedSummary.None?
      ensures !result.success && !IsValid(old(Values())) ==> errors == WithFieldErrors(old(errors), FieldErrors(old(Values())))
      ensures IsValid(old(Values())) ==> errors == old(errors)
    {
      BeginSubmit();
      result := HandleGenerateInsights(Values(), llm);
      FinishSubmit(result);
    }
  }
}
