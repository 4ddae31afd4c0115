/** The generate-insights server action: validate the form, hand a copy of the
    four fields to the text-generation flow, and turn its outcome into a result record. */
module Actions {
  import opened Collections
  import opened Schemas

  /** The flow's input record. */
  datatype GenerateInsightsInput = GenerateInsightsInput(
    region: string,
    timePeriod: string,
    disease: string,
    climateConditions: seq<string>)

  /** The flow's output record. */
  datatype GenerateInsightsOutput = GenerateInsightsOutput(summary: string)

  /** What a failed call throws: an `Error` with its message, or any other value. */
  datatype Thrown = ErrorObject(message: string) | OtherValue

  /** How the awaited flow call ends. */
  datatype LlmOutcome = Returned(output: GenerateInsightsOutput) | Threw(thrown: Thrown)

  datatype ActionResult = ActionResult(
    success: bool,
    data: Option<GenerateInsightsOutput>,
    error: Option<string>,
    fieldErrors: Option<Dict<seq<string>>>)

  const InvalidFormError: string := "Invalid form data."
  const UnknownGenerationError: string := "An unknown error occurred while generating insights."

  /** What the action does after validation: answer at once, or call the flow with this input. */
  datatype Step = Respond(result: ActionResult) | CallFlow(input: GenerateInsightsInput)

  /** Validation and the copy of the validated fields into the flow's input. */
  function ValidateAndCopy(form: InsightsFormValues): (s: Step)
    ensures s.CallFlow? <==> IsValid(form)
    ensures s.Respond? ==>
      s.result == ActionResult(false, None, Some(InvalidFormError), Some(FieldErrors(form)))
    ensures s.CallFlow? ==>
      && s.input.region == form.region && s.input.timePeriod == form.timePeriod
      && Some(s.input.disease) == form.disease && s.input.climateConditions == form.climateConditions
  {
    match SafeParse(form)
    case Failed(fieldErrors) => Respond(ActionResult(false, None, Some(InvalidFormError), Some(fieldErrors)))
    case Parsed(data) =>
      CallFlow(GenerateInsightsInput(data.region, data.timePeriod, data.disease.value, data.climateConditions))
  }

  /** `e instanceof Error ? e.message : <fallback>` */
  function ErrorMessage(t: Thrown): (m: string)
    ensures t.ErrorObject? ==> m == t.message
    ensures t.OtherValue? ==> m == UnknownGenerationError
  {
    match t
    case ErrorObject(message) => message
    case OtherValue => UnknownGenerationError
  }

  /** The result record for the flow's outcome. */
  function ResultOf(outcome: LlmOutcome): (r: ActionResult)
    ensures r.success <==> outcome.Returned?
    ensures r.success ==> r.data == Some(outcome.output) && r.error.None?
    ensures !r.success ==> r.data.None? && r.error == Some(ErrorMessage(outcome.thrown))
    ensures r.fieldErrors.None?
  {
    match outcome
    case Returned(output) => ActionResult(true, Some(output), None, None)
    case Threw(t) => ActionResult(false, None, Some(ErrorMessage(t)), None)
  }

  /** `handleGenerateInsights(form)`, with `llm` standing for the flow call. */
  function HandleGenerateInsights(form: InsightsFormValues, llm: GenerateInsightsInput -> LlmOutcome): (r: ActionResult)
    ensures !IsValid(form) ==>
      r == ActionResult(false, None, Some(InvalidFormError), Some(FieldErrors(form)))
    ensures IsValid(form) ==>
      r == ResultOf(llm(GenerateInsightsInput(form.region, form.timePeriod, form.disease.value, form.climateConditions)))
    ensures r.success ==> IsValid(form) && r.data.Some? && r.error.None? && r.fieldErrors.None?
    ensures r.fieldErrors.Some? <==> !IsValid(form)
    ensures !r.success ==> r.error.Some? && r.data.None?
  {
    match ValidateAndCopy(form)
    case Respond(result) => result
    case CallFlow(input) => ResultOf(llm(input))
  }

  /** An invalid form is answered without consulting the flow: any two flows give the same result. */
  lemma InvalidFormSkipsFlow(form: InsightsFormValues, llm1: GenerateInsightsInput -> LlmOutcome,
                             llm2: GenerateInsightsInput -> LlmOutcome)
    requires !IsValid(form)
    ensures HandleGenerateInsights(form, llm1) == HandleGenerateInsights(form, llm2)
    ensures !HandleGenerateInsights(form, llm1).success
  {
  }
}
