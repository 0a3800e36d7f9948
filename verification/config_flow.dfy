/** The setup step of the places integration: `validate_input` and the
    user step of its config flow, which turns one submission into either a
    new config entry or the same form shown again with errors. */
module ConfigFlow {
  import opened Values
  import PlacesSchema

  /** The form's step id, `"user"`. */
  const STEP_ID: string := "user"

  // Error slots and error codes handed to the form.
  const BASE: string := "base"
  const HOST: string := "host"
  const CANNOT_CONNECT: string := "cannot_connect"
  const UNKNOWN: string := "unknown"

  /** What awaiting the validator yields: its info with the entry title, or
      one of the faults the step catches (`CannotConnect`, `InvalidHost`, or
      any other `Exception`). */
  datatype ValidatorOutcome = Validated(title: Value) | CannotConnect | InvalidHost | Unexpected

  /** What the step hands back to the host: a config entry to create, or
      the form to show (again) with an error map keyed by field or "base". */
  datatype FlowResult = CreateEntry(title: Value, data: Submission) | ShowForm(stepId: string, errors: map<string, string>)

  /** `validate_input` as written: it checks nothing and returns the
      submitted name as the title. Reading a missing name raises KeyError,
      which the step receives as an unexpected fault. */
  function ValidateInput(data: Submission): (r: ValidatorOutcome)
    ensures r.Validated? <==> PlacesSchema.NAME in data
    ensures r.Validated? ==> r.title == data[PlacesSchema.NAME]
    ensures !r.CannotConnect? && !r.InvalidHost?
  {
    if PlacesSchema.NAME in data then Validated(data[PlacesSchema.NAME]) else Unexpected
  }

  /** `async_step_user`: with no submission, show the empty form; otherwise
      run the validator and create the entry from the submission, or start
      from an empty error map and record the fault in its slot. */
  function StepUser(userInput: Option<Submission>, validate: Submission -> ValidatorOutcome): (r: FlowResult)
    ensures r.ShowForm? ==> r.stepId == STEP_ID
    ensures userInput.None? ==> r == ShowForm(STEP_ID, map[])
    ensures r.CreateEntry? <==> userInput.Some? && validate(userInput.value).Validated?
    ensures r.CreateEntry? ==> r.title == validate(userInput.value).title && r.data == userInput.value
    ensures userInput.Some? && r.ShowForm? ==> |r.errors| == 1 && r.errors.Keys <= {BASE, HOST}
    ensures userInput.Some? && validate(userInput.value) == CannotConnect ==> r.errors == map[BASE := CANNOT_CONNECT]
    ensures userInput.Some? && validate(userInput.value) == InvalidHost ==> r.errors == map[HOST := CANNOT_CONNECT]
    ensures userInput.Some? && validate(userInput.value) == Unexpected ==> r.errors == map[BASE := UNKNOWN]
  {
    var errors: map<string, string> := map[];
    match userInput
    case None => ShowForm(STEP_ID, errors)
    case Some(data) =>
      match validate(data)
      case Validated(title) => CreateEntry(title, data)
      case CannotConnect => ShowForm(STEP_ID, errors[BASE := CANNOT_CONNECT])
      case InvalidHost => ShowForm(STEP_ID, errors[HOST := CANNOT_CONNECT])
      case Unexpected => ShowForm(STEP_ID, errors[BASE := UNKNOWN])
  }

  /** The step as the integration wires it, with its own `validate_input`. */
  function StepUserAsWritten(userInput: Option<Submission>): (r: FlowResult)
    ensures userInput.None? ==> r == ShowForm(STEP_ID, map[])
    ensures r.CreateEntry? <==> userInput.Some? && PlacesSchema.NAME in userInput.value
    ensures r.CreateEntry? ==> r.title == userInput.value[PlacesSchema.NAME] && r.data == userInput.value
    ensures r.ShowForm? && userInput.Some? ==> r.errors == map[BASE := UNKNOWN]
  {
    StepUser(userInput, ValidateInput)
  }

  /** Without a submission the validator is never consulted: the first
      display is the same whatever validator is plugged in. A corollary of
      StepUser's contract for the empty submission. */
  lemma FirstDisplayIgnoresValidator(f: Submission -> ValidatorOutcome, g: Submission -> ValidatorOutcome)
    ensures StepUser(None, f) == StepUser(None, g)
  {
  }

  /** The step is a function of the submission and of the validator's
      outcome on it alone: a repeated submission takes the same path. */
  lemma StepDependsOnlyOnOutcome(data: Submission, f: Submission -> ValidatorOutcome, g: Submission -> ValidatorOutcome)
    requires f(data) == g(data)
    ensures StepUser(Some(data), f) == StepUser(Some(data), g)
  {
  }

  /** With the integration's own validator, a submission carrying a name
      always creates an entry titled with that name and holding exactly the
      submission; one without a name is shown again with an "unknown" error. */
  lemma AsWrittenOutcome(data: Submission)
    ensures PlacesSchema.NAME in data ==> StepUserAsWritten(Some(data)) == CreateEntry(data[PlacesSchema.NAME], data)
    ensures PlacesSchema.NAME !in data ==> StepUserAsWritten(Some(data)) == ShowForm(STEP_ID, map[BASE := UNKNOWN])
  {
  }
}
