/** How Home Assistant drives the step: it applies the step's schema to a
    submission before calling the step again, so the step only ever sees
    normalised values. This composition is the host's behaviour, not code of
    the config flow itself. */
module Host {
  import opened Values
  import opened Schema
  import opened PlacesSchema
  import opened ConfigFlow

  /** A submission the schema refuses is answered by the host with the
      schema's errors; any other is handled by the step. */
  datatype Outcome = SchemaRejected(errors: Errors) | Stepped(result: FlowResult)

  /** One interaction: the first display, or one submission. */
  function Submit(d: Defaults, userInput: Option<Submission>, parse: string -> Option<int>, validate: Submission -> ValidatorOutcome): (r: Outcome)
    ensures userInput.None? ==> r == Stepped(ShowForm(STEP_ID, map[]))
    ensures r.SchemaRejected? <==> userInput.Some? && ApplyDataSchema(d, userInput.value, parse).Err?
    ensures r.SchemaRejected? ==> r.errors != map[] && r.errors == ApplyDataSchema(d, userInput.value, parse).error
    ensures r.Stepped? && r.result.CreateEntry? ==>
      userInput.Some? && Conforms(DataSchema(d), userInput.value, r.result.data, parse)
    ensures userInput.Some? && ApplyDataSchema(d, userInput.value, parse).Ok? ==>
      r == Stepped(StepUser(Some(ApplyDataSchema(d, userInput.value, parse).value), validate))
  {
    match userInput
    case None => Stepped(StepUser(None, validate))
    case Some(raw) =>
      match ApplyDataSchema(d, raw, parse)
      case Err(errs) => SchemaRejected(errs)
      case Ok(data) => Stepped(StepUser(Some(data), validate))
  }

  /** Schema errors take precedence: when the schema refuses a submission
      the validator is never consulted, whichever one is plugged in. */
  lemma SchemaErrorsPrecedeValidator(d: Defaults, raw: Submission, parse: string -> Option<int>,
                                     f: Submission -> ValidatorOutcome, g: Submission -> ValidatorOutcome)
    requires ApplyDataSchema(d, raw, parse).Err?
    ensures Submit(d, Some(raw), parse, f) == Submit(d, Some(raw), parse, g)
    ensures Submit(d, Some(raw), parse, f) == SchemaRejected(ApplyDataSchema(d, raw, parse).error)
  {
  }

  /** With the integration's own validator, every submission the schema
      accepts creates an entry, titled with the submitted name verbatim and
      holding the normalised values; no form with errors is ever shown. */
  lemma AcceptedSubmissionCreatesEntry(d: Defaults, raw: Submission, parse: string -> Option<int>)
    requires ApplyDataSchema(d, raw, parse).Ok?
    ensures NAME in raw && raw[NAME].Str?
    ensures Submit(d, Some(raw), parse, ValidateInput) == Stepped(CreateEntry(raw[NAME], ApplyDataSchema(d, raw, parse).value))
  {
    RequiredFieldsKept(d, raw, parse);
  }

  /** A submission with the map zoom at 25 is refused on the map zoom field,
      whatever the defaults. */
  lemma ZoomAboveRangeRefused(d: Defaults, parse: string -> Option<int>)
    ensures var raw := map[NAME := Str("Home"), DEVICETRACKER_ID := Str("device.phone"), MAP_ZOOM := Int(25)];
      && Submit(d, Some(raw), parse, ValidateInput).SchemaRejected?
      && MAP_ZOOM in Submit(d, Some(raw), parse, ValidateInput).errors
      && Submit(d, Some(raw), parse, ValidateInput).errors[MAP_ZOOM] == InvalidValue
  {
    var raw := map[NAME := Str("Home"), DEVICETRACKER_ID := Str("device.phone"), MAP_ZOOM := Int(25)];
    assert SubmittedOr(raw, MAP_ZOOM, Int(d.mapZoom)) == Int(25);
    MapZoomAcceptedIff(d, raw, parse);
  }

  /** A submission of only the two required fields. */
  const RequiredOnly: Submission := map[NAME := Str("Home"), DEVICETRACKER_ID := Str("device.phone")]

  /** The required fields and the API key are never at fault in the
      required-only submission. */
  lemma RequiredOnlyHeadClean(d: Defaults, parse: string -> Option<int>)
    ensures forall i | 0 <= i < 3 :: FieldFault(DataSchema(d)[i], RequiredOnly, parse).None?
  {
    var s := DataSchema(d);
    assert FieldFault(s[0], RequiredOnly, parse).None?;
    assert FieldFault(s[1], RequiredOnly, parse).None?;
    assert FieldFault(s[2], RequiredOnly, parse).None?;
  }

  /** In the required-only submission the options, the home zone and the
      map provider are checked against their defaults. */
  lemma RequiredOnlyMiddleClean(d: Defaults, parse: string -> Option<int>)
    ensures FieldFault(DataSchema(d)[3], RequiredOnly, parse).None? <==> d.option.Str?
    ensures FieldFault(DataSchema(d)[4], RequiredOnly, parse).None? <==> d.homeZone.Str?
    ensures FieldFault(DataSchema(d)[5], RequiredOnly, parse).None? <==>
      d.mapProvider.Str? && d.mapProvider.s in MAP_PROVIDER_OPTIONS
  {
    var s := DataSchema(d);
    assert s[3] == FieldSpec(OPTIONS, Optional(Some(d.option)), IsStr);
    assert s[4] == FieldSpec(HOME_ZONE, Optional(Some(d.homeZone)), IsStr);
    assert s[5] == FieldSpec(MAP_PROVIDER, Optional(Some(d.mapProvider)), OneOf(MAP_PROVIDER_OPTIONS));
  }

  /** In the required-only submission the map zoom and the
      extended-attributes flag are checked against their defaults, and the
      language is simply absent. */
  lemma RequiredOnlyTailClean(d: Defaults, parse: string -> Option<int>)
    ensures FieldFault(DataSchema(d)[6], RequiredOnly, parse).None? <==> MAP_ZOOM_MIN <= d.mapZoom <= MAP_ZOOM_MAX
    ensures FieldFault(DataSchema(d)[7], RequiredOnly, parse).None?
    ensures FieldFault(DataSchema(d)[8], RequiredOnly, parse).None? <==> d.extendedAttr.Bool?
  {
    var s := DataSchema(d);
    assert s[6] == FieldSpec(MAP_ZOOM, Optional(Some(Int(d.mapZoom))), IntInRange(MAP_ZOOM_MIN, MAP_ZOOM_MAX));
    assert s[7] == FieldSpec(LANGUAGE, Optional(None), IsStr);
    assert s[8] == FieldSpec(EXTENDED_ATTR, Optional(Some(d.extendedAttr)), IsBool);
  }

  /** A submission of only the name and the device tracker passes
      DATA_SCHEMA exactly when the defaults pass their own checks. */
  lemma RequiredOnlyAcceptedIff(d: Defaults, parse: string -> Option<int>)
    ensures ApplyDataSchema(d, RequiredOnly, parse).Ok? <==> DefaultsPass(d)
  {
    var s := DataSchema(d);
    DataSchemaKeys(d);
    assert RequiredOnly.Keys <= Keys(s);
    RequiredOnlyHeadClean(d, parse);
    RequiredOnlyMiddleClean(d, parse);
    RequiredOnlyTailClean(d, parse);
    if DefaultsPass(d) {
      forall i | 0 <= i < |s| ensures FieldFault(s[i], RequiredOnly, parse).None? {
        if i >= 3 {
          assert i == 3 || i == 4 || i == 5 || i == 6 || i == 7 || i == 8;
        }
      }
    }
  }

  /** With defaults that pass their own checks, a submission of only the
      name and the device tracker creates an entry titled with the name,
      holding the two submitted values and every default, and no API key
      or language. */
  lemma OnlyRequiredFieldsCreateEntry(d: Defaults, parse: string -> Option<int>)
    requires DefaultsPass(d)
    ensures ApplyDataSchema(d, RequiredOnly, parse).Ok?
    ensures Submit(d, Some(RequiredOnly), parse, ValidateInput)
      == Stepped(CreateEntry(Str("Home"), ApplyDataSchema(d, RequiredOnly, parse).value))
    ensures var data := ApplyDataSchema(d, RequiredOnly, parse).value;
      && NAME in data && data[NAME] == Str("Home")
      && DEVICETRACKER_ID in data && data[DEVICETRACKER_ID] == Str("device.phone")
      && OPTIONS in data && data[OPTIONS] == d.option
      && HOME_ZONE in data && data[HOME_ZONE] == d.homeZone
      && MAP_PROVIDER in data && data[MAP_PROVIDER] == d.mapProvider
      && MAP_ZOOM in data && data[MAP_ZOOM] == Int(d.mapZoom)
      && EXTENDED_ATTR in data && data[EXTENDED_ATTR] == d.extendedAttr
      && API_KEY !in data && LANGUAGE !in data
  {
    RequiredOnlyAcceptedIff(d, parse);
    RequiredFieldsKept(d, RequiredOnly, parse);
    OptionsDefaulted(d, RequiredOnly, parse);
    HomeZoneDefaulted(d, RequiredOnly, parse);
    MapProviderDefaulted(d, RequiredOnly, parse);
    MapZoomDefaulted(d, RequiredOnly, parse);
    ExtendedAttrDefaulted(d, RequiredOnly, parse);
    ApiKeyOnlyIfSubmitted(d, RequiredOnly, parse);
    LanguageOnlyIfSubmitted(d, RequiredOnly, parse);
    AcceptedSubmissionCreatesEntry(d, RequiredOnly, parse);
  }
}
