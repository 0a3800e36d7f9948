# Places config flow: a Dafny model

This project models the setup wizard of the Home Assistant "places"
integration, `custom_components/places/config_flow.py`. The wizard has two
pieces with behaviour worth stating:

- **`DATA_SCHEMA`**: the form's field table, applied the way voluptuous
  applies it. There are two required text fields, `name` and
  `devicetracker_id`. The optional text fields are `api_key`, `options`,
  `home_zone` and `language`. `map_provider` must be one of `apple`,
  `google` or `osm`. `map_zoom` is coerced to an integer and must lie in
  1..20 inclusive. `extended_attr` is a boolean. Several optional fields
  have defaults.
- **`validate_input` and `ConfigFlow.async_step_user`**: one step of the flow.
  With no submission, the step shows the form with no errors. With a
  submission, it awaits the validator. On success it creates a config entry
  whose title is the validator's title and whose data is the submission. A
  failure shows the form again with one error, chosen by a fixed table:
  `CannotConnect` goes to `base: cannot_connect`, `InvalidHost` goes to
  `host: cannot_connect`, and any other `Exception` goes to `base: unknown`.

The modules follow these pieces:

- `Values` (values.dfy) holds the raw form values, `Option` and `Result`.
- `Schema` (schema.dfy) is a generic mapping validator. It works over a
  static table of `FieldSpec` records: key, required or optional with an
  optional default, and a value check. Each key is handled in this order:
  presence check, default substitution, value check. A default is checked
  like a submitted value, as voluptuous inserts defaults before it
  validates. Validation returns the normalised submission or a map from key
  to error. Each offending key gets one error, as voluptuous collects every
  fault into one `MultipleInvalid`. A key the table does not declare is an
  error, because voluptuous schemas refuse extra keys by default. The
  validator is proved sound and complete against `Conforms` and `Blames`, a
  declarative statement of the same rules.
- `PlacesSchema` (places_schema.dfy) is the concrete `DATA_SCHEMA` table and
  its per-field guarantees.
- `ConfigFlow` (config_flow.dfy) holds `validate_input` and the user step.
  The validator is a parameter of the step, so the step's contract covers
  any validator, including one that raises an `Exception`.
  `StepUserAsWritten` plugs in the integration's own `validate_input`.
- `Host` (host.dfy) puts the schema in front of the step. The step does not
  apply `DATA_SCHEMA` itself. It only passes the schema to the form, and
  Home Assistant applies it to the next submission before it calls the step
  again. This composition therefore models the host's behaviour, not code in
  the config flow.

## Consequences of the code as written

- An `InvalidHost` failure is reported under the `host` slot with the code
  `cannot_connect`. It gets no code of its own. No field of `DATA_SCHEMA`
  is called `host`.
- A schema failure is not turned into a re-shown form by the step. The host
  refuses the submission with the schema's errors, and the step never runs
  (`Host.SchemaRejected`).
- The schema reports every faulty key at once, not only the first.
- `validate_input` checks nothing. It fails only when the submission has no
  `name`: reading the missing key raises `KeyError`, and the step reports
  that as `base: unknown`. Once the host has applied the schema, `name` is
  always present. So with the integration's own validator, every submission
  the schema accepts creates an entry.

## Model

| member | source | states |
|---|---|---|
| Schema.CoerceInt | custom_components/places/config_flow.py:49-51 | Python's `int(v)` inside `vol.Coerce(int)`. It fails exactly on `None` and on text that is not an integer literal. An integer passes unchanged, a boolean becomes 0 or 1 (`int(True) == 1`), and text goes through the integer parser. |
| Schema.Admit | custom_components/places/config_flow.py:41-54 | A `str` check accepts exactly the strings and a `bool` check exactly the booleans. A `vol.In` check accepts exactly the strings in its option list. A `Coerce(int)` plus `Range` check accepts exactly the values that coerce to an integer within the inclusive bounds. An accepted value is the submitted value unchanged, except under `Coerce(int)`, where it is the coerced integer. |
| Schema.AdmitIdempotent | custom_components/places/config_flow.py:41-54 | A value that a field check produced passes the same check again unchanged. |
| Schema.CheckField | custom_components/places/config_flow.py:41-54 | A key is reported missing exactly when it is required and absent. A field is left out exactly when it is optional without a default and not submitted. It is accepted exactly when its submitted or default value passes its check, and then holds the checked value. It is reported invalid exactly when that value fails its check. |
| Schema.Normalise | custom_components/places/config_flow.py:39-56 | Voluptuous's loop over the declared keys, collecting each accepted value under its key. The result holds only declared keys. |
| Schema.NormaliseFields | custom_components/places/config_flow.py:39-56 | The normalised map holds a declared key exactly when that field was accepted, with the field's checked value, and holds no undeclared key. |
| Schema.FieldErrors | custom_components/places/config_flow.py:39-56 | The same loop, collecting each rejected key's error. The result holds only declared keys. |
| Schema.FieldErrorsFields | custom_components/places/config_flow.py:39-56 | The field error map holds a declared key exactly when that field was rejected, with the field's error, and holds no undeclared key. |
| Schema.ValidateSound | custom_components/places/config_flow.py:39-56 | The combined error map (extra keys plus field errors) is empty exactly when every key is declared and no field has a fault. When it is empty, the normalised map conforms to the schema. Otherwise it blames exactly the faults. |
| Schema.Validate | custom_components/places/config_flow.py:39-56 | Validation succeeds exactly when every key is declared and no field has a fault. On success, the output conforms to the schema. On failure, the error map is non-empty and reports exactly the faults: extra keys, missing required keys, and invalid submitted or default values. |
| Schema.ValidateComplete | custom_components/places/config_flow.py:39-56 | Any normalisation that conforms to the schema is the one validation returns, so validation returns Ok(out) exactly when out conforms. |
| Schema.ConformsUnique | custom_components/places/config_flow.py:39-56 | At most one normalised map conforms to a given submission. |
| Schema.FieldResult | custom_components/places/config_flow.py:39-56 | A declared key has an error exactly when its field has a fault, and the error is that fault. On success, the field conforms. |
| Schema.SuppliedFieldResult | custom_components/places/config_flow.py:44-54 | A field with a submitted or default value has an error exactly when its check refuses that value, and the error is `InvalidValue`. |
| Schema.OmittedFieldResult | custom_components/places/config_flow.py:43-54 | On success, an omitted field is optional. It is in the output exactly when it declares a default, and then holds the checked default. |
| Schema.ExtraKeyResult | custom_components/places/config_flow.py:39-56 | A key the schema does not declare makes validation fail, and that key's error is `ExtraKey`. |
| Schema.SameOutcomesSameFields | custom_components/places/config_flow.py:39-56 | The normalised map and the field errors depend on a submission only through the outcome of each field. |
| Schema.SameOutcomesSameResult | custom_components/places/config_flow.py:39-56 | Two submissions with the same undeclared keys and the same outcome for every field validate identically. |
| Schema.DefaultIsExplicit | custom_components/places/config_flow.py:44-54 | Omitting an optional field that has a default gives the same validation result as submitting the default explicitly. |
| Schema.NormalFormIsFixedPoint | custom_components/places/config_flow.py:39-56 | Validating a normalised submission again returns it unchanged. |
| PlacesSchema.DataSchema | custom_components/places/config_flow.py:39-56 | The table declares each key once. |
| PlacesSchema.DataSchemaKeys | custom_components/places/config_flow.py:39-56 | The table declares exactly the nine keys `name`, `devicetracker_id`, `api_key`, `options`, `home_zone`, `map_provider`, `map_zoom`, `language` and `extended_attr`. |
| PlacesSchema.ApplyDataSchema | custom_components/places/config_flow.py:39-56 | Calling `DATA_SCHEMA(user_input)`. On success, the submission and the output use only the nine declared keys. On failure, at least one key is reported. |
| PlacesSchema.MissingRequiredRejected | custom_components/places/config_flow.py:41-42 | A submission without the name or the device-tracker id is rejected, and each absent one is reported as missing, since neither has a default. |
| PlacesSchema.RequiredFieldsKept | custom_components/places/config_flow.py:41-42 | On success, the name and the device-tracker id were submitted as strings and are kept verbatim. |
| PlacesSchema.ApiKeyOnlyIfSubmitted | custom_components/places/config_flow.py:43 | On success, the API key is in the output exactly when it was submitted. |
| PlacesSchema.LanguageOnlyIfSubmitted | custom_components/places/config_flow.py:52 | On success, the language is in the output exactly when it was submitted. |
| PlacesSchema.OptionsDefaulted | custom_components/places/config_flow.py:44 | On success, an omitted options field holds its default. |
| PlacesSchema.HomeZoneDefaulted | custom_components/places/config_flow.py:45 | On success, an omitted home zone holds its default. |
| PlacesSchema.MapProviderDefaulted | custom_components/places/config_flow.py:46-48 | On success, an omitted map provider holds its default. |
| PlacesSchema.MapZoomDefaulted | custom_components/places/config_flow.py:49-51 | On success, an omitted map zoom holds its default as an integer. |
| PlacesSchema.ExtendedAttrDefaulted | custom_components/places/config_flow.py:54 | On success, an omitted extended-attributes flag holds its default. |
| PlacesSchema.MapProviderAcceptedIff | custom_components/places/config_flow.py:30-48 | The map provider, submitted or defaulted, is error-free exactly when it is a string equal to `apple`, `google` or `osm`. Otherwise its error is `InvalidValue`. On success it is kept unchanged. |
| PlacesSchema.MapZoomAcceptedIff | custom_components/places/config_flow.py:49-51 | The map zoom, submitted or defaulted, is error-free exactly when it coerces to an integer n with 1 <= n <= 20. Otherwise its error is `InvalidValue`. An out-of-range default is refused too. |
| PlacesSchema.MapZoomStoredAsInt | custom_components/places/config_flow.py:49-51 | On success, the map zoom is stored as the integer it coerced to. |
| PlacesSchema.ExtendedAttrAcceptedIff | custom_components/places/config_flow.py:54 | The extended-attributes flag, submitted or defaulted, is error-free exactly when it is a boolean. |
| PlacesSchema.UnknownKeyRejected | custom_components/places/config_flow.py:39-56 | A submitted key that the table does not declare fails validation as an extra key. |
| PlacesSchema.OmittedEqualsExplicitDefault | custom_components/places/config_flow.py:44-54 | For each field with a default, omitting it validates exactly like submitting its default. |
| PlacesSchema.NormalisedIsStable | custom_components/places/config_flow.py:39-56 | A submission the table has normalised passes the table again unchanged. |
| ConfigFlow.ValidateInput | custom_components/places/config_flow.py:59-96 | `validate_input` succeeds exactly when the submission has a name, and then returns that name, verbatim, as the title. It never raises `CannotConnect` or `InvalidHost`. |
| ConfigFlow.StepUser | custom_components/places/config_flow.py:108-137 | With no submission, the form is shown with an empty error map. An entry is created exactly when there is a submission and the validator succeeds. The entry's title is the validator's title and its data is exactly the submission. `CannotConnect` gives exactly `{base: cannot_connect}`, `InvalidHost` gives exactly `{host: cannot_connect}`, and any other fault gives exactly `{base: unknown}`. Every failed submission shows the form with exactly one error, under `base` or `host`. |
| ConfigFlow.StepUserAsWritten | custom_components/places/config_flow.py:108-137 | The step with the live `validate_input` wired in. It creates an entry exactly when a submission has a name, titled with that name and holding the submission. Any other submission gets the form again with exactly `{base: unknown}`, and no submission gets the empty form. |
| ConfigFlow.FirstDisplayIgnoresValidator | custom_components/places/config_flow.py:116-137 | Without a submission, the step's result does not depend on the validator. |
| ConfigFlow.StepDependsOnlyOnOutcome | custom_components/places/config_flow.py:117-132 | Two validators that give the same outcome for a submission give the same step result, so a repeated submission takes the same path. |
| ConfigFlow.AsWrittenOutcome | custom_components/places/config_flow.py:116-132 | With the integration's own validator, a named submission creates an entry titled with the name and holding the submission. An unnamed one is shown again with `{base: unknown}`. |
| Host.Submit | custom_components/places/config_flow.py:135-137 | The first display is the empty form. A submission is refused by the host exactly when the schema rejects it, and then with exactly the schema's errors, which are never empty. A submission the schema accepts is handed to the step in its normalised form, so a created entry always holds a submission that conforms to the schema. |
| Host.SchemaErrorsPrecedeValidator | custom_components/places/config_flow.py:135-137 | When the schema rejects a submission, the result is the schema's errors, whatever validator is plugged in. |
| Host.AcceptedSubmissionCreatesEntry | custom_components/places/config_flow.py:119-121 | With the integration's own validator, every submission the schema accepts has a string name. It creates an entry titled with that name, verbatim, and holding the normalised values. |
| Host.ZoomAboveRangeRefused | custom_components/places/config_flow.py:49-51 | A submission with name, device tracker and map zoom 25 is refused, with `InvalidValue` on the map zoom field. |
| Host.RequiredOnlyAcceptedIff | custom_components/places/config_flow.py:41-54 | A submission of only the name and the device tracker passes the schema exactly when the defaults pass their own checks (`DefaultsPass`): the options and home zone are text, the provider is listed, the zoom lies in 1..20 and the flag is a boolean. |
| Host.OnlyRequiredFieldsCreateEntry | custom_components/places/config_flow.py:41-54 | With any defaults that pass their own checks, that submission creates an entry titled `Home`. The entry holds the two submitted values and every default: options, home zone, provider, the zoom as an integer and the flag. It holds no API key and no language. |

## Left out

- Home Assistant plumbing is not modelled: the `config_entries.ConfigFlow` base class, domain registration, `VERSION`, and the internals of `async_show_form` and `async_create_entry`. Only the outcome handed to them is modelled. The shown form always carries `DATA_SCHEMA`, so `FlowResult.ShowForm` does not repeat it.
- A `BaseException` that is not an `Exception`, for example `asyncio.CancelledError` when the await is cancelled, `KeyboardInterrupt` or `SystemExit`, escapes `async_step_user` and no form is shown. `ConfigFlow.Unexpected` stands only for `Exception` subclasses.
- Asynchrony and `hass` are left out. Awaiting the validator is modelled as applying a function to the submission.
- Logging of the unexpected exception is left out, and so are translations of labels and error codes. Neither affects the outcome.
- The commented-out host-length and hub connection checks in `validate_input` are left out, as they are not live code.
- The default values and the spellings of the keys other than `name` and `api_key` come from the integration's constants module, which is not part of this model. The defaults are a parameter (`PlacesSchema.Defaults`), and no proof relies on the zoom default being in range. The key spellings are assumed, and the proofs rely only on the keys being distinct.
- Python's `int()` on text is a parameter `parse` and is not spelled out. That covers whitespace, signs, underscores and non-ASCII digits. Floating-point values are not modelled, so `int(2.7) == 2` is outside the model.
- Voluptuous error messages and error paths are reduced to an error kind per key.
- How the host answers a refused submission is left out, beyond handing back the schema's errors.
- Multi-submission sessions are left out. Each call of the step is independent and keeps no state, so a session is a sequence of independent `Host.Submit` calls.
