/** The field table `DATA_SCHEMA` of the places setup form and what it
    promises about a submission. */
module PlacesSchema {
  import opened Values
  import opened Schema

  // Field keys. `name` and `api_key` are Home Assistant's CONF_NAME and
  // CONF_API_KEY; the other spellings belong to the integration's constants
  // module, which is not part of this model: only their distinctness matters.
  const NAME: string := "name"
  const DEVICETRACKER_ID: string := "devicetracker_id"
  const API_KEY: string := "api_key"
  const OPTIONS: string := "options"
  const HOME_ZONE: string := "home_zone"
  const MAP_PROVIDER: string := "map_provider"
  const MAP_ZOOM: string := "map_zoom"
  const LANGUAGE: string := "language"
  const EXTENDED_ATTR: string := "extended_attr"

  const MAP_PROVIDER_OPTIONS: seq<string> := ["apple", "google", "osm"]
  const MAP_ZOOM_MIN: int := 1
  const MAP_ZOOM_MAX: int := 20

  /** The default values of the optional fields. They are configuration
      constants defined outside this form, so they are parameters here; the
      zoom default is already `int(DEFAULT_MAP_ZOOM)`, and nothing assumes it
      lies within the zoom range. */
  datatype Defaults = Defaults(option: Value, homeZone: Value, mapProvider: Value, mapZoom: int, extendedAttr: Value)

  /** Defaults that pass their own checks: text for the options and the
      home zone, a listed map provider, a zoom within range and a boolean
      extended-attributes flag. */
  predicate DefaultsPass(d: Defaults) {
    && d.option.Str?
    && d.homeZone.Str?
    && d.mapProvider.Str? && d.mapProvider.s in MAP_PROVIDER_OPTIONS
    && MAP_ZOOM_MIN <= d.mapZoom <= MAP_ZOOM_MAX
    && d.extendedAttr.Bool?
  }

  /** DATA_SCHEMA, in declaration order. */
  function DataSchema(d: Defaults): (s: seq<FieldSpec>)
    ensures UniqueKeys(s)
  {
    [ FieldSpec(NAME, Required, IsStr),
      FieldSpec(DEVICETRACKER_ID, Required, IsStr),
      FieldSpec(API_KEY, Optional(None), IsStr),
      FieldSpec(OPTIONS, Optional(Some(d.option)), IsStr),
      FieldSpec(HOME_ZONE, Optional(Some(d.homeZone)), IsStr),
      FieldSpec(MAP_PROVIDER, Optional(Some(d.mapProvider)), OneOf(MAP_PROVIDER_OPTIONS)),
      FieldSpec(MAP_ZOOM, Optional(Some(Int(d.mapZoom))), IntInRange(MAP_ZOOM_MIN, MAP_ZOOM_MAX)),
      FieldSpec(LANGUAGE, Optional(None), IsStr),
      FieldSpec(EXTENDED_ATTR, Optional(Some(d.extendedAttr)), IsBool) ]
  }

  /** The keys DATA_SCHEMA declares. */
  const DeclaredKeys: set<string> := {NAME, DEVICETRACKER_ID, API_KEY, OPTIONS, HOME_ZONE, MAP_PROVIDER, MAP_ZOOM, LANGUAGE, EXTENDED_ATTR}

  lemma DataSchemaKeys(d: Defaults)
    ensures Keys(DataSchema(d)) == DeclaredKeys
  {
    var s := DataSchema(d);
    assert s[0].key == NAME && s[1].key == DEVICETRACKER_ID && s[2].key == API_KEY;
    assert s[3].key == OPTIONS && s[4].key == HOME_ZONE && s[5].key == MAP_PROVIDER;
    assert s[6].key == MAP_ZOOM && s[7].key == LANGUAGE && s[8].key == EXTENDED_ATTR;
    assert DeclaredKeys <= Keys(s);
  }

  /** Applies DATA_SCHEMA to a raw submission. */
  function ApplyDataSchema(d: Defaults, input: Submission, parse: string -> Option<int>): (r: Result<Submission, Errors>)
    ensures r.Ok? ==> input.Keys <= DeclaredKeys && r.value.Keys <= DeclaredKeys
    ensures r.Err? ==> r.error != map[]
  {
    DataSchemaKeys(d);
    Validate(DataSchema(d), input, parse)
  }

  /** A submission lacking the name or the device-tracker id is rejected,
      with the missing key reported as missing. */
  lemma MissingRequiredRejected(d: Defaults, input: Submission, parse: string -> Option<int>)
    requires NAME !in input || DEVICETRACKER_ID !in input
    ensures ApplyDataSchema(d, input, parse).Err?
    ensures NAME !in input ==>
      NAME in ApplyDataSchema(d, input, parse).error && ApplyDataSchema(d, input, parse).error[NAME] == MissingRequired
    ensures DEVICETRACKER_ID !in input ==>
      DEVICETRACKER_ID in ApplyDataSchema(d, input, parse).error
      && ApplyDataSchema(d, input, parse).error[DEVICETRACKER_ID] == MissingRequired
  {
    var s := DataSchema(d);
    assert s[0] == FieldSpec(NAME, Required, IsStr);
    assert s[1] == FieldSpec(DEVICETRACKER_ID, Required, IsStr);
    FieldResult(s, input, 0, parse);
    FieldResult(s, input, 1, parse);
  }

  /** On success the name and device-tracker id were submitted and are kept
      verbatim. */
  lemma RequiredFieldsKept(d: Defaults, input: Submission, parse: string -> Option<int>)
    requires ApplyDataSchema(d, input, parse).Ok?
    ensures NAME in input && NAME in ApplyDataSchema(d, input, parse).value
    ensures ApplyDataSchema(d, input, parse).value[NAME] == input[NAME]
    ensures DEVICETRACKER_ID in input && DEVICETRACKER_ID in ApplyDataSchema(d, input, parse).value
    ensures ApplyDataSchema(d, input, parse).value[DEVICETRACKER_ID] == input[DEVICETRACKER_ID]
    ensures input[NAME].Str? && input[DEVICETRACKER_ID].Str?
  {
    var s := DataSchema(d);
    assert s[0] == FieldSpec(NAME, Required, IsStr);
    assert s[1] == FieldSpec(DEVICETRACKER_ID, Required, IsStr);
    FieldResult(s, input, 0, parse);
    FieldResult(s, input, 1, parse);
  }

  /** On success, the API key is in the output exactly when it was
      submitted: it has no default. */
  lemma ApiKeyOnlyIfSubmitted(d: Defaults, input: Submission, parse: string -> Option<int>)
    requires ApplyDataSchema(d, input, parse).Ok?
    ensures API_KEY in ApplyDataSchema(d, input, parse).value <==> API_KEY in input
  {
    var s := DataSchema(d);
    assert s[2] == FieldSpec(API_KEY, Optional(None), IsStr);
    FieldResult(s, input, 2, parse);
  }

  /** On success, the language is in the output exactly when it was
      submitted: it has no default. */
  lemma LanguageOnlyIfSubmitted(d: Defaults, input: Submission, parse: string -> Option<int>)
    requires ApplyDataSchema(d, input, parse).Ok?
    ensures LANGUAGE in ApplyDataSchema(d, input, parse).value <==> LANGUAGE in input
  {
    var s := DataSchema(d);
    assert s[7] == FieldSpec(LANGUAGE, Optional(None), IsStr);
    FieldResult(s, input, 7, parse);
  }

  /** On success, an omitted options holds its default. */
  lemma OptionsDefaulted(d: Defaults, input: Submission, parse: string -> Option<int>)
    requires ApplyDataSchema(d, input, parse).Ok?
    ensures OPTIONS !in input ==>
      OPTIONS in ApplyDataSchema(d, input, parse).value && ApplyDataSchema(d, input, parse).value[OPTIONS] == d.option
  {
    if OPTIONS !in input {
      var s := DataSchema(d);
      assert s[3] == FieldSpec(OPTIONS, Optional(Some(d.option)), IsStr);
      OmittedFieldResult(s, input, 3, parse);
    }
  }

  /** On success, an omitted home zone holds its default. */
  lemma HomeZoneDefaulted(d: Defaults, input: Submission, parse: string -> Option<int>)
    requires ApplyDataSchema(d, input, parse).Ok?
    ensures HOME_ZONE !in input ==>
      HOME_ZONE in ApplyDataSchema(d, input, parse).value && ApplyDataSchema(d, input, parse).value[HOME_ZONE] == d.homeZone
  {
    if HOME_ZONE !in input {
      var s := DataSchema(d);
      assert s[4] == FieldSpec(HOME_ZONE, Optional(Some(d.homeZone)), IsStr);
      OmittedFieldResult(s, input, 4, parse);
    }
  }

  /** On success, an omitted map provider holds its default. */
  lemma MapProviderDefaulted(d: Defaults, input: Submission, parse: string -> Option<int>)
    requires ApplyDataSchema(d, input, parse).Ok?
    ensures MAP_PROVIDER !in input ==>
      MAP_PROVIDER in ApplyDataSchema(d, input, parse).value && ApplyDataSchema(d, input, parse).value[MAP_PROVIDER] == d.mapProvider
  {
    if MAP_PROVIDER !in input {
      var s := DataSchema(d);
      assert s[5] == FieldSpec(MAP_PROVIDER, Optional(Some(d.mapProvider)), OneOf(MAP_PROVIDER_OPTIONS));
      OmittedFieldResult(s, input, 5, parse);
    }
  }

  /** On success, an omitted map zoom holds its default. */
  lemma MapZoomDefaulted(d: Defaults, input: Submission, parse: string -> Option<int>)
    requires ApplyDataSchema(d, input, parse).Ok?
    ensures MAP_ZOOM !in input ==>
      MAP_ZOOM in ApplyDataSchema(d, input, parse).value && ApplyDataSchema(d, input, parse).value[MAP_ZOOM] == Int(d.mapZoom)
  {
    if MAP_ZOOM !in input {
      var s := DataSchema(d);
      assert s[6] == FieldSpec(MAP_ZOOM, Optional(Some(Int(d.mapZoom))), IntInRange(MAP_ZOOM_MIN, MAP_ZOOM_MAX));
      OmittedFieldResult(s, input, 6, parse);
    }
  }

  /** On success, an omitted extended-attributes flag holds its default. */
  lemma ExtendedAttrDefaulted(d: Defaults, input: Submission, parse: string -> Option<int>)
    requires ApplyDataSchema(d, input, parse).Ok?
    ensures EXTENDED_ATTR !in input ==>
      EXTENDED_ATTR in ApplyDataSchema(d, input, parse).value && ApplyDataSchema(d, input, parse).value[EXTENDED_ATTR] == d.extendedAttr
  {
    if EXTENDED_ATTR !in input {
      var s := DataSchema(d);
      assert s[8] == FieldSpec(EXTENDED_ATTR, Optional(Some(d.extendedAttr)), IsBool);
      OmittedFieldResult(s, input, 8, parse);
    }
  }

  /** The value a field with a default is checked against: the submitted
      one, else the default (Schema.Supplied for such a field). */
  function SubmittedOr(input: Submission, key: string, default: Value): Value {
    if key in input then input[key] else default
  }

  /** The map provider is accepted exactly when it is one of the listed
      providers, compared as exact strings, and is then kept unchanged. */
  lemma MapProviderAcceptedIff(d: Defaults, input: Submission, parse: string -> Option<int>)
    ensures MAP_PROVIDER !in ErrorsOf(ApplyDataSchema(d, input, parse)) <==>
      SubmittedOr(input, MAP_PROVIDER, d.mapProvider).Str? && SubmittedOr(input, MAP_PROVIDER, d.mapProvider).s in MAP_PROVIDER_OPTIONS
    ensures MAP_PROVIDER in ErrorsOf(ApplyDataSchema(d, input, parse)) ==>
      ErrorsOf(ApplyDataSchema(d, input, parse))[MAP_PROVIDER] == InvalidValue
    ensures ApplyDataSchema(d, input, parse).Ok? ==>
      MAP_PROVIDER in ApplyDataSchema(d, input, parse).value
      && ApplyDataSchema(d, input, parse).value[MAP_PROVIDER] == SubmittedOr(input, MAP_PROVIDER, d.mapProvider)
  {
    var s := DataSchema(d);
    assert s[5] == FieldSpec(MAP_PROVIDER, Optional(Some(d.mapProvider)), OneOf(MAP_PROVIDER_OPTIONS));
    assert Supplied(s[5], input) == Some(SubmittedOr(input, MAP_PROVIDER, d.mapProvider));
    SuppliedFieldResult(s, input, 5, parse);
    FieldResult(s, input, 5, parse);
  }

  /** The map zoom is accepted exactly when it coerces to an integer n with
      1 <= n <= 20, and is then stored as n. */
  lemma MapZoomAcceptedIff(d: Defaults, input: Submission, parse: string -> Option<int>)
    ensures MAP_ZOOM !in ErrorsOf(ApplyDataSchema(d, input, parse)) <==>
      && CoerceInt(SubmittedOr(input, MAP_ZOOM, Int(d.mapZoom)), parse).Some?
      && MAP_ZOOM_MIN <= CoerceInt(SubmittedOr(input, MAP_ZOOM, Int(d.mapZoom)), parse).value <= MAP_ZOOM_MAX
    ensures MAP_ZOOM in ErrorsOf(ApplyDataSchema(d, input, parse)) ==>
      ErrorsOf(ApplyDataSchema(d, input, parse))[MAP_ZOOM] == InvalidValue
  {
    var s := DataSchema(d);
    assert s[6] == FieldSpec(MAP_ZOOM, Optional(Some(Int(d.mapZoom))), IntInRange(MAP_ZOOM_MIN, MAP_ZOOM_MAX));
    var v := SubmittedOr(input, MAP_ZOOM, Int(d.mapZoom));
    assert Supplied(s[6], input) == Some(v);
    SuppliedFieldResult(s, input, 6, parse);
    var c := CoerceInt(v, parse);
    if c.Some? && MAP_ZOOM_MIN <= c.value <= MAP_ZOOM_MAX {
      assert Admit(s[6].check, v, parse) == Some(Int(c.value));
    } else {
      assert Admit(s[6].check, v, parse) == None;
    }
  }

  /** On success the map zoom is stored as the integer it coerced to. */
  lemma MapZoomStoredAsInt(d: Defaults, input: Submission, parse: string -> Option<int>)
    requires ApplyDataSchema(d, input, parse).Ok?
    ensures MAP_ZOOM in ApplyDataSchema(d, input, parse).value
    ensures CoerceInt(SubmittedOr(input, MAP_ZOOM, Int(d.mapZoom)), parse).Some?
    ensures ApplyDataSchema(d, input, parse).value[MAP_ZOOM] == Int(CoerceInt(SubmittedOr(input, MAP_ZOOM, Int(d.mapZoom)), parse).value)
  {
    var s := DataSchema(d);
    assert s[6] == FieldSpec(MAP_ZOOM, Optional(Some(Int(d.mapZoom))), IntInRange(MAP_ZOOM_MIN, MAP_ZOOM_MAX));
    assert Supplied(s[6], input) == Some(SubmittedOr(input, MAP_ZOOM, Int(d.mapZoom)));
    FieldResult(s, input, 6, parse);
  }

  /** The extended-attributes flag (submitted, else its default) is accepted
      exactly when it is a boolean. */
  lemma ExtendedAttrAcceptedIff(d: Defaults, input: Submission, parse: string -> Option<int>)
    ensures EXTENDED_ATTR !in ErrorsOf(ApplyDataSchema(d, input, parse)) <==> SubmittedOr(input, EXTENDED_ATTR, d.extendedAttr).Bool?
  {
    var s := DataSchema(d);
    assert s[8] == FieldSpec(EXTENDED_ATTR, Optional(Some(d.extendedAttr)), IsBool);
    FieldResult(s, input, 8, parse);
  }

  /** A key DATA_SCHEMA does not declare is rejected as extra. */
  lemma UnknownKeyRejected(d: Defaults, input: Submission, k: string, parse: string -> Option<int>)
    requires k in input
    requires k !in DeclaredKeys
    ensures ApplyDataSchema(d, input, parse).Err?
    ensures k in ApplyDataSchema(d, input, parse).error && ApplyDataSchema(d, input, parse).error[k] == ExtraKey
  {
    DataSchemaKeys(d);
    ExtraKeyResult(DataSchema(d), input, k, parse);
  }
  /** Omitting a field that declares a default validates exactly like
      submitting the default explicitly. */
  lemma OmittedEqualsExplicitDefault(d: Defaults, input: Submission, parse: string -> Option<int>)
    ensures OPTIONS !in input ==>
      ApplyDataSchema(d, input, parse) == ApplyDataSchema(d, input[OPTIONS := d.option], parse)
    ensures HOME_ZONE !in input ==>
      ApplyDataSchema(d, input, parse) == ApplyDataSchema(d, input[HOME_ZONE := d.homeZone], parse)
    ensures MAP_PROVIDER !in input ==>
      ApplyDataSchema(d, input, parse) == ApplyDataSchema(d, input[MAP_PROVIDER := d.mapProvider], parse)
    ensures MAP_ZOOM !in input ==>
      ApplyDataSchema(d, input, parse) == ApplyDataSchema(d, input[MAP_ZOOM := Int(d.mapZoom)], parse)
    ensures EXTENDED_ATTR !in input ==>
      ApplyDataSchema(d, input, parse) == ApplyDataSchema(d, input[EXTENDED_ATTR := d.extendedAttr], parse)
  {
    var s := DataSchema(d);
    if OPTIONS !in input {
      assert s[3] == FieldSpec(OPTIONS, Optional(Some(d.option)), IsStr);
      DefaultIsExplicit(s, input, 3, parse);
    }
    if HOME_ZONE !in input {
      assert s[4] == FieldSpec(HOME_ZONE, Optional(Some(d.homeZone)), IsStr);
      DefaultIsExplicit(s, input, 4, parse);
    }
    if MAP_PROVIDER !in input {
      assert s[5] == FieldSpec(MAP_PROVIDER, Optional(Some(d.mapProvider)), OneOf(MAP_PROVIDER_OPTIONS));
      DefaultIsExplicit(s, input, 5, parse);
    }
    if MAP_ZOOM !in input {
      assert s[6] == FieldSpec(MAP_ZOOM, Optional(Some(Int(d.mapZoom))), IntInRange(MAP_ZOOM_MIN, MAP_ZOOM_MAX));
      DefaultIsExplicit(s, input, 6, parse);
    }
    if EXTENDED_ATTR !in input {
      assert s[8] == FieldSpec(EXTENDED_ATTR, Optional(Some(d.extendedAttr)), IsBool);
      DefaultIsExplicit(s, input, 8, parse);
    }
  }

  /** Validating a normalised submission again accepts it unchanged. */
  lemma NormalisedIsStable(d: Defaults, input: Submission, parse: string -> Option<int>)
    requires ApplyDataSchema(d, input, parse).Ok?
    ensures ApplyDataSchema(d, ApplyDataSchema(d, input, parse).value, parse) == ApplyDataSchema(d, input, parse)
  {
    NormalFormIsFixedPoint(DataSchema(d), input, parse);
  }
}
