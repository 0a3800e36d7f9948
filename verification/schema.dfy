/** A mapping schema in the style of voluptuous: a table of field specs
    (required or optional with a default, plus a value check) and a total
    validator from a raw submission to either a normalised submission or a
    map of field-scoped errors. */
module Schema {
  import opened Values

  /** Whether a key must be submitted. Only an optional key can carry a
      default, so a required key has no default by construction. */
  datatype Presence = Required | Optional(default: Option<Value>) {
    function DefaultValue(): Option<Value> {
      match this
      case Required => None
      case Optional(d) => d
    }
  }

  /** The value check of a field: a type test (`str`, `bool`), membership in
      a fixed option list (`vol.In`), or integer coercion followed by an
      inclusive range (`vol.All(vol.Coerce(int), vol.Range(min, max))`). */
  datatype Check = IsStr | IsBool | OneOf(options: seq<string>) | IntInRange(min: int, max: int)

  datatype FieldSpec = FieldSpec(key: string, presence: Presence, check: Check)

  /** Why a key was refused: a required key absent, a value (submitted or
      defaulted) failing its check, or a key the schema does not declare. */
  datatype SchemaError = MissingRequired | InvalidValue | ExtraKey

  type Errors = map<string, SchemaError>

  /** What one field contributes to the normalised submission. */
  datatype FieldOutcome = Absent | Accepted(value: Value) | Rejected(error: SchemaError)

  /** Python's `int(v)`: integers pass, booleans become 0 or 1, strings go
      through `parse` (None when the text is not an integer literal), and
      anything else fails. */
  function CoerceInt(v: Value, parse: string -> Option<int>): (r: Option<int>)
    ensures r.None? <==> v.Null? || (v.Str? && parse(v.s).None?)
    ensures v.Int? ==> r == Some(v.i)
    ensures v.Bool? ==> r.Some? && 0 <= r.value <= 1 && (r.value == 1 <==> v.b)
    ensures v.Str? ==> r == parse(v.s)
  {
    match v
    case Int(i) => Some(i)
    case Bool(b) => Some(if b then 1 else 0)
    case Str(s) => parse(s)
    case Null => None
  }

  /** Applies a field's check to one value; None when the check refuses it. */
  function Admit(check: Check, v: Value, parse: string -> Option<int>): (r: Option<Value>)
    ensures check.IsStr? ==> (r.Some? <==> v.Str?)
    ensures check.IsBool? ==> (r.Some? <==> v.Bool?)
    ensures check.OneOf? ==> (r.Some? <==> v.Str? && v.s in check.options)
    ensures check.IntInRange? ==>
      (r.Some? <==> CoerceInt(v, parse).Some? && check.min <= CoerceInt(v, parse).value <= check.max)
    ensures r.Some? && !check.IntInRange? ==> r.value == v
    ensures r.Some? && check.IntInRange? ==> r.value == Int(CoerceInt(v, parse).value)
  {
    match check
    case IsStr => if v.Str? then Some(v) else None
    case IsBool => if v.Bool? then Some(v) else None
    case OneOf(options) => if v.Str? && v.s in options then Some(v) else None
    case IntInRange(lo, hi) =>
      match CoerceInt(v, parse)
      case Some(n) => if lo <= n <= hi then Some(Int(n)) else None
      case None => None
  }

  /** A value a check has produced passes the same check unchanged. */
  lemma AdmitIdempotent(check: Check, v: Value, parse: string -> Option<int>)
    requires Admit(check, v, parse).Some?
    ensures Admit(check, Admit(check, v, parse).value, parse) == Admit(check, v, parse)
  {
  }

  /** The value a field is checked against: the submitted one, else the
      default of an optional field, else nothing. */
  function Supplied(spec: FieldSpec, input: Submission): Option<Value> {
    if spec.key in input then Some(input[spec.key]) else spec.presence.DefaultValue()
  }

  /** Presence check, then default substitution, then the value check. */
  function CheckField(spec: FieldSpec, input: Submission, parse: string -> Option<int>): (r: FieldOutcome)
    ensures r == Rejected(MissingRequired) <==> spec.presence.Required? && spec.key !in input
    ensures r.Absent? <==> spec.key !in input && spec.presence == Optional(None)
    ensures r.Accepted? <==> Supplied(spec, input).Some? && Admit(spec.check, Supplied(spec, input).value, parse).Some?
    ensures r.Accepted? ==> Some(r.value) == Admit(spec.check, Supplied(spec, input).value, parse)
    ensures r == Rejected(InvalidValue) <==>
      Supplied(spec, input).Some? && Admit(spec.check, Supplied(spec, input).value, parse).None?
  {
    match Supplied(spec, input)
    case None => if spec.presence.Required? then Rejected(MissingRequired) else Absent
    case Some(v) =>
      match Admit(spec.check, v, parse)
      case Some(w) => Accepted(w)
      case None => Rejected(InvalidValue)
  }

  function Keys(schema: seq<FieldSpec>): set<string> {
    set i | 0 <= i < |schema| :: schema[i].key
  }

  /** Every key is declared once. */
  predicate UniqueKeys(schema: seq<FieldSpec>) {
    forall i, j | 0 <= i < j < |schema| :: schema[i].key != schema[j].key
  }

  lemma KeysOfTail(schema: seq<FieldSpec>)
    requires schema != []
    ensures Keys(schema) == {schema[0].key} + Keys(schema[1..])
  {
    forall k | k in Keys(schema) ensures k in {schema[0].key} + Keys(schema[1..]) {
      var i :| 0 <= i < |schema| && schema[i].key == k;
      if i > 0 {
        assert schema[1..][i - 1].key == k;
      }
    }
    forall k | k in Keys(schema[1..]) ensures k in Keys(schema) {
      var i :| 0 <= i < |schema[1..]| && schema[1..][i].key == k;
      assert schema[i + 1].key == k;
    }
  }

  /** The accepted values of all fields, keyed by field. */
  function Normalise(schema: seq<FieldSpec>, input: Submission, parse: string -> Option<int>): (out: Submission)
    ensures out.Keys <= Keys(schema)
    decreases |schema|
  {
    if schema == [] then map[]
    else
      KeysOfTail(schema);
      var rest := Normalise(schema[1..], input, parse);
      match CheckField(schema[0], input, parse)
      case Accepted(w) => rest[schema[0].key := w]
      case _ => rest
  }

  /** The normalised map holds exactly the accepted fields, each with its
      checked value, and nothing else. */
  lemma {:induction false} NormaliseFields(schema: seq<FieldSpec>, input: Submission, parse: string -> Option<int>)
    requires UniqueKeys(schema)
    ensures Normalise(schema, input, parse).Keys <= Keys(schema)
    ensures forall i | 0 <= i < |schema| ::
      schema[i].key in Normalise(schema, input, parse) <==> CheckField(schema[i], input, parse).Accepted?
    ensures forall i | 0 <= i < |schema| && schema[i].key in Normalise(schema, input, parse) ::
      Normalise(schema, input, parse)[schema[i].key] == CheckField(schema[i], input, parse).value
    decreases |schema|
  {
    if schema != [] {
      var tail := schema[1..];
      forall i | 1 <= i < |schema| ensures schema[i] == tail[i - 1] {
      }
      assert UniqueKeys(tail);
      KeysOfTail(schema);
      assert schema[0].key !in Keys(tail);
      NormaliseFields(tail, input, parse);
      var out := Normalise(schema, input, parse);
      forall i | 0 <= i < |schema|
        ensures schema[i].key in out <==> CheckField(schema[i], input, parse).Accepted?
        ensures schema[i].key in out ==> out[schema[i].key] == CheckField(schema[i], input, parse).value
      {
        if i > 0 {
          assert schema[i].key != schema[0].key;
          assert schema[i] == tail[i - 1];
        }
      }
    }
  }

  /** The errors of all rejected fields, keyed by field. */
  function FieldErrors(schema: seq<FieldSpec>, input: Submission, parse: string -> Option<int>): (errs: Errors)
    ensures errs.Keys <= Keys(schema)
    decreases |schema|
  {
    if schema == [] then map[]
    else
      KeysOfTail(schema);
      var rest := FieldErrors(schema[1..], input, parse);
      match CheckField(schema[0], input, parse)
      case Rejected(e) => rest[schema[0].key := e]
      case _ => rest
  }

  /** The field error map holds exactly the rejected fields, each with its
      error, and nothing else. */
  lemma {:induction false} FieldErrorsFields(schema: seq<FieldSpec>, input: Submission, parse: string -> Option<int>)
    requires UniqueKeys(schema)
    ensures FieldErrors(schema, input, parse).Keys <= Keys(schema)
    ensures forall i | 0 <= i < |schema| ::
      schema[i].key in FieldErrors(schema, input, parse) <==> CheckField(schema[i], input, parse).Rejected?
    ensures forall i | 0 <= i < |schema| && schema[i].key in FieldErrors(schema, input, parse) ::
      FieldErrors(schema, input, parse)[schema[i].key] == CheckField(schema[i], input, parse).error
    decreases |schema|
  {
    if schema != [] {
      var tail := schema[1..];
      forall i | 1 <= i < |schema| ensures schema[i] == tail[i - 1] {
      }
      assert UniqueKeys(tail);
      KeysOfTail(schema);
      assert schema[0].key !in Keys(tail);
      FieldErrorsFields(tail, input, parse);
      var errs := FieldErrors(schema, input, parse);
      forall i | 0 <= i < |schema|
        ensures schema[i].key in errs <==> CheckField(schema[i], input, parse).Rejected?
        ensures schema[i].key in errs ==> errs[schema[i].key] == CheckField(schema[i], input, parse).error
      {
        if i > 0 {
          assert schema[i].key != schema[0].key;
          assert schema[i] == tail[i - 1];
        }
      }
    }
  }

  /** Keys the schema does not declare (voluptuous's default PREVENT_EXTRA). */
  function ExtraKeyErrors(schema: seq<FieldSpec>, input: Submission): Errors {
    map k | k in input.Keys && k !in Keys(schema) :: ExtraKey
  }

  /** The fault one field has, stated without the validator's own steps:
      an absent required key is reported as missing (never as invalid), and
      a submitted or defaulted value the check refuses is invalid. */
  ghost function FieldFault(spec: FieldSpec, input: Submission, parse: string -> Option<int>): Option<SchemaError> {
    if spec.key !in input && spec.presence.Required? then Some(MissingRequired)
    else if Supplied(spec, input).Some? && Admit(spec.check, Supplied(spec, input).value, parse).None? then Some(InvalidValue)
    else None
  }

  /** `out` is an acceptable normalisation of `input`: no undeclared key,
      and every declared field is either absent from both (optional, no
      default) or holds the checked form of its submitted or default value. */
  ghost predicate FieldConforms(spec: FieldSpec, input: Submission, out: Submission, parse: string -> Option<int>) {
    match Supplied(spec, input)
    case None => spec.presence.Optional? && spec.key !in out
    case Some(v) => spec.key in out && Admit(spec.check, v, parse) == Some(out[spec.key])
  }

  ghost predicate Conforms(schema: seq<FieldSpec>, input: Submission, out: Submission, parse: string -> Option<int>) {
    && input.Keys <= Keys(schema)
    && out.Keys <= Keys(schema)
    && forall i {:trigger FieldConforms(schema[i], input, out, parse)} | 0 <= i < |schema| :: FieldConforms(schema[i], input, out, parse)
  }

  /** `errs` reports exactly the faults of `input`: every undeclared key as
      extra, and every declared field with its fault, if any. */
  ghost predicate Blames(schema: seq<FieldSpec>, input: Submission, errs: Errors, parse: string -> Option<int>) {
    && errs.Keys <= input.Keys + Keys(schema)
    && (forall k | k in input && k !in Keys(schema) :: k in errs && errs[k] == ExtraKey)
    && forall i {:trigger FieldFault(schema[i], input, parse)} | 0 <= i < |schema| ::
         FieldFault(schema[i], input, parse) == (if schema[i].key in errs then Some(errs[schema[i].key]) else None)
  }

  /** CheckField rejects a field exactly when it has a fault, and with that
      fault. */
  lemma RejectedIsFault(spec: FieldSpec, input: Submission, parse: string -> Option<int>)
    ensures CheckField(spec, input, parse).Rejected? <==> FieldFault(spec, input, parse).Some?
    ensures CheckField(spec, input, parse).Rejected? ==>
      CheckField(spec, input, parse).error == FieldFault(spec, input, parse).value
  {
  }

  /** A field CheckField does not reject conforms to any map that holds its
      accepted value, and nothing under its key when it is absent. */
  lemma UnrejectedConforms(spec: FieldSpec, input: Submission, out: Submission, parse: string -> Option<int>)
    requires !CheckField(spec, input, parse).Rejected?
    requires spec.key in out <==> CheckField(spec, input, parse).Accepted?
    requires spec.key in out ==> out[spec.key] == CheckField(spec, input, parse).value
    ensures FieldConforms(spec, input, out, parse)
  {
  }

  /** The pieces Validate is built from meet its contract: the combined
      error map is empty exactly when nothing is at fault, the normal form
      then conforms, and otherwise the errors blame exactly the faults. */
  lemma ValidateSound(schema: seq<FieldSpec>, input: Submission, parse: string -> Option<int>)
    requires UniqueKeys(schema)
    ensures var errs := ExtraKeyErrors(schema, input) + FieldErrors(schema, input, parse);
      && (errs == map[] <==> input.Keys <= Keys(schema) && forall i | 0 <= i < |schema| :: FieldFault(schema[i], input, parse).None?)
      && (errs == map[] ==> Conforms(schema, input, Normalise(schema, input, parse), parse))
      && (errs != map[] ==> Blames(schema, input, errs, parse))
  {
    var extra, fe := ExtraKeyErrors(schema, input), FieldErrors(schema, input, parse);
    var errs := extra + fe;
    FieldErrorsFields(schema, input, parse);
    assert extra.Keys == input.Keys - Keys(schema);
    forall i | 0 <= i < |schema|
      ensures schema[i].key in errs <==> FieldFault(schema[i], input, parse).Some?
      ensures schema[i].key in errs ==> errs[schema[i].key] == FieldFault(schema[i], input, parse).value
    {
      RejectedIsFault(schema[i], input, parse);
      assert schema[i].key in Keys(schema);
    }
    if errs == map[] {
      var out := Normalise(schema, input, parse);
      NormaliseFields(schema, input, parse);
      forall i | 0 <= i < |schema| ensures FieldConforms(schema[i], input, out, parse) {
        assert schema[i].key !in errs;
        RejectedIsFault(schema[i], input, parse);
        UnrejectedConforms(schema[i], input, out, parse);
      }
    } else {
      forall k | k in input && k !in Keys(schema) ensures k in errs && errs[k] == ExtraKey {
        assert k in extra;
        assert k !in fe;
      }
    }
  }

  /** Validates a whole submission against the schema. */
  function Validate(schema: seq<FieldSpec>, input: Submission, parse: string -> Option<int>): (r: Result<Submission, Errors>)
    requires UniqueKeys(schema)
    ensures r.Ok? <==> input.Keys <= Keys(schema) && forall i {:trigger FieldFault(schema[i], input, parse)} | 0 <= i < |schema| :: FieldFault(schema[i], input, parse).None?
    ensures r.Ok? ==> Conforms(schema, input, r.value, parse)
    ensures r.Err? ==> r.error != map[] && Blames(schema, input, r.error, parse)
  {
    ValidateSound(schema, input, parse);
    var errs := ExtraKeyErrors(schema, input) + FieldErrors(schema, input, parse);
    if errs == map[] then Ok(Normalise(schema, input, parse)) else Err(errs)
  }

  /** The errors of a validation, empty when it succeeded. */
  function ErrorsOf(r: Result<Submission, Errors>): Errors {
    if r.Err? then r.error else map[]
  }

  /** A field that conforms to some normalisation has no fault. */
  lemma ConformingFieldHasNoFault(spec: FieldSpec, input: Submission, out: Submission, parse: string -> Option<int>)
    requires FieldConforms(spec, input, out, parse)
    ensures FieldFault(spec, input, parse).None?
  {
  }

  /** At most one normalisation conforms to a given submission. */
  lemma ConformsUnique(schema: seq<FieldSpec>, input: Submission, o1: Submission, o2: Submission, parse: string -> Option<int>)
    requires Conforms(schema, input, o1, parse) && Conforms(schema, input, o2, parse)
    ensures o1 == o2
  {
    forall k | k in Keys(schema) ensures (k in o1 <==> k in o2) && (k in o1 ==> o1[k] == o2[k]) {
      var i :| 0 <= i < |schema| && schema[i].key == k;
      assert FieldConforms(schema[i], input, o1, parse);
      assert FieldConforms(schema[i], input, o2, parse);
    }
    assert o1.Keys == o2.Keys;
  }

  /** What Validate reports about one declared field: an error exactly when
      the field has a fault (and that fault), and otherwise, on success, the
      field's conforming value. */
  lemma FieldResult(schema: seq<FieldSpec>, input: Submission, i: int, parse: string -> Option<int>)
    requires UniqueKeys(schema) && 0 <= i < |schema|
    ensures var errs := ErrorsOf(Validate(schema, input, parse));
      && (schema[i].key in errs <==> FieldFault(schema[i], input, parse).Some?)
      && (schema[i].key in errs ==> errs[schema[i].key] == FieldFault(schema[i], input, parse).value)
    ensures Validate(schema, input, parse).Ok? ==> FieldConforms(schema[i], input, Validate(schema, input, parse).value, parse)
  {
  }

  /** On success, an omitted field is optional; it holds the checked form
      of its default when it declares one, and is absent otherwise. */
  lemma OmittedFieldResult(schema: seq<FieldSpec>, input: Submission, i: int, parse: string -> Option<int>)
    requires UniqueKeys(schema) && 0 <= i < |schema|
    requires schema[i].key !in input
    requires Validate(schema, input, parse).Ok?
    ensures schema[i].presence.Optional?
    ensures schema[i].key in Validate(schema, input, parse).value <==> schema[i].presence.default.Some?
    ensures schema[i].key in Validate(schema, input, parse).value ==>
      Some(Validate(schema, input, parse).value[schema[i].key]) == Admit(schema[i].check, schema[i].presence.default.value, parse)
  {
    FieldResult(schema, input, i, parse);
  }

  /** A field whose value is supplied (submitted or defaulted) is reported
      exactly when its check refuses that value, and then as invalid. */
  lemma SuppliedFieldResult(schema: seq<FieldSpec>, input: Submission, i: int, parse: string -> Option<int>)
    requires UniqueKeys(schema) && 0 <= i < |schema|
    requires Supplied(schema[i], input).Some?
    ensures var errs := ErrorsOf(Validate(schema, input, parse));
      && (schema[i].key !in errs <==> Admit(schema[i].check, Supplied(schema[i], input).value, parse).Some?)
      && (schema[i].key in errs ==> errs[schema[i].key] == InvalidValue)
  {
    FieldResult(schema, input, i, parse);
  }

  /** An undeclared key is always reported as extra. */
  lemma ExtraKeyResult(schema: seq<FieldSpec>, input: Submission, k: string, parse: string -> Option<int>)
    requires UniqueKeys(schema)
    requires k in input && k !in Keys(schema)
    ensures Validate(schema, input, parse).Err?
    ensures k in Validate(schema, input, parse).error && Validate(schema, input, parse).error[k] == ExtraKey
  {
  }

  /** Completeness: a conforming normalisation is the one Validate returns,
      so Validate returns Ok(out) exactly when `out` conforms. */
  lemma ValidateComplete(schema: seq<FieldSpec>, input: Submission, out: Submission, parse: string -> Option<int>)
    requires UniqueKeys(schema)
    requires Conforms(schema, input, out, parse)
    ensures Validate(schema, input, parse) == Ok(out)
  {
    forall i | 0 <= i < |schema| ensures FieldFault(schema[i], input, parse).None? {
      ConformingFieldHasNoFault(schema[i], input, out, parse);
    }
    var r := Validate(schema, input, parse);
    ConformsUnique(schema, input, r.value, out, parse);
  }

  /** Normalise and FieldErrors see a submission only through the outcome
      of each field. */
  lemma {:induction false} SameOutcomesSameFields(schema: seq<FieldSpec>, a: Submission, b: Submission, parse: string -> Option<int>)
    requires forall i | 0 <= i < |schema| :: CheckField(schema[i], a, parse) == CheckField(schema[i], b, parse)
    ensures Normalise(schema, a, parse) == Normalise(schema, b, parse)
    ensures FieldErrors(schema, a, parse) == FieldErrors(schema, b, parse)
    decreases |schema|
  {
    if schema != [] {
      assert CheckField(schema[0], a, parse) == CheckField(schema[0], b, parse);
      forall i | 0 <= i < |schema[1..]| ensures CheckField(schema[1..][i], a, parse) == CheckField(schema[1..][i], b, parse) {
        assert schema[1..][i] == schema[i + 1];
      }
      SameOutcomesSameFields(schema[1..], a, b, parse);
    }
  }

  /** Validation depends on a submission only through each field's outcome
      and its set of keys. */
  lemma SameOutcomesSameResult(schema: seq<FieldSpec>, a: Submission, b: Submission, parse: string -> Option<int>)
    requires UniqueKeys(schema)
    requires a.Keys - Keys(schema) == b.Keys - Keys(schema)
    requires forall i | 0 <= i < |schema| :: CheckField(schema[i], a, parse) == CheckField(schema[i], b, parse)
    ensures Validate(schema, a, parse) == Validate(schema, b, parse)
  {
    SameOutcomesSameFields(schema, a, b, parse);
    assert ExtraKeyErrors(schema, a).Keys == a.Keys - Keys(schema);
    assert ExtraKeyErrors(schema, a) == ExtraKeyErrors(schema, b);
  }

  /** Omitting an optional field that has a default validates exactly like
      submitting that default explicitly. */
  lemma DefaultIsExplicit(schema: seq<FieldSpec>, input: Submission, j: int, parse: string -> Option<int>)
    requires UniqueKeys(schema)
    requires 0 <= j < |schema| && schema[j].presence.Optional? && schema[j].presence.default.Some?
    requires schema[j].key !in input
    ensures Validate(schema, input, parse) == Validate(schema, input[schema[j].key := schema[j].presence.default.value], parse)
  {
    var filled := input[schema[j].key := schema[j].presence.default.value];
    forall i | 0 <= i < |schema| ensures CheckField(schema[i], input, parse) == CheckField(schema[i], filled, parse) {
      assert Supplied(schema[i], input) == Supplied(schema[i], filled);
    }
    assert schema[j].key in Keys(schema);
    SameOutcomesSameResult(schema, input, filled, parse);
  }

  /** A normalised submission is a fixed point: validating it again accepts
      it unchanged. */
  lemma NormalFormIsFixedPoint(schema: seq<FieldSpec>, input: Submission, parse: string -> Option<int>)
    requires UniqueKeys(schema)
    requires Validate(schema, input, parse).Ok?
    ensures Validate(schema, Validate(schema, input, parse).value, parse) == Validate(schema, input, parse)
  {
    var out := Validate(schema, input, parse).value;
    forall i | 0 <= i < |schema| ensures FieldConforms(schema[i], out, out, parse) {
      assert FieldConforms(schema[i], input, out, parse);
      if schema[i].key in out {
        AdmitIdempotent(schema[i].check, Supplied(schema[i], input).value, parse);
      }
    }
    ValidateComplete(schema, out, out, parse);
  }
}
