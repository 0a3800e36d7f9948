/** Values exchanged between the form renderer, the schema and the flow step. */
module Values {

  /** An optional value: a key that may be absent, a default that may not exist. */
  datatype Option<+T> = None | Some(value: T)

  /** Either a value or an error, in place of a raised exception. */
  datatype Result<+T, +E> = Ok(value: T) | Err(error: E)

  /** A raw form value: a `str`, an `int`, a `bool` or `None`. A JSON
      submission may also carry floats, lists and objects; floats are not
      modelled, and lists and objects are refused by every check of the form
      exactly as `Null` is, so `Null` stands for them. */
  datatype Value = Str(s: string) | Int(i: int) | Bool(b: bool) | Null

  /** A submitted (or normalised) form: field key to value. */
  type Submission = map<string, Value>
}
