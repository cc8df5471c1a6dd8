/** Shared value types: the optional wrapper, the submission record stored in
    the `interest_submissions` table, and the fields of the interest form. */
module Records {

  datatype Option<+T> = None | Some(value: T)

  /** A category column as the browser receives it: a string, a JSON null, or
      no property at all. */
  datatype FieldValue = Text(s: string) | Null | Absent

  /** The property name a value becomes when it is used as an object key
      (`acc[item.watch_model]`): null becomes "null" and a missing property
      becomes "undefined", so those records share a bucket with the
      literal strings. */
  function PropertyKey(v: FieldValue): (k: string)
    ensures v.Text? ==> k == v.s
    ensures k == "null" <==> v == Null || v == Text("null")
    ensures k == "undefined" <==> v == Absent || v == Text("undefined")
  {
    match v
    case Text(s) => s
    case Null => "null"
    case Absent => "undefined"
  }

  /** One row of `interest_submissions`; `createdAt` is milliseconds since
      the epoch. */
  datatype Submission = Submission(
    name: string,
    email: string,
    watchModel: FieldValue,
    topFeature: FieldValue,
    message: string,
    createdAt: int)

  /** The values of the interest form's controls. */
  datatype FormFields = FormFields(
    name: string,
    email: string,
    watchModel: string,
    topFeature: string,
    message: string)
}
