/** The decoded JSON an AWS Lambda handler receives as its `event` argument,
    as the Python values the handler sees: strings, dictionaries keyed by
    strings, and every other value (numbers, lists, booleans, None). */
module JsonValue {

  /** A dictionary and a non-string scalar or list keep the text Python's
      `str()` gives them, which an f-string inserts; the model carries that
      text instead of computing it. */
  datatype Value =
    | Str(s: string)
    | Obj(fields: map<string, Value>, shown: string)
    | Other(shown: string)

  /** The text an f-string placeholder `{v}` inserts for v. */
  function Text(v: Value): string
  {
    match v
    case Str(s) => s
    case Obj(_, shown) => shown
    case Other(shown) => shown
  }
}
