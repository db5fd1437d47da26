/**
 * What `json.load` yields for one file, as far as the modelled code looks at it:
 * text that is not JSON, a JSON value that is not an object, or an object whose
 * values are strings.
 */
module JsonDoc {

  datatype JsonText = Malformed | NonObject | Object(fields: map<string, string>)

  /** Python's `d.get(key, default)` on a dictionary. */
  function GetOr(fields: map<string, string>, key: string, default: string): (r: string)
    ensures key in fields ==> r == fields[key]
    ensures key !in fields ==> r == default
  {
    if key in fields then fields[key] else default
  }
}
