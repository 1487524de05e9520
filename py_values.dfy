/** The Python values the inventory plugin handles: option values and decoded JSON. */
module PyValues {

  /**
   * A value the plugin stores in its option table. `Null` is Python's `None`
   * (an unset environment variable, or a config key whose value is empty);
   * `NonStr` is any other non-string value read from the config file (an
   * integer, a list, ...), carried with the text `str()` gives for it.
   */
  datatype Value = Null | Str(text: string) | NonStr(shown: string)

  /** The text an f-string inserts for the value, that is `str(v)`. */
  function Show(v: Value): string {
    match v
    case Null => "None"
    case Str(s) => s
    case NonStr(shown) => shown
  }

  /** `isinstance(v, str) and len(v) >= 1` */
  predicate IsNonEmptyStr(v: Value) {
    v.Str? && |v.text| >= 1
  }

  /**
   * A decoded JSON document as `response.json()` returns it. Numbers are
   * kept as integers: the plugin never looks at their value, only at their
   * kind.
   */
  datatype Json =
    | JNull
    | JBool(b: bool)
    | JNum(n: int)
    | JStr(text: string)
    | JArr(items: seq<Json>)
    | JObj(fields: map<string, Json>)
}
