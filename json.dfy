/**
 * A decoded JSON document as Python's `json` module hands it over, and the
 * outcome of the subscripts the detector applies to it.
 */
module Json {

  /**
   * Objects become dicts (a later duplicate key wins, so a map is enough),
   * arrays become lists, and integers and floats are both numbers.
   */
  datatype Json =
    | JNull
    | JBool(b: bool)
    | JNum(n: real)
    | JStr(s: string)
    | JArr(items: seq<Json>)
    | JObj(fields: map<string, Json>)

  /**
   * How a Python expression ends: with a value, with an exception the detector's
   * `except` clauses catch (KeyError, IndexError), or with one they do not (TypeError).
   */
  datatype Eval<T> = Ok(value: T) | Caught | Uncaught

  /** `v[k]` for a string key: only a dict can be indexed by a string. */
  function Key(v: Json, k: string): (r: Eval<Json>)
    ensures r.Ok? <==> v.JObj? && k in v.fields
    ensures r.Ok? ==> r.value == v.fields[k]
    ensures r.Caught? <==> v.JObj? && k !in v.fields
  {
    match v
    case JObj(m) => if k in m then Ok(m[k]) else Caught  // KeyError
    case _ => Uncaught  // TypeError: list, str, number, bool and None reject a str index
  }

  /**
   * `v[0]`: a non-empty list gives its first element and a non-empty string its
   * first character; an empty list or string (IndexError) and any dict (KeyError)
   * are caught; a number, bool or None raises TypeError.
   */
  function First(v: Json): (r: Eval<Json>)
    ensures r.Ok? <==> (v.JArr? && |v.items| > 0) || (v.JStr? && |v.s| > 0)
    ensures r.Ok? && v.JArr? ==> r.value == v.items[0]
    ensures r.Ok? && v.JStr? ==> r.value == JStr([v.s[0]])
    ensures r.Uncaught? <==> v.JNull? || v.JBool? || v.JNum?
  {
    match v
    case JArr(xs) => if |xs| > 0 then Ok(xs[0]) else Caught  // IndexError
    case JObj(_) => Caught  // KeyError: decoded JSON keys are strings, never the int 0
    case JStr(s) => if |s| > 0 then Ok(JStr([s[0]])) else Caught  // IndexError
    case _ => Uncaught  // TypeError: number, bool and None are not subscriptable
  }
}
