/**
 * The slice of JSON the backend inspects after `json.loads`.  Parsing and
 * printing themselves are library code and stay outside the model: a parsed
 * document is given, never computed from text.
 */
module Json {
  import opened Wrappers

  /**
   * A JSON value as Python sees it once decoded: `None`, a string, or any other
   * value (number, boolean, list, object), of which only its truthiness, its
   * `str()` rendering and whether it can be a dict key matter to the code
   * being modelled (numbers and booleans are hashable, lists and objects are
   * not).
   */
  datatype Value = Null | Str(s: string) | Other(truthy: bool, rendering: string, hashable: bool)

  /** Python truthiness: `None` and `""` are falsy, other values carry their own. */
  predicate Truthy(v: Value) {
    match v
    case Null => false
    case Str(s) => s != ""
    case Other(t, _, _) => t
  }

  /** Python `str(v)`, as used by f-string interpolation. */
  function Show(v: Value): (r: string)
    ensures v.Str? ==> r == v.s
    ensures v.Null? ==> r == "None"
  {
    match v
    case Null => "None"
    case Str(s) => s
    case Other(_, text, _) => text
  }

  /** Whether `v` can be looked up in a dict: using a list or an object as a key raises `TypeError`. */
  predicate Hashable(v: Value) {
    !v.Other? || v.hashable
  }

  /** The result of `json.loads` on a text that parsed: an object, or some other value. */
  datatype Document = Object(fields: map<string, Value>) | NotObject

  /** `dict.get(key)`: the stored value, or `None` when the key is absent. */
  function Get(fields: map<string, Value>, key: string): (r: Value)
    ensures key !in fields ==> r == Null
    ensures key in fields ==> r == fields[key]
  {
    if key in fields then fields[key] else Null
  }
}
