/** Values shared by the whole model: optional values, and the values that the
 *  YAML configuration files (configs.yaml, scenes.yaml) hold once loaded. */
module Common {

  datatype Option<+T> = None | Some(value: T) {
    /** The value, or `default` when absent: Python's `d.get(key, default)`. */
    function GetOr(default: T): T {
      match this
      case Some(v) => v
      case None => default
    }
  }

  /** A configuration value as the YAML loader produces it (nested mappings are
   *  given their own datatypes where the program reads into them). */
  datatype Value =
    | Null
    | Flag(b: bool)
    | Number(x: real)
    | Text(s: string)
    | Names(items: seq<string>)
  {
    /** Python truthiness of the value. */
    predicate Truthy() {
      match this
      case Null => false
      case Flag(b) => b
      case Number(x) => x != 0.0
      case Text(s) => s != []
      case Names(items) => items != []
    }

    /** The value as a number, where Python would use it as one (a bool is an
     *  int in Python); any other value reads as `fallback`. */
    function NumberOr(fallback: real): real {
      match this
      case Number(x) => x
      case Flag(b) => if b then 1.0 else 0.0
      case _ => fallback
    }
  }

  /** `section.get(key, default)` on a mapping of configuration values. */
  function Lookup(section: map<string, Value>, key: string, default: Value): (v: Value)
    ensures key in section ==> v == section[key]
    ensures key !in section ==> v == default
  {
    if key in section then section[key] else default
  }

  /** Python's `min` of two numbers. */
  function Min(a: real, b: real): (m: real)
    ensures m <= a && m <= b
    ensures m == a || m == b
  {
    if a <= b then a else b
  }
}
