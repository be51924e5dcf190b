/** Values that a loaded configuration document can hold, and the two ways
    the controller reads them. */
module Values {

  datatype Option<T> = None | Some(value: T)

  /** A scalar read from the YAML configuration: YAML `null`, a boolean,
      an integer or a string. */
  datatype Value = Null | Bool(b: bool) | Int(i: int) | Str(s: string)

  /** The controller's configuration dictionary. */
  type Config = map<string, Value>

  /** `config.get(key, None)`: a missing key reads as `null`. */
  function Lookup(cfg: Config, key: string): (v: Value)
  {
    if key in cfg then cfg[key] else Null
  }

  /** The integer a value stands for in integer addition. A boolean is an
      integer in Python (`True + 1 == 2`); `null` and strings are not, and
      adding them to an integer raises `TypeError`. */
  function AsInt(v: Value): (r: Option<int>)
  {
    match v
    case Int(i) => Some(i)
    case Bool(b) => Some(if b then 1 else 0)
    case _ => None
  }
}
