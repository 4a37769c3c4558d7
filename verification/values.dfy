/** The runtime-tunable key/value map that nodes read once per frame. Only the
    part a node relies on is modelled: a string key, a tagged value, and the
    conversion of a value to a boolean. */
module Values {

  datatype Option<T> = None | Some(value: T) {
    /** The carried value, or `default` when there is none. */
    function UnwrapOr(default: T): (r: T)
      ensures Some? ==> r == value
      ensures None? ==> r == default
    {
      match this
      case Some(v) => v
      case None => default
    }
  }

  /** A configuration value: a boolean, a number or a named enum choice. */
  datatype Value = Bool(b: bool) | Number(n: real) | Choice(name: string)

  type ValueMap = map<string, Value>

  /** `as_bool`: the boolean inside a `Bool`, nothing for any other value. */
  function AsBool(v: Value): (r: Option<bool>)
    ensures r.Some? <==> v.Bool?
    ensures r.Some? ==> r.value == v.b
  {
    if v.Bool? then Some(v.b) else None
  }

  /** `get`: the value stored under `key`, if any. */
  function Get(values: ValueMap, key: string): (r: Option<Value>)
    ensures r.Some? <==> key in values
    ensures r.Some? ==> r.value == values[key]
  {
    if key in values then Some(values[key]) else None
  }

  /** Reads a boolean switch: the stored value when it is a boolean, and
      `default` when the key is missing or holds something else. */
  function ReadBool(values: ValueMap, key: string, default: bool): (r: bool)
    ensures key in values && values[key].Bool? ==> r == values[key].b
    ensures !(key in values && values[key].Bool?) ==> r == default
  {
    AsBool(Get(values, key).UnwrapOr(Bool(default))).UnwrapOr(default)
  }
}
