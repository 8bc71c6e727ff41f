/**
 * The dynamically typed values stored in the game's dictionaries.
 * Floating-point numbers are represented by exact reals: rounding is not modelled.
 */
module Values {

  datatype Value =
    | NoneValue
    | Bool(b: bool)
    | Int(i: int)
    | Float(x: real)
    | Str(s: string)
    | List(items: seq<Value>)
    | Dict(fields: map<string, Value>)

  /** `isinstance(v, (int, float))`; a Python bool is an int. */
  predicate IsNumber(v: Value) {
    v.Bool? || v.Int? || v.Float?
  }

  /** The numeric meaning of a number value. */
  function NumVal(v: Value): real
    requires IsNumber(v)
  {
    match v
    case Bool(b) => if b then 1.0 else 0.0
    case Int(i) => i as real
    case Float(x) => x
  }

  /** `v + d` for an int `d`: an int (or bool) operand yields an int, a float yields a float. */
  function AddInt(v: Value, d: int): (r: Value)
    requires IsNumber(v)
    ensures IsNumber(r)
    ensures NumVal(r) == NumVal(v) + d as real
    ensures r.Float? <==> v.Float?
  {
    match v
    case Bool(b) => Int((if b then 1 else 0) + d)
    case Int(i) => Int(i + d)
    case Float(x) => Float(x + d as real)
  }
}
