/** JavaScript values as the plugin receives them from its caller. */
module Values {

  datatype Option<+T> = None | Some(value: T)

  /** A JavaScript value. Numbers are IEEE doubles in the source; here they are
      reals (NaN and the infinities, which the validator refuses anyway, are not
      represented). A function is known by an identity and by its own
      properties (a JavaScript function can carry any); the plugin never calls
      one. An object is its own properties; reading a property holding
      `undefined` gives the same as reading a missing one, but the key is still
      one of the object's keys. */
  datatype Value =
    | Undefined
    | Null
    | Bool(b: bool)
    | Num(n: real)
    | Str(s: string)
    | Func(id: nat, own: map<string, Value>)
    | Arr(items: seq<Value>)
    | Obj(props: map<string, Value>)

  /** Property read: a missing property reads as `undefined`. */
  function Get(props: map<string, Value>, key: string): Value {
    if key in props then props[key] else Undefined
  }

  /** Every key of the object is one of `allowed`, whatever it holds: the
      unknown-key rule walks the object's keys, so a key holding `undefined`
      counts too. */
  predicate OnlyKeys(props: map<string, Value>, allowed: set<string>) {
    forall k :: k in props ==> k in allowed
  }

  /** `Number.MAX_SAFE_INTEGER`, 2^53 - 1. */
  const MaxSafeInteger: int := 0x1F_FFFF_FFFF_FFFF

  /** An integral number that is exactly representable as a double and its
      neighbours, as the validation library's integer rule demands. */
  predicate IsSafeInteger(x: real) {
    x == x.Floor as real && -MaxSafeInteger as real <= x <= MaxSafeInteger as real
  }
}
