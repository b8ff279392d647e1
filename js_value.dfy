/** JavaScript values as the binding layer sees them, and the error it can raise. */
module JsValue {

  /** Identity of an object owned by the external data-store library (a store, a cursor, a locale). */
  type StoreId = nat

  /**
   * The values that flow through props, stores and selectors. Numbers are
   * integers here; `Fn` stands for a bound method, named by the property it
   * was installed under.
   */
  datatype Value =
    | Undefined
    | Null
    | Bool(b: bool)
    | Num(n: int)
    | Str(s: string)
    | Arr(elems: seq<Value>)
    | Obj(props: map<string, Value>)
    | Store(id: StoreId)
    | Fn(name: string)

  /** JavaScript truthiness (`if (v)`, `v || w`). */
  predicate Truthy(v: Value) {
    !(v.Undefined? || v.Null? || v == Bool(false) || v == Num(0) || v == Str(""))
  }

  /** Loose equality with null (`v == null`, `v == undefined`). */
  predicate Nullish(v: Value) {
    v.Undefined? || v.Null?
  }

  /** Reading `v[key]` from a plain data value; anything but an object answers `undefined`. */
  function Member(v: Value, key: string): Value {
    if v.Obj? && key in v.props then v.props[key] else Undefined
  }

  /** The one exception the modelled code raises: calling a method on null or a non-store. */
  datatype Error = TypeError

  datatype Result<T> = Ok(value: T) | Err(error: Error)

  datatype Option<T> = None | Some(value: T)
}
