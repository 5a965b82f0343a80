/** Values shared by every part of the model: JavaScript's absent values and numbers. */
module Common {

  /** An optional value; `None` stands for JavaScript's `null` and `undefined`. */
  datatype Option<+T> = None | Some(value: T)

  /** A JavaScript number as `parseFloat` can produce it. */
  datatype Number = NaN | Infinity(negative: bool) | Finite(value: real)
  {
    /** JavaScript truthiness of a number: NaN and (both) zeros are falsy. */
    predicate Truthy() {
      !NaN? && !(Finite? && value == 0.0)
    }
  }

  /** JavaScript truthiness of an optional string: absent and "" are falsy. */
  predicate Truthy(s: Option<string>) {
    s.Some? && s.value != ""
  }

  /** `s || null`: the string when it is truthy, otherwise absent. */
  function OrNull(s: Option<string>): (r: Option<string>)
    ensures r.Some? <==> Truthy(s)
    ensures r.Some? ==> r == s
  {
    if Truthy(s) then s else None
  }

  /** `s || fallback` for an optional string. */
  function OrElse(s: Option<string>, fallback: string): (r: string)
    ensures Truthy(s) ==> r == s.value
    ensures !Truthy(s) ==> r == fallback
  {
    if Truthy(s) then s.value else fallback
  }

  function Min(a: int, b: int): (m: int)
    ensures m <= a && m <= b && (m == a || m == b)
  {
    if a <= b then a else b
  }
}
