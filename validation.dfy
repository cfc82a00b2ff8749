/**
 * The argument checks of PromiseEvent (`validation(input).main` and
 * `validation(input).all`). JavaScript reflection (`typeof`, `Array.isArray`,
 * `instanceof Promise`, `Function.length`) is replaced by an abstract
 * descriptor of the argument. A check either returns a boolean or throws the
 * coded error of the first check that fails.
 */
module Validation {

  /**
   * An element of an array handed to `all`: a promise, any other value, or a
   * hole of a sparse array (`[p, , q]`, `new Array(2)`), which `every` and
   * `forEach` skip.
   */
  datatype Item = PromiseItem | OtherItem | Hole

  /** What the checks can observe of a JavaScript argument. */
  datatype Value =
    | Undefined                    // `undefined`
    | OtherFalsy                   // null, false, 0, NaN, ""
    | Function(arity: nat)         // a function declaring `arity` parameters
    | Array(items: seq<Item>)      // an array (always truthy)
    | OtherTruthy                  // any other truthy value (object, string, number)

  predicate Truthy(v: Value) {
    !(v.Undefined? || v.OtherFalsy?)
  }

  /** Either the getter returned a boolean, or `error(code)` threw. */
  datatype Checked = Ok(value: bool) | Err(code: nat)

  /**
   * `validation(input).main`: a falsy argument is quietly refused, a truthy
   * non-function throws 10, a function declaring fewer than two parameters
   * throws 11, and every function declaring two or more is accepted.
   */
  function Main(input: Value): (r: Checked)
    ensures r == Ok(false) <==> !Truthy(input)
    ensures r == Err(10) <==> Truthy(input) && !input.Function?
    ensures r == Err(11) <==> input.Function? && input.arity < 2
    ensures r == Ok(true) <==> input.Function? && input.arity >= 2
    ensures r.Err? ==> r.code in {10, 11}
  {
    if !Truthy(input) then Ok(false)
    else if !input.Function? then Err(10)
    else if input.arity < 2 then Err(11)
    else Ok(true)
  }

  /**
   * `input.every(item => item instanceof Promise)`: walks the items in order,
   * skipping holes, and stops at the first element that is not a promise.
   */
  predicate EveryPromise(items: seq<Item>)
    ensures EveryPromise(items) <==> forall k | 0 <= k < |items| :: items[k] != OtherItem
  {
    if items == [] then true
    else if items[0].Hole? then EveryPromise(items[1..])
    else items[0].PromiseItem? && EveryPromise(items[1..])
  }

  /**
   * `validation(input).all`: the checks run in a fixed order and the first
   * one that fails decides the code: missing (20), not an array (21),
   * empty (22), an element that is not a promise (23).
   */
  function All(input: Value): (r: Checked)
    ensures r.Ok? ==> r.value
    ensures r == Err(20) <==> input.Undefined?
    ensures r == Err(21) <==> !input.Undefined? && !input.Array?
    ensures r == Err(22) <==> input == Array([])
    ensures r == Err(23) <==> input.Array? && input.items != [] && exists k | 0 <= k < |input.items| :: input.items[k] == OtherItem
    ensures r == Ok(true) <==> input.Array? && input.items != [] && EveryPromise(input.items)
  {
    if input.Undefined? then Err(20)
    else if !input.Array? then Err(21)
    else if |input.items| == 0 then Err(22)
    else if !EveryPromise(input.items) then Err(23)
    else Ok(true)
  }
}
