/** JavaScript values as the dialog steps see them. */
module Js {

  datatype Option<+T> = None | Some(value: T)

  /**
   * A result handed from one waterfall step to the next: a text prompt yields a
   * string, a confirm prompt a boolean, a number prompt a number, and a step
   * that receives nothing sees `undefined`. Numbers are modelled as integers.
   */
  datatype Value = Undefined | Bool(b: bool) | Num(n: int) | Str(s: string)

  /** JavaScript truthiness, the test made by `if (step.result)`. */
  predicate Truthy(v: Value)
  {
    match v
    case Undefined => false
    case Bool(b) => b
    case Num(n) => n != 0
    case Str(s) => s != ""
  }

  /** Reading a property that was never assigned yields `undefined`. */
  function OrUndefined(slot: Option<Value>): (v: Value)
    ensures slot.None? ==> v == Undefined
    ensures slot.Some? ==> v == slot.value
  {
    match slot
    case None => Undefined
    case Some(x) => x
  }
}
