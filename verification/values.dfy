/** JavaScript values as the grouping helpers see them. Arguments, return
    values and thrown errors are opaque; the code only ever tells apart
    `undefined` and `null` (for the `??` fallback of `thisArg`) and reads
    group labels as strings. */
module Values {

  datatype Value =
    | Undefined
    | Null
    | Bool(b: bool)
    | Num(n: int)
    | Str(s: string)
    | Object(id: nat)
    | GlobalThis

  /** How a callback's promise (or a synchronous call) settles. */
  datatype Outcome = Returned(value: Value) | Threw(error: Value)

  /** The `this` a callback is invoked with: `thisArg ?? globalThis`. The
      nullish fallback applies to an explicit `null` as well as to an
      omitted (undefined) argument. */
  function BindThis(thisArg: Value): (ctx: Value)
    ensures ctx != Undefined && ctx != Null
    ensures thisArg != Undefined && thisArg != Null ==> ctx == thisArg
    ensures thisArg == Undefined || thisArg == Null ==> ctx == GlobalThis
  {
    if thisArg.Undefined? || thisArg.Null? then GlobalThis else thisArg
  }
}
