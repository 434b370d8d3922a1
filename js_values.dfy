/** The few JavaScript values the Home component inspects, and JavaScript's
    notion of truthiness, which decides every branch the component takes. */
module JsValues {

  /** The conventional optional value. */
  datatype Option<+T> = None | Some(value: T)

  /** A value read out of parsed JSON. `Undefined` is what reading a missing
      property yields; `Composite` stands for any object or array, which
      JavaScript always treats as truthy. JSON has no NaN, so a number is a
      plain real. */
  datatype JsValue =
    | Undefined
    | Null
    | Bool(b: bool)
    | Num(n: real)
    | Str(s: string)
    | Composite

  /** JavaScript's ToBoolean: `undefined`, `null`, `false`, `0` and `""` are
      falsy, everything else is truthy. */
  predicate Truthy(v: JsValue): (r: bool)
    ensures !r <==> v in {Undefined, Null, Bool(false), Num(0.0), Str("")}
  {
    match v
    case Undefined => false
    case Null => false
    case Bool(b) => b
    case Num(n) => n != 0.0
    case Str(s) => s != ""
    case Composite => true
  }
}
