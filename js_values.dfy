/** The slice of JavaScript's value universe the result helpers touch.

    A Result object is an immutable record carrying the Result symbol as a
    marker. The marked objects modelled are the two shapes `ok` and `fail`
    build, written with the `Res` constructor; an object a caller assembles by
    hand with the exported symbol is not modelled. A native promise is
    represented by the way it eventually settles.
 */
module JsValues {

  /** A JavaScript value as far as the helpers can tell values apart. */
  datatype JsValue =
    | Undefined
    | Null
    | Bool(b: bool)
    | Num(n: int)
    | Str(s: string)
    /** `new Error(message)` */
    | ErrorObj(message: string)
    /** any other object or function, without a callable `then` member */
    | Obj(id: nat)
    /** a native promise, given by how it settles */
    | Promise(settlement: Settlement)
    /** an object carrying the Result marker */
    | Res(result: Result)

  /** The state a promise eventually reaches. `Resolved` with a promise means
      the promise was resolved with that other promise and follows it. */
  datatype Settlement =
    | Pending
    | Resolved(value: JsValue)
    | Rejected(reason: JsValue)

  /** The two shapes of a Result object: `{ value, ok: true, failed: false }`
      and `{ error, ok: false, failed: true }`. The `ok` and `failed` fields are
      the discriminators `ResultOk?` and `ResultError?`. */
  datatype Result =
    | ResultOk(value: JsValue)
    | ResultError(error: JsValue)

  /** How a JavaScript expression or call completes: with a value, or by
      throwing an exception (any value can be thrown). */
  datatype Outcome<+T> =
    | Normal(value: T)
    | Thrown(exception: JsValue)

  /** JavaScript truthiness: `undefined`, `null`, `false`, `0` and `""` are
      falsy, every object is truthy. */
  predicate Truthy(v: JsValue) {
    match v
    case Undefined => false
    case Null => false
    case Bool(b) => b
    case Num(n) => n != 0
    case Str(s) => s != ""
    case _ => true
  }

  /** `typeof v.then === 'function'`: among the modelled values only a
      promise has a callable `then`. */
  predicate ThenIsCallable(v: JsValue) {
    v.Promise?
  }

  /** `v[SymbolResult] === true` for the exported Result marker. */
  predicate HasResultMarker(v: JsValue) {
    v.Res?
  }

  /** `typeof v === 'string'` */
  predicate IsString(v: JsValue) {
    v.Str?
  }

  /** The message of the error `ok` throws when asked to wrap a failed result. */
  const WrapFailedMessage: string := "Cannot wrap a failed result as ok"

  /** `new Error('Cannot wrap a failed result as ok')` */
  const WrapFailedError: JsValue := ErrorObj(WrapFailedMessage)

  /** Exactly the falsy values are the ones listed by the language. */
  lemma FalsyValues(v: JsValue)
    ensures !Truthy(v) <==> v in {Undefined, Null, Bool(false), Num(0), Str("")}
  {
  }
}
