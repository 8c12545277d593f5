/** Native promise settlement, as far as `value.then(ok).catch(fail)` needs it.

    Only the state a promise finally reaches is modelled, not when it gets
    there: a promise resolved with another promise follows that promise
    (adoption), `then` runs its handler on the fulfilment value and `catch`
    runs its handler on the rejection reason; a handler that throws rejects
    the derived promise.
 */
module Promises {
  import opened JsValues

  /** The value a promise can be fulfilled with is never a thenable. */
  predicate Final(s: Settlement) {
    s.Resolved? ==> !ThenIsCallable(s.value)
  }

  /** The state a promise ends in once it has followed every promise it was
      resolved with. */
  function Adopt(s: Settlement): (r: Settlement)
    ensures Final(r)
    ensures Final(s) ==> r == s
  {
    match s
    case Resolved(Promise(inner)) => Adopt(inner)
    case _ => s
  }

  /** The state of a promise derived from a completion of a handler: a
      normal completion resolves it, a throw rejects it. */
  function Complete(o: Outcome<JsValue>): (r: Settlement)
  {
    match o
    case Normal(v) => Resolved(v)
    case Thrown(e) => Rejected(e)
  }

  /** `p.then(onFulfilled)`: the state of the promise it returns. */
  function Then(s: Settlement, onFulfilled: JsValue -> Outcome<JsValue>): (r: Settlement)
  {
    match Adopt(s)
    case Resolved(v) => Complete(onFulfilled(v))
    case other => other
  }

  /** `p.catch(onRejected)`: the state of the promise it returns. */
  function Catch(s: Settlement, onRejected: JsValue -> Outcome<JsValue>): (r: Settlement)
  {
    match Adopt(s)
    case Rejected(e) => Complete(onRejected(e))
    case other => other
  }
}
