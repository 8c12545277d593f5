/** The result helpers of src/index.ts: building and inspecting Result
    objects, and `resultify`, which turns the outcome of a call into a Result
    (or into a promise of one when the call returned a promise).

    Calling the wrapped function is not modelled: its outcome is the input
    of `Resultify`, a normal completion with the value it returned or a throw
    with the value it threw.
 */
module Results {
  import opened JsValues
  import opened Promises

  /** `isPromise(thing)`: truthy and with a callable `then`. */
  predicate IsPromise(thing: JsValue)
    ensures IsPromise(thing) <==> thing.Promise?
  {
    Truthy(thing) && ThenIsCallable(thing)
  }

  /** `isResult(thing)`: truthy and carrying the Result marker. The marker
      alone decides it: no Result object is falsy, so the `thing &&` guard
      only stops `isResult` from looking into `null` and `undefined`. */
  predicate IsResult(thing: JsValue)
    ensures IsResult(thing) <==> thing.Res?
  {
    Truthy(thing) && HasResultMarker(thing)
  }

  /** `isOk(thing)`: a Result whose `ok` field is true. */
  predicate IsOk(thing: JsValue)
    ensures IsOk(thing) <==> thing.Res? && thing.result.ResultOk?
  {
    IsResult(thing) && thing.result.ResultOk?
  }

  /** `isFailed(thing)`: a Result whose `failed` field is true. */
  predicate IsFailed(thing: JsValue)
    ensures IsFailed(thing) <==> thing.Res? && thing.result.ResultError?
  {
    IsResult(thing) && thing.result.ResultError?
  }

  /** `ok(v)`: an Ok result carrying `v`, or carrying the payload of `v` when
      `v` is itself an Ok result; throws when `v` is a failed result. */
  function Ok(v: JsValue): (r: Outcome<Result>)
    ensures r.Thrown? <==> IsFailed(v)
    ensures r.Thrown? ==> r.exception == WrapFailedError
    ensures r.Normal? ==> IsOk(Res(r.value)) && !IsFailed(Res(r.value))
    ensures r.Normal? && !IsResult(v) ==> r.value.value == v
    ensures r.Normal? && IsResult(v) ==> r.value.value == v.result.value
  {
    if IsResult(v) then
      if IsFailed(v) then Thrown(WrapFailedError)
      else Normal(ResultOk(v.result.value))
    else
      Normal(ResultOk(v))
  }

  /** `fail(error)`: a failed result; a string is first turned into an
      `Error` with that message (by calling `fail` again). */
  function Fail(error: JsValue): (r: Result)
    decreases if IsString(error) then 1 else 0
    ensures r.ResultError?
    ensures IsFailed(Res(r)) && !IsOk(Res(r))
    ensures !IsString(r.error)
    ensures IsString(error) ==> r.error == ErrorObj(error.s)
    ensures !IsString(error) ==> r.error == error
  {
    if IsString(error) then Fail(ErrorObj(error.s))
    else ResultError(error)
  }

  /** `ok` passed as a callback: its completion with the Result object. */
  function OkCallback(v: JsValue): (r: Outcome<JsValue>)
    ensures r.Thrown? <==> IsFailed(v)
    ensures r.Thrown? ==> r.exception == WrapFailedError
    ensures r.Normal? ==> IsOk(r.value) && r.value.result == Ok(v).value
  {
    match Ok(v)
    case Normal(r) => Normal(Res(r))
    case Thrown(e) => Thrown(e)
  }

  /** `fail` passed as a callback: it always completes normally. */
  function FailCallback(e: JsValue): (r: Outcome<JsValue>)
    ensures r.Normal? && IsFailed(r.value)
    ensures r.value.result == Fail(e)
  {
    Normal(Res(Fail(e)))
  }

  /** The body of the `try` block in the wrapper, given the outcome of
      calling `fn`: a promise is chained through `then(ok).catch(fail)`, any
      other value goes through `ok`, which may throw. */
  function TryBlock(call: Outcome<JsValue>): (r: Outcome<JsValue>)
    ensures r.Thrown? <==> call.Thrown? || IsFailed(call.value)
    ensures call.Thrown? ==> r == call
    ensures call.Normal? && IsFailed(call.value) ==> r == Thrown(WrapFailedError)
    ensures r.Normal? ==> (r.value.Promise? <==> IsPromise(call.value))
    ensures r.Normal? && !IsPromise(call.value) ==> IsOk(r.value) && r.value.result == Ok(call.value).value
  {
    match call
    case Thrown(e) => Thrown(e)
    case Normal(value) =>
      if IsPromise(value) then
        Normal(Promise(Catch(Then(value.settlement, OkCallback), FailCallback)))
      else
        OkCallback(value)
  }

  /** The completion of the function returned by `resultify(fn)`, given the
      outcome of calling `fn`: whatever `try` throws is caught by `fail`. */
  function Resultify(call: Outcome<JsValue>): (r: Outcome<JsValue>)
    ensures r.Normal?
    ensures r.value.Promise? <==> call.Normal? && IsPromise(call.value)
    ensures !r.value.Promise? ==> IsResult(r.value)
    ensures r.value.Promise? ==> !Adopt(r.value.settlement).Rejected?
    ensures r.value.Promise? ==> Adopt(r.value.settlement).Resolved? ==> IsResult(Adopt(r.value.settlement).value)
  {
    match TryBlock(call)
    case Normal(x) => Normal(x)
    case Thrown(e) => Normal(Res(Fail(e)))
  }

  // ----- Inspection -----

  /** On the two shapes `ok` and `fail` build, `isOk` and `isFailed` never
      both hold and exactly one holds of a Result; neither holds of an
      unmarked value, falsy values included. */
  lemma OkFailedExclusive(thing: JsValue)
    ensures !(IsOk(thing) && IsFailed(thing))
    ensures IsResult(thing) <==> IsOk(thing) || IsFailed(thing)
    ensures !HasResultMarker(thing) ==> !IsResult(thing) && !IsOk(thing) && !IsFailed(thing)
    ensures !Truthy(thing) ==> !IsResult(thing)
  {
  }

  // ----- ok -----

  /** `ok(v)` of any value that is not a Result is an Ok result holding `v`
      itself, whether `v` is truthy or not. */
  lemma OkOfPlainValue(v: JsValue)
    requires !IsResult(v)
    ensures Ok(v) == Normal(ResultOk(v))
    ensures IsOk(Res(Ok(v).value)) && !IsFailed(Res(Ok(v).value))
  {
  }

  /** `ok` flattens an Ok result: wrapping what `ok` built gives the same
      result again, so `ok` is idempotent wherever it does not throw. */
  lemma OkIdempotent(v: JsValue)
    requires Ok(v).Normal?
    ensures Ok(Res(Ok(v).value)) == Ok(v)
  {
  }

  /** `ok` of a failed result throws the wrap error and never yields an Ok. */
  lemma OkOfFailedThrows(e: JsValue)
    ensures Ok(Res(Fail(e))) == Thrown(WrapFailedError)
  {
  }

  // ----- fail -----

  /** A string and the `Error` carrying it as message fail alike. */
  lemma FailPromotesString(s: string)
    ensures Fail(Str(s)) == Fail(ErrorObj(s)) == ResultError(ErrorObj(s))
  {
  }

  // ----- resultify, no promise involved -----

  /** A call that returns a value other than a promise or a failed result
      gives exactly what `ok` gives for that value. */
  lemma ResultifyReturned(v: JsValue)
    requires !IsPromise(v) && !IsFailed(v)
    ensures Ok(v).Normal?
    ensures Resultify(Normal(v)) == Normal(Res(Ok(v).value))
    ensures !IsResult(v) ==> Resultify(Normal(v)) == Normal(Res(ResultOk(v)))
  {
  }

  /** A call that throws gives `fail` of what it threw, strings promoted. */
  lemma ResultifyThrew(e: JsValue)
    ensures Resultify(Thrown(e)) == Normal(Res(Fail(e)))
    ensures IsString(e) ==> Resultify(Thrown(e)) == Normal(Res(ResultError(ErrorObj(e.s))))
  {
  }

  /** A call that returns a failed result: `ok` throws inside the `try`, the
      throw is caught, and the wrapper answers with the wrap error instead of
      the original failure. */
  lemma ResultifyReturnedFailed(v: JsValue)
    requires IsFailed(v)
    ensures Resultify(Normal(v)) == Normal(Res(ResultError(WrapFailedError)))
  {
  }

  // ----- resultify, the call returned a promise -----

  /** The promise the wrapper returns settles as the synchronous wrapper
      would have answered for the settled outcome: fulfilment with `v` as a
      call returning `v`, rejection with `e` as a call throwing `e`; a promise
      that never settles gives one that never settles. */
  lemma ResultifyAsync(s: Settlement)
    ensures Resultify(Normal(Promise(s))).value.Promise?
    ensures var settled := Adopt(Resultify(Normal(Promise(s))).value.settlement);
      && (Adopt(s).Resolved? ==> settled == Resolved(Resultify(Normal(Adopt(s).value)).value))
      && (Adopt(s).Rejected? ==> settled == Resolved(Resultify(Thrown(Adopt(s).reason)).value))
      && (Adopt(s).Pending? ==> settled == Pending)
  {
  }

  /** The four behaviours the test suite exercises: a function returning
      its argument, one throwing `Error('Some Error')`, one returning a promise
      fulfilled with its argument and one returning a promise rejected with
      `Error('some error')`; and `isOk`/`isFailed` on `ok(4)` and `fail(...)`. */
  lemma TestSuiteScenarios()
    ensures Resultify(Normal(Num(3))) == Normal(Res(ResultOk(Num(3))))
    ensures Resultify(Thrown(ErrorObj("Some Error"))) == Normal(Res(ResultError(ErrorObj("Some Error"))))
    ensures var p := Resultify(Normal(Promise(Resolved(Num(4))))).value;
      p.Promise? && Adopt(p.settlement) == Resolved(Res(Ok(Num(4)).value))
    ensures var p := Resultify(Normal(Promise(Rejected(ErrorObj("some error"))))).value;
      p.Promise? && Adopt(p.settlement) == Resolved(Res(Fail(Str("some error"))))
    ensures IsOk(Res(Ok(Num(4)).value)) && !IsFailed(Res(Ok(Num(4)).value))
    ensures !IsOk(Res(Fail(Str("some message")))) && IsFailed(Res(Fail(Str("some message"))))
  {
  }

  // ----- Ok results never nest -----

  /** No Ok result reachable from `v` holds another Result as payload. */
  predicate NoNestedOk(v: JsValue) {
    match v
    case Res(ResultOk(w)) => !HasResultMarker(w) && NoNestedOk(w)
    case Res(ResultError(e)) => NoNestedOk(e)
    case Promise(Resolved(w)) => NoNestedOk(w)
    case Promise(Rejected(e)) => NoNestedOk(e)
    case _ => true
  }

  /** Following promises keeps the property. */
  lemma {:induction false} AdoptKeepsNoNestedOk(s: Settlement)
    requires NoNestedOk(Promise(s))
    ensures NoNestedOk(Promise(Adopt(s)))
  {
    match s
    case Resolved(Promise(inner)) =>
      AdoptKeepsNoNestedOk(inner);
    case _ =>
  }

  /** Values built by `ok` and `fail` from values without nested Ok results
      have none either; in particular the payload of an Ok result that `ok`
      builds is never a Result, so one level of flattening is enough. */
  lemma OkFailKeepNoNestedOk(v: JsValue)
    requires NoNestedOk(v)
    ensures Ok(v).Normal? ==> NoNestedOk(Res(Ok(v).value)) && !IsResult(Ok(v).value.value)
    ensures NoNestedOk(Res(Fail(v)))
  {
  }

  /** The same holds of everything the wrapper returns, including the
      result its promise settles to. */
  lemma ResultifyKeepsNoNestedOk(call: Outcome<JsValue>)
    requires call.Normal? ==> NoNestedOk(call.value)
    requires call.Thrown? ==> NoNestedOk(call.exception)
    ensures NoNestedOk(Resultify(call).value)
  {
    if call.Normal? && IsPromise(call.value) {
      var s := call.value.settlement;
      AdoptKeepsNoNestedOk(s);
      match Adopt(s)
      case Resolved(v) =>
        OkFailKeepNoNestedOk(v);
      case Rejected(e) =>
        OkFailKeepNoNestedOk(e);
      case Pending =>
    } else if call.Normal? {
      OkFailKeepNoNestedOk(call.value);
    } else {
      OkFailKeepNoNestedOk(call.exception);
    }
  }
}
