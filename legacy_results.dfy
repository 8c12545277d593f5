/** The older copy of the helpers in index.ts. Its primitives are written
    the same way as those of src/index.ts; its `resultify` has no promise
    branch, so a returned promise is wrapped as an Ok payload unchanged.
 */
module LegacyResults {
  import opened JsValues
  import Results

  /** `isResult(thing)`: truthy and carrying the Result marker. */
  predicate IsResult(thing: JsValue)
    ensures IsResult(thing) <==> thing.Res?
  {
    Truthy(thing) && HasResultMarker(thing)
  }

  /** `isOk(thing)`: a Result whose `ok` field is true. */
  predicate IsOk(thing: JsValue)
    ensures IsOk(thing) <==> thing.Res? && thing.result.ResultOk?
  {
    IsResult(thing) && thing.result.ResultOk?
  }

  /** `isFailed(thing)`: a Result whose `failed` field is true. */
  predicate IsFailed(thing: JsValue)
    ensures IsFailed(thing) <==> thing.Res? && thing.result.ResultError?
  {
    IsResult(thing) && thing.result.ResultError?
  }

  /** `ok(v)`: flattens an Ok result, throws on a failed one, otherwise
      wraps `v` itself. */
  function Ok(v: JsValue): (r: Outcome<Result>)
    ensures r.Thrown? <==> IsFailed(v)
    ensures r.Thrown? ==> r.exception == WrapFailedError
    ensures r.Normal? ==> IsOk(Res(r.value)) && !IsFailed(Res(r.value))
    ensures r.Normal? ==> r.value.value == if IsResult(v) then v.result.value else v
  {
    if IsResult(v) then
      if IsFailed(v) then Thrown(WrapFailedError)
      else Normal(ResultOk(v.result.value))
    else
      Normal(ResultOk(v))
  }

  /** `fail(error)`: a failed result, a string promoted to an `Error`. */
  function Fail(error: JsValue): (r: Result)
    decreases if IsString(error) then 1 else 0
    ensures IsFailed(Res(r)) && !IsOk(Res(r))
    ensures r.error == if IsString(error) then ErrorObj(error.s) else error
  {
    if IsString(error) then Fail(ErrorObj(error.s))
    else ResultError(error)
  }

  /** The completion of the function returned by `resultify(fn)`, given the
      outcome of calling `fn`: `ok` of what it returned, or `fail` of what it
      or `ok` threw. */
  function Resultify(call: Outcome<JsValue>): (r: Outcome<JsValue>)
    ensures r.Normal? && IsResult(r.value)
    ensures IsOk(r.value) <==> call.Normal? && !IsFailed(call.value)
  {
    var body :=
      match call
      case Thrown(e) => Thrown(e)
      case Normal(value) =>
        match Ok(value)
        case Normal(res) => Normal(Res(res))
        case Thrown(e) => Thrown(e);
    match body
    case Normal(x) => Normal(x)
    case Thrown(e) => Normal(Res(Fail(e)))
  }

  /** The primitives of index.ts agree with those of src/index.ts. */
  lemma PrimitivesAgree(v: JsValue)
    ensures IsResult(v) == Results.IsResult(v)
    ensures IsOk(v) == Results.IsOk(v)
    ensures IsFailed(v) == Results.IsFailed(v)
    ensures Ok(v) == Results.Ok(v)
    ensures Fail(v) == Results.Fail(v)
  {
  }

  /** Off the promise path both wrappers answer alike. */
  lemma ResultifyAgreesWithoutPromise(call: Outcome<JsValue>)
    requires call.Normal? ==> !Results.IsPromise(call.value)
    ensures Resultify(call) == Results.Resultify(call)
  {
  }

  /** A returned promise becomes the payload of an Ok result as it is: the
      wrapper answers at once, and a later rejection is not turned into a
      failed result, where the src/index.ts wrapper answers with a promise
      that settles to the failed result. */
  lemma ResultifyWrapsPromise(s: Settlement)
    ensures Resultify(Normal(Promise(s))) == Normal(Res(ResultOk(Promise(s))))
    ensures Results.Resultify(Normal(Promise(s))).value.Promise?
  {
  }

  /** The wrapper never throws: a throw from the call or from `ok` becomes a
      failed result, strings promoted. */
  lemma ResultifyNeverThrows(call: Outcome<JsValue>)
    ensures call.Thrown? ==> Resultify(call) == Normal(Res(Fail(call.exception)))
    ensures call.Normal? && IsFailed(call.value) ==> Resultify(call) == Normal(Res(ResultError(WrapFailedError)))
    ensures call.Normal? && !IsFailed(call.value) ==> Resultify(call) == Normal(Res(Ok(call.value).value))
  {
  }
}
