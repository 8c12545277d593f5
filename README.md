# resultify, modelled in Dafny

The `resultify` library represents the outcome of a computation as a Result
object. An Ok result is `{ value, ok: true, failed: false }` and a failed
result is `{ error, ok: false, failed: true }`. Both carry the exported
`SymbolResult` marker. The library also provides an adapter: `resultify(fn)` returns a
function whose calls never throw. A call answers with `ok` of what `fn`
returned, or `fail` of what it threw. When `fn` returns a promise, the
answer is a promise of such a Result.

The model has four modules:

- `JsValues` (js_values.dfy) holds the JavaScript values the helpers tell
  apart: `undefined`, `null`, booleans, integers, strings, `Error` objects,
  other objects, native promises (given by how they settle) and marked Result
  objects. It also holds truthiness and the `Outcome` of a call, which is a
  normal completion or a throw.
- `Promises` (promises.dfy) holds the settled state of native promises.
  A promise resolved with a promise follows it (adoption). `then` and
  `catch` run their handlers, and a throwing handler rejects the derived
  promise.
- `Results` (results.dfy) models src/index.ts: `isPromise`, `isResult`,
  `isOk`, `isFailed`, `ok`, `fail` and `resultify` with its promise branch.
- `LegacyResults` (legacy_results.dfy) models the older copy index.ts. Its
  primitives are the same, and its `resultify` has no promise branch.

Calling the wrapped function is modelled by its outcome: `Normal(v)` when
it returns `v`, `Thrown(e)` when it throws `e`. `Resultify` maps that outcome
to the completion of the wrapper, and its first postcondition says that the
completion is always normal: the wrapper never throws. The Result marker is
the `Res` constructor, whose two shapes are the objects `ok` and `fail`
build. The symbol is exported, so a caller can also build a marked object by
hand; such objects are not modelled (see "## Left out").

Two behaviours of the code are easy to miss, and the model makes both
explicit:

- `ok` runs inside the `try` block. So a wrapped function that returns a
  failed result does not make the wrapper throw. The wrapper answers with a
  failed result whose error is `Error('Cannot wrap a failed result as ok')`,
  and the original failure is lost.
- `fail` promotes a thrown string to an `Error`. A thrown string therefore
  reaches the caller as an `Error` carrying that message. Other thrown values
  are stored unchanged; only strings are promoted (src/index.ts:47-48).

## Model

| member | source | states |
|---|---|---|
| `Results.Ok` | src/index.ts:33-42 | throws exactly when given a failed result, and the exception is the wrap error; otherwise it builds a result with `ok` true and `failed` false, whose payload is the argument, or the payload of the argument when that is an Ok result |
| `Results.Fail` | src/index.ts:44-51 | always builds a result with `failed` true and `ok` false; a string becomes `Error(string)`, any other value is stored unchanged, and the stored error is never a string |
| `Results.Resultify` | src/index.ts:71-83 | the wrapper never throws; it answers with a promise exactly when the call returned a promise (truthy with a callable `then`) and otherwise with a Result; its promise never rejects and, once fulfilled, holds a Result |
| `Results.IsPromise` | src/index.ts:3-5 | `isPromise` (truthy, with a callable `then`) holds exactly of promises: no falsy value, Result, `Error` or plain object is taken for one |
| `Results.IsResult` | src/index.ts:21-23 | `isResult` holds exactly of marked values; the truthiness guard never hides a Result |
| `Results.IsOk` | src/index.ts:25-27 | `isOk` holds exactly of marked values whose `ok` field is true |
| `Results.IsFailed` | src/index.ts:29-31 | `isFailed` holds exactly of marked values whose `failed` field is true |
| `Results.OkCallback` | src/index.ts:76 | `ok` used as the `then` callback throws the wrap error exactly on a failed result and otherwise completes with the Ok result `ok` builds |
| `Results.FailCallback` | src/index.ts:76 | `fail` used as the `catch` callback always completes normally, with the failed result `fail` builds |
| `Results.TryBlock` | src/index.ts:73-78 | the `try` body throws exactly when the call threw (the same value) or returned a failed result (the wrap error); it returns a promise exactly when the call returned one, and otherwise the Ok result of `ok` |
| `Results.OkFailedExclusive` | src/index.ts:21-31 | `isOk` and `isFailed` exclude each other, one of them holds of every Result, and neither holds of an unmarked or a falsy value; stated of the two shapes `ok` and `fail` build |
| `Results.OkOfPlainValue` | src/index.ts:33-41 | for a value that is not a Result, falsy ones included, `ok` gives `ok` true, `failed` false and that value as payload |
| `Results.OkIdempotent` | src/index.ts:35-39 | wrapping an Ok result again with `ok` gives the same result, so `ok` is idempotent where it does not throw |
| `Results.OkOfFailedThrows` | src/index.ts:36-38 | `ok` of any failed result throws `Error('Cannot wrap a failed result as ok')` and yields no Ok |
| `Results.FailPromotesString` | src/index.ts:46-50 | `fail(s)` of a string and `fail(new Error(s))` give the same failed result, carrying `Error(s)` |
| `Results.ResultifyReturned` | src/index.ts:72-78 | a call returning a value that is neither a promise nor a failed result is answered with what `ok` gives for it; a non-Result value is wrapped as is |
| `Results.ResultifyThrew` | src/index.ts:79-81 | a call that throws `e` is answered with `fail(e)`; a thrown string arrives as an `Error` with that message |
| `Results.ResultifyReturnedFailed` | src/index.ts:73-80 | a call returning a failed result is answered with a failed result carrying the wrap error, because the throw from `ok` is caught |
| `Results.ResultifyAsync` | src/index.ts:75-76 | the returned promise settles to what the wrapper answers for the settled outcome: fulfilment with `v` as if the call returned `v`, rejection with `e` as if it threw `e`; a promise that never settles gives one that never settles |
| `Results.TestSuiteScenarios` | src/index.test.ts:7-37 | the four wrapped functions of the test suite and the `isOk`/`isFailed` checks on `ok(4)` and `fail('some message')` give the results the tests expect |
| `Results.AdoptKeepsNoNestedOk` | src/index.ts:76 | following the promises a promise was resolved with never creates an Ok result that holds a Result |
| `Results.OkFailKeepNoNestedOk` | src/index.ts:33-50 | from values without nested Ok results, `ok` and `fail` build none; the payload of an Ok result `ok` builds is never a Result, so flattening one level is enough |
| `Results.ResultifyKeepsNoNestedOk` | src/index.ts:72-82 | everything the wrapper answers, including what its promise settles to, is free of nested Ok results when the call's outcome is |
| `Promises.Adopt` | src/index.ts:75-76 | the state a promise ends in after following every promise it was resolved with is never fulfilment with a thenable, and a promise not resolved with a thenable is left as it is |
| `JsValues.FalsyValues` | src/index.ts:22 | the values the `thing &&` guard of `isResult` stops at are exactly `undefined`, `null`, `false`, `0` and `""` |
| `LegacyResults.IsResult` | index.ts:17-19 | `isResult` holds exactly of marked values |
| `LegacyResults.IsOk` | index.ts:21-23 | `isOk` holds exactly of marked values whose `ok` field is true |
| `LegacyResults.IsFailed` | index.ts:25-27 | `isFailed` holds exactly of marked values whose `failed` field is true |
| `LegacyResults.Ok` | index.ts:29-38 | throws the wrap error exactly on a failed result; otherwise `ok` true, `failed` false, with the argument or the flattened payload of an Ok result as payload |
| `LegacyResults.Fail` | index.ts:40-47 | builds a result with `failed` true and `ok` false whose error is `Error(s)` for a string `s` and the argument otherwise |
| `LegacyResults.Resultify` | index.ts:57-66 | the wrapper never throws and always answers with a Result; that Result is Ok exactly when the call returned something other than a failed result |
| `LegacyResults.PrimitivesAgree` | index.ts:17-47 | `isResult`, `isOk`, `isFailed`, `ok` and `fail` of index.ts agree with those of src/index.ts on every value |
| `LegacyResults.ResultifyAgreesWithoutPromise` | index.ts:57-66 | when the call returns no promise, the index.ts and src/index.ts wrappers answer alike |
| `LegacyResults.ResultifyWrapsPromise` | index.ts:60-61 | a returned promise becomes the Ok payload unchanged, even one that will reject; the src/index.ts wrapper answers with a promise instead |
| `LegacyResults.ResultifyNeverThrows` | index.ts:58-65 | a throw from the call becomes `fail` of the thrown value; a returned failed result becomes a failed result with the wrap error; any other value becomes `ok` of it |

## Left out

- Scheduling: when promises settle, microtask order and cancellation are not modelled. Only the state a promise finally reaches is modelled, and a promise that never settles is `Pending`.
- Custom thenables: an object whose `then` is a function but which does not behave like a native promise is not modelled. Among the modelled values, only native promises have a callable `then`.
- Symbol identity: each of the two files creates its own `Symbol('Result')`, so in JavaScript a result from one copy is not a result to the other. The two copies are alternative versions of the package and one marker stands for both.
- The truthiness guard: `thing && ...` in `isResult` and `isPromise` returns the falsy value itself rather than `false`. Here these functions are predicates.
- Numbers are integers. `NaN`, `-0`, `BigInt` and boxed `String` objects are left out.
- `Error` objects are compared by message. Object identity, stack traces and error subclasses are left out.
- The TypeScript overloads, generic parameters and the `Fn`/`ResultFn` interfaces are typing only.
- Forwarding of the arguments to `fn`, and `fn` itself, are represented by the outcome of the call.
- Hand-built marked objects: `SymbolResult` is exported (src/index.ts:1, index.ts:1), so a caller can build `{ [SymbolResult]: true, ok: true, failed: true }`, on which `isOk` and `isFailed` both hold, or `{ [SymbolResult]: true }`, on which neither holds and `ok` returns an Ok with an `undefined` payload; object spread copies the symbol too. Only the two shapes `ok` and `fail` build are modelled, so `OkFailedExclusive` and the `IsResult`/`IsOk`/`IsFailed` contracts are about those shapes.
