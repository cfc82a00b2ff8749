# PromiseEvent.js — a Dafny model of its bookkeeping

PromiseEvent.js exposes promises through events. `PromiseEvent(func)` checks an
executor and turns the settlement of its one promise into a `resolve` or
`reject` event. `all(promisesArray)` checks an array of promises and returns a
batch aggregator. The aggregator counts settlements in `progress`. It records
values in `results` and failures in `errors`. For each settlement it dispatches
`progress`, then `resolve` or `reject`, then `finish` once every promise has
settled.

This project models that bookkeeping:

- `errors.dfy` (module `Errors`): the message table of `error(code)` and the
  message it throws, `"[Code <code>] <text>"`. It proves that the code can be
  read back from the message, so different codes give different messages.
- `validation.dfy` (module `Validation`): the `main` and `all` getters of
  `validation(input)`. An argument is an abstract descriptor (`Value`) instead
  of a JavaScript value. A throw is the result `Err(code)`.
- `batch.dfy` (module `Batch`): the aggregator.
  - A settlement is a pure step `Settle` on a `State`, made of `total`,
    `progress`, `results`, `errors` and the log of dispatched events.
  - `Run` applies settlements in any order the caller chooses.
  - The lemmas prove what the whole batch guarantees.
  - The class `Aggregator` performs the same step in place, with its settle
    methods. Each method is proved equal to `Settle`.
- `promise_event.dfy` (module `PromiseEvent`): the two entry points and the
  single-task bridge (class `Bridge`).
- `options.dfy`: an `Option` datatype.

The message for code 11 says the function "does not have two arguments"
(PromiseEvent.js:54). The check itself, `input.length < 2`
(PromiseEvent.js:23), accepts every function that declares two or more
parameters. The model follows the check (`Validation.Main`).

A sparse array (`[p, , q]`) passes the `all` checks, because `every` skips its
holes, and `total` counts the holes. `forEach` also skips them, so no callback
is attached there: `progress` never reaches `total` and `finish` is never
dispatched (`PromiseEvent.SparseBatchNeverFinishes`).

Each result slot is three-valued: `Pending` (a hole of the JavaScript array),
`Value(v)`, or `Null` (the `null` written by a failure, kept apart from a
fulfilment value that happens to be `null`). `errors` is a map from
index to reason.

## Model

| member | source | states |
|---|---|---|
| `Errors.Description` | PromiseEvent.js:51-61 | codes 10, 11, 20, 21, 22 and 23 never get the fallback text "Unknown error."; every other code gets it |
| `Errors.Decimal` | PromiseEvent.js:61 | the code is printed as a non-empty string of decimal digits |
| `Errors.ParseDecimalInvertsDecimal` | PromiseEvent.js:61 | reading the printed digits back gives the code |
| `Errors.LeadingDigits` | PromiseEvent.js:61 | the reader used to prove that the message carries its code: the digit run at the start of a text is a prefix made of digits and ends at the first non-digit |
| `Errors.Render` | PromiseEvent.js:61 | the thrown message starts with "[Code " and ends with the text it is given |
| `Errors.CodeOfRender` | PromiseEvent.js:61 | whatever the text, the code can be read back from the rendered message |
| `Errors.CodeOf` | PromiseEvent.js:61 | the reader used to prove that the message carries its code: a code is read only from a message that starts with "[Code " |
| `Errors.ErrorMessage` | PromiseEvent.js:50-61 | the message `error(code)` throws carries its code, which reads back from the text, and ends with the table text for that code |
| `Errors.ErrorMessageInjective` | PromiseEvent.js:50-61 | two different codes never throw the same message |
| `Validation.Main` | PromiseEvent.js:17-28 | a falsy argument returns false without throwing; a truthy non-function throws 10; a function declaring fewer than two parameters throws 11; every function declaring two or more returns true |
| `Validation.EveryPromise` | PromiseEvent.js:42 | `every` skips holes: the array passes exactly when none of its elements is a non-promise |
| `Validation.All` | PromiseEvent.js:29-47 | checks run in order and the first failure decides the code: undefined 20, not an array 21, empty 22, a non-promise item 23; otherwise true, and never false |
| `Batch.SlotOf` | PromiseEvent.js:124-136 | a settled slot is no longer pending; it holds the value when fulfilled and `null` when rejected |
| `Batch.ItemEvent` | PromiseEvent.js:127-140 | a fulfilled settlement dispatches `resolve` with its index and value as detail; a rejected one dispatches `reject` with its index and reason |
| `Batch.Settled` | PromiseEvent.js:125 | the number of settled slots never exceeds the number of slots, and equals it exactly when no slot is pending |
| `Batch.Initial` | PromiseEvent.js:73-76 | a fresh aggregator is consistent: nothing settled, `progress` 0, no errors, no events, every slot pending |
| `Batch.StepEvents` | PromiseEvent.js:126-131 | one settlement dispatches `progress` with the new count, then `resolve` or `reject`, then `finish` exactly when the count has reached `total` |
| `Batch.Settle` | PromiseEvent.js:121-147 | one settlement of a pending slot keeps the invariant; `progress` grows by exactly 1 and stays at most `total`; only that slot is written; `errors` is unchanged on success and gains that index on failure; the log is extended by the step's events |
| `Batch.ErrorsFollowNulls` | PromiseEvent.js:134-138 | after a settlement, `errors` still has a key exactly at the slots a rejection wrote (`Null`) |
| `Batch.SettledUpdate` | PromiseEvent.js:124-125 | settling a pending slot adds exactly one to the settled count |
| `Batch.FinishCountAppend` | PromiseEvent.js:79-81 | the `finish` events of a log are those of its parts |
| `Batch.Run` | PromiseEvent.js:121-147 | settlements of distinct pending slots, in any order, keep the invariant and raise `progress` by their number, never past `total` |
| `Batch.SettleKeepsSchedulable` | PromiseEvent.js:121-147 | after one settlement, the other scheduled slots are still pending |
| `Batch.RunSlot` | PromiseEvent.js:124-136 | after a run, a slot holds what its settlement wrote, and a slot with no settlement is unchanged |
| `Batch.RunErrors` | PromiseEvent.js:137 | after a run, `errors` has a key exactly where a settlement rejected, holding its reason; other keys are untouched |
| `Batch.OutcomeOfAbsent` | PromiseEvent.js:121-147 | about `OutcomeOf`, the helper that reads which outcome a schedule gives a slot: an index that no settlement names has no outcome |
| `Batch.RunAppend` | PromiseEvent.js:121-147 | running a schedule in two parts is the same as running it whole |
| `Batch.RunExtendsLog` | PromiseEvent.js:79-81 | dispatched events are never withdrawn: a run only appends to the log |
| `Batch.NoFinishBeforeLast` | PromiseEvent.js:129-131 | while fewer than `total` promises have settled, `progress` equals their number and `finish` has not been dispatched |
| `Batch.UnsettledSlotBlocksFinish` | PromiseEvent.js:124-131 | a slot that no settlement names stays pending, so `progress` stays below `total` and no `finish` is dispatched |
| `Batch.CompleteBatch` | PromiseEvent.js:73-147 | when every promise settles once, in any order: `progress` ends at `total`; `finish` is dispatched exactly once, by the last settlement, right after its `progress` and `resolve`/`reject`, carrying the final `results` and `errors`; every slot holds its value or `null`; `errors` has a key exactly at the rejected indices, holding their reasons |
| `Batch.Aggregator.constructor` | PromiseEvent.js:73-76 | the closure variables start as the initial state for `total` promises |
| `Batch.Aggregator.Dispatch` | PromiseEvent.js:79-81 | a dispatched event is appended after all earlier ones and changes nothing else |
| `Batch.Aggregator.SettleOk` | PromiseEvent.js:122-133 | the fulfilment callback is exactly the `Settle` step: `results[index]` becomes the value, `progress` grows by 1, `errors` is unchanged, and the invariant holds |
| `Batch.Aggregator.SettleErr` | PromiseEvent.js:134-146 | the rejection callback is exactly the `Settle` step: `results[index]` becomes `null`, `errors[index]` becomes the reason, `progress` grows by 1, and the invariant holds |
| `PromiseEvent.Construction` | PromiseEvent.js:9 | `PromiseEvent(func)` returns its API object without a promise for a falsy argument, with a promise for a function of two or more parameters, and otherwise throws exactly the message `error` builds for the code of the failed check, 10 for a non-function and 11 for a function of fewer parameters |
| `PromiseEvent.Allocation` | PromiseEvent.js:67-76 | `all` returns an aggregator of `total` equal to the array length (at least 1) exactly when the checks pass; otherwise it throws exactly the message `error` builds for the failed check's code: 20 for undefined, 21 for a non-array, 22 for an empty array, 23 for an array holding a non-promise |
| `PromiseEvent.SparseBatchNeverFinishes` | PromiseEvent.js:121-131 | an array of promises with a hole is accepted with `total` equal to its length, but whatever settlements the attached callbacks make, `progress` stays below `total` and no `finish` is dispatched |
| `PromiseEvent.Bridge.constructor` | PromiseEvent.js:171 | the API object stores the promise flag it is given, with no event sent |
| `PromiseEvent.Bridge.Dispatch` | PromiseEvent.js:12-14 | a dispatched event is appended to the bridge's log |
| `PromiseEvent.Bridge.Settle` | PromiseEvent.js:175-185 | a fulfilled promise sends exactly one `resolve` with its value and no `reject`; a rejected promise sends exactly one `reject` with its reason and no `resolve` |
| `PromiseEvent.New` | PromiseEvent.js:7-9 | `PromiseEvent(func)` throws the message of the failed check, or returns a fresh API object with no event sent, holding a promise exactly when the executor was accepted |
| `PromiseEvent.All` | PromiseEvent.js:67-150 | `all` throws the message of the failed check, or returns a fresh, consistent aggregator with nothing settled |

## Left out

- The event-listener surface is not modelled. This covers `addEventListener`, `removeEventListener`, `dispatchEvent`, `on`, the `on<event>` setters and `{ once: true }`. These are browser `EventTarget` and `CustomEvent` host objects. Dispatching is modelled as appending the event to a log.
- `Promise`, `then`, `catch` and `queueMicrotask` are not modelled. Settlements are explicit method calls in any order the caller chooses. The microtask FIFO order is not captured.
- That a promise settles once is a precondition: the slot must still be pending, or the bridge's log must be empty.
- The `forEach` loop that attaches the callbacks (PromiseEvent.js:121-147) changes no state. Its effect is that each index can be settled through `SettleOk` or `SettleErr`.
- The getters `total`, `results` and `errors` are the fields of `Aggregator` themselves.
- The `finish` event carries a snapshot of `results` and `errors`. The code passes the live arrays. No settlement can follow the last one, so the two do not differ, but the aliasing is not captured.
- `typeof`, `Array.isArray`, `instanceof Promise` and `Function.length` are replaced by the `Value` descriptor.
- The bridge keeps only whether `promise` is defined, not the promise itself. Running the executor inside `new Promise(func)` is host behaviour. It is represented by the outcome passed to `Bridge.Settle`.
- `Errors.Render`: codes are natural numbers. Every call site passes one of the literals 10, 11, 20, 21, 22 or 23, so non-numeric or negative codes are not modelled.
- A promise fulfilled with `null` leaves the same `null` in `results` as a rejection (PromiseEvent.js:124 and :136). In the program only `errors` tells the two apart. The model tags a rejection's slot `Null` and a fulfilment's slot `Value(v)`, so its invariant that `errors` has a key exactly at the `Null` slots is about that tag, not about the JavaScript value.
