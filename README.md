# asyncpp promise: a Dafny model of the settlement state machine

This project models the core of `Promise<T>` from asyncpp (`include/promise.hpp`). A
promise is pending until its executor resolves or rejects it, and consumers register
a resolve and a reject callback with `then` / `catch_error`. It also models the small
`RejectFunction_t` wrapper (`include/reject_function_t.hpp`).

The operations the model covers take the promise's mutex: `then`, `_resolve`, `_reject`,
and the reject-slot check in `_handle_exception`. Their effects are therefore atomic with
respect to each other, and the model is sequential. `debug()` reads the fields without the
lock and is left out. The files:

- `std_function.dfy` (module `StdFunction`): `Option`, and `Slot`, a `std::function` that
  is empty or holds an opaque callable `Token`.
- `promise.dfy` (module `Promises`):
  - Each operation is a pure step on a `Cell`, the promise's four fields. The steps are
    `ThenStep`, `CatchErrorStep`, `ResolveStep`, `RejectStep` and `HandleExceptionStep`.
    Each returns the new fields, the callbacks it invoked (`Delivered(token, payload)`
    events) and how the call ended.
  - `Run` performs a sequence of operations.
  - Lemmas state the state machine's properties: single steps first, then any sequence
    of operations.
  - Class `Promise` holds the fields `state`, `value`, `onResolveCallback` and
    `onRejectCallback`, and a ghost log of invocations. Its methods update these in place
    and are proved equal to the steps.
  - `DemoMain` replays the demonstration program `src/main.cpp`.
- `reject_function.dfy` (module `RejectFunctions`): class `RejectFunction` with its
  nullable `func`, `operator bool` (`IsSet`), `operator()` (`Call`) and `operator=(nullptr)`
  (`AssignNull`).

How a call ends is an `Outcome`:
- `Returned`: a normal return.
- `UnhandledRejection(reason)`: the `throw UnhandledPromiseRejection(reason)` of `_reject`.
- `Rethrown`: the bare `throw;` of `_handle_exception`.
- `BadFunctionCall`: an empty `std::function` was called, which throws
  `std::bad_function_call`.

Some behaviours of the code are worth noting; the model follows the code:
- A rejection reason is never stored. `then` on a rejected promise therefore invokes
  nothing, while on a fulfilled promise it delivers the value at once.
  `LateObserverOfRejection` states the rejected case and `LateObserverOfFulfilment` the
  fulfilled one. Registering before or after settlement gives the same delivery only
  for fulfilment.
- An exception escaping the executor becomes a rejection only when a reject callback is
  stored. Otherwise it is re-raised (`Rethrown`), not turned into an unhandled rejection.
- `catch_error(b)` is `then(nullptr, b)`. On a pending promise it therefore empties the
  resolve slot.
- `then` with an empty resolve callback on a fulfilled promise calls an empty function.
  So `catch_error(b)` on a fulfilled promise throws `std::bad_function_call` and never
  stores `b` (`CatchErrorWhenFulfilledThrows`).
- `RejectFunction_t` declares only a `nullptr` constructor and a `nullptr` assignment. So
  every wrapper a program can build is empty, and calling one always throws
  (`NullWrapperCallThrows`). Its default reason "unspecified reason" is stated for a
  wrapper that holds a callable, as the class's call operator defines it.

## Model

| member | source | states |
|---|---|---|
| Promises.Init | include/promise.hpp:50-57 | a new promise is pending, stores no value and has both callback slots empty, which satisfies the field invariant |
| Promises.ThenStep | include/promise.hpp:112-124 | `then` keeps the field invariant: a value is stored exactly when fulfilled, and the slot that settlement fired stays empty |
| Promises.CatchErrorStep | include/promise.hpp:35 | `catch_error` keeps the field invariant |
| Promises.ResolveStep | include/promise.hpp:126-138 | `_resolve` keeps the field invariant |
| Promises.RejectStep | include/promise.hpp:140-151 | `_reject` keeps the field invariant |
| Promises.HandleExceptionStep | include/promise.hpp:76-88 | `_handle_exception` keeps the field invariant |
| Promises.Run | include/promise.hpp:112-151 | any sequence of operations keeps the field invariant and ends each call with one outcome |
| Promises.SettlementIsIdempotent | include/promise.hpp:126-151 | on a settled promise `_resolve` and `_reject` return at once, change no field and invoke nothing |
| Promises.ResolvePendingFulfils | include/promise.hpp:126-138 | `_resolve(v)` on a pending promise sets Fulfilled and stores `v`; a stored resolve callback fires once with `v` and its slot is emptied; with none, nothing is invoked; the reject slot is kept |
| Promises.RejectPendingRejects | include/promise.hpp:140-151 | `_reject(r)` on a pending promise sets Rejected; a stored reject callback fires once with `r` and its slot is emptied; with none, the call raises an unhandled rejection carrying `r` after the state is already Rejected |
| Promises.ThenWhilePendingOverwritesSlots | include/promise.hpp:113-123 | `then(a, b)` on a pending promise overwrites both slots with `a` and `b` and invokes nothing; `catch_error(b)` empties the resolve slot |
| Promises.ThenWhenFulfilledDeliversAtOnce | include/promise.hpp:116-117 | `then(a, b)` on a fulfilled promise invokes `a` at once with the stored value and stores nothing; an empty `a` is a call of an empty function |
| Promises.ThenWhenRejectedIsNoOp | include/promise.hpp:116-121 | `then(a, b)` on a rejected promise invokes nothing and changes no field |
| Promises.CatchErrorWhenFulfilledThrows | include/promise.hpp:35 | `catch_error(b)` on a fulfilled promise calls the empty resolve function: it throws `bad_function_call`, invokes nothing and stores nothing |
| Promises.FaultMessage | include/promise.hpp:98-101 | a caught `std::exception` is reported by its `what()`, any other thrown value by "Non-exception type thrown" |
| Promises.HandleExceptionRouting | include/promise.hpp:76-88 | with a reject callback stored, `_handle_exception(m)` is `_reject(m)`; without one it re-raises and leaves the promise unchanged |
| Promises.SettledCellIsFrozen | include/promise.hpp:112-151 | once fulfilled or rejected, no sequence of operations changes state, value or either slot |
| Promises.RejectedCellNeverDelivers | include/promise.hpp:113-121 | no sequence of operations on a rejected promise invokes any callback |
| Promises.FulfilledCellDeliversStoredValue | include/promise.hpp:113-117 | every callback a fulfilled promise invokes, however late it registers, receives the stored value |
| Promises.RegistrationsKeepPending | include/promise.hpp:113-123 | registrations alone keep a pending promise pending and invoke nothing |
| Promises.FirstSettlementWins | include/promise.hpp:76-151 | after any registrations, the first `_resolve(v)`, `_reject(r)`, or `_handle_exception(m)` with a reject callback stored, fixes the final state (and value `v`) whatever operations follow |
| Promises.SettlementDeliversAtMostOnce | include/promise.hpp:126-151 | any number of `_resolve`/`_reject`/`_handle_exception` attempts invoke at most one callback, and none on a settled promise |
| Promises.RegisteredCallbackFiresOnce | include/promise.hpp:112-151 | a callback registered while pending fires exactly once with the settled value or reason however many settlement attempts follow; with no reject callback the rejection raises an unhandled rejection carrying the reason |
| Promises.LateObserverOfFulfilment | include/promise.hpp:112-138 | registering `then(a, b)` before or after `_resolve(v)` delivers the same single event `a(v)` |
| Promises.LateObserverOfRejection | include/promise.hpp:112-151 | registering `then(a, b)` before `_reject(r)` delivers `b(r)`; registering after it delivers nothing and the rejection was raised as unhandled |
| Promises.UnhandledRaisedAtMostOnce | include/promise.hpp:140-151 | an unhandled rejection is raised at most once over any sequence of operations, and never once settled |
| Promises.DeliveryCountBound | include/promise.hpp:112-151 | over any sequence of operations, callbacks invoked are at most one per registration plus one for settlement |
| Promises.Promise.constructor | include/promise.hpp:68-74 | a new promise object is pending with no value and empty slots, and has invoked nothing |
| Promises.Promise.Then | include/promise.hpp:112-124 | updates the fields and invokes callbacks as `ThenStep` says, and returns the same promise object |
| Promises.Promise.CatchError | include/promise.hpp:35 | acts as `then(nullptr, onReject)` and returns the same promise object |
| Promises.Promise.Resolve | include/promise.hpp:126-138 | updates the fields and invokes callbacks as `ResolveStep` says; on a settled promise nothing changes |
| Promises.Promise.Reject | include/promise.hpp:140-151 | updates the fields and invokes callbacks as `RejectStep` says; on a settled promise nothing changes; an unhandled rejection carries the reason and leaves the promise Rejected |
| Promises.Promise.HandleException | include/promise.hpp:76-88 | acts as `HandleExceptionStep`; without a reject callback nothing changes and the exception is re-raised |
| Promises.Promise.ExecutorThrew | include/promise.hpp:93-102 | a fault escaping the executor goes to `_handle_exception` with its `what()`, or "Non-exception type thrown" for a non-standard fault |
| Promises.DemoMain | src/main.cpp:8-28 | `then(h)` then `catch_error(e)` registered before the executor throws leave the promise Rejected, with `e` invoked once with "Runtime error occured" and `h` never invoked |
| RejectFunctions.RejectFunction.FromNull | include/reject_function_t.hpp:23-27 | a wrapper built from `nullptr` tests false |
| RejectFunctions.RejectFunction.IsSet | include/reject_function_t.hpp:23-25 | `operator bool` tests true exactly when the wrapper holds a callable |
| RejectFunctions.RejectFunction.Call | include/reject_function_t.hpp:19-21 | a call invokes the wrapped callable exactly when the wrapper tests true, with the given reason or else "unspecified reason" |
| RejectFunctions.RejectFunction.AssignNull | include/reject_function_t.hpp:29-32 | assigning `nullptr` empties the wrapper, so it tests false, and returns the same object |
| RejectFunctions.CallWithoutReasonUsesDefault | include/reject_function_t.hpp:19-21 | a call without an argument passes "unspecified reason" to the wrapped callable |
| RejectFunctions.CallPassesReasonUnchanged | include/reject_function_t.hpp:19-21 | a call with a reason passes it to the wrapped callable unchanged |
| RejectFunctions.NullWrapperCallThrows | include/reject_function_t.hpp:19-32 | a wrapper built and assigned only through `nullptr` tests false, and calling it throws whatever the argument |

## Left out

- Thread creation, `detach`, `start_now` and the destructor (`start_work`,
  `clean_thread`, `~Promise`): operating-system threads and object lifetime. The
  constructor model takes no executor, and the executor body is not modelled. Its
  effect is the `Resolve`, `Reject` and `ExecutorThrew` calls it makes.
- The mutex: each guarded operation is one atomic step. `_handle_exception` reads the
  reject slot under the lock but calls `_reject` after releasing it. A registration
  racing into that gap cannot be expressed sequentially, and the model takes the check
  and the rejection as one step.
- Callback bodies: callbacks are opaque tokens, and an invocation is a log event. A
  callback that throws, or that re-enters the promise while the lock is held, is not
  modelled.
- Exception propagation between operations: an outcome ends one call. The model does not
  follow an `UnhandledPromiseRejection` thrown inside the executor into the thread's
  catch clauses, or a re-raised exception out of the thread.
- `debug()`: console output only.
- `m_value` is a default-constructed `T` until fulfilment. The model stores `None`
  instead, which nothing in the model can observe because `debug()` is left out.
- `UnhandledPromiseRejection` (`include/unhandled_promise_rejection.hpp`) is not a
  separate model. It is the `UnhandledRejection(reason)` outcome.
- Promises.ThenStep: its own contract states only the field invariant; the full behaviour of `then` is stated by the single-step lemmas above.
- Promises.CatchErrorStep: its own contract states only the field invariant; the full behaviour of `catch_error` is stated by the single-step lemmas above.
- Promises.ResolveStep: its own contract states only the field invariant; the full behaviour of `_resolve` is stated by the single-step lemmas above.
- Promises.RejectStep: its own contract states only the field invariant; the full behaviour of `_reject` is stated by the single-step lemmas above.
- Promises.HandleExceptionStep: its own contract states only the field invariant; the full behaviour of `_handle_exception` is stated by the single-step lemmas above.
