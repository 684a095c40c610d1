# SimplePromise in Dafny

A model of the class `SimplePromise` of `mypromiseclass.js`, a hand-written
promise for JavaScript. A promise has a `state` (`pending`, `fulfilled` or
`rejected`), a `value` (initially `null`) and a list of `handlers`. The
constructor gives the executor two closures, `resolve` and `reject`. The first
of them called on a pending promise settles it, and then runs the stored
handlers in order. `then(onFulfilled, onRejected)` returns a new promise. Its
`handleCallback` closure settles the new promise from the source's outcome:
- the source fulfilled: resolve with `onFulfilled(value)`, or with the value itself when `onFulfilled` is absent;
- the source rejected: reject with `onRejected(reason)`, or with the reason itself;
- the callback threw: reject with the error.

On a pending source, `then` stores that closure in `handlers`. On a settled
source, it defers the closure with `setTimeout(handleCallback, 0)`.
`catch(f)` is `then(null, f)`.

The project has three modules:

- `Reactions` (`reaction.dfy`) holds the values the promise deals in: cells
  (`state` and `value` together), settlements, and user callbacks. User
  callbacks are total functions that return a value or throw one. The module
  also holds the pure logic:
  - the settlement guard of `resolve`/`reject` (`Attempt`);
  - what `handleCallback` computes for the new promise (`Reaction`, `Follow`);
  - chains of `then` calls (`Chain`).

  The lemmas about chains are proved by induction.
- `Promises` (`promise.dfy`) holds the imperative model:
  - the class `SimplePromise`, whose fields are `state`, `value` and `handlers`;
  - the class `EventLoop`, which holds the callbacks deferred with `setTimeout` as a queue of tasks and runs one of them at a time.

  A ghost registry of all promises frames the cascade that settlement sets
  off; the ghost step `EventLoop.Admit` enters each new promise in it. Settling a promise runs its handlers. These settle the promises that
  `then` returned, which run their own handlers. Ghost fields record:
  - each promise's provenance (the promise it was created on, and its position in that promise's handlers);
  - the handler invocations settlement made.
- `Scenarios` (`scenarios.dfy`) holds five client scenarios. Four of them start
  from any pending promise built by user code:
  - `then` once the promise is resolved, then the timer firing as an explicit `RunTask` call;
  - `catch` once it is rejected, then the timer firing as an explicit `RunTask` call;
  - two `then`s and then `resolve`;
  - a chain `p.then(...).then(...)` and then `resolve`.

  The fifth builds a promise and calls `resolve` followed by `reject`.

Settlement is modelled as one method per step of the source, all mutually
recursive:
- `Resolve`/`Reject` are the closures.
- `Settle` holds their shared guard and assignments.
- `Notify` is the `forEach` loop.
- `InvokeHandler` is one iteration of it.
- `HandleCallback` is `then`'s closure; it settles the target with `Settle`.

The cascade terminates because each promise records the number of promises
created before it, and every handler's target was created after its source.

Between two calls from user code, every settled promise has run all its
handlers: each promise that `then` stored on it is settled as `Follow` says
from its settlement (`Propagated`). Settling a promise therefore reaches the
whole chain below it, not only the first link.

Unlike standard promises, `catch` does not recover here. Line 48 of
`mypromiseclass.js` calls `reject` with the handler's result, so
`reject("boom")` followed by `catch(e => "recovered:" + e)` leaves the new
promise rejected with `"recovered:boom"`. `Scenarios.RejectedCatchRecover` and
`Reactions.RejectionIsFinal` state this behaviour.

## Model

| member | source | states |
|---|---|---|
| Reactions.Settled | mypromiseclass.js:10-27 | `resolve(v)` leaves the promise fulfilled with `v`, and `reject(r)` leaves it rejected with `r`; either way it is no longer pending |
| Reactions.SettlementOf | mypromiseclass.js:10-27 | a settled cell determines the call that settled it: `Settled` of the recovered settlement gives back the cell |
| Reactions.Attempt | mypromiseclass.js:10-27 | after a `resolve`/`reject` call the promise is never pending. A settled promise keeps its cell. A pending one ends with exactly the settlement of this call |
| Reactions.SettledIsFinal | mypromiseclass.js:10-27 | once settled, any further sequence of `resolve`/`reject` calls leaves state and value as they are |
| Reactions.FirstSettlementWins | mypromiseclass.js:10-27 | on a pending promise, after any non-empty sequence of `resolve`/`reject` calls, the state and value are those of the first call |
| Reactions.Reaction | mypromiseclass.js:38-54 | `handleCallback` does nothing exactly when the source is pending. The new promise is fulfilled exactly when the source is fulfilled and `onFulfilled` is absent or returned. An absent handler passes the value or reason through. A throwing `onFulfilled` rejects with the error. A rejected source with `onRejected` rejects with the handler's result |
| Reactions.Follow | mypromiseclass.js:38-54 | how the promise from `then` settles after its source settled: a rejected source never yields a fulfilled one, and `then()` with no callbacks settles identically to its source |
| Reactions.ChainAppend | mypromiseclass.js:34-68 | settling through `p.then(a...).then(b...)` is settling through the `a` links, then through the `b` links |
| Reactions.PassThroughChain | mypromiseclass.js:40-48 | a chain of `then()` calls without callbacks ends with the source's own state and value |
| Reactions.RejectionIsFinal | mypromiseclass.js:45-53 | once a chain is rejected, every later promise in it is rejected, `catch` included |
| Reactions.FulfilledChainWasFulfilled | mypromiseclass.js:38-54 | a chain ends fulfilled only if its source and every promise along it were fulfilled |
| Promises.Invocations | mypromiseclass.js:15 | the `forEach` invocations of handlers 0..n-1: exactly n of them, the i-th on handler i |
| Promises.Register | mypromiseclass.js:2-8 | a new pending promise with no handlers can join the registry without breaking any invariant, the propagation of settlements included |
| Promises.EventLoop.Admit | mypromiseclass.js:2-8 | after `new SimplePromise`, the registry grows by exactly the new promise, the count of created promises by one, and all invariants are kept |
| Promises.EventLoop.RunTask | mypromiseclass.js:63-66 | the `setTimeout` callback fires: the task leaves the queue, the others stay in order, and the promise `then` returned settles with the `handleCallback` outcome of its (settled) source. Every promise the cascade settles has its own handlers' promises settled as `Follow` says, so the outcome reaches the end of every chain below. A promise changes only by leaving `pending`, and only if it is that promise or was created by `then` on it or on a promise that was pending. Every invariant is kept |
| Promises.SimplePromise.constructor | mypromiseclass.js:2-8 | a new promise is pending, with value `null`, no handlers, and no handler invoked; it is not derived from another promise |
| Promises.SimplePromise.Derived | mypromiseclass.js:34-36 | the `new SimplePromise` inside `then`: pending, value `null`, no handlers, and recorded as created on the source promise |
| Promises.SimplePromise.Resolve | mypromiseclass.js:10-17 | the cell becomes `Attempt(old cell, fulfilled with v)`. On a settled promise nothing anywhere changes. On a pending one, handler i gets exactly the i-th `onFulfilled` invocation, in order, and its promise settles as `Follow` says. Every promise the cascade settles has its handlers' promises settled as `Follow` says in turn, so the settlement reaches the end of every chain below. A promise changes only by leaving `pending`, and only if it is this one or was created by `then` on it or on a promise that was pending. All invariants are kept |
| Promises.SimplePromise.Reject | mypromiseclass.js:20-27 | the same as `Resolve`, with the rejected state and the `onRejected` entries |
| Promises.SimplePromise.Settle | mypromiseclass.js:10-27 | the body shared by the two closures: it behaves as `Attempt` on the cell, settles every handler target as `Follow` says and, through the cascade, every promise further down; it is a no-op on a settled promise |
| Promises.SimplePromise.Notify | mypromiseclass.js:14-15 | the `forEach`: every stored handler is invoked once, in order, on the entry matching the new state; each target ends settled as `Follow` says, and so does every promise below it that the loop settles |
| Promises.SimplePromise.InvokeHandler | mypromiseclass.js:15 | one iteration: handler i's target ends settled as `Follow` says, the targets of the other handlers are untouched, and every promise the call settles has its handlers' promises settled as `Follow` says |
| Promises.SimplePromise.HandleCallback | mypromiseclass.js:38-54 | the target's new cell is `Attempt` of its old cell with the `Reaction` of the source, or is unchanged on a pending source. Every promise the call settles has its handlers' promises settled as `Follow` says. A promise changes only if it is the target or was created by `then` on the target or on a promise that was pending |
| Promises.SimplePromise.Then | mypromiseclass.js:34-68 | returns a fresh pending promise and leaves the source's cell as it is. On a pending source it appends exactly one handler and schedules nothing. On a settled source it schedules exactly one task and leaves the handlers unchanged |
| Promises.SimplePromise.Store | mypromiseclass.js:57-62 | `handlers.push`: the handler list grows by exactly the new handler, and the invariants are kept |
| Promises.SimplePromise.Schedule | mypromiseclass.js:63-66 | `setTimeout(handleCallback, 0)`: the task queue grows by exactly the new task, and the invariants are kept |
| Promises.SimplePromise.Catch | mypromiseclass.js:69-71 | exactly the contract of `Then` with an absent `onFulfilled` |
| Scenarios.ResolvedThenAddOne | mypromiseclass.js:63-66 | a promise resolved with 42, then `then(v => v + 1)`, ends fulfilled with 43 once the timer fires |
| Scenarios.RejectedCatchRecover | mypromiseclass.js:45-48 | a promise rejected with `"boom"`, then `catch(e => "recovered:" + e)`, ends rejected with `"recovered:boom"` |
| Scenarios.TwoThensThenResolve | mypromiseclass.js:10-17 | two `then`s on a pending promise, then `resolve(1)`: both handlers are invoked once, in registration order, and both new promises settle |
| Scenarios.ChainThenResolve | mypromiseclass.js:10-54 | `p.then(a...).then(b...)` on a pending promise, then `resolve(v)`: the last promise of the chain ends as `Chain` says for the links `a` and `b` |
| Scenarios.ResolveThenReject | mypromiseclass.js:10-27 | `resolve(1)` followed by `reject("x")` leaves the promise fulfilled with 1 |

## Left out

- `promiseTimeout`, `promiseFetch`, `promiseReadFile` and the calls that use them (mypromiseclass.js:74-132) are not modelled. They wrap timers, the network and the file system.
- The executor call (line 30) is not modelled as a call. The executor is user code. Its calls of `resolve` and `reject` are the caller's later calls of `Resolve` and `Reject`. An executor that throws is not modelled; the source does not catch it either.
- The delay of `setTimeout` is not modelled. `RunTask` may run any scheduled callback; the model fixes no order in which timers fire.
- User callbacks are pure, total functions. A callback that resolves other promises, calls `then`, or never returns is not modelled. A returned promise is a plain value, as in the source, which does not unwrap thenables.
- JavaScript values are reduced to `null`, integers and strings. An absent handler (any falsy argument) is `None`. A truthy non-function handler throws a `TypeError` when called, which is a callback whose outcome is `Throw`.
- The `resolve`/`reject` closures of a promise that `then` created are private to `then`. `Resolve` and `Reject` therefore require a promise built by user code.
- The handler list is not cleared after settlement; neither is it in the source. `then` on a settled promise does not add to it.
- Promises.SimplePromise.Resolve: the frame lets any registered promise whose parent was pending settle, not only the promises below this one. The model states no reachability through handlers.
- Promises.SimplePromise.Reject: the same frame as `Resolve`.
- Promises.SimplePromise.Settle: the same frame as `Resolve`.
- Promises.SimplePromise.HandleCallback: the same frame as `Resolve`, from the handler's target.
- Promises.SimplePromise.Notify: the same frame as `Resolve`.
- Promises.SimplePromise.InvokeHandler: the same frame as `Resolve`, rooted at this promise rather than at the handler's target.
- Promises.EventLoop.RunTask: the same frame as `Resolve`, from the task's target.
- The constructors do not enter the new promise in the ghost registry; `EventLoop.Admit`, a ghost step after `new`, does.
