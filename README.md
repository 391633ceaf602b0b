# PromiseImpl in Dafny

A model of `PromiseImpl.js`, a Promises/A+ implementation. It has four modules.

- **Settlement** (`settlement.dfy`) holds the state machine of one promise, on values. A
  `Snapshot` holds the five fields a promise object carries: status, value, reason and the
  two callback arrays. `Settle` is the internal `resolve`/`reject`, `Register` is what `then`
  does to a pending receiver, and `Run` replays a sequence of such calls. The lemmas state
  that settlement is one-shot, and that the first settlement attempt runs exactly the
  callbacks registered on its side, once each, in push order. They also state that value
  and reason stay exclusive.
- **Resolution** (`resolution.dfy`) models the Promise Resolution Procedure,
  `promiseResolutionProcedure` (section 2.3 of Promises/A+), as a pure decision `Decide`.
  It tells whether a call rejects with a `TypeError`, adopts another promise, fulfils,
  rejects, or leaves the promise pending. A thenable's `then` is abstracted by a `Script`:
  the calls it makes to `resolvePromise`/`rejectPromise`, and whether it then throws. The
  `called` flag of the source is a parameter of `CallThen`. Lemmas prove that the guarded
  sequence decides exactly as the first call alone would.
- **Executor** (`executor.dfy`) models the constructor's executor, whose calls are replayed
  through Settlement.
- **Runtime** (`runtime.dfy`) is the imperative part:
  - `class PromiseImpl` has the five mutable fields and the methods `Resolve`, `Reject`,
    `Then`, `Catch`, `Finally`, `StaticResolve`, `StaticReject` and `Deferred`.
  - `class EventLoop` holds the FIFO queue of tasks that stands for `setTimeout(fn, 0)`.
  - `ResolutionProcedure` applies `Decide` to the objects.
  - Each method's `ensures` ties the new object state to the Settlement and Resolution
    functions of the old state.

A callback pushed by `then` is modelled by the task it schedules: `Defer(task)`. A handler
is modelled by what it does. The pass-through defaults are `Identity` and `Rethrow`. A
caller's function is `User(outcome)`, with a fixed outcome. The functions the source builds
itself are the promise-adoption pair of clause 2.3.2 and the two `finally` handlers.

## What the code does

The model follows the code in places where the general Promises/A+ reading would expect
something else:

- The internal `resolve` of the constructor fulfils directly. It does not run the
  resolution procedure, so `PromiseImpl.resolve(p)` is fulfilled with the promise `p`
  itself.
- The callback arrays are never cleared after settlement.
- `catch` returns `undefined`. The promise made by its inner `then` is dropped.
- `finally` does not wait for a promise returned by `onFinally`. `PromiseImpl.resolve`
  fulfils with that promise as it is, and the continuation ignores it.
- A missing `onFulfilled` hands the value on to `[[Resolve]](promise2, value)`. That value
  can itself be a promise, because the internal `resolve` stores promises, and then
  `promise2` adopts it instead of being fulfilled with it (`Runtime.PassThrough`).

## Model

| member | source | states |
|---|---|---|
| Settlement.SettledIsFinal | PromiseImpl.js:121-135 | on a settled promise, every later settlement attempt or registration leaves all five fields unchanged and runs no callback |
| Settlement.PendingQueues | PromiseImpl.js:197-219 | while no settlement is attempted, the promise stays pending, each registration appends its callbacks to the matching arrays in order, and nothing runs |
| Settlement.FirstSettlementWins | PromiseImpl.js:121-135 | the first settlement attempt on a pending promise sets its status and slot, runs exactly the callbacks registered on its side, once each in push order, never those of the other side, and later calls change nothing |
| Settlement.RunKeepsClean | PromiseImpl.js:111-135 | value and reason are never both set, whatever sequence of calls is made |
| Resolution.Decide | PromiseImpl.js:17-106 | self-resolution rejects with a TypeError (2.3.1); another promise is adopted (2.3.2); a plain value or an object whose `then` is not callable fulfils with itself (2.3.3.4, 2.3.4); a throwing `then` getter rejects with the error (2.3.3.2); no promise adopts itself and no promise or thenable is used as a fulfilment value |
| Resolution.CallThen | PromiseImpl.js:36-100 | the `called`-guarded run of a thenable's `then` yields a sound decision: no self-adoption and only plain fulfilment values |
| Resolution.CalledIsFinal | PromiseImpl.js:55-89 | once `called` is set, no later call of `resolvePromise` or `rejectPromise`, and no exception, changes the decision |
| Resolution.ThenableFirstCallWins | PromiseImpl.js:48-100 | a callable `then` decides as its first call alone: resolve with y gives [[Resolve]](promise, y), reject gives a rejection, no call and a throw gives rejection with the exception, no call and a return leaves the promise pending |
| Resolution.LaterCallsIgnored | PromiseImpl.js:56-78 | two thenables whose `then` make the same first call resolve the promise alike, whatever they do afterwards (2.3.3.3.3) |
| Executor.ExecutorSteps | PromiseImpl.js:137-141 | the executor's calls, in order, are the settlement attempts, followed by `reject(e)` when it throws e |
| Executor.ExecutorOutcome | PromiseImpl.js:109-142 | the executor's first call settles the new promise; with no call, an exception rejects it and a normal return leaves it pending; both arrays are empty and no callback runs |
| Runtime.Tasks | PromiseImpl.js:198-218 | calling the pushed callbacks schedules their tasks one for one, in array order |
| Runtime.PassThrough | PromiseImpl.js:153-154 | with a missing onRejected the reason is rethrown (2.2.7.4); with a missing onFulfilled the value is handed on, which fulfils promise2 with it when plain (2.2.7.3) and adopts it when it is another promise |
| Runtime.ResolutionProcedure | PromiseImpl.js:17-106 | the procedure settles `promise` through its `resolve`/`reject` as Decide says, or calls `x.then` with the adoption pair, or leaves everything as it is; it returns the promise that `x.then` makes in clause 2.3.2 and undefined otherwise |
| Runtime.Invoke | PromiseImpl.js:29-34 | calling a handler: the defaults and caller functions give their outcome and schedule nothing; the adoption handler resumes [[Resolve]] on the followed promise's value, and the rejection handler rejects it, both returning undefined; `finally`'s handlers make a fulfilled promise and schedule one continuation task on it |
| Runtime.EventLoop.Schedule | PromiseImpl.js:162-177 | `setTimeout(fn, 0)` appends one task at the end of the queue |
| Runtime.EventLoop.InvokeArrayFns | PromiseImpl.js:9-13 | every callback is called once, in array order, and the queue grows by exactly their tasks |
| Runtime.EventLoop.RunNext | PromiseImpl.js:162-218 | the oldest task runs first, and tasks already queued stay ahead of those it schedules; its effect on the promises is the one the run for its handler kind states |
| Runtime.EventLoop.RunComputed | PromiseImpl.js:199-206 | a task whose handler computes x runs [[Resolve]](promise2, x) as Decide says, and a handler that throws e rejects promise2 with e (2.2.7.1, 2.2.7.2) |
| Runtime.EventLoop.RunRejectInto | PromiseImpl.js:29-34 | a task for a followed promise's rejection rejects the following promise with the same reason (2.3.2.3) and fulfils the `then`'s own result with undefined |
| Runtime.EventLoop.RunResume | PromiseImpl.js:29-34 | a task for a followed promise's fulfilment runs [[Resolve]] of the following promise on that value (2.3.2.2): a plain value or a thenable acts as Decide says and a value that is the following promise itself rejects it with a TypeError, and then the `then`'s own result is fulfilled with undefined; a value that is another promise B makes the following promise follow B through a new promise, and the `then`'s own result follows that new promise |
| Runtime.EventLoop.RunFinally | PromiseImpl.js:236-241 | if onFinally throws, the `finally` promise is rejected with the error; otherwise one continuation task is scheduled that gives back the original value or reason, and the `finally` promise follows the promise that task will settle |
| Runtime.PromiseImpl.constructor | PromiseImpl.js:109-142 | the new promise's fields are those the executor's calls produce from the pending state, and value and reason are exclusive |
| Runtime.PromiseImpl.Resolve | PromiseImpl.js:121-127 | only a pending promise changes; it becomes fulfilled with the value, and exactly its fulfilment callbacks' tasks are appended to the queue; value and reason stay exclusive |
| Runtime.PromiseImpl.Reject | PromiseImpl.js:129-135 | only a pending promise changes; it becomes rejected with the reason, and exactly its rejection callbacks' tasks are appended to the queue; value and reason stay exclusive |
| Runtime.PromiseImpl.Then | PromiseImpl.js:144-230 | returns a new pending promise and runs no handler (2.2.4); a pending receiver gets one callback on each array; a settled receiver keeps its arrays, and one task for the matching handler is queued; a missing handler is replaced by its pass-through default (2.2.1); value and reason stay exclusive on both promises |
| Runtime.PromiseImpl.Catch | PromiseImpl.js:232-234 | has the effect of `then(null, onRejected)`, and the promise that call makes is not returned |
| Runtime.PromiseImpl.Finally | PromiseImpl.js:236-241 | has the effect of `then` with the two `finally` handlers built around onFinally |
| Runtime.PromiseImpl.StaticResolve | PromiseImpl.js:243-245 | a new promise fulfilled with the value as it is, with no callbacks |
| Runtime.PromiseImpl.StaticReject | PromiseImpl.js:247-249 | a new promise rejected with the reason, with no callbacks |
| Runtime.PromiseImpl.Deferred | PromiseImpl.js:268-276 | a new pending promise whose `resolve` and `reject` handles are its internal Resolve and Reject |

## Left out

- Timers: `setTimeout(fn, 0)` is the FIFO queue of `EventLoop`. Running the queue to
  completion, and any interleaving with host tasks, is not modelled beyond single `RunNext`
  steps.
- Closures: a handler is identified by what it does. A caller's function has one fixed
  outcome and does not look at its argument. A thenable's `then` is a script of synchronous
  calls, so a `then` that calls its callbacks later, from a timer, is not modelled.
- JavaScript values: `Val` keeps only what the resolution procedure distinguishes, namely
  undefined, null, other primitives, the `TypeError` of clause 2.3.1, foreign objects by
  what reading `then` gives, and the library's own promises. The `this` of `then.call` and
  the error message are not modelled.
- A thenable whose `then` resolves with a thenable is unfolded only as deep as the finite
  `Script` data goes, so cyclic thenables are not modelled.
- `all`, `race`, `allSettled` and `any`: they are unimplemented stubs in the source.
- `defer`, the alias of `deferred`, and the `module.exports` line are host wiring.
- Runtime.EventLoop.RunNext: for an adoption-pair task it states the effect only when the
  task's target is neither the following promise nor the promise handed on. The source
  never creates such a task: the pair is passed only to `x.then` at line 30, whose target
  is the promise that this very call makes.
- Runtime.EventLoop.RunRejectInto: states its effect only when the following promise is
  not the task's own target. The source only pairs `reject` of a promise p with the
  fresh promise made by p's own adoption `then` (line 30), so this case never arises.
- Runtime.EventLoop.RunResume: states its effect only when the task's target is neither
  the following promise nor the promise handed on; as above, line 30 never creates that
  task.
