/** The promise objects and the task queue that stands for `setTimeout`
    (PromiseImpl.js). A PromiseImpl carries the five mutable fields of the source, with
    State() their current value as a Settlement.Snapshot. `then` pushes a callback on
    each array of a pending receiver; a callback, when `invokeArrayFns` calls it,
    schedules one task on the EventLoop, and a task, when the loop runs it, calls one
    handler and feeds its outcome to the resolution procedure of the dependent promise. */
module Runtime {
  import opened Settlement
  import opened Resolution
  import opened Executor

  type Value = Val<PromiseImpl>

  type PromiseState = Snapshot<Value, Callback>

  /** What calling a function does: return a value or throw one. */
  datatype Outcome = Returns(value: Value) | Raises(error: Value)

  /** The functions a `then` call stores, by what they do. A caller's own function is
      abstracted by its outcome; the others are the functions the source itself builds. */
  datatype Handler =
    | Identity                               // `value => value`, onFulfilled's default
    | Rethrow                                // `reason => { throw reason }`, onRejected's default
    | User(result: Outcome)                  // a function supplied by the caller
    | ResumeResolution(promise: PromiseImpl) // `value => promiseResolutionProcedure(promise, value, ...)`
    | RejectInto(promise: PromiseImpl)       // `promise`'s internal `reject`
    | FinallyOnFulfilled(onFinally: Outcome) // the first handler `finally` builds
    | FinallyOnRejected(onFinally: Outcome)  // the second handler `finally` builds

  /** An argument of `then`: a function, or anything else (`typeof` is not 'function'). */
  datatype HandlerArg = NotAFunction | Function(handler: Handler)

  /** A deferred unit of work: call `handler` on the value (OnFulfilled) or the reason
      (OnRejected) of `source`, and resolve `target` with the outcome. */
  datatype Task = Reaction(side: Side, source: PromiseImpl, handler: Handler, target: PromiseImpl)

  /** A closure pushed on a callback array by `then`: when called, it schedules `task`. */
  datatype Callback = Defer(task: Task)

  /** The tasks that calling these callbacks, in order, schedules. */
  function Tasks(cbs: seq<Callback>): (ts: seq<Task>)
    ensures |ts| == |cbs|
    ensures forall i :: 0 <= i < |cbs| ==> ts[i] == cbs[i].task
    decreases |cbs|
  {
    if cbs == [] then [] else [cbs[0].task] + Tasks(cbs[1..])
  }

  /** Clauses 2.2.1, 2.2.7.3 and 2.2.7.4: a missing handler is replaced by pass-through. */
  function Defaulted(arg: HandlerArg, side: Side): Handler
  {
    match arg
    case Function(h) => h
    case NotAFunction => if side == OnFulfilled then Identity else Rethrow
  }

  /** The handlers that only compute a result. */
  predicate Computes(h: Handler)
  {
    h.Identity? || h.Rethrow? || h.User?
  }

  function ComputedOutcome(h: Handler, arg: Value): Outcome
    requires Computes(h)
  {
    match h
    case Identity => Returns(arg)
    case Rethrow => Raises(arg)
    case User(o) => o
  }

  /** Clauses 2.2.7.3 and 2.2.7.4 through the defaults: a missing onRejected hands the
      reason on as an exception, so promise2 is rejected with the same reason; a missing
      onFulfilled hands the value on to [[Resolve]](promise2, value), which fulfils
      promise2 with the same value when that value is plain, but adopts it when it is
      another promise (a promise can be fulfilled with a promise here, since the internal
      `resolve` does not run the resolution procedure). */
  lemma PassThrough(target: PromiseImpl, arg: Value)
    ensures ComputedOutcome(Defaulted(NotAFunction, OnRejected), arg) == Raises(arg)
    ensures var o := ComputedOutcome(Defaulted(NotAFunction, OnFulfilled), arg);
            && o == Returns(arg)
            && (IsPlain(arg) ==> Decide(target, o.value) == FulfilWith(arg))
            && (arg.Prom? && arg.p != target ==> Decide(target, o.value) == Adopt(arg.p))
  {
  }

  /** The task that `then` schedules at once on a receiver settled in `status`. */
  function Immediate(status: Status, p: PromiseImpl, f: Handler, r: Handler, q: PromiseImpl): seq<Task>
  {
    match status
    case Fulfilled => [Reaction(OnFulfilled, p, f, q)]
    case Rejected => [Reaction(OnRejected, p, r, q)]
    case Pending => []
  }

  /** The effect of the internal `resolve(x)` (OnFulfilled) or `reject(x)` (OnRejected) on
      p: its state per Settle, and its drained callbacks' tasks appended to the queue. */
  twostate predicate SettledBy(p: PromiseImpl, side: Side, x: Value, new before: seq<Task>, new after: seq<Task>)
    reads p
  {
    && p.State() == Settle(old(p.State()), side, x)
    && after == before + Tasks(Drained(old(p.State()), side))
  }

  /** The effect of `p.then(f, r)` returning q: q is new and pending; a pending p gets one
      callback on each array; a settled p keeps its arrays and one task is scheduled. */
  twostate predicate ThenEffect(p: PromiseImpl, f: Handler, r: Handler, new q: PromiseImpl,
                                new before: seq<Task>, new after: seq<Task>)
    reads p, q
  {
    && fresh(q)
    && q.State() == Initial(Null)
    && p.State() == Register(old(p.State()), Defer(Reaction(OnFulfilled, p, f, q)),
                                             Defer(Reaction(OnRejected, p, r, q)))
    && after == before + Immediate(old(p.status), p, f, r, q)
  }

  /** The objects [[Resolve]](promise, x) may change besides `promise`: the promise it
      adopts, whose `then` it calls. */
  ghost function AdoptFrame(promise: PromiseImpl, x: Value): set<object>
  {
    match Decide(promise, x)
    case Adopt(p) => {p}
    case _ => {}
  }

  /** The promise [[Resolve]](promise, x) adopts is one that x itself holds, at any depth,
      so it exists wherever x does. */
  lemma {:induction false} AdoptedIsAllocated(promise: PromiseImpl, x: Value)
    requires allocated(x)
    ensures Decide(promise, x).Adopt? ==> allocated(Decide(promise, x).source)
    decreases x, 1
  {
    if x.Obj? && x.thenSlot.Callable? && x != Prom(promise) {
      CallThenAllocated(promise, x, 0, false, StaysPending);
    }
  }

  lemma {:induction false} CallThenAllocated(promise: PromiseImpl, x: Value, i: nat, called: bool, acc: Action<PromiseImpl>)
    requires x.Obj? && x.thenSlot.Callable? && i <= |x.thenSlot.script.calls|
    requires !called ==> acc == StaysPending
    requires Sound(promise, acc)
    requires allocated(x)
    requires acc.Adopt? ==> allocated(acc.source)
    ensures CallThen(promise, x, i, called, acc).Adopt? ==> allocated(CallThen(promise, x, i, called, acc).source)
    decreases x, 0, |x.thenSlot.script.calls| - i
  {
    var script := x.thenSlot.script;
    if i < |script.calls| {
      if called {
        CallThenAllocated(promise, x, i + 1, true, acc);
      } else {
        match script.calls[i]
        case ResolveCall(y) =>
          assert script.calls[i] in script.calls;
          assert allocated(y);
          AdoptedIsAllocated(promise, y);
          CallThenAllocated(promise, x, i + 1, true, Decide(promise, y));
        case RejectCall(r) =>
          CallThenAllocated(promise, x, i + 1, true, RejectWith(r));
      }
    }
  }

  /** The effect of [[Resolve]](promise, x), as Decide chooses it. */
  twostate predicate ResolvedBy(promise: PromiseImpl, x: Value, new derived: PromiseImpl?,
                                new before: seq<Task>, new after: seq<Task>)
    reads promise, AdoptFrame(promise, x), derived
  {
    match Decide(promise, x)
    case FulfilWith(v) => SettledBy(promise, OnFulfilled, v, before, after)
    case RejectWith(r) => SettledBy(promise, OnRejected, r, before, after)
    case Adopt(p) =>
      && derived != null
      && old(allocated(p))
      && ThenEffect(p, ResumeResolution(promise), RejectInto(promise), derived, before, after)
      && unchanged(promise)
    case StaysPending => unchanged(promise) && after == before
  }

  /** The state left by [[Resolve]](promise, Prom(q)) for a pending q made by the same
      task: `promise` is unchanged and q carries one callback on each array, whose tasks
      resolve `promise` from q's outcome into the new promise `derived`. */
  twostate predicate FollowsNew(promise: PromiseImpl, new q: PromiseImpl, new derived: PromiseImpl)
    reads promise, q, derived
  {
    && unchanged(promise)
    && derived.State() == Initial(Null)
    && q.State() == Register(Initial(Null), Defer(Reaction(OnFulfilled, q, ResumeResolution(promise), derived)),
                                            Defer(Reaction(OnRejected, q, RejectInto(promise), derived)))
  }

  /** What [[Resolve]](promise, x) returns: the promise `x.then(...)` makes in clause 2.3.2,
      undefined in every other case (a nested call's result is dropped by `resolvePromise`). */
  function Returned(promise: PromiseImpl, x: Value, derived: PromiseImpl?): Value
  {
    if x.Prom? && x.p != promise && derived != null then var q: PromiseImpl := derived; Prom(q) else Undefined
  }

  /** promiseResolutionProcedure(promise, x, resolve, reject), with `resolve` and `reject`
      the internal capabilities of `promise`. */
  method ResolutionProcedure(promise: PromiseImpl, x: Value, loop: EventLoop)
    returns (ret: Value, ghost derived: PromiseImpl?)
    modifies promise, loop, AdoptFrame(promise, x)
    ensures ResolvedBy(promise, x, derived, old(loop.tasks), loop.tasks)
    ensures x.Prom? && x.p != promise ==> derived != null
    ensures ret == Returned(promise, x, derived)
  {
    ret, derived := Undefined, null;
    match Decide(promise, x)
    case FulfilWith(v) =>
      promise.Resolve(v, loop);
    case RejectWith(r) =>
      promise.Reject(r, loop);
    case Adopt(p) =>
      AdoptedIsAllocated(promise, x);
      var q := p.Then(Function(ResumeResolution(promise)), Function(RejectInto(promise)), loop);
      derived := q;
      if x.Prom? {
        ret := Prom(q);
      }
    case StaysPending =>
  }

  /** The objects calling handler h on arg may change, besides new ones and the loop. */
  ghost function HandlerFrame(h: Handler, arg: Value): set<object>
  {
    match h
    case ResumeResolution(p) => {p} + AdoptFrame(p, arg)
    case RejectInto(p) => {p}
    case _ => {}
  }

  /** Calling handler h with argument arg, as the task body does (`let x = onFulfilled(...)`). */
  method Invoke(h: Handler, arg: Value, loop: EventLoop) returns (o: Outcome, ghost derived: PromiseImpl?)
    modifies loop, HandlerFrame(h, arg)
    ensures Computes(h) ==> o == ComputedOutcome(h, arg) && loop.tasks == old(loop.tasks)
    ensures h.ResumeResolution? ==>
              && ResolvedBy(h.promise, arg, derived, old(loop.tasks), loop.tasks)
              && (arg.Prom? && arg.p != h.promise ==> derived != null)
              && o == Returns(Returned(h.promise, arg, derived))
    ensures h.RejectInto? ==>
              SettledBy(h.promise, OnRejected, arg, old(loop.tasks), loop.tasks) && o == Returns(Undefined)
    ensures (h.FinallyOnFulfilled? || h.FinallyOnRejected?) && h.onFinally.Raises? ==>
              o == Raises(h.onFinally.error) && loop.tasks == old(loop.tasks)
    ensures (h.FinallyOnFulfilled? || h.FinallyOnRejected?) && h.onFinally.Returns? ==>
              && derived != null && fresh(derived) && derived.State() == Initial(Null)
              && o == Returns(Prom(derived))
              && |loop.tasks| == |old(loop.tasks)| + 1
              && loop.tasks[..|old(loop.tasks)|] == old(loop.tasks)
              && FinallyTask(loop.tasks[|old(loop.tasks)|], h, arg, derived)
  {
    derived := null;
    match h
    case Identity => o := Returns(arg);
    case Rethrow => o := Raises(arg);
    case User(out) => o := out;
    case ResumeResolution(p) =>
      var r, d := ResolutionProcedure(p, arg, loop);
      o, derived := Returns(r), d;
    case RejectInto(p) =>
      p.Reject(arg, loop);
      o := Returns(Undefined);
    case FinallyOnFulfilled(fin) =>
      // the fulfilment handler: resolve onFinally's result, then give back the value
      if fin.Raises? {
        o := Raises(fin.error);
      } else {
        var p := PromiseImpl.StaticResolve(fin.value);
        var q := p.Then(Function(User(Returns(arg))), NotAFunction, loop);
        o, derived := Returns(Prom(q)), q;
      }
    case FinallyOnRejected(fin) =>
      // the rejection handler: resolve onFinally's result, then rethrow the reason
      if fin.Raises? {
        o := Raises(fin.error);
      } else {
        var p := PromiseImpl.StaticResolve(fin.value);
        var q := p.Then(Function(User(Raises(arg))), NotAFunction, loop);
        o, derived := Returns(Prom(q)), q;
      }
  }

  /** The task a `finally` handler schedules: on a new promise fulfilled with what
      onFinally returned, a handler that gives back the original value or reason. */
  ghost predicate FinallyTask(t: Task, h: Handler, arg: Value, q: PromiseImpl)
    requires h.FinallyOnFulfilled? || h.FinallyOnRejected?
    requires h.onFinally.Returns?
    reads t.source
  {
    && t.side == OnFulfilled
    && t.source.State() == Snapshot(Fulfilled, h.onFinally.value, Null, [], [])
    && t.handler == (if h.FinallyOnFulfilled? then User(Returns(arg)) else User(Raises(arg)))
    && t.target == q
  }

  /** The value (OnFulfilled) or reason (OnRejected) a task hands to its handler. */
  ghost function Argument(t: Task): Value
    reads t.source
  {
    if t.side == OnFulfilled then t.source.value else t.source.reason
  }

  /** The objects running task t may change, besides new ones and the loop. */
  ghost function TaskFrame(t: Task): set<object>
    reads t.source
  {
    var arg := Argument(t);
    {t.target} + HandlerFrame(t.handler, arg)
    + match t.handler
      case Identity => AdoptFrame(t.target, arg)
      case User(o) => if o.Returns? then AdoptFrame(t.target, o.value) else {}
      case _ => {}
  }

  /** A run of task t whose handler only computes: the handler's outcome resolves or
      rejects t.target. */
  twostate predicate ComputedEffect(t: Task, arg: Value, new second: PromiseImpl?,
                                    new before: seq<Task>, new after: seq<Task>)
    requires Computes(t.handler)
    reads t.target, AdoptFrame(t.target, if ComputedOutcome(t.handler, arg).Returns? then ComputedOutcome(t.handler, arg).value else Undefined), second
  {
    match ComputedOutcome(t.handler, arg)
    case Returns(x) => ResolvedBy(t.target, x, second, before, after)
    case Raises(e) => SettledBy(t.target, OnRejected, e, before, after)
  }

  /** A run of a task whose handler is `promise`'s `reject`: `promise` is rejected with arg,
      then the handler's `undefined` fulfils t.target. */
  twostate predicate RejectIntoEffect(t: Task, arg: Value, new before: seq<Task>, new mid: seq<Task>, new after: seq<Task>)
    requires t.handler.RejectInto?
    reads t.target, t.handler.promise
  {
    && SettledBy(t.handler.promise, OnRejected, arg, before, mid)
    && SettledBy(t.target, OnFulfilled, Undefined, mid, after)
  }

  /** A run of a task whose handler resumes [[Resolve]](promise, arg) for the promise that
      follows t.source (clause 2.3.2.2). When arg is not another promise, [[Resolve]] acts
      as Decide says and t.target is fulfilled with the handler's undefined; this covers
      the chaining cycle arg == Prom(promise), which rejects promise with a TypeError. When
      arg is another promise B, `promise` now follows B through the new promise `first`,
      and t.target follows `first` through the new promise `second`. */
  twostate predicate ResumeEffect(t: Task, arg: Value, new first: PromiseImpl?, new second: PromiseImpl?,
                                  new before: seq<Task>, new mid: seq<Task>, new after: seq<Task>)
    requires t.handler.ResumeResolution?
    reads t.target, t.handler.promise, AdoptFrame(t.handler.promise, arg), first, second
  {
    var promise := t.handler.promise;
    if !arg.Prom? || arg.p == promise then
      && ResolvedBy(promise, arg, first, before, mid)
      && SettledBy(t.target, OnFulfilled, Undefined, mid, after)
    else
      var b := arg.p;
      && first != null && fresh(first) && second != null && fresh(second)
      && unchanged(promise)
      && b.State() == Register(old(b.State()), Defer(Reaction(OnFulfilled, b, ResumeResolution(promise), first)),
                                               Defer(Reaction(OnRejected, b, RejectInto(promise), first)))
      && mid == before + Immediate(old(b.status), b, ResumeResolution(promise), RejectInto(promise), first)
      && FollowsNew(t.target, first, second)
      && after == mid
  }

  /** A run of a `finally` task: if onFinally throws e, t.target is rejected with e;
      otherwise one task is scheduled that will give back the original value or reason,
      and t.target follows the promise `first` that this task will settle. */
  twostate predicate FinallyEffect(t: Task, arg: Value, new first: PromiseImpl?, new second: PromiseImpl?,
                                   new before: seq<Task>, new mid: seq<Task>, new after: seq<Task>)
    requires t.handler.FinallyOnFulfilled? || t.handler.FinallyOnRejected?
    reads t.target, first, second, if |mid| > 0 then {mid[|mid| - 1].source} else {}
  {
    if t.handler.onFinally.Raises?
    then SettledBy(t.target, OnRejected, t.handler.onFinally.error, before, after)
    else
      && first != null && fresh(first) && second != null && fresh(second)
      && |mid| == |before| + 1 && mid[..|before|] == before
      && FinallyTask(mid[|before|], t.handler, arg, first)
      && FollowsNew(t.target, first, second)
      && after == mid
  }

  /** The task queue behind `setTimeout(fn, 0)`: tasks run one at a time, oldest first. */
  class EventLoop {
    var tasks: seq<Task>

    constructor ()
      ensures tasks == []
    {
      tasks := [];
    }

    /** setTimeout(task, 0). */
    method Schedule(t: Task)
      modifies this
      ensures tasks == old(tasks) + [t]
    {
      tasks := tasks + [t];
    }

    /** invokeArrayFns(fns, arg): every callback is called once, in array order; each
        schedules its task. The callbacks `then` pushes do not use arg. */
    method InvokeArrayFns(fns: seq<Callback>, arg: Value)
      modifies this
      ensures tasks == old(tasks) + Tasks(fns)
    {
      var i := 0;
      while i < |fns|
        invariant 0 <= i <= |fns|
        invariant tasks == old(tasks) + Tasks(fns[..i])
      {
        Schedule(fns[i].task);
        assert Tasks(fns[..i + 1]) == Tasks(fns[..i]) + [fns[i].task];
        i := i + 1;
      }
      assert fns[..|fns|] == fns;
    }

    /** Runs the oldest task: the body of the `setTimeout` callback in `then`
        (`let x = handler(arg)`, then [[Resolve]](promise2, x), or `reject(e)` if the
        handler throws e). Tasks already queued keep their order ahead of those the run
        schedules. */
    method RunNext() returns (ghost mid: seq<Task>, ghost first: PromiseImpl?, ghost second: PromiseImpl?)
      requires tasks != []
      modifies this, TaskFrame(tasks[0])
      ensures old(tasks[1..]) <= mid <= tasks
      ensures var t := old(tasks[0]);
              Computes(t.handler) ==> ComputedEffect(t, old(Argument(t)), second, old(tasks[1..]), tasks)
      ensures var t := old(tasks[0]);
              t.handler.RejectInto? && t.handler.promise != t.target ==>
                RejectIntoEffect(t, old(Argument(t)), old(tasks[1..]), mid, tasks)
      ensures var t := old(tasks[0]); var arg := old(Argument(t));
              t.handler.ResumeResolution? && t.handler.promise != t.target
              && t.target !in AdoptFrame(t.handler.promise, arg) ==>
                ResumeEffect(t, arg, first, second, old(tasks[1..]), mid, tasks)
      ensures var t := old(tasks[0]);
              (t.handler.FinallyOnFulfilled? || t.handler.FinallyOnRejected?) ==>
                FinallyEffect(t, old(Argument(t)), first, second, old(tasks[1..]), mid, tasks)
    {
      var h := tasks[0].handler;
      if Computes(h) {
        mid, second := RunComputed();
        first := null;
      } else if h.RejectInto? {
        mid := RunRejectInto();
        first, second := null, null;
      } else if h.ResumeResolution? {
        mid, first, second := RunResume();
      } else {
        mid, first, second := RunFinally();
      }
    }

    /** RunNext on a task whose handler only computes. */
    method RunComputed() returns (ghost mid: seq<Task>, ghost second: PromiseImpl?)
      requires tasks != [] && Computes(tasks[0].handler)
      modifies this, TaskFrame(tasks[0])
      ensures mid == old(tasks[1..]) && mid <= tasks
      ensures var t := old(tasks[0]); ComputedEffect(t, old(Argument(t)), second, old(tasks[1..]), tasks)
    {
      var t := tasks[0];
      tasks := tasks[1..];
      mid := tasks;
      var arg := if t.side == OnFulfilled then t.source.value else t.source.reason;
      var o, _ := Invoke(t.handler, arg, this);
      if o.Returns? {
        var x := o.value;
        label L:
        var _, d := ResolutionProcedure(t.target, x, this);
        second := d;
        if Decide(t.target, x).Adopt? {
          var p := Decide(t.target, x).source;
          assert old(allocated(p)) ==> old(p.State()) == old@L(p.State()) && old(p.status) == old@L(p.status);
        }
      } else {
        t.target.Reject(o.error, this);
        second := null;
      }
    }

    /** RunNext on a task whose handler is another promise's `reject` (clause 2.3.2). */
    method RunRejectInto() returns (ghost mid: seq<Task>)
      requires tasks != [] && tasks[0].handler.RejectInto?
      modifies this, TaskFrame(tasks[0])
      ensures old(tasks[1..]) <= mid <= tasks
      ensures var t := old(tasks[0]);
              t.handler.promise != t.target ==> RejectIntoEffect(t, old(Argument(t)), old(tasks[1..]), mid, tasks)
    {
      var t := tasks[0];
      tasks := tasks[1..];
      var arg := if t.side == OnFulfilled then t.source.value else t.source.reason;
      t.handler.promise.Reject(arg, this);
      mid := tasks;
      var _, _ := ResolutionProcedure(t.target, Undefined, this);
    }

    /** RunNext on a task that resumes another promise's resolution (clause 2.3.2). */
    method RunResume() returns (ghost mid: seq<Task>, ghost first: PromiseImpl?, ghost second: PromiseImpl?)
      requires tasks != [] && tasks[0].handler.ResumeResolution?
      modifies this, TaskFrame(tasks[0])
      ensures old(tasks[1..]) <= mid <= tasks
      ensures var t := old(tasks[0]); var arg := old(Argument(t));
              t.handler.promise != t.target && t.target !in AdoptFrame(t.handler.promise, arg) ==>
                ResumeEffect(t, arg, first, second, old(tasks[1..]), mid, tasks)
    {
      var t := tasks[0];
      tasks := tasks[1..];
      var arg := if t.side == OnFulfilled then t.source.value else t.source.reason;
      label L:
      var r, d := ResolutionProcedure(t.handler.promise, arg, this);
      first := d;
      if Decide(t.handler.promise, arg).Adopt? {
        var p := Decide(t.handler.promise, arg).source;
        assert old(allocated(p)) ==> old(p.State()) == old@L(p.State()) && old(p.status) == old@L(p.status);
      }
      mid := tasks;
      var _, d2 := ResolutionProcedure(t.target, r, this);
      second := d2;
    }

    /** RunNext on a task whose handler one of `finally`'s. */
    method RunFinally() returns (ghost mid: seq<Task>, ghost first: PromiseImpl?, ghost second: PromiseImpl?)
      requires tasks != [] && (tasks[0].handler.FinallyOnFulfilled? || tasks[0].handler.FinallyOnRejected?)
      modifies this, TaskFrame(tasks[0])
      ensures old(tasks[1..]) <= mid <= tasks
      ensures var t := old(tasks[0]); FinallyEffect(t, old(Argument(t)), first, second, old(tasks[1..]), mid, tasks)
    {
      var t := tasks[0];
      tasks := tasks[1..];
      var arg := if t.side == OnFulfilled then t.source.value else t.source.reason;
      var o, d := Invoke(t.handler, arg, this);
      first := d;
      mid := tasks;
      if o.Returns? {
        var _, d2 := ResolutionProcedure(t.target, o.value, this);
        second := d2;
      } else {
        t.target.Reject(o.error, this);
        second := null;
      }
    }
  }

  class PromiseImpl {
    var status: Status
    var value: Value
    var reason: Value
    var onFulfilledCbs: seq<Callback>
    var onRejectedCbs: seq<Callback>

    function State(): PromiseState
      reads this
    {
      Snapshot(status, value, reason, onFulfilledCbs, onRejectedCbs)
    }

    /** new PromiseImpl(executor): the executor runs at once with the internal `resolve`
        and `reject`; an exception it throws rejects the promise, if still pending. */
    constructor (executor: Script<PromiseImpl>)
      ensures State() == RunExecutor(executor)
      ensures Clean(State(), Null)
    {
      ExecutorOutcome<PromiseImpl, Callback>(executor);
      var s := RunExecutor<PromiseImpl, Callback>(executor);
      status, value, reason := s.status, s.value, s.reason;
      onFulfilledCbs, onRejectedCbs := [], [];
    }

    /** The internal `resolve` capability: fulfils directly, without the resolution
        procedure, and calls the fulfilment callbacks. */
    method Resolve(v: Value, loop: EventLoop)
      modifies this, loop
      ensures SettledBy(this, OnFulfilled, v, old(loop.tasks), loop.tasks)
      ensures Clean(old(State()), Null) ==> Clean(State(), Null)
    {
      if status == Pending {
        status := Fulfilled;
        value := v;
        loop.InvokeArrayFns(onFulfilledCbs, value);
      }
    }

    /** The internal `reject` capability. */
    method Reject(r: Value, loop: EventLoop)
      modifies this, loop
      ensures SettledBy(this, OnRejected, r, old(loop.tasks), loop.tasks)
      ensures Clean(old(State()), Null) ==> Clean(State(), Null)
    {
      if status == Pending {
        status := Rejected;
        reason := r;
        loop.InvokeArrayFns(onRejectedCbs, reason);
      }
    }

    /** then(onFulfilled, onRejected): returns a new promise at once and runs no handler;
        the handler runs later, from a task. */
    method Then(onFulfilled: HandlerArg, onRejected: HandlerArg, loop: EventLoop) returns (promise2: PromiseImpl)
      modifies this, loop
      ensures ThenEffect(this, Defaulted(onFulfilled, OnFulfilled), Defaulted(onRejected, OnRejected),
                         promise2, old(loop.tasks), loop.tasks)
      ensures Clean(old(State()), Null) ==> Clean(State(), Null)
      ensures Clean(promise2.State(), Null)
    {
      var f := Defaulted(onFulfilled, OnFulfilled);
      var r := Defaulted(onRejected, OnRejected);
      promise2 := new PromiseImpl(Script([], Completes));
      ExecutorOutcome<PromiseImpl, Callback>(Script([], Completes));
      if status == Fulfilled {
        loop.Schedule(Reaction(OnFulfilled, this, f, promise2));
      }
      if status == Rejected {
        loop.Schedule(Reaction(OnRejected, this, r, promise2));
      }
      if status == Pending {
        onFulfilledCbs := onFulfilledCbs + [Defer(Reaction(OnFulfilled, this, f, promise2))];
        onRejectedCbs := onRejectedCbs + [Defer(Reaction(OnRejected, this, r, promise2))];
      }
    }

    /** catch(onRejected): `this.then(null, onRejected)`, whose result is dropped: it
        returns undefined. */
    method Catch(onRejected: HandlerArg, loop: EventLoop) returns (ghost dropped: PromiseImpl)
      modifies this, loop
      ensures ThenEffect(this, Identity, Defaulted(onRejected, OnRejected), dropped, old(loop.tasks), loop.tasks)
    {
      dropped := Then(NotAFunction, onRejected, loop);
    }

    /** finally(onFinally), with onFinally abstracted by its outcome. */
    method Finally(onFinally: Outcome, loop: EventLoop) returns (promise2: PromiseImpl)
      modifies this, loop
      ensures ThenEffect(this, FinallyOnFulfilled(onFinally), FinallyOnRejected(onFinally),
                         promise2, old(loop.tasks), loop.tasks)
    {
      promise2 := Then(Function(FinallyOnFulfilled(onFinally)), Function(FinallyOnRejected(onFinally)), loop);
    }

    /** PromiseImpl.resolve(value): fulfilled with value as it is, even when value is
        itself a promise or a thenable. */
    static method StaticResolve(v: Value) returns (p: PromiseImpl)
      ensures fresh(p) && p.State() == Snapshot(Fulfilled, v, Null, [], [])
    {
      p := new PromiseImpl(Script([ResolveCall(v)], Completes));
      ExecutorOutcome<PromiseImpl, Callback>(Script([ResolveCall(v)], Completes));
    }

    /** PromiseImpl.reject(reason). */
    static method StaticReject(r: Value) returns (p: PromiseImpl)
      ensures fresh(p) && p.State() == Snapshot(Rejected, Null, r, [], [])
    {
      p := new PromiseImpl(Script([RejectCall(r)], Completes));
      ExecutorOutcome<PromiseImpl, Callback>(Script([RejectCall(r)], Completes));
    }

    /** PromiseImpl.deferred(): a new pending promise; the handle's `resolve` and `reject`
        are its internal capabilities, Resolve and Reject above. */
    static method Deferred() returns (p: PromiseImpl)
      ensures fresh(p) && p.State() == Initial(Null)
    {
      p := new PromiseImpl(Script([], Completes));
      ExecutorOutcome<PromiseImpl, Callback>(Script([], Completes));
    }
  }
}
