/** The Promise Resolution Procedure, [[Resolve]](promise, x) (section 2.3 of
    Promises/A+), as a pure decision. P is the type of references to the library's own
    promise objects; comparing two of them is comparing object identity (`===`).

    JavaScript's dynamic values collapse into Val. A user-written `then` function (of a
    thenable) or executor is abstracted by a Script: the calls it makes, synchronously
    and in order, to the two callbacks it is given, and whether it then returns or
    throws. */
module Resolution {

  datatype Val<P> =
    | Undefined
    | Null
    | Prim(n: int)                           // any other non-object: number, string, boolean, ...
    | TypeError                              // the `new TypeError(...)` raised on a chaining cycle
    | Obj(id: nat, thenSlot: ThenSlot<P>)    // an object or function that is not one of ours
    | Prom(p: P)                             // an instance of the library's promise class

  /** What reading the property `x.then` of an object or function gives. */
  datatype ThenSlot<P> =
    | NotCallable                            // a value whose `typeof` is not 'function'
    | ThrowsOnGet(error: Val<P>)             // a getter that throws
    | Callable(script: Script<P>)            // a function, and what it does when called

  datatype Call<P> = ResolveCall(value: Val<P>) | RejectCall(reason: Val<P>)

  datatype End<P> = Completes | Throws(error: Val<P>)

  datatype Script<P> = Script(calls: seq<Call<P>>, end: End<P>)

  /** What [[Resolve]] does to `promise` through its `resolve`/`reject` arguments. Adopt(q)
      is the call `q.then(...)` of clause 2.3.2, which makes `promise` follow q. */
  datatype Action<P> =
    | FulfilWith(value: Val<P>)
    | RejectWith(reason: Val<P>)
    | Adopt(source: P)
    | StaysPending

  /** A value that clauses 2.3.3.4 and 2.3.4 fulfil with as it is: neither one of our
      promises nor an object or function whose `then` is callable or throws. */
  predicate IsPlain<P>(x: Val<P>)
  {
    match x
    case Prom(_) => false
    case Obj(_, t) => t.NotCallable?
    case _ => true
  }

  /** What a decision may be: no adoption of the target by itself, and no fulfilment
      with a promise or a thenable. */
  predicate Sound<P(==)>(promise: P, a: Action<P>)
  {
    && (a.Adopt? ==> a.source != promise)
    && (a.FulfilWith? ==> IsPlain(a.value))
  }

  /** [[Resolve]](promise, x): the first matching clause decides. */
  function Decide<P(==)>(promise: P, x: Val<P>): (r: Action<P>)
    ensures x == Prom(promise) ==> r == RejectWith(TypeError)
    ensures x.Prom? && x.p != promise ==> r == Adopt(x.p)
    ensures IsPlain(x) ==> r == FulfilWith(x)
    ensures x.Obj? && x.thenSlot.ThrowsOnGet? ==> r == RejectWith(x.thenSlot.error)
    ensures Sound(promise, r)
    decreases x, 1
  {
    if x == Prom(promise) then RejectWith(TypeError)           // 2.3.1
    else if x.Prom? then Adopt(x.p)                             // 2.3.2
    else if x.Obj? then                                         // 2.3.3
      match x.thenSlot
      case ThrowsOnGet(e) => RejectWith(e)                      // 2.3.3.2, `called` still false
      case Callable(_) => CallThen(promise, x, 0, false, StaysPending)  // 2.3.3.3
      case NotCallable => FulfilWith(x)                         // 2.3.3.4
    else FulfilWith(x)                                          // 2.3.4
  }

  /** Running the thenable's `then` from its i-th call on, with the one-shot `called` flag
      shared by `resolvePromise`, `rejectPromise` and the `catch` around the call; acc is
      the decision of the call that set the flag. */
  function CallThen<P(==)>(promise: P, x: Val<P>, i: nat, called: bool, acc: Action<P>): (r: Action<P>)
    requires x.Obj? && x.thenSlot.Callable? && i <= |x.thenSlot.script.calls|
    requires !called ==> acc == StaysPending
    requires Sound(promise, acc)
    ensures Sound(promise, r)
    decreases x, 0, |x.thenSlot.script.calls| - i
  {
    var script := x.thenSlot.script;
    if i == |script.calls| then
      match script.end
      case Completes => acc
      case Throws(e) => if called then acc else RejectWith(e)   // 2.3.3.3.4
    else if called then CallThen(promise, x, i + 1, true, acc)  // 2.3.3.3.3: ignored
    else
      match script.calls[i]
      case ResolveCall(y) =>                                    // 2.3.3.3.1
        assert script.calls[i] in script.calls;
        CallThen(promise, x, i + 1, true, Decide(promise, y))
      case RejectCall(r) => CallThen(promise, x, i + 1, true, RejectWith(r))  // 2.3.3.3.2
  }

  /** The reference reading of clause 2.3.3.3: only the first call made by `then` counts;
      if it makes none, an exception it throws rejects, and returning normally leaves the
      promise pending. */
  function FirstCall<P(==)>(promise: P, script: Script<P>): Action<P>
  {
    if script.calls == [] then
      match script.end
      case Completes => StaysPending
      case Throws(e) => RejectWith(e)
    else
      match script.calls[0]
      case ResolveCall(y) => Decide(promise, y)
      case RejectCall(r) => RejectWith(r)
  }

  lemma {:induction false} CalledIsFinal<P>(promise: P, x: Val<P>, i: nat, acc: Action<P>)
    requires x.Obj? && x.thenSlot.Callable? && i <= |x.thenSlot.script.calls|
    requires Sound(promise, acc)
    ensures CallThen(promise, x, i, true, acc) == acc
    decreases |x.thenSlot.script.calls| - i
  {
    if i < |x.thenSlot.script.calls| {
      CalledIsFinal(promise, x, i + 1, acc);
    }
  }

  /** The guarded calls of the source decide exactly as the first call alone would. */
  lemma {:induction false} ThenableFirstCallWins<P>(promise: P, x: Val<P>)
    requires x.Obj? && x.thenSlot.Callable?
    ensures Decide(promise, x) == FirstCall(promise, x.thenSlot.script)
  {
    var script := x.thenSlot.script;
    if script.calls != [] {
      var a := match script.calls[0]
               case ResolveCall(y) => Decide(promise, y)
               case RejectCall(r) => RejectWith(r);
      CalledIsFinal(promise, x, 1, a);
    }
  }

  /** Repeated or mixed calls, and an exception raised after a call, change nothing: two
      thenables whose `then` make the same first call resolve `promise` alike. */
  lemma LaterCallsIgnored<P>(promise: P, x: Val<P>, x': Val<P>)
    requires x.Obj? && x.thenSlot.Callable? && x'.Obj? && x'.thenSlot.Callable?
    requires x.thenSlot.script.calls != [] && x'.thenSlot.script.calls != []
    requires x.thenSlot.script.calls[0] == x'.thenSlot.script.calls[0]
    ensures Decide(promise, x) == Decide(promise, x')
  {
    ThenableFirstCallWins(promise, x);
    ThenableFirstCallWins(promise, x');
  }
}
