/** The state machine of one promise (clauses 2.1 and 2.2 of Promises/A+), on values.
    A Snapshot holds the five fields a PromiseImpl object carries: its status, its
    value and reason slots, and the two callback arrays that `then` appends to while
    the promise is pending. V is the type of JavaScript values, C the type of the
    callbacks; both stay abstract here. */
module Settlement {

  datatype Status = Pending | Fulfilled | Rejected

  /** Which of the two capabilities settles a promise, and which callback array it drains:
      the internal `resolve` (OnFulfilled) or the internal `reject` (OnRejected). */
  datatype Side = OnFulfilled | OnRejected

  datatype Snapshot<V, C> = Snapshot(
    status: Status,
    value: V,
    reason: V,
    onFulfilledCbs: seq<C>,
    onRejectedCbs: seq<C>)

  /** The status a side settles to. */
  function Target(side: Side): Status
  {
    if side == OnFulfilled then Fulfilled else Rejected
  }

  /** A freshly constructed promise: pending, both slots holding `none` (JavaScript null),
      both callback arrays empty. */
  function Initial<V, C>(none: V): Snapshot<V, C>
  {
    Snapshot(Pending, none, none, [], [])
  }

  /** The callback array a side drains. */
  function Callbacks<V, C>(s: Snapshot<V, C>, side: Side): seq<C>
  {
    if side == OnFulfilled then s.onFulfilledCbs else s.onRejectedCbs
  }

  /** The internal `resolve(x)` (side OnFulfilled) or `reject(x)` (side OnRejected):
      only a pending promise changes; it takes the side's status and stores x in the
      side's slot. The callback arrays are left as they are (they are never cleared). */
  function Settle<V, C>(s: Snapshot<V, C>, side: Side, x: V): Snapshot<V, C>
  {
    if s.status != Pending then s
    else if side == OnFulfilled then s.(status := Fulfilled, value := x)
    else s.(status := Rejected, reason := x)
  }

  /** The callbacks that `invokeArrayFns` runs when `Settle(s, side, _)` is called:
      the side's whole array if the promise was pending, nothing otherwise. */
  function Drained<V, C>(s: Snapshot<V, C>, side: Side): seq<C>
  {
    if s.status == Pending then Callbacks(s, side) else []
  }

  /** What `then` does to its receiver's arrays: while pending it pushes one callback on
      each array; once settled it pushes nothing (it schedules a task instead). */
  function Register<V, C>(s: Snapshot<V, C>, onFulfilled: C, onRejected: C): Snapshot<V, C>
  {
    if s.status == Pending
    then s.(onFulfilledCbs := s.onFulfilledCbs + [onFulfilled], onRejectedCbs := s.onRejectedCbs + [onRejected])
    else s
  }

  /** value and reason are never both set: a pending promise holds `none` in both slots,
      a fulfilled one `none` as its reason, a rejected one `none` as its value. */
  ghost predicate Clean<V, C>(s: Snapshot<V, C>, none: V)
  {
    && (s.status == Pending ==> s.value == none && s.reason == none)
    && (s.status == Fulfilled ==> s.reason == none)
    && (s.status == Rejected ==> s.value == none)
  }

  /** One call on a promise: a settlement attempt through a capability, or a `then`
      registration. */
  datatype Step<V, C> = SettleStep(side: Side, x: V) | RegisterStep(onFulfilled: C, onRejected: C)

  /** The state after a sequence of calls, and the callbacks run along the way, in order. */
  datatype Effect<V, C> = Effect(state: Snapshot<V, C>, fired: seq<C>)

  function Apply<V, C>(s: Snapshot<V, C>, step: Step<V, C>): Effect<V, C>
  {
    match step
    case SettleStep(side, x) => Effect(Settle(s, side, x), Drained(s, side))
    case RegisterStep(f, r) => Effect(Register(s, f, r), [])
  }

  function Run<V, C>(s: Snapshot<V, C>, steps: seq<Step<V, C>>): Effect<V, C>
    decreases |steps|
  {
    if steps == [] then Effect(s, [])
    else
      var e := Apply(s, steps[0]);
      var rest := Run(e.state, steps[1..]);
      Effect(rest.state, e.fired + rest.fired)
  }

  /** The callbacks of one side that a sequence of registrations pushes, in push order. */
  function Registered<V, C>(steps: seq<Step<V, C>>, side: Side): seq<C>
    decreases |steps|
  {
    if steps == [] then []
    else
      (match steps[0]
       case RegisterStep(f, r) => if side == OnFulfilled then [f] else [r]
       case SettleStep(_, _) => [])
      + Registered(steps[1..], side)
  }

  /** Settlement is one-shot: on a settled promise every later call (settlement attempt
      or registration) leaves status, value, reason and both arrays as they were, and no
      callback is run again. */
  lemma {:induction false} SettledIsFinal<V, C>(s: Snapshot<V, C>, steps: seq<Step<V, C>>)
    requires s.status != Pending
    ensures Run(s, steps) == Effect(s, [])
    decreases |steps|
  {
    if steps != [] {
      SettledIsFinal(s, steps[1..]);
    }
  }

  /** While no settlement attempt is made, the promise stays pending and each registration
      appends its callbacks to the matching arrays, in order; nothing runs. */
  lemma {:induction false} PendingQueues<V, C>(s: Snapshot<V, C>, steps: seq<Step<V, C>>)
    requires s.status == Pending
    requires forall j :: 0 <= j < |steps| ==> steps[j].RegisterStep?
    ensures Run(s, steps).fired == []
    ensures Run(s, steps).state
         == s.(onFulfilledCbs := s.onFulfilledCbs + Registered(steps, OnFulfilled),
               onRejectedCbs := s.onRejectedCbs + Registered(steps, OnRejected))
    decreases |steps|
  {
    if steps != [] {
      var t := Apply(s, steps[0]).state;
      PendingQueues(t, steps[1..]);
    }
  }

  /** The first settlement attempt on a pending promise wins: it sets the status and the
      matching slot, leaves the other slot, and runs exactly the callbacks registered on
      its side before it, each once and in push order; the other side's callbacks never
      run, and no later call changes any of this. */
  lemma {:induction false} FirstSettlementWins<V, C>(s: Snapshot<V, C>, steps: seq<Step<V, C>>, k: nat)
    requires s.status == Pending
    requires k < |steps| && steps[k].SettleStep?
    requires forall j :: 0 <= j < k ==> steps[j].RegisterStep?
    ensures Run(s, steps).fired == Callbacks(s, steps[k].side) + Registered(steps[..k], steps[k].side)
    ensures Run(s, steps).state.status == Target(steps[k].side)
    ensures Run(s, steps).state.value == (if steps[k].side == OnFulfilled then steps[k].x else s.value)
    ensures Run(s, steps).state.reason == (if steps[k].side == OnRejected then steps[k].x else s.reason)
    ensures Run(s, steps).state.onFulfilledCbs == s.onFulfilledCbs + Registered(steps[..k], OnFulfilled)
    ensures Run(s, steps).state.onRejectedCbs == s.onRejectedCbs + Registered(steps[..k], OnRejected)
    decreases k
  {
    var e := Apply(s, steps[0]);
    if k == 0 {
      SettledIsFinal(e.state, steps[1..]);
    } else {
      FirstSettlementWins(e.state, steps[1..], k - 1);
      assert steps[1..][..k - 1] == steps[..k][1..];
    }
  }

  /** Every call keeps value and reason exclusive. */
  lemma {:induction false} RunKeepsClean<V, C>(s: Snapshot<V, C>, steps: seq<Step<V, C>>, none: V)
    requires Clean(s, none)
    ensures Clean(Run(s, steps).state, none)
    decreases |steps|
  {
    if steps != [] {
      RunKeepsClean(Apply(s, steps[0]).state, steps[1..], none);
    }
  }
}
