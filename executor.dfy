/** The executor run by the promise constructor (PromiseImpl.js, constructor). The
    executor receives the promise's internal `resolve` and `reject`, which fulfil or
    reject directly: they do not run the resolution procedure. An exception the
    executor throws is passed to `reject`. */
module Executor {
  import opened Settlement
  import opened Resolution

  function CallStep<P, C>(c: Call<P>): Step<Val<P>, C>
  {
    match c
    case ResolveCall(v) => SettleStep(OnFulfilled, v)
    case RejectCall(r) => SettleStep(OnRejected, r)
  }

  /** The settlement attempts an executor makes, in order: its own calls, then the
      constructor's `reject(e)` when it throws e. */
  function ExecutorSteps<P, C>(ex: Script<P>): (steps: seq<Step<Val<P>, C>>)
    ensures |steps| == |ex.calls| + (if ex.end.Throws? then 1 else 0)
    ensures forall j :: 0 <= j < |ex.calls| ==> steps[j] == CallStep(ex.calls[j])
    ensures ex.end.Throws? ==> steps[|ex.calls|] == SettleStep(OnRejected, ex.end.error)
    decreases |ex.calls|
  {
    if ex.calls == [] then
      (if ex.end.Throws? then [SettleStep(OnRejected, ex.end.error)] else [])
    else [CallStep(ex.calls[0])] + ExecutorSteps(Script(ex.calls[1..], ex.end))
  }

  /** The state of `new PromiseImpl(ex)` once the executor has returned or thrown. */
  function RunExecutor<P, C>(ex: Script<P>): Snapshot<Val<P>, C>
  {
    Run(Initial(Null), ExecutorSteps(ex)).state
  }

  /** The constructor's outcome: the executor's first call settles the promise, later
      calls and a later exception change nothing; an exception before any call rejects
      with the exception; an executor that neither calls nor throws leaves the promise
      pending. Both callback arrays end empty, so settling ran no callback. */
  lemma ExecutorOutcome<P, C>(ex: Script<P>)
    ensures ex.calls != [] && ex.calls[0].ResolveCall? ==>
              RunExecutor<P, C>(ex) == Snapshot(Fulfilled, ex.calls[0].value, Null, [], [])
    ensures ex.calls != [] && ex.calls[0].RejectCall? ==>
              RunExecutor<P, C>(ex) == Snapshot(Rejected, Null, ex.calls[0].reason, [], [])
    ensures ex.calls == [] && ex.end.Throws? ==>
              RunExecutor<P, C>(ex) == Snapshot(Rejected, Null, ex.end.error, [], [])
    ensures ex.calls == [] && ex.end.Completes? ==> RunExecutor<P, C>(ex) == Initial(Null)
    ensures Run(Initial<Val<P>, C>(Null), ExecutorSteps<P, C>(ex)).fired == []
  {
    var steps := ExecutorSteps<P, C>(ex);
    if steps != [] {
      FirstSettlementWins(Initial<Val<P>, C>(Null), steps, 0);
      assert steps[..0] == [];
    }
  }
}
