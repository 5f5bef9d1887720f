/** `Invocation.start`: spin the invocation, then return its result or rethrow. */
module InvocationStart {
  import opened Objects
  import opened Invocations
  import opened Policies
  import OffInvocations
  import OverInvocations

  /** The spin each subclass performs. */
  function SpinOf(kind: Kind, pre: Snapshot, call: Result<Value>, onEDT: bool, workerRan: bool): SpinRun
    requires !kind.PlainKind?
  {
    match kind
    case OffKind(s, d) => PumpedRun(s, d, pre, call, onEDT, workerRan)
    case OverKind(w) => OverRun(w, pre, call, onEDT)
  }

  /**
   * `start` spins once, then rethrows the captured throwable if there is one
   * and otherwise returns the captured result; what `spin` throws passes through.
   */
  method Start(inv: Invocation, t: Target, onEDT: bool, workerRan: bool, rt: Runtime) returns (r: Result<Value>)
    requires !inv.kind.PlainKind?
    modifies inv, rt
    ensures var run := SpinOf(inv.kind, old(inv.State()), old(inv.Call(t)), onEDT, workerRan);
      inv.State() == run.post && r == StartResult(run) && rt.log == old(rt.log) + run.events &&
      rt.later == old(rt.later) + (if run.deferred then [inv] else [])
    ensures rt.nextDispatcher == old(rt.nextDispatcher)
    ensures inv.target == old(inv.target) && inv.invokedMethod == old(inv.invokedMethod) && inv.args == old(inv.args)
  {
    var raised: Option<Throwable>;
    if inv.kind.OffKind? {
      raised := OffInvocations.Spin(inv, t, onEDT, workerRan, rt);
    } else {
      raised := OverInvocations.Spin(inv, t, onEDT, rt);
    }
    if raised.Some? {
      return Err(raised.value);
    }
    if inv.throwable.Some? {
      r := Err(inv.throwable.value);
    } else {
      r := Ok(inv.result);
    }
  }

  /**
   * Started on a fresh envelope, the caller gets exactly the target's outcome
   * whenever the spin itself neither fails nor defers the evaluation.
   */
  lemma StartDeliversTargetOutcome(kind: Kind, call: Result<Value>, onEDT: bool, workerRan: bool)
    requires !kind.PlainKind?
    ensures var run := SpinOf(kind, Fresh, call, onEDT, workerRan);
      run.raised.None? && !run.deferred ==> StartResult(run) == Delivered(call)
  {
    if kind.OffKind? {
      PumpedStartDelivers(kind.starter, kind.dispatcher, call, onEDT, workerRan);
    } else {
      OverDefersOnlyWithoutWait(kind.wait, call, onEDT);
    }
  }
}
