/** `OffInvocation`: an invocation that spins itself off the event-dispatch thread. */
module OffInvocations {
  import opened Objects
  import opened Invocations
  import opened Policies

  /** The constructor keeps the given starter and dispatcher as they are. */
  method NewOffInvocation(starter: Option<StarterRef>, dispatcher: Dispatcher) returns (inv: Invocation)
    ensures fresh(inv) && inv.kind == OffKind(starter, dispatcher)
    ensures inv.target == Null && inv.invokedMethod == None && inv.args == null && inv.State() == Fresh
  {
    inv := new Invocation(OffKind(starter, dispatcher));
  }

  /**
   * `spin`: on the EDT, start a worker that evaluates and then stops the
   * dispatcher, pump with the dispatcher, and raise an Error if the pump
   * returned before the invocation was evaluated; elsewhere evaluate in place.
   */
  method Spin(inv: Invocation, t: Target, onEDT: bool, workerRan: bool, rt: Runtime)
    returns (raised: Option<Throwable>)
    requires inv.kind.OffKind?
    modifies inv, rt
    ensures var run := PumpedRun(inv.kind.starter, inv.kind.dispatcher, old(inv.State()), old(inv.Call(t)),
                                 onEDT, workerRan);
      inv.State() == run.post && raised == run.raised && rt.log == old(rt.log) + run.events
    ensures rt.later == old(rt.later) && rt.nextDispatcher == old(rt.nextDispatcher)
    ensures inv.target == old(inv.target) && inv.invokedMethod == old(inv.invokedMethod) && inv.args == old(inv.args)
  {
    var d := inv.kind.dispatcher;
    if onEDT {
      if inv.kind.starter.None? {
        return Some(NullPointer);
      }
      rt.Record(WorkerStarted(inv.kind.starter.value));
      if workerRan {
        inv.Evaluate(t, rt);
        rt.Record(DispatcherStopped(d));
      }
      rt.Record(PumpReturned(d));
      if !inv.evaluated {
        return Some(Fatal(PrematureStop));
      }
      raised := None;
    } else {
      inv.Evaluate(t, rt);
      raised := None;
    }
  }
}
