/** `OverInvocation`: an invocation that spins itself over to the event-dispatch thread. */
module OverInvocations {
  import opened Objects
  import opened Invocations
  import opened Policies

  /** The constructor keeps the wait flag. */
  method NewOverInvocation(wait: bool) returns (inv: Invocation)
    ensures fresh(inv) && inv.kind == OverKind(wait)
    ensures inv.target == Null && inv.invokedMethod == None && inv.args == null && inv.State() == Fresh
  {
    inv := new Invocation(OverKind(wait));
  }

  /**
   * `spin`: on the EDT evaluate in place; elsewhere hand the evaluation to
   * the EDT with `invokeAndWait` when waiting, else with `invokeLater`.
   */
  method Spin(inv: Invocation, t: Target, onEDT: bool, rt: Runtime) returns (raised: Option<Throwable>)
    requires inv.kind.OverKind?
    modifies inv, rt
    ensures var run := OverRun(inv.kind.wait, old(inv.State()), old(inv.Call(t)), onEDT);
      inv.State() == run.post && raised == run.raised && rt.log == old(rt.log) + run.events &&
      rt.later == old(rt.later) + (if run.deferred then [inv] else [])
    ensures rt.nextDispatcher == old(rt.nextDispatcher)
    ensures inv.target == old(inv.target) && inv.invokedMethod == old(inv.invokedMethod) && inv.args == old(inv.args)
  {
    raised := None;
    if onEDT {
      inv.Evaluate(t, rt);
    } else if inv.kind.wait {
      rt.Record(RanAndWaited);
      inv.Evaluate(t, rt);
    } else {
      rt.ScheduleLater(inv);
    }
  }
}
