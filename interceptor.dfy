/** The default `Interceptor`: intercepting an invocation is starting it. */
module Interceptors {
  import opened Objects
  import opened Invocations
  import opened Policies
  import opened InvocationStart

  /**
   * `intercept` returns what `start` returns and lets what it throws pass;
   * the invocation is spun exactly once and its call is left as it was.
   */
  method Intercept(inv: Invocation, t: Target, onEDT: bool, workerRan: bool, rt: Runtime) returns (r: Result<Value>)
    requires !inv.kind.PlainKind?
    modifies inv, rt
    ensures var run := SpinOf(inv.kind, old(inv.State()), old(inv.Call(t)), onEDT, workerRan);
      inv.State() == run.post && r == StartResult(run) && rt.log == old(rt.log) + run.events &&
      rt.later == old(rt.later) + (if run.deferred then [inv] else [])
    ensures rt.nextDispatcher == old(rt.nextDispatcher)
    ensures inv.target == old(inv.target) && inv.invokedMethod == old(inv.invokedMethod) && inv.args == old(inv.args)
  {
    r := Start(inv, t, onEDT, workerRan, rt);
  }
}
