/** `OffSpinner`: the spin-off policy of the Spinner generation, with its static defaults. */
module OffSpinners {
  import opened Objects
  import opened Invocations
  import opened Policies
  import opened OffDefaults

  /** `new OffSpinner(dispatcherFactory, starter)`: both arguments kept, neither checked. */
  function Create(dispatcherFactory: Option<FactoryRef>, starter: Option<StarterRef>): Spinner {
    OffSpinner(dispatcherFactory, starter)
  }

  /** `new OffSpinner()`: the defaults current now. */
  function CreateWithDefaults(d: Defaults): Spinner
    reads d
  {
    Create(d.dispatcherFactory, d.starter)
  }

  /** `new OffSpinner(dispatcherFactory)`: the default starter current now. */
  function CreateWithFactory(d: Defaults, dispatcherFactory: Option<FactoryRef>): Spinner
    reads d
  {
    Create(dispatcherFactory, d.starter)
  }

  /** `new OffSpinner(starter)`: the default factory current now. */
  function CreateWithStarter(d: Defaults, starter: Option<StarterRef>): Spinner
    reads d
  {
    Create(d.dispatcherFactory, starter)
  }

  /**
   * A spinner copies the defaults when it is built: changing a default later
   * leaves it as it was and only affects spinners built afterwards.
   */
  method DefaultsAreCopied(d: Defaults, f: Option<FactoryRef>, s: Option<StarterRef>)
    returns (before: Spinner, after: Spinner)
    modifies d
    ensures before == OffSpinner(old(d.dispatcherFactory), old(d.starter))
    ensures after == OffSpinner(f, s)
  {
    before := CreateWithDefaults(d);
    d.SetDefaultDispatcherFactory(f);
    d.SetDefaultStarter(s);
    after := CreateWithDefaults(d);
  }

  /**
   * `spin`: on the EDT create one dispatcher, start a worker that evaluates
   * and then stops it, pump, and raise an Error if the pump returned first;
   * elsewhere evaluate in place without creating anything.
   */
  method Spin(spinner: Spinner, inv: Invocation, t: Target, onEDT: bool, workerRan: bool, rt: Runtime)
    returns (raised: Option<Throwable>)
    requires spinner.OffSpinner?
    modifies inv, rt
    ensures var run := CreatingRun(spinner.dispatcherFactory, spinner.starter, Dispatcher(old(rt.nextDispatcher)),
                                   old(inv.State()), old(inv.Call(t)), onEDT, workerRan);
      inv.State() == run.post && raised == run.raised && rt.log == old(rt.log) + run.events
    ensures rt.nextDispatcher == old(rt.nextDispatcher) + if onEDT && spinner.dispatcherFactory.Some? then 1 else 0
    ensures rt.later == old(rt.later)
    ensures inv.target == old(inv.target) && inv.invokedMethod == old(inv.invokedMethod) && inv.args == old(inv.args)
  {
    if onEDT {
      if spinner.dispatcherFactory.None? {
        return Some(NullPointer);
      }
      var d := rt.CreateDispatcher();
      if spinner.starter.None? {
        return Some(NullPointer);
      }
      rt.Record(WorkerStarted(spinner.starter.value));
      if workerRan {
        inv.Evaluate(t, rt);
        rt.Record(DispatcherStopped(d));
      }
      rt.Record(PumpReturned(d));
      if !inv.evaluated {
        return Some(Fatal(PrematureStop));
      }
      raised := None;
    } else {
      inv.Evaluate(t, rt);
      raised := None;
    }
  }
}
