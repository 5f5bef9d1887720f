/** `SpinOffEvaluator`: the spin-off policy of the Evaluator generation, with its static defaults. */
module SpinOffEvaluators {
  import opened Objects
  import opened Invocations
  import opened Policies
  import opened OffDefaults

  /** `new SpinOffEvaluator(dispatcherFactory, starter)`. */
  function Create(dispatcherFactory: Option<FactoryRef>, starter: Option<StarterRef>): Evaluator {
    SpinOffEvaluator(dispatcherFactory, starter)
  }

  /** `new SpinOffEvaluator()`, `(dispatcherFactory)` and `(starter)`: the missing parts from the defaults current now. */
  function CreateWithDefaults(d: Defaults): Evaluator
    reads d
  {
    Create(d.dispatcherFactory, d.starter)
  }

  function CreateWithFactory(d: Defaults, dispatcherFactory: Option<FactoryRef>): Evaluator
    reads d
  {
    Create(dispatcherFactory, d.starter)
  }

  function CreateWithStarter(d: Defaults, starter: Option<StarterRef>): Evaluator
    reads d
  {
    Create(d.dispatcherFactory, starter)
  }

  /** An evaluator copies the defaults when it is built. */
  method DefaultsAreCopied(d: Defaults, f: Option<FactoryRef>, s: Option<StarterRef>)
    returns (before: Evaluator, after: Evaluator)
    modifies d
    ensures before == SpinOffEvaluator(old(d.dispatcherFactory), old(d.starter))
    ensures after == SpinOffEvaluator(f, s)
  {
    before := CreateWithDefaults(d);
    d.SetDefaultDispatcherFactory(f);
    d.SetDefaultStarter(s);
    after := CreateWithDefaults(d);
  }

  /** `evaluate(invocation)`: the same steps as `OffSpinner.spin`. */
  method Evaluate(evaluator: Evaluator, inv: Invocation, t: Target, onEDT: bool, workerRan: bool, rt: Runtime)
    returns (raised: Option<Throwable>)
    requires evaluator.SpinOffEvaluator?
    modifies inv, rt
    ensures var run := CreatingRun(evaluator.dispatcherFactory, evaluator.starter, Dispatcher(old(rt.nextDispatcher)),
                                   old(inv.State()), old(inv.Call(t)), onEDT, workerRan);
      inv.State() == run.post && raised == run.raised && rt.log == old(rt.log) + run.events
    ensures rt.nextDispatcher == old(rt.nextDispatcher) + if onEDT && evaluator.dispatcherFactory.Some? then 1 else 0
    ensures rt.later == old(rt.later)
    ensures inv.target == old(inv.target) && inv.invokedMethod == old(inv.invokedMethod) && inv.args == old(inv.args)
  {
    if onEDT {
      if evaluator.dispatcherFactory.None? {
        return Some(NullPointer);
      }
      var d := rt.CreateDispatcher();
      if evaluator.starter.None? {
        return Some(NullPointer);
      }
      rt.Record(WorkerStarted(evaluator.starter.value));
      if workerRan {
        inv.Evaluate(t, rt);
        rt.Record(DispatcherStopped(d));
      }
      rt.Record(PumpReturned(d));
      if !inv.evaluated {
        return Some(Fatal(PrematureStop));
      }
      raised := None;
    } else {
      inv.Evaluate(t, rt);
      raised := None;
    }
  }
}
