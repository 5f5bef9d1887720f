/** `OverSpinner`: the spin-over policy of the Spinner generation, with its static default. */
module OverSpinners {
  import opened Objects
  import opened Invocations
  import opened Policies

  /** The static field `defaultWait`, initially true. */
  class Defaults {
    var wait: bool

    constructor ()
      ensures wait
    {
      wait := true;
    }

    method GetDefaultWait() returns (w: bool)
      ensures w == wait
    {
      w := wait;
    }

    method SetDefaultWait(w: bool)
      modifies this
      ensures wait == w
    {
      wait := w;
    }
  }

  /** `new OverSpinner(wait)`. */
  function Create(wait: bool): Spinner {
    OverSpinner(wait)
  }

  /** `new OverSpinner()`: the default wait flag current now. */
  function CreateWithDefault(d: Defaults): Spinner
    reads d
  {
    Create(d.wait)
  }

  /** The flag is copied: a spinner built before `setDefaultWait` keeps the old value. */
  method DefaultWaitIsCopied(d: Defaults, w: bool) returns (before: Spinner, after: Spinner)
    modifies d
    ensures before == OverSpinner(old(d.wait)) && after == OverSpinner(w)
  {
    before := CreateWithDefault(d);
    d.SetDefaultWait(w);
    after := CreateWithDefault(d);
  }

  /**
   * `spin`: on the EDT evaluate in place; elsewhere `invokeAndWait` when
   * waiting, else check the return type against null and `invokeLater`.
   */
  method Spin(spinner: Spinner, inv: Invocation, t: Target, onEDT: bool, rt: Runtime) returns (raised: Option<Throwable>)
    requires spinner.OverSpinner?
    modifies inv, rt
    ensures var run := OverSpinnerRun(spinner.wait, old(inv.invokedMethod), old(inv.State()), old(inv.Call(t)), onEDT);
      inv.State() == run.post && raised == run.raised && rt.log == old(rt.log) + run.events &&
      rt.later == old(rt.later) + (if run.deferred then [inv] else [])
    ensures rt.nextDispatcher == old(rt.nextDispatcher)
    ensures inv.target == old(inv.target) && inv.invokedMethod == old(inv.invokedMethod) && inv.args == old(inv.args)
  {
    raised := None;
    if onEDT {
      inv.Evaluate(t, rt);
    } else if spinner.wait {
      rt.Record(RanAndWaited);
      inv.Evaluate(t, rt);
    } else {
      if inv.invokedMethod.None? {
        return Some(NullPointer);
      }
      if ReturnTypeOrNull(inv.invokedMethod.value).None? {
        return Some(IllegalArgument(NoInvokeLater));
      }
      rt.ScheduleLater(inv);
    }
  }
}
