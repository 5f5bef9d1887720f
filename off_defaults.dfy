/**
 * The static defaults `defaultDispatcherFactory` and `defaultStarter` that
 * `OffSpinner` and `SpinOffEvaluator` each keep, one `Defaults` object per
 * class, and that their no-argument and one-argument constructors copy.
 */
module OffDefaults {
  import opened Objects

  class Defaults {
    var dispatcherFactory: Option<FactoryRef>
    var starter: Option<StarterRef>

    constructor ()
      ensures dispatcherFactory == Some(AwtReflectDispatcherFactory) && starter == Some(SimpleStarter)
    {
      dispatcherFactory, starter := Some(AwtReflectDispatcherFactory), Some(SimpleStarter);
    }

    method GetDefaultDispatcherFactory() returns (f: Option<FactoryRef>)
      ensures f == dispatcherFactory
    {
      f := dispatcherFactory;
    }

    /** Replaces the default factory, null included; the default starter is untouched. */
    method SetDefaultDispatcherFactory(f: Option<FactoryRef>)
      modifies this
      ensures dispatcherFactory == f && starter == old(starter)
    {
      dispatcherFactory := f;
    }

    method GetDefaultStarter() returns (s: Option<StarterRef>)
      ensures s == starter
    {
      s := starter;
    }

    /** Replaces the default starter, null included; the default factory is untouched. */
    method SetDefaultStarter(s: Option<StarterRef>)
      modifies this
      ensures starter == s && dispatcherFactory == old(dispatcherFactory)
    {
      starter := s;
    }
  }
}
