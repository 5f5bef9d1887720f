/**
 * `CGLibProxyFactory`: a generated subclass of the object's class whose one
 * callback packs each call into a plain `Invocation` and hands it to the
 * proxy's `Spinner`, then returns its result or rethrows.
 */
module CglibProxyFactory {
  import opened Objects
  import opened Identity
  import opened Invocations
  import opened Policies
  import OffSpinners
  import OverSpinners
  import JdkProxyFactory

  /** The proxy a `SpinMethodInterceptor` `h` is callback 0 of. */
  function ProxyOf(h: Handler): (p: Value)
    requires h.CglibSpinInterceptor? && h.wrapped != Null
    ensures IsCglibSpinProxy(p) && p.callback == h
  {
    Enhanced(ClassOf(h.wrapped), h)
  }

  /** `createProxy`: `object.getClass()` throws NullPointerException on a null object. */
  function CreateProxy(o: Value, spinner: Option<Spinner>): (r: Result<Value>)
    ensures r.Err? <==> o == Null
    ensures r.Err? ==> r.error == NullPointer
    ensures r.Ok? ==> IsCglibSpinProxy(r.value) && r.value.callback == CglibSpinInterceptor(o, spinner) &&
                      r.value.superclass == ClassOf(o)
  {
    if o == Null then Err(NullPointer) else Ok(ProxyOf(CglibSpinInterceptor(o, spinner)))
  }

  /** What `spinner.spin(invocation)` does to a plain invocation of `m`; a null spinner throws. */
  function SpinnerRun(spinner: Option<Spinner>, m: MethodDesc, d: Dispatcher, pre: Snapshot, call: Result<Value>,
                      onEDT: bool, workerRan: bool): SpinRun
  {
    match spinner
    case None => SpinRun(pre, [], Some(NullPointer), false)
    case Some(OffSpinner(f, s)) => CreatingRun(f, s, d, pre, call, onEDT, workerRan)
    case Some(OverSpinner(w)) => OverSpinnerRun(w, Some(m), pre, call, onEDT)
  }

  /**
   * `SpinMethodInterceptor.intercept`: `equals` is the proxy's own equality;
   * any other call is spun once on the wrapped object (not on the proxy) and
   * its result returned, or the target's throwable rethrown unwrapped.
   */
  method Intercept(h: Handler, reflect: Target, m: MethodDesc, args: array?<Value>,
                   onEDT: bool, workerRan: bool, rt: Runtime) returns (r: Result<Value>)
    requires h.CglibSpinInterceptor? && Receiver(h.wrapped)
    requires m == EqualsMethod ==> args != null && args.Length == 1
    modifies rt
    ensures m == EqualsMethod ==>
      r == Ok(Boxed(JavaEquals(ProxyOf(h), args[0]))) &&
      rt.log == old(rt.log) && rt.later == old(rt.later) && rt.nextDispatcher == old(rt.nextDispatcher)
    ensures m != EqualsMethod ==>
      var run := SpinnerRun(h.spinner, m, Dispatcher(old(rt.nextDispatcher)), Fresh,
                            CallOf(reflect, h.wrapped, Some(m), ArgsOf(args)), onEDT, workerRan);
      r == StartResult(run) && rt.log == old(rt.log) + run.events &&
      |rt.later| == |old(rt.later)| + (if run.deferred then 1 else 0) && rt.later[..|old(rt.later)|] == old(rt.later)
  {
    if m == EqualsMethod {
      var other := args[0];
      r := Ok(Boxed(IsCglibSpinProxy(other) && HandlerEquals(h, other.callback)));
      return;
    }
    r := SpinCall(h.spinner, reflect, h.wrapped, m, args, onEDT, workerRan, rt);
  }

  /** One call of `m` on `target`, spun by `spinner` through a plain invocation. */
  method SpinCall(spinner: Option<Spinner>, reflect: Target, target: Value, m: MethodDesc, args: array?<Value>,
                  onEDT: bool, workerRan: bool, rt: Runtime) returns (r: Result<Value>)
    modifies rt
    ensures var run := SpinnerRun(spinner, m, Dispatcher(old(rt.nextDispatcher)), Fresh,
                                  CallOf(reflect, target, Some(m), ArgsOf(args)), onEDT, workerRan);
      r == StartResult(run) && rt.log == old(rt.log) + run.events &&
      |rt.later| == |old(rt.later)| + (if run.deferred then 1 else 0) && rt.later[..|old(rt.later)|] == old(rt.later)
  {
    var inv := new Invocation(PlainKind);
    inv.SetObject(target);
    inv.SetMethod(Some(m));
    inv.SetArguments(args);
    var raised: Option<Throwable>;
    match spinner {
      case None =>
        return Err(NullPointer);
      case Some(OffSpinner(_, _)) =>
        raised := OffSpinners.Spin(spinner.value, inv, reflect, onEDT, workerRan, rt);
      case Some(OverSpinner(_)) =>
        raised := OverSpinners.Spin(spinner.value, inv, reflect, onEDT, rt);
    }
    if raised.Some? {
      return Err(raised.value);
    }
    r := inv.ResultOrThrow();
  }

  /**
   * Whenever the spinner returns normally and has not only scheduled the
   * call, the caller gets exactly what the target returned or threw; a
   * scheduled call (spin-over without waiting) answers null at once.
   */
  lemma SpunCallDelivers(spinner: Option<Spinner>, m: MethodDesc, d: Dispatcher, call: Result<Value>,
                         onEDT: bool, workerRan: bool)
    ensures var run := SpinnerRun(spinner, m, d, Fresh, call, onEDT, workerRan);
      (run.raised.None? && !run.deferred ==> StartResult(run) == Delivered(call)) &&
      (run.deferred ==> StartResult(run) == Ok(Null) && spinner == Some(OverSpinner(false)) && !onEDT) &&
      (spinner.None? ==> StartResult(run) == Err(NullPointer))
  {
    match spinner
    case None =>
    case Some(OffSpinner(f, s)) =>
      PumpedStartDelivers(s, d, call, onEDT, workerRan);
    case Some(OverSpinner(w)) =>
      OverSpinnerReturnTypeCheckIsInert(w, m, Fresh, call, onEDT);
      OverDefersOnlyWithoutWait(w, call, onEDT);
  }

  /** Two proxies of the same object are equal, whatever their spinners. */
  lemma ProxiesOfSameObjectAreEqual(o: Value, s1: Option<Spinner>, s2: Option<Spinner>)
    requires Receiver(o)
    ensures JavaEquals(CreateProxy(o, s1).value, CreateProxy(o, s2).value)
  {
    EqualsReflexive(o);
  }

  /** Proxies of two distinct plain objects are not equal. */
  lemma ProxiesOfDifferentObjectsDiffer(o1: Value, o2: Value, s1: Option<Spinner>, s2: Option<Spinner>)
    requires o1.Plain? && o2.Plain? && o1 != o2
    ensures !JavaEquals(CreateProxy(o1, s1).value, CreateProxy(o2, s2).value)
  {
  }

  /** A CGLib proxy and a JDK proxy of the same object are never equal, either way round. */
  lemma FamiliesNeverEqual(o: Value, s: Option<Spinner>, e: Option<Evaluator>)
    requires Receiver(o)
    ensures !JavaEquals(CreateProxy(o, s).value, JdkProxyFactory.CreateProxy(o, e).value)
    ensures !JavaEquals(JdkProxyFactory.CreateProxy(o, e).value, CreateProxy(o, s).value)
  {
  }
}
