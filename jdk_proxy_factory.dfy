/**
 * `JDKProxyFactory`: a JDK proxy over every interface of the object's class
 * chain, whose handler packs each call into a plain `Invocation` and hands it
 * to the proxy's `Evaluator`, then returns its result or rethrows.
 */
module JdkProxyFactory {
  import opened Objects
  import opened Identity
  import opened Invocations
  import opened Policies
  import Classes
  import SpinOffEvaluators

  /** The proxy a `SpinInvocationHandler` `h` answers for. */
  function ProxyOf(h: Handler): (p: Value)
    requires h.JdkSpinHandler? && h.wrapped != Null
    ensures IsJdkSpinProxy(p) && p.handler == h
  {
    JdkProxy(Classes.AllInterfaces(ClassOf(h.wrapped)), h)
  }

  /** `createProxy`: `object.getClass()` throws NullPointerException on a null object. */
  function CreateProxy(o: Value, evaluator: Option<Evaluator>): (r: Result<Value>)
    ensures r.Err? <==> o == Null
    ensures r.Err? ==> r.error == NullPointer
    ensures r.Ok? ==> IsJdkSpinProxy(r.value) && r.value.handler == JdkSpinHandler(o, evaluator) &&
                      r.value.interfaces == Classes.AllInterfaces(ClassOf(o))
  {
    if o == Null then Err(NullPointer) else Ok(ProxyOf(JdkSpinHandler(o, evaluator)))
  }

  /**
   * What `evaluator.evaluate(invocation)` does to a plain invocation; a null
   * evaluator throws NullPointerException, the in-place one evaluates at once.
   */
  function EvaluatorRun(evaluator: Option<Evaluator>, d: Dispatcher, pre: Snapshot, call: Result<Value>,
                        onEDT: bool, workerRan: bool): SpinRun
  {
    match evaluator
    case None => SpinRun(pre, [], Some(NullPointer), false)
    case Some(InPlaceEvaluator) => SpinRun(Capture(pre, call), [Evaluated], None, false)
    case Some(SpinOffEvaluator(f, s)) => CreatingRun(f, s, d, pre, call, onEDT, workerRan)
  }

  /**
   * `SpinInvocationHandler.invoke`: `equals` is the proxy's own equality;
   * any other call is evaluated through the evaluator once and its result
   * returned, or the target's throwable rethrown unwrapped.
   */
  method Invoke(h: Handler, reflect: Target, m: MethodDesc, args: array?<Value>,
                onEDT: bool, workerRan: bool, rt: Runtime) returns (r: Result<Value>)
    requires h.JdkSpinHandler? && Receiver(h.wrapped)
    requires m == EqualsMethod ==> args != null && args.Length == 1
    modifies rt
    ensures m == EqualsMethod ==>
      r == Ok(Boxed(JavaEquals(ProxyOf(h), args[0]))) &&
      rt.log == old(rt.log) && rt.later == old(rt.later) && rt.nextDispatcher == old(rt.nextDispatcher)
    ensures m != EqualsMethod ==>
      var run := EvaluatorRun(h.evaluator, Dispatcher(old(rt.nextDispatcher)), Fresh,
                              CallOf(reflect, h.wrapped, Some(m), ArgsOf(args)), onEDT, workerRan);
      r == StartResult(run) && rt.log == old(rt.log) + run.events && rt.later == old(rt.later)
  {
    if m == EqualsMethod {
      var other := args[0];
      r := Ok(Boxed(IsJdkSpinProxy(other) && HandlerEquals(h, other.handler)));
      ProxyEqualsIsHandlerEquals(ProxyOf(h), other);
      return;
    }
    var inv := new Invocation(PlainKind);
    inv.SetObject(h.wrapped);
    inv.SetMethod(Some(m));
    inv.SetArguments(args);
    match h.evaluator {
      case None =>
        return Err(NullPointer);
      case Some(InPlaceEvaluator) =>
        inv.Evaluate(reflect, rt);
      case Some(SpinOffEvaluator(_, _)) =>
        var raised := SpinOffEvaluators.Evaluate(h.evaluator.value, inv, reflect, onEDT, workerRan, rt);
        if raised.Some? {
          return Err(raised.value);
        }
    }
    r := inv.ResultOrThrow();
  }

  /**
   * Whenever the evaluator returns normally, the caller of the proxy gets
   * exactly what the target returned or threw, unwrapped.
   */
  lemma EvaluatedCallDelivers(evaluator: Option<Evaluator>, d: Dispatcher, call: Result<Value>,
                              onEDT: bool, workerRan: bool)
    ensures var run := EvaluatorRun(evaluator, d, Fresh, call, onEDT, workerRan);
      (run.raised.None? ==> StartResult(run) == Delivered(call) && Evaluations(run.events) == 1) &&
      (evaluator == Some(InPlaceEvaluator) ==> run.raised.None?) &&
      (evaluator.None? ==> StartResult(run) == Err(NullPointer) && run.events == [])
  {
    match evaluator
    case None =>
    case Some(InPlaceEvaluator) =>
      CaptureThenOutcome(call);
    case Some(SpinOffEvaluator(f, s)) =>
      var run := CreatingRun(f, s, d, Fresh, call, onEDT, workerRan);
      PumpedStartDelivers(s, d, call, onEDT, workerRan);
      PumpedNormalReturnMeansEvaluated(s, d, Fresh, call, onEDT, workerRan);
      if onEDT && f.Some? {
        var inner := PumpedRun(s, d, Fresh, call, true, workerRan);
        assert run.events == [DispatcherCreated(d)] + inner.events;
        assert run.events[1..] == inner.events;
      }
  }

  /** A proxy is equal to itself. */
  lemma ProxyIsReflexive(o: Value, evaluator: Option<Evaluator>)
    requires Receiver(o)
    ensures CreateProxy(o, evaluator).Ok? && JavaEquals(CreateProxy(o, evaluator).value, CreateProxy(o, evaluator).value)
  {
    EqualsReflexive(CreateProxy(o, evaluator).value);
  }

  /** Two proxies of the same object are equal, whatever their evaluators. */
  lemma ProxiesOfSameObjectAreEqual(o: Value, e1: Option<Evaluator>, e2: Option<Evaluator>)
    requires Receiver(o)
    ensures JavaEquals(CreateProxy(o, e1).value, CreateProxy(o, e2).value)
  {
    EqualsReflexive(o);
  }

  /** Proxies of two distinct plain objects are not equal. */
  lemma ProxiesOfDifferentObjectsDiffer(o1: Value, o2: Value, e1: Option<Evaluator>, e2: Option<Evaluator>)
    requires o1.Plain? && o2.Plain? && o1 != o2
    ensures !JavaEquals(CreateProxy(o1, e1).value, CreateProxy(o2, e2).value)
  {
  }
}
