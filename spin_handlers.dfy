/**
 * The invocation handlers behind `Spin` proxies (`OffHandler`, `OverHandler`):
 * `equals` is answered in place; every other call is packed into a new
 * invocation of the handler's kind and given to the handler's interceptor.
 */
module SpinHandlers {
  import opened Objects
  import opened Identity
  import opened Invocations
  import opened Policies
  import opened InvocationStart
  import Interceptors
  import ListenerSpinOver
  import OffInvocations
  import OverInvocations
  import Spin

  predicate IsSpinHandler(h: Handler) {
    h.SpinOffHandler? || h.SpinOverHandler?
  }

  /**
   * `createInvocation`: spin-off invocations carry the handler's starter and
   * the dispatcher `d` its factory hands out; spin-over invocations wait.
   */
  function InvocationKind(h: Handler, d: Dispatcher): Kind
    requires IsSpinHandler(h)
  {
    if h.SpinOffHandler? then OffKind(Some(h.starter), d) else OverKind(true)
  }

  /** What `invoke` answers, logs and leaves in the argument array for a call other than `equals`. */
  datatype HandlerRun = HandlerRun(result: Result<Value>, events: seq<Event>, args: Option<seq<Value>>, deferred: bool)

  /**
   * `interceptor.intercept(invocation)` on a fresh invocation of `kind` that
   * calls `m` on `target` with `args`; a null interceptor throws
   * NullPointerException.
   */
  function InterceptorRun(interceptor: Option<InterceptorRef>, kind: Kind, over: InterceptorRef, reflect: Target,
                          target: Value, m: MethodDesc, args: Option<seq<Value>>, onEDT: bool, workerRan: bool): HandlerRun
    requires !kind.PlainKind?
  {
    match interceptor
    case None => HandlerRun(Err(NullPointer), [], args, false)
    case Some(DefaultInterceptor) =>
      var run := SpinOf(kind, Fresh, CallOf(reflect, target, Some(m), args), onEDT, workerRan);
      HandlerRun(StartResult(run), run.events, args, run.deferred)
    case Some(ListenerSpinOverInterceptor) =>
      if !kind.OffKind? then HandlerRun(Err(IllegalArgument(ListenerSpinOver.OnlySpinOff)), [], args, false)
      else
        var rw := ListenerSpinOver.ArgumentRewrite(Some(m), args, over);
        if rw.failure.Some? then HandlerRun(Err(rw.failure.value), [], rw.args, false)
        else
          var run := SpinOf(kind, Fresh, CallOf(reflect, target, Some(m), rw.args), onEDT, workerRan);
          HandlerRun(StartResult(run), run.events, rw.args, run.deferred)
  }

  /**
   * A call other than `equals` on a handler whose off-handler factory hands
   * out `d`: the dispatcher is created before anything else; then the
   * handler's interceptor runs on the fresh invocation of the wrapped object.
   */
  function InvokeRun(h: Handler, over: InterceptorRef, reflect: Target, m: MethodDesc, args: Option<seq<Value>>,
                     d: Dispatcher, onEDT: bool, workerRan: bool): HandlerRun
    requires IsSpinHandler(h)
  {
    var created := if h.SpinOffHandler? then [DispatcherCreated(d)] else [];
    var hr := InterceptorRun(h.interceptor, InvocationKind(h, d), over, reflect, h.wrapped, m, args, onEDT, workerRan);
    hr.(events := created + hr.events)
  }

  method CreateInvocation(h: Handler, rt: Runtime) returns (inv: Invocation)
    requires IsSpinHandler(h)
    modifies rt
    ensures fresh(inv) && inv.kind == InvocationKind(h, Dispatcher(old(rt.nextDispatcher)))
    ensures inv.target == Null && inv.invokedMethod == None && inv.args == null && inv.State() == Fresh
    ensures rt.later == old(rt.later)
    ensures h.SpinOffHandler? ==> rt.log == old(rt.log) + [DispatcherCreated(Dispatcher(old(rt.nextDispatcher)))] &&
                                  rt.nextDispatcher == old(rt.nextDispatcher) + 1
    ensures h.SpinOverHandler? ==> rt.log == old(rt.log) && rt.nextDispatcher == old(rt.nextDispatcher)
  {
    if h.SpinOffHandler? {
      var d := rt.CreateDispatcher();
      inv := OffInvocations.NewOffInvocation(Some(h.starter), d);
    } else {
      inv := OverInvocations.NewOverInvocation(true);
    }
  }

  /** A new invocation of the handler's kind, holding the wrapped object, the method and the arguments. */
  method PrepareInvocation(h: Handler, m: MethodDesc, args: array?<Value>, rt: Runtime) returns (inv: Invocation)
    requires IsSpinHandler(h)
    modifies rt
    ensures fresh(inv) && inv.kind == InvocationKind(h, Dispatcher(old(rt.nextDispatcher)))
    ensures inv.target == h.wrapped && inv.invokedMethod == Some(m) && inv.args == args && inv.State() == Fresh
    ensures rt.later == old(rt.later)
    ensures rt.log == old(rt.log) + (if h.SpinOffHandler? then [DispatcherCreated(Dispatcher(old(rt.nextDispatcher)))] else [])
    ensures rt.nextDispatcher == old(rt.nextDispatcher) + (if h.SpinOffHandler? then 1 else 0)
  {
    inv := CreateInvocation(h, rt);
    inv.SetObject(h.wrapped);
    inv.SetMethod(Some(m));
    inv.SetArguments(args);
  }

  /**
   * `invoke(proxy, method, args)` on the handler `h` of a `Spin` proxy.
   * `equals` answers whether the argument is a Spin proxy whose handler equals
   * `h`, which is the proxy's own `equals`; anything else goes through
   * `InvokeRun`, with the registry's spin-over interceptor used by
   * `ListenerSpinOver` to wrap listener arguments.
   */
  method Invoke(h: Handler, reg: Spin.Registry, reflect: Target, m: MethodDesc, args: array?<Value>,
                onEDT: bool, workerRan: bool, rt: Runtime) returns (r: Result<Value>)
    requires IsSpinHandler(h) && Receiver(h.wrapped)
    requires m == EqualsMethod ==> args != null && args.Length == 1
    modifies args, rt
    ensures m == EqualsMethod ==>
      ArgsOf(args) == old(ArgsOf(args)) &&
      r == Ok(Boxed(JavaEquals(Spin.GetProxy(Spin.Wrapper(h.wrapped, h)), args[0]))) &&
      rt.log == old(rt.log) && rt.later == old(rt.later) && rt.nextDispatcher == old(rt.nextDispatcher)
    ensures m != EqualsMethod ==>
      var hr := InvokeRun(h, reg.overInterceptor, reflect, m, old(ArgsOf(args)), Dispatcher(old(rt.nextDispatcher)),
                          onEDT, workerRan);
      r == hr.result && rt.log == old(rt.log) + hr.events && ArgsOf(args) == hr.args &&
      rt.nextDispatcher == old(rt.nextDispatcher) + (if h.SpinOffHandler? then 1 else 0) &&
      |rt.later| == |old(rt.later)| + (if hr.deferred then 1 else 0) && rt.later[..|old(rt.later)|] == old(rt.later)
  {
    if m == EqualsMethod {
      var other := args[0];
      r := Ok(Boxed(IsSpinProxy(other) && HandlerEquals(h, other.handler)));
      ProxyEqualsIsHandlerEquals(Spin.GetProxy(Spin.Wrapper(h.wrapped, h)), other);
      return;
    }
    r := Forward(h, reg, reflect, m, args, onEDT, workerRan, rt);
  }

  /** The branch of `invoke` for any call but `equals`: create, fill and intercept an invocation. */
  method Forward(h: Handler, reg: Spin.Registry, reflect: Target, m: MethodDesc, args: array?<Value>,
                 onEDT: bool, workerRan: bool, rt: Runtime) returns (r: Result<Value>)
    requires IsSpinHandler(h)
    modifies args, rt
    ensures var hr := InvokeRun(h, reg.overInterceptor, reflect, m, old(ArgsOf(args)), Dispatcher(old(rt.nextDispatcher)),
                                onEDT, workerRan);
      r == hr.result && rt.log == old(rt.log) + hr.events && ArgsOf(args) == hr.args &&
      rt.nextDispatcher == old(rt.nextDispatcher) + (if h.SpinOffHandler? then 1 else 0) &&
      |rt.later| == |old(rt.later)| + (if hr.deferred then 1 else 0) && rt.later[..|old(rt.later)|] == old(rt.later)
  {
    var inv := PrepareInvocation(h, m, args, rt);
    r := Intercept(h.interceptor, inv, reg, reflect, onEDT, workerRan, rt);
  }

  /** The call `interceptor.intercept(invocation)`, dispatched on the interceptor's class. */
  method Intercept(interceptor: Option<InterceptorRef>, inv: Invocation, reg: Spin.Registry, reflect: Target,
                   onEDT: bool, workerRan: bool, rt: Runtime) returns (r: Result<Value>)
    requires !inv.kind.PlainKind? && inv.State() == Fresh && inv.invokedMethod.Some?
    modifies inv, inv.args, rt
    ensures inv.args == old(inv.args) && rt.nextDispatcher == old(rt.nextDispatcher)
    ensures var hr := InterceptorRun(interceptor, inv.kind, reg.overInterceptor, reflect, old(inv.target),
                                     old(inv.invokedMethod).value, old(ArgsOf(inv.args)), onEDT, workerRan);
      r == hr.result && rt.log == old(rt.log) + hr.events && ArgsOf(inv.args) == hr.args &&
      rt.later == old(rt.later) + (if hr.deferred then [inv] else [])
  {
    match interceptor
    case None =>
      r := Err(NullPointer);
    case Some(DefaultInterceptor) =>
      r := Interceptors.Intercept(inv, reflect, onEDT, workerRan, rt);
    case Some(ListenerSpinOverInterceptor) =>
      r := ListenerSpinOver.Intercept(inv, reg, reflect, onEDT, workerRan, rt);
  }

  /**
   * With the default interceptor nothing is deferred, and the caller gets
   * exactly the target's outcome unless a spin-off on the event-dispatch
   * thread had its pump return before the worker, which throws.
   */
  lemma DefaultInvokeDelivers(h: Handler, over: InterceptorRef, reflect: Target, m: MethodDesc,
                              args: Option<seq<Value>>, d: Dispatcher, onEDT: bool, workerRan: bool)
    requires IsSpinHandler(h) && h.interceptor == Some(DefaultInterceptor)
    ensures var hr := InvokeRun(h, over, reflect, m, args, d, onEDT, workerRan);
      !hr.deferred && hr.args == args &&
      (h.SpinOverHandler? || !onEDT || workerRan ==> hr.result == Delivered(CallOf(reflect, h.wrapped, Some(m), args))) &&
      (h.SpinOffHandler? && onEDT && !workerRan ==> hr.result == Err(Fatal(Policies.PrematureStop)))
  {
    var kind := InvocationKind(h, d);
    var call := CallOf(reflect, h.wrapped, Some(m), args);
    StartDeliversTargetOutcome(kind, call, onEDT, workerRan);
    if h.SpinOverHandler? {
      OverDefersOnlyWithoutWait(true, call, onEDT);
    } else {
      PumpedStartDelivers(Some(h.starter), d, call, onEDT, workerRan);
    }
  }

  /**
   * A spin-off call creates exactly one dispatcher, first, whatever the
   * interceptor does; a spin-over call creates none.
   */
  lemma {:induction false} OneDispatcherPerOffCall(h: Handler, over: InterceptorRef, reflect: Target, m: MethodDesc,
                                                   args: Option<seq<Value>>, d: Dispatcher, onEDT: bool, workerRan: bool)
    requires IsSpinHandler(h)
    ensures var hr := InvokeRun(h, over, reflect, m, args, d, onEDT, workerRan);
      (h.SpinOffHandler? ==> |hr.events| >= 1 && hr.events[0] == DispatcherCreated(d) && Creations(hr.events) == 1) &&
      (h.SpinOverHandler? ==> Creations(hr.events) == 0)
  {
    var hr := InvokeRun(h, over, reflect, m, args, d, onEDT, workerRan);
    var kind := InvocationKind(h, d);
    var rest := if h.SpinOffHandler? then hr.events[1..] else hr.events;
    if h.SpinOffHandler? {
      assert hr.events == [DispatcherCreated(d)] + rest;
      CreationsAppend([DispatcherCreated(d)], rest);
    }
    if rest != [] {
      var call := if h.interceptor == Some(DefaultInterceptor) then CallOf(reflect, h.wrapped, Some(m), args)
                  else CallOf(reflect, h.wrapped, Some(m), ListenerSpinOver.ArgumentRewrite(Some(m), args, over).args);
      assert rest == SpinOf(kind, Fresh, call, onEDT, workerRan).events;
      SpinCreatesNothing(kind, call, onEDT, workerRan);
    }
  }

  /** The number of dispatcher creations among the steps. */
  function Creations(events: seq<Event>): nat {
    if events == [] then 0
    else (if events[0].DispatcherCreated? then 1 else 0) + Creations(events[1..])
  }

  lemma {:induction false} CreationsAppend(a: seq<Event>, b: seq<Event>)
    ensures Creations(a + b) == Creations(a) + Creations(b)
  {
    if a != [] {
      assert (a + b)[0] == a[0];
      assert (a + b)[1..] == a[1..] + b;
      CreationsAppend(a[1..], b);
    } else {
      assert a + b == b;
    }
  }

  /** Starting an invocation never creates a dispatcher: only `createInvocation` does. */
  lemma SpinCreatesNothing(kind: Kind, call: Result<Value>, onEDT: bool, workerRan: bool)
    requires !kind.PlainKind?
    ensures Creations(SpinOf(kind, Fresh, call, onEDT, workerRan).events) == 0
  {
    var ev := SpinOf(kind, Fresh, call, onEDT, workerRan).events;
    if kind.OffKind? && onEDT && kind.starter.Some? {
      var d := kind.dispatcher;
      var worker := if workerRan then [Evaluated, DispatcherStopped(d)] else [];
      assert ev == [WorkerStarted(kind.starter.value)] + worker + [PumpReturned(d)];
      CreationsAppend([WorkerStarted(kind.starter.value)] + worker, [PumpReturned(d)]);
      CreationsAppend([WorkerStarted(kind.starter.value)], worker);
      if workerRan {
        CreationsAppend([Evaluated], [DispatcherStopped(d)]);
      }
    } else if kind.OverKind? && !onEDT {
      assert Creations(ev) == Creations(ev[1..]);
    }
  }

  /**
   * `ListenerSpinOver` on a call that neither adds nor removes a listener is
   * the default interceptor: the arguments are left alone.
   */
  lemma ListenerInterceptorNeutralOnOtherCalls(h: Handler, over: InterceptorRef, reflect: Target, m: MethodDesc,
                                               args: Option<seq<Value>>, d: Dispatcher, onEDT: bool, workerRan: bool)
    requires h.SpinOffHandler? && h.interceptor == Some(ListenerSpinOverInterceptor)
    requires !ListenerSpinOver.IsListenerAdditionOrRemoval(m.name)
    ensures var plain := SpinOffHandler(h.wrapped, Some(DefaultInterceptor), h.starter, h.dispatcherFactory);
            InvokeRun(h, over, reflect, m, args, d, onEDT, workerRan) ==
            InvokeRun(plain, over, reflect, m, args, d, onEDT, workerRan)
  {
  }

  /** `ListenerSpinOver` refuses the invocations of a spin-over proxy. */
  lemma ListenerInterceptorRefusesSpinOver(h: Handler, over: InterceptorRef, reflect: Target, m: MethodDesc,
                                           args: Option<seq<Value>>, d: Dispatcher, onEDT: bool, workerRan: bool)
    requires h.SpinOverHandler? && h.interceptor == Some(ListenerSpinOverInterceptor)
    ensures InvokeRun(h, over, reflect, m, args, d, onEDT, workerRan) ==
            HandlerRun(Err(IllegalArgument(ListenerSpinOver.OnlySpinOff)), [], args, false)
  {
  }
}
