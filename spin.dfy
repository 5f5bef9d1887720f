/**
 * `Spin`: the wrapper constructors with their null checks, `getProxy`, the
 * process-wide defaults behind `off` and `over`, and `isSpinProxy`.
 */
module Spin {
  import opened Objects
  import opened Classes
  import Identity

  /** The names of the system properties read at start-up (the spin-over one reads "spin.off.interceptor"). */
  const SpinOverInterceptorProperty := "spin.off.interceptor"
  const SpinOffInterceptorProperty := "spin.off.interceptor"
  const SpinOffStarterProperty := "spin.off.starter"
  const SpinOffDispatcherFactoryProperty := "spin.off.dispatcher.factory"

  /** A `Spin` instance: the wrapped object and the handler built for it; neither changes afterwards. */
  datatype Wrapper = Wrapper(wrapped: Value, handler: Handler)

  /**
   * `new Spin(object, interceptor, starter, dispatcherFactory)`: a null object
   * is rejected first, then the off handler rejects a null starter and a null
   * factory; the interceptor is not checked.
   */
  function NewOff(o: Value, interceptor: Option<InterceptorRef>, starter: Option<StarterRef>,
                  dispatcherFactory: Option<FactoryRef>): (r: Result<Wrapper>)
    ensures r.Ok? <==> o != Null && starter.Some? && dispatcherFactory.Some?
    ensures o == Null ==> r == Err(IllegalArgument("object to spin-off must not be null"))
    ensures o != Null && starter.None? ==> r == Err(IllegalArgument("executor must not be null"))
    ensures o != Null && starter.Some? && dispatcherFactory.None? ==>
              r == Err(IllegalArgument("dispatcherFactory must not be null"))
    ensures r.Ok? ==> r.value.wrapped == o &&
                      r.value.handler == SpinOffHandler(o, interceptor, starter.value, dispatcherFactory.value)
  {
    if o == Null then Err(IllegalArgument("object to spin-off must not be null"))
    else if starter.None? then Err(IllegalArgument("executor must not be null"))
    else if dispatcherFactory.None? then Err(IllegalArgument("dispatcherFactory must not be null"))
    else Ok(Wrapper(o, SpinOffHandler(o, interceptor, starter.value, dispatcherFactory.value)))
  }

  /** `new Spin(object, interceptor)`: only a null object is rejected. */
  function NewOver(o: Value, interceptor: Option<InterceptorRef>): (r: Result<Wrapper>)
    ensures r.Ok? <==> o != Null
    ensures r.Err? ==> r.error == IllegalArgument("object to spin-over must not be null")
    ensures r.Ok? ==> r.value == Wrapper(o, SpinOverHandler(o, interceptor))
  {
    if o == Null then Err(IllegalArgument("object to spin-over must not be null"))
    else Ok(Wrapper(o, SpinOverHandler(o, interceptor)))
  }

  /** `getProxy()`: a JDK proxy for every interface of the object's class chain, backed by the handler. */
  function GetProxy(w: Wrapper): (p: Value)
    requires w.wrapped != Null
    ensures p.JdkProxy? && p.handler == w.handler
    ensures forall i :: i in p.interfaces <==> i in AllInterfaces(ClassOf(w.wrapped))
  {
    JdkProxy(AllInterfaces(ClassOf(w.wrapped)), w.handler)
  }

  /** The static defaults; the initialiser leaves none of them null and the setters keep it so. */
  class Registry {
    var overInterceptor: InterceptorRef
    var offInterceptor: InterceptorRef
    var offStarter: StarterRef
    var offDispatcherFactory: FactoryRef

    /** The static initialiser when no system property names another class. */
    constructor ()
      ensures overInterceptor == DefaultInterceptor && offInterceptor == DefaultInterceptor
      ensures offStarter == SimpleStarter && offDispatcherFactory == AwtReflectDispatcherFactory
    {
      overInterceptor, offInterceptor := DefaultInterceptor, DefaultInterceptor;
      offStarter, offDispatcherFactory := SimpleStarter, AwtReflectDispatcherFactory;
    }

    /** Rejects null; otherwise replaces only the default spin-over interceptor. */
    method SetDefaultOverInterceptor(i: Option<InterceptorRef>) returns (thrown: Option<Throwable>)
      modifies this
      ensures i.None? ==> thrown == Some(IllegalArgument("interceptor must not be null"))
      ensures i.Some? ==> thrown == None
      ensures overInterceptor == (if i.Some? then i.value else old(overInterceptor))
      ensures offInterceptor == old(offInterceptor) && offStarter == old(offStarter)
      ensures offDispatcherFactory == old(offDispatcherFactory)
    {
      if i.None? {
        return Some(IllegalArgument("interceptor must not be null"));
      }
      overInterceptor := i.value;
      thrown := None;
    }

    method GetDefaultOverInterceptor() returns (i: InterceptorRef)
      ensures i == overInterceptor
    {
      i := overInterceptor;
    }

    /** Rejects null; otherwise replaces only the default spin-off interceptor. */
    method SetDefaultOffInterceptor(i: Option<InterceptorRef>) returns (thrown: Option<Throwable>)
      modifies this
      ensures i.None? ==> thrown == Some(IllegalArgument("interceptor must not be null"))
      ensures i.Some? ==> thrown == None
      ensures offInterceptor == (if i.Some? then i.value else old(offInterceptor))
      ensures overInterceptor == old(overInterceptor) && offStarter == old(offStarter)
      ensures offDispatcherFactory == old(offDispatcherFactory)
    {
      if i.None? {
        return Some(IllegalArgument("interceptor must not be null"));
      }
      offInterceptor := i.value;
      thrown := None;
    }

    method GetDefaultOffInterceptor() returns (i: InterceptorRef)
      ensures i == offInterceptor
    {
      i := offInterceptor;
    }

    /** Rejects null; otherwise replaces only the default starter. */
    method SetDefaultOffStarter(s: Option<StarterRef>) returns (thrown: Option<Throwable>)
      modifies this
      ensures s.None? ==> thrown == Some(IllegalArgument("starter must not be null"))
      ensures s.Some? ==> thrown == None
      ensures offStarter == (if s.Some? then s.value else old(offStarter))
      ensures overInterceptor == old(overInterceptor) && offInterceptor == old(offInterceptor)
      ensures offDispatcherFactory == old(offDispatcherFactory)
    {
      if s.None? {
        return Some(IllegalArgument("starter must not be null"));
      }
      offStarter := s.value;
      thrown := None;
    }

    method GetDefaultOffStarter() returns (s: StarterRef)
      ensures s == offStarter
    {
      s := offStarter;
    }

    /** Rejects null; otherwise replaces only the default dispatcher factory. */
    method SetDefaultOffDispatcherFactory(f: Option<FactoryRef>) returns (thrown: Option<Throwable>)
      modifies this
      ensures f.None? ==> thrown == Some(IllegalArgument("dispatcherFactory must not be null"))
      ensures f.Some? ==> thrown == None
      ensures offDispatcherFactory == (if f.Some? then f.value else old(offDispatcherFactory))
      ensures overInterceptor == old(overInterceptor) && offInterceptor == old(offInterceptor)
      ensures offStarter == old(offStarter)
    {
      if f.None? {
        return Some(IllegalArgument("dispatcherFactory must not be null"));
      }
      offDispatcherFactory := f.value;
      thrown := None;
    }

    method GetDefaultOffDispatcherFactory() returns (f: FactoryRef)
      ensures f == offDispatcherFactory
    {
      f := offDispatcherFactory;
    }
  }

  /** `Spin.over(object)` with the given default interceptor. */
  function OverWith(interceptor: InterceptorRef, o: Value): (r: Result<Value>)
    ensures r.Ok? <==> o != Null
    ensures r.Err? ==> r.error == IllegalArgument("object to spin-over must not be null")
    ensures r.Ok? ==> Identity.IsSpinProxy(r.value) && r.value.handler == SpinOverHandler(o, Some(interceptor))
    ensures r.Ok? ==> o != Null && r.value.JdkProxy? && r.value.interfaces == AllInterfaces(ClassOf(o))
  {
    match NewOver(o, Some(interceptor))
    case Err(e) => Err(e)
    case Ok(w) => Ok(GetProxy(w))
  }

  /**
   * `Spin.off(object)`: a new wrapper from the defaults current at the call,
   * so only proxies made after a default changes see the change.
   */
  function Off(reg: Registry, o: Value): (r: Result<Value>)
    reads reg
    ensures r.Ok? <==> o != Null
    ensures r.Err? ==> r.error == IllegalArgument("object to spin-off must not be null")
    ensures r.Ok? ==> (Identity.IsSpinProxy(r.value) &&
      r.value.handler == SpinOffHandler(o, Some(reg.offInterceptor), reg.offStarter, reg.offDispatcherFactory))
    ensures r.Ok? ==> o != Null && r.value.JdkProxy? && r.value.interfaces == AllInterfaces(ClassOf(o))
  {
    match NewOff(o, Some(reg.offInterceptor), Some(reg.offStarter), Some(reg.offDispatcherFactory))
    case Err(e) => Err(e)
    case Ok(w) => Ok(GetProxy(w))
  }

  /** `Spin.over(object)`: a new wrapper with the default spin-over interceptor current at the call. */
  function Over(reg: Registry, o: Value): (r: Result<Value>)
    reads reg
    ensures r.Ok? <==> o != Null
    ensures r.Err? ==> r.error == IllegalArgument("object to spin-over must not be null")
    ensures r.Ok? ==> Identity.IsSpinProxy(r.value) && r.value.handler == SpinOverHandler(o, Some(reg.overInterceptor))
    ensures r.Ok? ==> o != Null && r.value.JdkProxy? && r.value.interfaces == AllInterfaces(ClassOf(o))
  {
    OverWith(reg.overInterceptor, o)
  }

  /**
   * A proxy made before a default changes keeps its handler; one made after
   * carries the new default.
   */
  method OffReadsDefaultsAtCall(reg: Registry, o: Value, s: StarterRef) returns (before: Result<Value>, after: Result<Value>)
    requires o != Null
    modifies reg
    ensures before == Ok(JdkProxy(AllInterfaces(ClassOf(o)), SpinOffHandler(o, Some(old(reg.offInterceptor)),
                                  old(reg.offStarter), old(reg.offDispatcherFactory))))
    ensures after == Ok(JdkProxy(AllInterfaces(ClassOf(o)), SpinOffHandler(o, Some(old(reg.offInterceptor)),
                                 s, old(reg.offDispatcherFactory))))
  {
    before := Off(reg, o);
    var _ := reg.SetDefaultOffStarter(Some(s));
    after := Off(reg, o);
  }

  /**
   * `isSpinProxy` of every generation is false for null and for anything but
   * its own kind of proxy, and no object is a Spin proxy of two generations.
   */
  lemma IsSpinProxyOnlyForProxies(v: Value)
    ensures v == Null ==> !Identity.IsSpinProxy(v) && !Identity.IsJdkSpinProxy(v) && !Identity.IsCglibSpinProxy(v)
    ensures Identity.IsSpinProxy(v) ==> v.JdkProxy? && (v.handler.SpinOffHandler? || v.handler.SpinOverHandler?)
    ensures Identity.IsJdkSpinProxy(v) ==> v.JdkProxy? && v.handler.JdkSpinHandler?
    ensures Identity.IsCglibSpinProxy(v) ==> v.Enhanced? && v.callback.CglibSpinInterceptor?
    ensures !(Identity.IsSpinProxy(v) && Identity.IsJdkSpinProxy(v))
    ensures !(Identity.IsJdkSpinProxy(v) && Identity.IsCglibSpinProxy(v))
    ensures !(Identity.IsSpinProxy(v) && Identity.IsCglibSpinProxy(v))
  {
  }

  /**
   * Two off proxies of one object are equal even when they were made under
   * different defaults (interceptor, starter, factory), since the handlers
   * compare only the wrapped objects; an off and an over proxy of one object
   * are not equal, and neither are off proxies of two distinct ordinary objects.
   */
  lemma {:induction false} OffProxyEquality(reg1: Registry, reg2: Registry, o: Value, o2: Value)
    requires Identity.Receiver(o)
    ensures Off(reg1, o).Ok? && Off(reg2, o).Ok? && Over(reg1, o).Ok?
    ensures Identity.JavaEquals(Off(reg1, o).value, Off(reg2, o).value)
    ensures !Identity.JavaEquals(Off(reg1, o).value, Over(reg1, o).value)
    ensures o.Plain? && o2.Plain? && o != o2 ==> Off(reg1, o2).Ok? && !Identity.JavaEquals(Off(reg1, o).value, Off(reg2, o2).value)
  {
    Identity.EqualsReflexive(o);
  }
}
