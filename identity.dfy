/**
 * Proxy identity: `isSpinProxy` of the three proxy generations, the handlers'
 * `equals`, and `equals` called on any reference. Calling `equals` on a proxy
 * runs its handler's equality branch, so equality of proxies that wrap
 * proxies recurses into the wrapped objects.
 */
module Identity {
  import opened Objects

  /** `Spin.isSpinProxy`: a JDK proxy whose handler is one of Spin's own. */
  predicate IsSpinProxy(v: Value) {
    v.JdkProxy? && (v.handler.SpinOffHandler? || v.handler.SpinOverHandler?)
  }

  /** `JDKProxyFactory.isSpinProxy`: a JDK proxy whose handler is a `SpinInvocationHandler`. */
  predicate IsJdkSpinProxy(v: Value) {
    v.JdkProxy? && v.handler.JdkSpinHandler?
  }

  /** `CGLibProxyFactory.isSpinProxy`: a CGLib `Factory` whose callback 0 is a `SpinMethodInterceptor`. */
  predicate IsCglibSpinProxy(v: Value) {
    v.Enhanced? && v.callback.CglibSpinInterceptor?
  }

  /** `getClass()` of a handler. */
  function HandlerClass(h: Handler): string {
    match h
    case SpinOffHandler(_, _, _, _) => "spin.Spin$OffHandler"
    case SpinOverHandler(_, _) => "spin.Spin$OverHandler"
    case JdkSpinHandler(_, _) => "spin.JDKProxyFactory$SpinInvocationHandler"
    case CglibSpinInterceptor(_, _) => "spin.CGLibProxyFactory$SpinMethodInterceptor"
    case OtherHandler(id) => "foreign"
  }

  /**
   * A reference `equals` can be called on: not null, and every object wrapped
   * by a Spin handler inside it is not null either.
   */
  predicate Receiver(v: Value) {
    match v
    case Null => false
    case JdkProxy(_, h) => !WrapsObject(h) || Receiver(h.wrapped)
    case Enhanced(_, h) => !WrapsObject(h) || Receiver(h.wrapped)
    case _ => true
  }

  /**
   * `a.equals(b)`. A Spin proxy answers through its handler; any other
   * reference uses identity (`Object.equals`), or value equality for a Boolean.
   */
  function JavaEquals(a: Value, b: Value): bool
    requires Receiver(a)
  {
    match a
    case JdkProxy(_, h) =>
      if h.SpinOffHandler? || h.SpinOverHandler? then
        IsSpinProxy(b) && HandlerClass(b.handler) == HandlerClass(h) && JavaEquals(h.wrapped, b.handler.wrapped)
      else if h.JdkSpinHandler? then
        IsJdkSpinProxy(b) && HandlerClass(b.handler) == HandlerClass(h) && JavaEquals(h.wrapped, b.handler.wrapped)
      else a == b
    case Enhanced(_, h) =>
      if h.CglibSpinInterceptor? then
        IsCglibSpinProxy(b) && HandlerClass(b.callback) == HandlerClass(h) && JavaEquals(h.wrapped, b.callback.wrapped)
      else a == b
    case _ => a == b
  }

  /**
   * The handlers' `equals(Object)`: the argument is a handler of the same
   * concrete class wrapping an object that `equals` this handler's object.
   * Nothing else (interceptor, starter, evaluator, spinner) is compared.
   */
  predicate HandlerEquals(self: Handler, other: Handler)
    requires WrapsObject(self) && Receiver(self.wrapped)
  {
    HandlerClass(other) == HandlerClass(self) && JavaEquals(self.wrapped, other.wrapped)
  }

  /** `equals` is reflexive on every reference it can be called on. */
  lemma {:induction false} EqualsReflexive(a: Value)
    requires Receiver(a)
    ensures JavaEquals(a, a)
  {
    match a
    case JdkProxy(_, h) =>
      if WrapsObject(h) {
        EqualsReflexive(h.wrapped);
      }
    case Enhanced(_, h) =>
      if WrapsObject(h) {
        EqualsReflexive(h.wrapped);
      }
    case _ =>
  }

  /**
   * A Spin proxy's `equals` is the handler comparison: true iff the argument
   * is a Spin proxy of the same family whose handler `equals` this one.
   */
  lemma ProxyEqualsIsHandlerEquals(a: Value, b: Value)
    requires Receiver(a) && (IsSpinProxy(a) || IsJdkSpinProxy(a))
    ensures JavaEquals(a, b) <==>
            (if IsSpinProxy(a) then IsSpinProxy(b) else IsJdkSpinProxy(b)) && HandlerEquals(a.handler, b.handler)
  {
  }
}
