/**
 * The Java values the marshaling core handles, reduced to what it inspects:
 * references (null, ordinary objects, JDK proxies, CGLib-enhanced instances),
 * reflected classes and methods, throwables and the outcome of a call.
 */
module Objects {

  datatype Option<+T> = None | Some(value: T)

  /** A class object as seen by `isInterface()` and `EventListener.class.isAssignableFrom(...)`. */
  datatype TypeDesc = TypeDesc(name: string, isInterface: bool, assignableToEventListener: bool)

  /**
   * A class: the interfaces it declares (`getInterfaces()`, whose order nothing
   * in the core depends on) and its superclass (`getSuperclass()`).
   */
  datatype JClass = JClass(name: string, interfaces: set<TypeDesc>, superclass: Option<JClass>)

  /** A `java.lang.reflect.Method`; two methods are `equals` when all four parts agree. */
  datatype MethodDesc = MethodDesc(declaringClass: string, name: string,
                                   parameterTypes: seq<TypeDesc>, returnType: TypeDesc)

  const ObjectType := TypeDesc("java.lang.Object", false, false)
  const BooleanType := TypeDesc("boolean", false, false)
  const SerializableType := TypeDesc("java.io.Serializable", true, false)
  const ComparableType := TypeDesc("java.lang.Comparable", true, false)
  const CglibFactoryType := TypeDesc("net.sf.cglib.proxy.Factory", true, false)

  const ObjectClass := JClass("java.lang.Object", {}, None)
  const BooleanClass := JClass("java.lang.Boolean", {SerializableType, ComparableType}, Some(ObjectClass))
  const ProxyClass := JClass("java.lang.reflect.Proxy", {SerializableType}, Some(ObjectClass))

  /** `Object.class.getDeclaredMethod("equals", Object.class)` */
  const EqualsMethod := MethodDesc("java.lang.Object", "equals", [ObjectType], BooleanType)

  /** A `Throwable`, by the kinds the core raises or passes through. */
  datatype Throwable =
    | IllegalArgument(message: string)      // IllegalArgumentException
    | NullPointer                           // NullPointerException
    | IndexOutOfBounds(index: int)          // ArrayIndexOutOfBoundsException
    | Fatal(message: string)                // java.lang.Error
    | InvocationTarget(target: Throwable)   // InvocationTargetException wrapping what the target threw
    | Raised(id: nat)                       // any throwable of the application

  /** A call that returned a value or threw. */
  datatype Result<+T> = Ok(value: T) | Err(error: Throwable)

  /** A thread-starting strategy (`spin.off.Starter`), by identity. */
  datatype StarterRef = StarterRef(id: nat)

  /** A factory of dispatchers (`spin.off.DispatcherFactory`), by identity. */
  datatype FactoryRef = FactoryRef(id: nat)

  /** The library's own `SimpleStarter` and `AWTReflectDispatcherFactory`, every default's initial value. */
  const SimpleStarter := StarterRef(0)
  const AwtReflectDispatcherFactory := FactoryRef(0)

  /** One event pump created by a factory. */
  datatype Dispatcher = Dispatcher(id: nat)

  /** The interceptors of the core: the default `Interceptor` and `ListenerSpinOver`. */
  datatype InterceptorRef = DefaultInterceptor | ListenerSpinOverInterceptor

  /** Evaluators of the Evaluator generation: `SpinOffEvaluator`, and one that evaluates in place. */
  datatype Evaluator =
    | SpinOffEvaluator(dispatcherFactory: Option<FactoryRef>, starter: Option<StarterRef>)
    | InPlaceEvaluator

  /** Spinners of the Spinner generation; their fields are set once, by the constructors. */
  datatype Spinner =
    | OffSpinner(dispatcherFactory: Option<FactoryRef>, starter: Option<StarterRef>)
    | OverSpinner(wait: bool)

  /** The handler behind a proxy, each variant being one concrete handler class. */
  datatype Handler =
    | SpinOffHandler(wrapped: Value, interceptor: Option<InterceptorRef>,
                     starter: StarterRef, dispatcherFactory: FactoryRef)       // Spin.OffHandler
    | SpinOverHandler(wrapped: Value, interceptor: Option<InterceptorRef>)     // Spin.OverHandler
    | JdkSpinHandler(wrapped: Value, evaluator: Option<Evaluator>)             // JDKProxyFactory.SpinInvocationHandler
    | CglibSpinInterceptor(wrapped: Value, spinner: Option<Spinner>)           // CGLibProxyFactory.SpinMethodInterceptor
    | OtherHandler(id: nat)                                                   // a handler foreign to Spin

  /** A Java reference. */
  datatype Value =
    | Null
    | Plain(id: nat, cls: JClass)                        // an ordinary object
    | Boxed(b: bool)                                     // a java.lang.Boolean
    | JdkProxy(interfaces: set<TypeDesc>, handler: Handler)
    | Enhanced(superclass: JClass, callback: Handler)    // a CGLib Factory; callback is getCallback(0)

  /** True for the handler classes that wrap a target object. */
  predicate WrapsObject(h: Handler) {
    !h.OtherHandler?
  }

  /** `object.getClass()`, defined for every non-null reference. */
  function ClassOf(v: Value): (c: JClass)
    requires v != Null
  {
    match v
    case Plain(_, cls) => cls
    case Boxed(_) => BooleanClass
    case JdkProxy(ifaces, _) => JClass("$Proxy", ifaces, Some(ProxyClass))
    case Enhanced(sup, _) => JClass(sup.name + "$$EnhancerByCGLIB", {CglibFactoryType}, Some(sup))
  }

  /** An `Object[]` that may be null, as the reflective call receives it. */
  function ArgsOf(args: array?<Value>): Option<seq<Value>>
    reads args
  {
    if args == null then None else Some(args[..])
  }

  /** The target of a proxy: what `method.invoke(object, args)` does. */
  type Target = (Value, MethodDesc, Option<seq<Value>>) -> Result<Value>
}
