# Spin invocation marshaling, modelled in Dafny

Spin makes Swing code call slow beans off the event-dispatch thread (EDT) and
call back into Swing on it. A call made on a Spin proxy becomes an
`Invocation`. This envelope holds the target object, the reflected method, the
argument array, and a slot for the result or the throwable. A marshaling policy
then decides where `evaluate` runs:

- **Spin-off** runs the call on a worker thread. If the caller is on the EDT, it
  pumps events through a `Dispatcher` until the worker stops the dispatcher.
- **Spin-over** runs the call on the EDT. It does so in place, by
  `invokeAndWait`, or by `invokeLater` as fire-and-forget.

Three API generations coexist, and each is modelled as written:

- `Spin` with `OffInvocation`/`OverInvocation` and an `Interceptor`.
- `JDKProxyFactory` with an `Evaluator` (`SpinOffEvaluator`).
- `CGLibProxyFactory` with a `Spinner` (`OffSpinner`, `OverSpinner`).

The project also models `ListenerSpinOver`. This interceptor wraps listener
arguments of `add…Listener`/`remove…Listener` calls in spin-over proxies.
Finally, it models the dialog pool of `ConcealedDialogDispatcherFactory`.

How the model is built:

- **Threads** become inputs. `onEDT` says whether the caller is the EDT.
  `workerRan` says whether the spin-off worker evaluated and stopped the
  dispatcher before the pump returned, or whether the pump returned first.
- **The runtime.** `Invocations.Runtime` records the steps taken in order
  (`log`), queues the invocations handed to `invokeLater` (`later`), and numbers
  the dispatchers that factories create.
- **Reflection** is a `Target` function. It maps the object, the method and the
  arguments to the value returned or the throwable thrown. An exception thrown
  by the target itself arrives wrapped, as `InvocationTarget`.
- **Policies.** Each policy is a function of the invocation's state before the
  spin (`Policies.PumpedRun`, `CreatingRun`, `OverRun`, `OverSpinnerRun`). It
  gives the state afterwards, the steps taken, what is thrown, and whether the
  evaluation was deferred. The imperative methods (`OffInvocations.Spin`,
  `OffSpinners.Spin`, `InvocationStart.Start`, …) change the `Invocation` and
  `Runtime` objects in place, and each is proved to match its function.
- **Invocation subclasses.** `OffInvocation` and `OverInvocation` are one
  `Invocations.Invocation` class whose `kind` records the subclass and its
  constructor arguments. `PlainKind` stands for `new Invocation()` in the two
  factory generations.
- **Nulls.** Java `null` appears as `None`, `Null` or a `null` array.
  `Identity.JavaEquals` gives `equals` on any reference: a proxy answers
  through its handler, and any other object compares by identity.

## Model

| member | source | states |
|---|---|---|
| Classes.AllInterfacesByAncestry | src/spin/Spin.java:337-345 | an interface is in the union iff some class of the superclass chain, the class itself included, declares it |
| Classes.Interfaces | src/spin/Spin.java:337-345 | the loop over the superclass chain yields each interface of the chain exactly once and nothing else; `JDKProxyFactory.interfaces` (src/spin/JDKProxyFactory.java:47-55) is the same loop |
| Identity.IsSpinProxy | src/spin/Spin.java:239-244 | a non-null JDK proxy whose handler is one of `Spin`'s own handlers |
| Identity.IsJdkSpinProxy | src/spin/JDKProxyFactory.java:64-75 | a non-null JDK proxy whose handler is a `SpinInvocationHandler` |
| Identity.IsCglibSpinProxy | src/spin/CGLibProxyFactory.java:44-56 | a non-null CGLib proxy whose first callback is a `SpinMethodInterceptor` |
| Identity.HandlerEquals | src/spin/Spin.java:431-437 | a handler equals another of the same concrete class whose wrapped object `equals` its own; the interceptor, starter, evaluator and spinner are not compared, in all three generations (also src/spin/JDKProxyFactory.java:118-124 and src/spin/CGLibProxyFactory.java:89-95) |
| Identity.EqualsReflexive | test/spin/AbstractProxyFactoryTest.java:36-44 | `x.equals(x)` holds for every proxy of every generation, however deeply proxies are nested |
| Identity.ProxyEqualsIsHandlerEquals | src/spin/Spin.java:431-437 | a Spin or JDK-factory proxy equals `b` iff `b` is a proxy of the same family whose handler has the same class and wraps an equal object |
| Invocations.CaptureFillsOneSlot | src/spin/Invocation.java:118-127 | evaluating a fresh invocation marks it evaluated and fills one slot: a return stores the value and no throwable; a throw leaves the result null and stores the target's own exception for an InvocationTargetException, any other throwable as it is |
| Invocations.CaptureThenOutcome | src/spin/Invocation.java:97-105 | returning the captured result or rethrowing the captured throwable gives the caller exactly the target's outcome, unwrapped |
| Invocations.Invocation.SetObject | src/spin/Invocation.java:41-43 | sets the target and changes nothing else |
| Invocations.Invocation.GetObject | src/spin/Invocation.java:50-52 | returns the target last set |
| Invocations.Invocation.SetMethod | src/spin/Invocation.java:59-61 | sets the method and changes nothing else |
| Invocations.Invocation.GetMethod | src/spin/Invocation.java:69-71 | returns the method last set |
| Invocations.Invocation.SetArguments | src/spin/Invocation.java:78-80 | sets the argument array and changes nothing else |
| Invocations.Invocation.GetArguments | src/spin/Invocation.java:87-89 | returns the argument array last set, the same array and not a copy |
| Invocations.Invocation.Evaluate | src/spin/Invocation.java:118-127 | the outcome slots become `Capture` of the reflective call; it never throws; the target, method and arguments stay as they were |
| Invocations.Invocation.ResultOrThrow | src/spin/JDKProxyFactory.java:111 | rethrows iff a throwable was captured, and otherwise returns the result |
| Policies.PumpedNormalReturnMeansEvaluated | src/spin/off/OffInvocation.java:62-82 | spin-off evaluates at most once; a normal return implies the invocation was evaluated, and on a fresh invocation it was evaluated exactly once and holds the captured outcome |
| Policies.OffEdtEvaluatesInPlace | src/spin/off/OffInvocation.java:79-81 | off the EDT every spin-off generation evaluates in place once, with no starter, no dispatcher and no pump |
| Policies.OnEdtWorkerOrder | src/spin/off/OffInvocation.java:64-78 | on the EDT the worker is started, evaluates, and then stops the dispatcher, and the pump returns last; if the pump returns first, an unevaluated invocation raises "dispatcher stopped prematurely" and keeps its slots |
| Policies.CreatingRunCreatesOneDispatcher | src/spin/off/OffSpinner.java:101-122 | on the EDT the spinner creates exactly one dispatcher, first, and otherwise behaves as the pumped spin-off |
| Policies.OverDefersOnlyWithoutWait | src/spin/over/OverInvocation.java:39-56 | spin-over defers iff it is off the EDT and does not wait; a deferred call returns null; otherwise it evaluates once and delivers the target's outcome |
| Policies.OverSpinnerReturnTypeCheckIsInert | src/spin/over/OverSpinner.java:72-76 | for every reflected method the return-type null check never fires, so `OverSpinner.spin` behaves as `OverInvocation.spin` |
| Policies.PumpedStartDelivers | src/spin/Invocation.java:97-105 | after spin-off on a fresh invocation, `start` delivers the target's outcome on a normal return, and otherwise throws what the spin raised, with the slots still empty |
| OffInvocations.NewOffInvocation | src/spin/off/OffInvocation.java:47-51 | the new invocation keeps the given starter and dispatcher, and its call and outcome fields are null |
| OffInvocations.Spin | src/spin/off/OffInvocation.java:62-82 | the invocation's slots, the steps logged and the throwable raised are those of `PumpedRun` on the state before |
| OverInvocations.NewOverInvocation | src/spin/over/OverInvocation.java:32-34 | the new invocation keeps the wait flag |
| OverInvocations.Spin | src/spin/over/OverInvocation.java:39-56 | the slots and steps are those of `OverRun`; only a deferred spin queues the invocation for `invokeLater` |
| InvocationStart.Start | src/spin/Invocation.java:97-105 | spins exactly once, then returns `StartResult`: what the spin raised, else the rethrown throwable, else the result; the call fields stay unchanged |
| InvocationStart.StartDeliversTargetOutcome | src/spin/Invocation.java:97-105 | when a spin on a fresh invocation neither raises nor defers, `start` returns or throws exactly what the target did |
| Interceptors.Intercept | src/spin/Interceptor.java:51-53 | returns what `start` returns, lets through what it throws, spins once, and leaves the object, method and arguments as they were |
| OffDefaults.Defaults.constructor | src/spin/off/OffSpinner.java:38-43 | the defaults start as the AWT reflect dispatcher factory and the simple starter; `SpinOffEvaluator` keeps its own pair, initialised alike (src/main/java/spin/off/SpinOffEvaluator.java:38-43) |
| OffDefaults.Defaults.GetDefaultDispatcherFactory | src/spin/off/OffSpinner.java:129-131 | returns the default factory last set |
| OffDefaults.Defaults.SetDefaultDispatcherFactory | src/spin/off/OffSpinner.java:138-141 | replaces the default factory, null included, and leaves the starter alone, as in `SpinOffEvaluator` |
| OffDefaults.Defaults.GetDefaultStarter | src/spin/off/OffSpinner.java:148-150 | returns the default starter last set |
| OffDefaults.Defaults.SetDefaultStarter | src/spin/off/OffSpinner.java:157-159 | replaces the default starter, null included, and leaves the factory alone, as in `SpinOffEvaluator` |
| OffSpinners.DefaultsAreCopied | src/spin/off/OffSpinner.java:61-63 | a spinner built from the defaults keeps them after they change; only later spinners see new defaults |
| OffSpinners.Create | src/spin/off/OffSpinner.java:91-94 | a spin-off spinner holding the given factory and starter, null ones included |
| OffSpinners.CreateWithDefaults | src/spin/off/OffSpinner.java:61-63 | a spinner holding the default factory and starter current now |
| OffSpinners.CreateWithFactory | src/spin/off/OffSpinner.java:71-73 | a spinner holding the given factory and the default starter current now |
| OffSpinners.CreateWithStarter | src/spin/off/OffSpinner.java:81-83 | a spinner holding the default factory current now and the given starter |
| OffSpinners.Spin | src/spin/off/OffSpinner.java:101-122 | the slots, steps and throwable are those of `CreatingRun`, with the dispatcher numbered next; a dispatcher is created only on the EDT with a factory |
| SpinOffEvaluators.DefaultsAreCopied | src/main/java/spin/off/SpinOffEvaluator.java:62-64 | an evaluator built from the defaults keeps them after they change |
| SpinOffEvaluators.Create | src/main/java/spin/off/SpinOffEvaluator.java:96-99 | an evaluator holding the given factory and starter, null ones included |
| SpinOffEvaluators.CreateWithDefaults | src/main/java/spin/off/SpinOffEvaluator.java:62-64 | an evaluator holding the default factory and starter current now |
| SpinOffEvaluators.CreateWithFactory | src/main/java/spin/off/SpinOffEvaluator.java:73-75 | an evaluator holding the given factory and the default starter current now |
| SpinOffEvaluators.CreateWithStarter | src/main/java/spin/off/SpinOffEvaluator.java:84-86 | an evaluator holding the default factory current now and the given starter |
| SpinOffEvaluators.Evaluate | src/main/java/spin/off/SpinOffEvaluator.java:107-128 | the slots, steps and throwable are those of `CreatingRun`: the same algorithm as `OffSpinner.spin` |
| OverSpinners.Defaults.constructor | src/spin/over/OverSpinner.java:31 | the default wait flag starts true |
| OverSpinners.Defaults.GetDefaultWait | src/spin/over/OverSpinner.java:81-83 | returns the flag last set |
| OverSpinners.Defaults.SetDefaultWait | src/spin/over/OverSpinner.java:85-87 | sets the flag |
| OverSpinners.DefaultWaitIsCopied | src/spin/over/OverSpinner.java:40-51 | a spinner keeps the wait flag current when it was built |
| OverSpinners.Create | src/spin/over/OverSpinner.java:49-51 | a spin-over spinner holding the given wait flag |
| OverSpinners.CreateWithDefault | src/spin/over/OverSpinner.java:40-42 | a spin-over spinner holding the default wait flag current now |
| OverSpinners.Spin | src/spin/over/OverSpinner.java:59-79 | the slots, steps and throwable are those of `OverSpinnerRun`: a null method fails with NullPointerException, a null return type (never the case) with IllegalArgumentException, and otherwise the invocation is queued for `invokeLater` |
| ListenerSpinOver.ListenerNamesMatch | src/spin/off/ListenerSpinOver.java:80-84 | every `add<X>Listener` and `remove<X>Listener` matches, `<X>` empty included |
| ListenerSpinOver.MatchingNamesAreListenerNames | src/spin/off/ListenerSpinOver.java:80-84 | a matching name decomposes as `add<X>Listener` or `remove<X>Listener`, because prefix and suffix never overlap |
| ListenerSpinOver.IsListenerAdditionOrRemoval | src/spin/off/ListenerSpinOver.java:80-84 | a method name that starts with "add" or "remove" and ends with "Listener" |
| ListenerSpinOver.IsListener | src/spin/off/ListenerSpinOver.java:93-95 | a parameter type that is an interface assignable to `java.util.EventListener` |
| ListenerSpinOver.RewriteSpec | src/spin/off/ListenerSpinOver.java:59-67 | the rewrite keeps the array and its length and never changes a non-listener position; it fails iff some listener position is missing or null; on success every listener position holds `Spin.over` of its old argument |
| ListenerSpinOver.FailureSticks | src/spin/off/ListenerSpinOver.java:61-67 | once an iteration throws, the loop's outcome is fixed |
| ListenerSpinOver.RewriteArguments | src/spin/off/ListenerSpinOver.java:60-67 | the in-place loop leaves the array as `ArgumentRewrite` describes and throws the failure it names |
| ListenerSpinOver.Intercept | src/spin/off/ListenerSpinOver.java:52-70 | rejects a non-spin-off invocation before touching it; rewrites the arguments in place as `ArgumentRewrite` says; throws the rewrite's failure, or else starts once and returns what `start` returns |
| Spin.NewOff | src/spin/Spin.java:156-164 | succeeds iff the object, starter and factory are non-null; a null object is rejected first with "object to spin-off must not be null", then the off handler rejects a null starter with "executor must not be null" and a null factory with "dispatcherFactory must not be null" (src/spin/Spin.java:471-479); the interceptor is not checked |
| Spin.NewOver | src/spin/Spin.java:175-183 | succeeds iff the object is non-null |
| Spin.GetProxy | src/spin/Spin.java:193-199 | a JDK proxy over exactly the interfaces of the object's class chain, backed by the handler |
| Spin.Registry.constructor | src/spin/Spin.java:365-376 | with no system property set, the defaults are the plain interceptor twice, the simple starter and the AWT reflect dispatcher factory |
| Spin.Registry.SetDefaultOverInterceptor | src/spin/Spin.java:251-256 | rejects null; otherwise replaces only this default |
| Spin.Registry.GetDefaultOverInterceptor | src/spin/Spin.java:263-265 | returns the default |
| Spin.Registry.SetDefaultOffInterceptor | src/spin/Spin.java:272-277 | rejects null; otherwise replaces only this default |
| Spin.Registry.GetDefaultOffInterceptor | src/spin/Spin.java:284-286 | returns the default |
| Spin.Registry.SetDefaultOffStarter | src/spin/Spin.java:293-298 | rejects null; otherwise replaces only this default |
| Spin.Registry.GetDefaultOffStarter | src/spin/Spin.java:305-307 | returns the default |
| Spin.Registry.SetDefaultOffDispatcherFactory | src/spin/Spin.java:314-319 | rejects null; otherwise replaces only this default |
| Spin.Registry.GetDefaultOffDispatcherFactory | src/spin/Spin.java:326-328 | returns the default |
| Spin.OverWith | src/spin/off/ListenerSpinOver.java:103-105 | spinning over succeeds iff the object is non-null, else throws "object to spin-over must not be null"; the result is a Spin proxy over every interface of the object's class chain with a spin-over handler of that object |
| Spin.Off | src/spin/Spin.java:213-216 | succeeds iff the object is non-null, else throws "object to spin-off must not be null"; the result is a Spin proxy over every interface of the object's class chain whose off handler carries the defaults current at the call |
| Spin.Over | src/spin/Spin.java:228-230 | succeeds iff the object is non-null, else throws "object to spin-over must not be null"; the result is a Spin proxy over every interface of the object's class chain whose over handler carries the default interceptor current at the call |
| Spin.OffReadsDefaultsAtCall | src/spin/Spin.java:213-216 | a proxy made before a default changes keeps the old default; one made after carries the new one |
| Spin.IsSpinProxyOnlyForProxies | src/spin/Spin.java:239-244 | every generation's `isSpinProxy` is false for null and for anything but its own kind of proxy |
| Spin.OffProxyEquality | src/spin/Spin.java:431-437 | two off proxies of one object are equal even when made under different defaults; an off proxy and an over proxy of it are not; off proxies of two distinct ordinary objects are not |
| SpinHandlers.CreateInvocation | src/spin/Spin.java:490-492 | the off handler asks its factory for one new dispatcher and makes an off invocation with its starter; the over handler makes a waiting over invocation |
| SpinHandlers.Invoke | src/spin/Spin.java:406-419 | `equals` answers the proxy's own equality and changes nothing; any other call builds an invocation with the wrapped object, method and arguments and returns what `InvokeRun` says its interceptor returns |
| SpinHandlers.PrepareInvocation | src/spin/Spin.java:412-415 | a fresh invocation of the handler's kind (its dispatcher is the next one) holding the wrapped object, the method and the caller's argument array; only the off handler logs a dispatcher creation |
| SpinHandlers.Forward | src/spin/Spin.java:411-417 | a non-`equals` call returns, logs, rewrites the arguments and defers exactly as `InvokeRun` says, and advances the dispatcher counter by one for an off handler only |
| SpinHandlers.Intercept | src/spin/Spin.java:417 | the handler's interceptor, dispatched on its class, returns, logs, rewrites and defers the invocation as `InterceptorRun` says; a missing interceptor throws NullPointerException |
| SpinHandlers.DefaultInvokeDelivers | src/spin/Spin.java:411-417 | with the default interceptor nothing is deferred and the caller gets the target's outcome, except a spin-off on the EDT whose pump returned first, which throws "dispatcher stopped prematurely" |
| SpinHandlers.OneDispatcherPerOffCall | src/spin/Spin.java:490-492 | every non-`equals` call on an off proxy creates exactly one dispatcher, as the first step; calls on over proxies create none |
| SpinHandlers.SpinCreatesNothing | src/spin/Invocation.java:97-105 | starting an invocation never creates a dispatcher |
| SpinHandlers.ListenerInterceptorNeutralOnOtherCalls | src/spin/off/ListenerSpinOver.java:59 | on a call that neither adds nor removes a listener, `ListenerSpinOver` behaves exactly as the default interceptor |
| SpinHandlers.ListenerInterceptorRefusesSpinOver | src/spin/off/ListenerSpinOver.java:54-56 | `ListenerSpinOver` installed on a spin-over proxy rejects every call |
| JdkProxyFactory.CreateProxy | src/spin/JDKProxyFactory.java:33-38 | a JDK proxy over the interfaces of the object's class chain with a `SpinInvocationHandler` of the object and evaluator; a null object throws NullPointerException |
| JdkProxyFactory.Invoke | src/spin/JDKProxyFactory.java:98-113 | `equals` answers the proxy's own equality; any other call evaluates a plain invocation of the wrapped object through the evaluator once and returns `StartResult` of `EvaluatorRun` |
| JdkProxyFactory.EvaluatedCallDelivers | src/spin/JDKProxyFactory.java:104-111 | whenever the evaluator returns normally, the target ran exactly once and the caller gets its outcome; the in-place evaluator always returns normally; a null evaluator throws NullPointerException |
| JdkProxyFactory.ProxyIsReflexive | test/spin/AbstractProxyFactoryTest.java:36-44 | a proxy equals itself |
| JdkProxyFactory.ProxiesOfSameObjectAreEqual | test/spin/AbstractProxyFactoryTest.java:46-57 | two proxies of one object are equal whatever their evaluators |
| JdkProxyFactory.ProxiesOfDifferentObjectsDiffer | test/spin/AbstractProxyFactoryTest.java:59-72 | proxies of two distinct objects are not equal |
| CglibProxyFactory.CreateProxy | src/spin/CGLibProxyFactory.java:33-35 | a subclass of the object's class with a `SpinMethodInterceptor` of the object and spinner; a null object throws NullPointerException |
| CglibProxyFactory.Intercept | src/spin/CGLibProxyFactory.java:71-84 | `equals` answers the proxy's own equality; any other call spins a plain invocation of the wrapped object, not the proxy, once and returns `StartResult` of `SpinnerRun` |
| CglibProxyFactory.SpinCall | src/spin/CGLibProxyFactory.java:76-83 | a plain invocation of the target is spun once: the caller gets `StartResult` of `SpinnerRun`, the log grows by the run's events and at most the run's one deferred call is queued |
| CglibProxyFactory.SpunCallDelivers | src/spin/CGLibProxyFactory.java:76-83 | when the spinner neither raises nor defers, the caller gets the target's outcome; only a non-waiting spin-over off the EDT defers, and it returns null |
| CglibProxyFactory.ProxiesOfSameObjectAreEqual | src/spin/CGLibProxyFactory.java:89-95 | two proxies of one object are equal whatever their spinners |
| CglibProxyFactory.ProxiesOfDifferentObjectsDiffer | src/spin/CGLibProxyFactory.java:89-95 | proxies of two distinct objects are not equal |
| CglibProxyFactory.FamiliesNeverEqual | src/spin/CGLibProxyFactory.java:89-95 | a CGLib proxy and a JDK-factory proxy of the same object are unequal, either way round |
| DialogPools.AcquireStepSpec | src/main/java/spin/demo/dispatcher/ConcealedDialogDispatcherFactory.java:64-76 | an empty pool creates the next dialog and stays empty; otherwise the first pooled dialog is handed out and the rest keep their order; on a valid pool the dialog handed out is no longer pooled and the pool stays valid |
| DialogPools.AcquireManySpec | src/main/java/spin/demo/dispatcher/ConcealedDialogDispatcherFactory.java:64-76 | successive acquisitions hand out the pooled dialogs oldest first, then newly created ones in creation order; no pooled dialog is lost |
| DialogPools.ReleasedComeBackInOrder | src/main/java/spin/demo/dispatcher/ConcealedDialogDispatcherFactory.java:84-88 | dialogs released into an empty pool are acquired back in release order, without creating any |
| DialogPools.AcquireManyDistinct | src/main/java/spin/demo/dispatcher/ConcealedDialogDispatcherFactory.java:64-76 | from a valid pool, successive acquisitions never hand out one dialog twice, none of them stays pooled, and the pool stays valid |
| DialogPools.DialogPool.Acquire | src/main/java/spin/demo/dispatcher/ConcealedDialogDispatcherFactory.java:64-76 | one `AcquireStep`, atomically, and the dialog handed out has been initialised; it keeps the pool valid and the dialog is no longer pooled |
| DialogPools.DialogPool.Release | src/main/java/spin/demo/dispatcher/ConcealedDialogDispatcherFactory.java:84-88 | appends a dialog this pool created and does not hold to the pool, discarding nothing and keeping the pool valid |
| DialogPools.DialogPool.CreateDialog | src/main/java/spin/demo/dispatcher/ConcealedDialogDispatcherFactory.java:96-98 | makes a dialog distinct from every dialog made before, so it is not pooled |
| DialogPools.DialogPool.InitDialog | src/main/java/spin/demo/dispatcher/ConcealedDialogDispatcherFactory.java:108-111 | records that the dialog was prepared and changes nothing else |
| DialogPools.ReleaseThenAcquire | src/main/java/spin/demo/dispatcher/ConcealedDialogDispatcherFactory.java:64-88 | two dialogs acquired from a new pool are distinct; released, they come back first-in first-out, and the next acquisition creates a dialog distinct from both |

## Left out

- Threads, `synchronized`, the starter's thread, the dispatcher's event pump, `invokeAndWait` and `invokeLater`. These are replaced by the `onEDT` and `workerRan` inputs and the `later` queue. The queued invocations are never run, and an interrupted `invokeAndWait` is not modelled.
- Reflection and proxy generation (`Method.invoke`, `Proxy.newProxyInstance`, CGLib's `Enhancer`). They are replaced by the `Target` function and by proxy values. A target class whose own `equals` is overridden is modelled as comparing by identity.
- The order of the interface array. `Classes.Interfaces` yields the interfaces in an unspecified order, as the `HashSet` does.
- The static initialiser of `Spin` (src/spin/Spin.java:365-376) reads system properties and loads classes by name. Only its outcome when no property is set is modelled (`Spin.Registry.constructor`).
- Custom interceptors, starters, dispatcher factories and evaluators. Only the ones in this repository are modelled, each as an opaque reference.
- Dialog construction, screen size and positioning. `initDialog` is reduced to recording which dialog was prepared. `RevealedDialogDispatcherFactory`, `DialogDispatcherFactory` and the rest of the dispatchers are not part of this model.
- `ProxyFactory.java`, the demo programs and the tests. The tests only motivate the equality lemmas.
- OffInvocations.NewOffInvocation: a null dispatcher cannot be passed. A null dispatcher would only fail later, at `dispatcher.start()`.
- DialogPools.DialogPool.Release: requires a dialog this pool created and does not currently hold. `releaseDialog` accepts any dialog, but its only caller releases the dialog it acquired, once. Releasing a foreign dialog or the same dialog twice is not modelled.
- SpinHandlers.Invoke: the `equals` branch requires a one-element argument array, which is what a proxy passes for `equals(Object)`.

Inconsistencies within the source. The model follows the code as written, or the reading stated here:

- src/spin/Spin.java:515 calls `new OverInvocation()`, but src/spin/over/OverInvocation.java:32 declares only `OverInvocation(boolean wait)`. The model uses `OverKind(true)`, which is also `OverSpinner`'s default (src/spin/over/OverSpinner.java:31).
- `isEvaluated`, `resultOrThrow` and `isEqualsMethod` are called (src/spin/off/OffInvocation.java:76, src/spin/JDKProxyFactory.java:100 and 111) but not defined in src/spin/Invocation.java. `isEvaluated` is modelled as a flag that `evaluate` sets. `resultOrThrow` rethrows the captured throwable or returns the result. `isEqualsMethod` compares with `Object.equals(Object)`.
- The Javadoc of both `Spin` constructors says an IllegalArgumentException is thrown if any argument is null (src/spin/Spin.java:152 and 171), but the interceptor is never checked. A null interceptor passes construction, and every later call other than `equals` then throws NullPointerException at src/spin/Spin.java:417. `Spin.NewOff`, `Spin.NewOver` and `SpinHandlers.Intercept` follow the code.
- `Spin.SPIN_OVER_INTERCEPTOR` holds "spin.off.interceptor", the same name as `SPIN_OFF_INTERCEPTOR` (src/spin/Spin.java:90). It is kept as written in `Spin.SpinOverInterceptorProperty`.
- `OverSpinner.spin` refuses `invokeLater` only when `getReturnType()` is null, which a reflected method never is, so the check is kept literally and proved inert. A non-void method is therefore scheduled with `invokeLater`, and its caller gets null.
