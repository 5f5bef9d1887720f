/**
 * `Invocation`: the envelope of one call on a proxy. Setters fill in the
 * target object, the method and the arguments; `evaluate` makes the
 * reflective call and captures its return value or what it threw.
 *
 * The threads the call crosses are represented by `Runtime`: a log of the
 * steps taken (dispatchers created, started and stopped, workers started,
 * evaluations, work scheduled on the event-dispatch thread), the queue of
 * invocations handed to `invokeLater`, and the source of fresh dispatchers.
 */
module Invocations {
  import opened Objects

  /** One step of marshaling, in the order it happens. */
  datatype Event =
    | DispatcherCreated(dispatcher: Dispatcher)   // DispatcherFactory.createDispatcher()
    | WorkerStarted(starter: StarterRef)          // Starter.start(runnable)
    | Evaluated                                   // Invocation.evaluate()
    | DispatcherStopped(dispatcher: Dispatcher)   // Dispatcher.stop()
    | PumpReturned(dispatcher: Dispatcher)        // Dispatcher.start() returned
    | RanAndWaited                                // SwingUtilities.invokeAndWait(runnable)
    | ScheduledLater                              // SwingUtilities.invokeLater(runnable)

  /** Which subclass of `Invocation` an envelope is. */
  datatype Kind =
    | PlainKind                                          // the concrete Invocation of the Evaluator and Spinner generations
    | OffKind(starter: Option<StarterRef>, dispatcher: Dispatcher)   // OffInvocation
    | OverKind(wait: bool)                               // OverInvocation

  /** The outcome slots of an invocation, and whether it was evaluated. */
  datatype Snapshot = Snapshot(result: Value, throwable: Option<Throwable>, evaluated: bool)

  /** A just-constructed invocation: `result` and `throwable` are null. */
  const Fresh := Snapshot(Null, None, false)

  /** The throwable `evaluate` stores: the target exception, not its wrapper. */
  function Unwrapped(t: Throwable): Throwable {
    if t.InvocationTarget? then t.target else t
  }

  /** What `evaluate` does to the outcome slots, given what the reflective call did. */
  function Capture(s: Snapshot, call: Result<Value>): Snapshot {
    match call
    case Ok(v) => Snapshot(v, s.throwable, true)
    case Err(e) => Snapshot(s.result, Some(Unwrapped(e)), true)
  }

  /** `start`'s tail and `resultOrThrow`: rethrow a captured throwable, else return the result. */
  function Outcome(s: Snapshot): Result<Value> {
    if s.throwable.Some? then Err(s.throwable.value) else Ok(s.result)
  }

  /** What a proxy caller observes when the target's call completes with `call`. */
  function Delivered(call: Result<Value>): Result<Value> {
    match call
    case Ok(v) => Ok(v)
    case Err(e) => Err(Unwrapped(e))
  }

  /**
   * Evaluating a fresh invocation fills exactly one slot: the result when the
   * target returned, the throwable (unwrapped) when anything was thrown.
   */
  lemma CaptureFillsOneSlot(call: Result<Value>)
    ensures var s := Capture(Fresh, call);
      s.evaluated &&
      (call.Ok? ==> s.result == call.value && s.throwable == None) &&
      (call.Err? ==> s.result == Null && s.throwable.Some?) &&
      (call.Err? && call.error.InvocationTarget? ==> s.throwable == Some(call.error.target)) &&
      (call.Err? && !call.error.InvocationTarget? ==> s.throwable == Some(call.error))
  {
  }

  /** Returning or rethrowing what was captured delivers the target's own outcome. */
  lemma CaptureThenOutcome(call: Result<Value>)
    ensures Outcome(Capture(Fresh, call)) == Delivered(call)
  {
  }

  /** What `method.invoke(object, args)` does; a null method throws NullPointerException. */
  function CallOf(t: Target, target: Value, m: Option<MethodDesc>, args: Option<seq<Value>>): Result<Value> {
    match m
    case None => Err(NullPointer)
    case Some(m) => t(target, m, args)
  }

  /** The marshaling environment one call sees. */
  class Runtime {
    var log: seq<Event>
    var later: seq<Invocation>
    var nextDispatcher: nat

    constructor ()
      ensures log == [] && later == [] && nextDispatcher == 0
    {
      log, later, nextDispatcher := [], [], 0;
    }

    /** `dispatcherFactory.createDispatcher()`: a dispatcher never handed out before. */
    method CreateDispatcher() returns (d: Dispatcher)
      modifies this
      ensures d == Dispatcher(old(nextDispatcher)) && nextDispatcher == old(nextDispatcher) + 1
      ensures log == old(log) + [DispatcherCreated(d)] && later == old(later)
    {
      d := Dispatcher(nextDispatcher);
      nextDispatcher := nextDispatcher + 1;
      log := log + [DispatcherCreated(d)];
    }

    /** Record one step that changes nothing else. */
    method Record(e: Event)
      modifies this
      ensures log == old(log) + [e] && later == old(later) && nextDispatcher == old(nextDispatcher)
    {
      log := log + [e];
    }

    /** `SwingUtilities.invokeLater`: queue the invocation's evaluation. */
    method ScheduleLater(inv: Invocation)
      modifies this
      ensures log == old(log) + [ScheduledLater] && later == old(later) + [inv]
      ensures nextDispatcher == old(nextDispatcher)
    {
      log := log + [ScheduledLater];
      later := later + [inv];
    }
  }

  class Invocation {
    var target: Value
    var invokedMethod: Option<MethodDesc>
    var args: array?<Value>
    var throwable: Option<Throwable>
    var result: Value
    var evaluated: bool
    const kind: Kind

    /** A new envelope: every field null, not evaluated. */
    constructor (kind: Kind)
      ensures this.kind == kind && target == Null && invokedMethod == None && args == null
      ensures State() == Fresh
    {
      this.kind := kind;
      target, invokedMethod, args := Null, None, null;
      throwable, result, evaluated := None, Null, false;
    }

    function State(): Snapshot
      reads this
    {
      Snapshot(result, throwable, evaluated)
    }

    /** What the reflective call of this envelope does now. */
    function Call(t: Target): Result<Value>
      reads this, args
    {
      CallOf(t, target, invokedMethod, ArgsOf(args))
    }

    method SetObject(o: Value)
      modifies this
      ensures target == o && invokedMethod == old(invokedMethod) && args == old(args) && State() == old(State())
    {
      target := o;
    }

    method GetObject() returns (o: Value)
      ensures o == target
    {
      o := target;
    }

    method SetMethod(m: Option<MethodDesc>)
      modifies this
      ensures invokedMethod == m && target == old(target) && args == old(args) && State() == old(State())
    {
      invokedMethod := m;
    }

    method GetMethod() returns (m: Option<MethodDesc>)
      ensures m == invokedMethod
    {
      m := invokedMethod;
    }

    /** Stores the array itself: a later change to its elements is seen by the invocation. */
    method SetArguments(a: array?<Value>)
      modifies this
      ensures args == a && target == old(target) && invokedMethod == old(invokedMethod) && State() == old(State())
    {
      args := a;
    }

    method GetArguments() returns (a: array?<Value>)
      ensures a == args
    {
      a := args;
    }

    /**
     * `evaluate`: make the reflective call and capture its outcome. It never
     * throws; the target object, the method and the arguments are left as they were.
     */
    method Evaluate(t: Target, rt: Runtime)
      modifies this, rt
      ensures State() == Capture(old(State()), old(Call(t)))
      ensures target == old(target) && invokedMethod == old(invokedMethod) && args == old(args)
      ensures rt.log == old(rt.log) + [Evaluated] && rt.later == old(rt.later)
      ensures rt.nextDispatcher == old(rt.nextDispatcher)
    {
      var call := Call(t);
      match call {
        case Ok(v) =>
          result := v;
        case Err(InvocationTarget(e)) =>
          throwable := Some(e);
        case Err(e) =>
          throwable := Some(e);
      }
      evaluated := true;
      rt.Record(Evaluated);
    }

    /** `resultOrThrow`: rethrow the captured throwable, else return the result. */
    method ResultOrThrow() returns (r: Result<Value>)
      ensures r.Err? <==> throwable.Some?
      ensures r.Err? ==> r.error == throwable.value
      ensures r.Ok? ==> r.value == result
    {
      if throwable.Some? {
        r := Err(throwable.value);
      } else {
        r := Ok(result);
      }
    }
  }
}
