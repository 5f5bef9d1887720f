/**
 * The two marshaling disciplines as functions of the state before a spin:
 * the outcome slots afterwards, the steps taken, what is thrown, and whether
 * the evaluation was left queued on the event-dispatch thread.
 *
 * Threads are replaced by two inputs: `onEDT` (is the caller the event-dispatch
 * thread) and, for spin-off, `workerRan` (did the started worker evaluate and
 * stop the dispatcher before the pump returned, or did the pump return first).
 */
module Policies {
  import opened Objects
  import opened Invocations

  datatype SpinRun = SpinRun(post: Snapshot, events: seq<Event>, raised: Option<Throwable>, deferred: bool)

  const PrematureStop := "dispatcher stopped prematurely"
  const NoInvokeLater := "cannot invokeLater a method with non-void return"

  /** The number of evaluations among the steps. */
  function Evaluations(events: seq<Event>): nat {
    if events == [] then 0
    else (if events[0] == Evaluated then 1 else 0) + Evaluations(events[1..])
  }

  /**
   * Spin-off with a dispatcher already at hand (`OffInvocation.spin`): off the
   * EDT evaluate in place; on it, start a worker that evaluates and then stops
   * the dispatcher, pump until `start` returns, and fail if nothing was evaluated.
   */
  function PumpedRun(starter: Option<StarterRef>, d: Dispatcher, pre: Snapshot, call: Result<Value>,
                     onEDT: bool, workerRan: bool): SpinRun
  {
    if !onEDT then SpinRun(Capture(pre, call), [Evaluated], None, false)
    else if starter.None? then SpinRun(pre, [], Some(NullPointer), false)
    else
      var post := if workerRan then Capture(pre, call) else pre;
      var worker := if workerRan then [Evaluated, DispatcherStopped(d)] else [];
      SpinRun(post, [WorkerStarted(starter.value)] + worker + [PumpReturned(d)],
              if post.evaluated then None else Some(Fatal(PrematureStop)), false)
  }

  /**
   * Spin-off that first creates its dispatcher (`OffSpinner.spin`,
   * `SpinOffEvaluator.evaluate`); `d` is the dispatcher the factory hands out.
   */
  function CreatingRun(factory: Option<FactoryRef>, starter: Option<StarterRef>, d: Dispatcher,
                       pre: Snapshot, call: Result<Value>, onEDT: bool, workerRan: bool): SpinRun
  {
    if !onEDT then PumpedRun(starter, d, pre, call, false, workerRan)
    else if factory.None? then SpinRun(pre, [], Some(NullPointer), false)
    else
      var run := PumpedRun(starter, d, pre, call, true, workerRan);
      run.(events := [DispatcherCreated(d)] + run.events)
  }

  /**
   * Spin-over of `OverInvocation.spin`: on the EDT evaluate in place; off it,
   * run on the EDT and wait, or only schedule the evaluation.
   */
  function OverRun(wait: bool, pre: Snapshot, call: Result<Value>, onEDT: bool): SpinRun {
    if onEDT then SpinRun(Capture(pre, call), [Evaluated], None, false)
    else if wait then SpinRun(Capture(pre, call), [RanAndWaited, Evaluated], None, false)
    else SpinRun(pre, [ScheduledLater], None, true)
  }

  /** `getReturnType()` of a reflected method, which is never null (`void` has a class too). */
  function ReturnTypeOrNull(m: MethodDesc): Option<TypeDesc> {
    Some(m.returnType)
  }

  /**
   * Spin-over of `OverSpinner.spin`: as `OverRun`, but before `invokeLater`
   * the method's return type is compared with null.
   */
  function OverSpinnerRun(wait: bool, m: Option<MethodDesc>, pre: Snapshot, call: Result<Value>, onEDT: bool): SpinRun {
    if onEDT || wait then OverRun(wait, pre, call, onEDT)
    else if m.None? then SpinRun(pre, [], Some(NullPointer), false)
    else if ReturnTypeOrNull(m.value).None? then SpinRun(pre, [], Some(IllegalArgument(NoInvokeLater)), false)
    else OverRun(wait, pre, call, onEDT)
  }

  /** What `start` returns or throws after a spin. */
  function StartResult(run: SpinRun): Result<Value> {
    if run.raised.Some? then Err(run.raised.value) else Outcome(run.post)
  }

  /**
   * Spin-off returns normally only once the invocation has been evaluated,
   * and then it was evaluated exactly once by this spin (when it was fresh).
   */
  lemma PumpedNormalReturnMeansEvaluated(starter: Option<StarterRef>, d: Dispatcher, pre: Snapshot,
                                         call: Result<Value>, onEDT: bool, workerRan: bool)
    ensures var run := PumpedRun(starter, d, pre, call, onEDT, workerRan);
      Evaluations(run.events) <= 1 &&
      (run.raised.None? ==> run.post.evaluated) &&
      (run.raised.None? && !pre.evaluated ==> Evaluations(run.events) == 1 && run.post == Capture(pre, call))
  {
    var run := PumpedRun(starter, d, pre, call, onEDT, workerRan);
    if onEDT && starter.Some? {
      var s := starter.value;
      if workerRan {
        assert run.events == [WorkerStarted(s), Evaluated, DispatcherStopped(d), PumpReturned(d)];
        assert run.events[1..][1..] == [DispatcherStopped(d), PumpReturned(d)];
        assert Evaluations(run.events[1..][1..]) == 0 by {
          assert run.events[1..][1..][1..] == [PumpReturned(d)];
          assert run.events[1..][1..][1..][1..] == [];
        }
        assert Evaluations(run.events) == Evaluations(run.events[1..]) == 1;
      } else {
        assert run.events == [WorkerStarted(s), PumpReturned(d)];
        assert run.events[1..][1..] == [];
        assert Evaluations(run.events) == Evaluations(run.events[1..]) == 0;
      }
    } else if !onEDT {
      assert run.events[1..] == [];
    }
  }

  /** Off the EDT, spin-off evaluates in place: no dispatcher, no starter, no pump. */
  lemma OffEdtEvaluatesInPlace(factory: Option<FactoryRef>, starter: Option<StarterRef>, d: Dispatcher,
                               pre: Snapshot, call: Result<Value>, workerRan: bool)
    ensures PumpedRun(starter, d, pre, call, false, workerRan)
         == CreatingRun(factory, starter, d, pre, call, false, workerRan)
         == SpinRun(Capture(pre, call), [Evaluated], None, false)
  {
  }

  /**
   * On the EDT with a starter, the worker evaluates before it stops the
   * dispatcher, and the pump returns last; if the pump returns without the
   * worker having run, an unevaluated invocation fails with "dispatcher
   * stopped prematurely" and keeps its outcome slots.
   */
  lemma OnEdtWorkerOrder(s: StarterRef, d: Dispatcher, pre: Snapshot, call: Result<Value>, workerRan: bool)
    ensures var run := PumpedRun(Some(s), d, pre, call, true, workerRan);
      (workerRan ==> run.events == [WorkerStarted(s), Evaluated, DispatcherStopped(d), PumpReturned(d)]
                     && run.raised == None) &&
      (!workerRan ==> run.events == [WorkerStarted(s), PumpReturned(d)] && run.post == pre &&
                      run.raised == if pre.evaluated then None else Some(Fatal(PrematureStop)))
  {
  }

  /** Creating spin-off differs from pumped spin-off only by the one dispatcher it creates first. */
  lemma CreatingRunCreatesOneDispatcher(f: FactoryRef, starter: Option<StarterRef>, d: Dispatcher,
                                        pre: Snapshot, call: Result<Value>, workerRan: bool)
    ensures var run := CreatingRun(Some(f), starter, d, pre, call, true, workerRan);
      var pumped := PumpedRun(starter, d, pre, call, true, workerRan);
      run.events[0] == DispatcherCreated(d) && run.events[1..] == pumped.events &&
      run.post == pumped.post && run.raised == pumped.raised
  {
  }

  /**
   * Spin-over evaluates synchronously except off the EDT without waiting,
   * where it only schedules the evaluation and returns a null result.
   */
  lemma OverDefersOnlyWithoutWait(wait: bool, call: Result<Value>, onEDT: bool)
    ensures var run := OverRun(wait, Fresh, call, onEDT);
      run.raised == None &&
      (run.deferred <==> !onEDT && !wait) &&
      (run.deferred ==> run.post == Fresh && StartResult(run) == Ok(Null)) &&
      (!run.deferred ==> StartResult(run) == Delivered(call) && Evaluations(run.events) == 1)
  {
    var run := OverRun(wait, Fresh, call, onEDT);
    if !onEDT && wait {
      assert run.events[1..] == [Evaluated];
    }
  }

  /**
   * The null check of `OverSpinner` never fires for a reflected method: for
   * every non-null method `OverSpinner.spin` behaves as `OverInvocation.spin`
   * and schedules a method with a return value through `invokeLater`.
   */
  lemma OverSpinnerReturnTypeCheckIsInert(wait: bool, m: MethodDesc, pre: Snapshot, call: Result<Value>, onEDT: bool)
    ensures OverSpinnerRun(wait, Some(m), pre, call, onEDT) == OverRun(wait, pre, call, onEDT)
    ensures !onEDT && !wait ==> OverSpinnerRun(wait, Some(m), pre, call, onEDT).raised == None
  {
  }

  /**
   * End to end: whenever spin-off returns normally on a fresh invocation, the
   * caller of `start` observes exactly what the target did, unwrapped.
   */
  lemma PumpedStartDelivers(starter: Option<StarterRef>, d: Dispatcher, call: Result<Value>,
                            onEDT: bool, workerRan: bool)
    ensures var run := PumpedRun(starter, d, Fresh, call, onEDT, workerRan);
      run.raised.None? ==> StartResult(run) == Delivered(call)
    ensures var run := PumpedRun(starter, d, Fresh, call, onEDT, workerRan);
      run.raised.Some? ==> StartResult(run) == Err(run.raised.value) && run.post == Fresh
  {
  }
}
