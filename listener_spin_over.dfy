/**
 * `ListenerSpinOver`: an interceptor for spin-off that, on a call whose name
 * reads `add...Listener` or `remove...Listener`, replaces every argument of a
 * listener-interface parameter by a spin-over proxy of it before starting.
 */
module ListenerSpinOver {
  import opened Objects
  import opened Invocations
  import opened Policies
  import opened InvocationStart
  import Spin

  const OnlySpinOff := "ListenerSpinOver can only intercept spin-off"

  predicate StartsWith(s: string, prefix: string) {
    prefix <= s
  }

  predicate EndsWith(s: string, suffix: string) {
    |suffix| <= |s| && s[|s| - |suffix|..] == suffix
  }

  /** `isListenerAdditionOrRemoval`: the name matches `(add|remove).*Listener`. */
  predicate IsListenerAdditionOrRemoval(name: string) {
    EndsWith(name, "Listener") && (StartsWith(name, "add") || StartsWith(name, "remove"))
  }

  /** `isListener`: an interface assignable to `java.util.EventListener`. */
  predicate IsListener(t: TypeDesc) {
    t.isInterface && t.assignableToEventListener
  }

  /** Every name `add<X>Listener` and `remove<X>Listener` matches, `<X>` empty included. */
  lemma ListenerNamesMatch(x: string)
    ensures IsListenerAdditionOrRemoval("add" + x + "Listener")
    ensures IsListenerAdditionOrRemoval("remove" + x + "Listener")
  {
    var a := "add" + x + "Listener";
    assert a[..3] == "add" && a[|a| - 8..] == "Listener";
    var r := "remove" + x + "Listener";
    assert r[..6] == "remove" && r[|r| - 8..] == "Listener";
  }

  /**
   * A matching name is `add<X>Listener` or `remove<X>Listener` for some `<X>`:
   * the prefix and the suffix never overlap.
   */
  lemma MatchingNamesAreListenerNames(name: string)
    requires IsListenerAdditionOrRemoval(name)
    ensures StartsWith(name, "add") ==> |name| >= 11 && name == "add" + name[3..|name| - 8] + "Listener"
    ensures StartsWith(name, "remove") ==> |name| >= 14 && name == "remove" + name[6..|name| - 8] + "Listener"
  {
    var n := |name|;
    assert name[n - 8] == 'L' by {
      assert name[n - 8..][0] == "Listener"[0];
    }
    if StartsWith(name, "add") {
      assert name[..3] == "add";
      assert name == name[..3] + name[3..n - 8] + name[n - 8..];
    }
    if StartsWith(name, "remove") {
      assert name[..6] == "remove";
      assert name == name[..6] + name[6..n - 8] + name[n - 8..];
    }
  }

  /** The argument array after the loop, and what stopped it if anything did. */
  datatype Rewrite = Rewrite(args: Option<seq<Value>>, failure: Option<Throwable>)

  /**
   * The loop over the first `n` parameters: `args[t] = spinOver(args[t])` at
   * every listener-typed position, stopping at the first throwable (a null
   * array, an index past its end, a null argument rejected by `Spin.over`).
   */
  function RewriteUpTo(types: seq<TypeDesc>, args: Option<seq<Value>>, n: nat, over: InterceptorRef): Rewrite
    requires n <= |types|
  {
    if n == 0 then Rewrite(args, None)
    else
      var r := RewriteUpTo(types, args, n - 1, over);
      var t := n - 1;
      if r.failure.Some? || !IsListener(types[t]) then r
      else if r.args.None? then Rewrite(r.args, Some(NullPointer))
      else if t >= |r.args.value| then Rewrite(r.args, Some(IndexOutOfBounds(t)))
      else match Spin.OverWith(over, r.args.value[t])
        case Err(e) => Rewrite(r.args, Some(e))
        case Ok(p) => Rewrite(Some(r.args.value[t := p]), None)
  }

  /** Whether position `i` needs wrapping and can be wrapped. */
  predicate Wrappable(types: seq<TypeDesc>, args: Option<seq<Value>>, i: nat)
    requires i < |types|
  {
    IsListener(types[i]) ==> args.Some? && i < |args.value| && args.value[i] != Null
  }

  /**
   * The loop keeps the array and its length; it changes no position whose
   * parameter is not a listener; it fails iff some listener position cannot
   * be wrapped; and when it does not fail, every listener position holds the
   * spin-over proxy of its old argument and every other position its old one.
   */
  lemma {:induction false} RewriteSpec(types: seq<TypeDesc>, args: Option<seq<Value>>, n: nat, over: InterceptorRef)
    requires n <= |types|
    ensures var r := RewriteUpTo(types, args, n, over);
      (r.args.Some? <==> args.Some?) &&
      (args.Some? ==> |r.args.value| == |args.value|) &&
      (args.Some? ==> forall i :: 0 <= i < |args.value| && (i >= n || !IsListener(types[i])) ==>
                         r.args.value[i] == args.value[i]) &&
      (r.failure.None? <==> forall i :: 0 <= i < n ==> Wrappable(types, args, i)) &&
      (r.failure.None? && args.Some? ==> forall i :: 0 <= i < n && i < |args.value| && IsListener(types[i]) ==>
                         Spin.OverWith(over, args.value[i]).Ok? &&
                         r.args.value[i] == Spin.OverWith(over, args.value[i]).value)
  {
    if n > 0 {
      RewriteSpec(types, args, n - 1, over);
      var r := RewriteUpTo(types, args, n - 1, over);
      var t := n - 1;
      if r.failure.Some? {
        var i :| 0 <= i < t && !Wrappable(types, args, i);
        assert !Wrappable(types, args, i);
      } else {
        if args.Some? && t < |args.value| {
          assert r.args.value[t] == args.value[t];
        }
        var rn := RewriteUpTo(types, args, n, over);
        if rn.failure.None? {
          assert Wrappable(types, args, t);
        } else {
          assert !Wrappable(types, args, t);
        }
      }
    }
  }

  /** Once the loop has thrown, the later positions change nothing. */
  lemma {:induction false} FailureSticks(types: seq<TypeDesc>, args: Option<seq<Value>>, n: nat, m: nat, over: InterceptorRef)
    requires n <= m <= |types|
    requires RewriteUpTo(types, args, n, over).failure.Some?
    ensures RewriteUpTo(types, args, m, over) == RewriteUpTo(types, args, n, over)
    decreases m - n
  {
    if n < m {
      FailureSticks(types, args, n, m - 1, over);
    }
  }

  /** What the interceptor does to the arguments of a call to `m`. */
  function ArgumentRewrite(m: Option<MethodDesc>, args: Option<seq<Value>>, over: InterceptorRef): Rewrite {
    match m
    case None => Rewrite(args, Some(NullPointer))
    case Some(m) =>
      if IsListenerAdditionOrRemoval(m.name) then RewriteUpTo(m.parameterTypes, args, |m.parameterTypes|, over)
      else Rewrite(args, None)
  }

  /**
   * `intercept`: reject an invocation that is not an `OffInvocation` before
   * touching it; rewrite the listener arguments in place (the invocation
   * sees the change, since it holds the same array); then start it once.
   */
  method Intercept(inv: Invocation, reg: Spin.Registry, reflect: Target, onEDT: bool, workerRan: bool, rt: Runtime)
    returns (r: Result<Value>)
    modifies inv, inv.args, rt
    ensures inv.target == old(inv.target) && inv.invokedMethod == old(inv.invokedMethod) && inv.args == old(inv.args)
    ensures rt.nextDispatcher == old(rt.nextDispatcher)
    ensures !inv.kind.OffKind? ==> r == Err(IllegalArgument(OnlySpinOff)) && inv.State() == old(inv.State()) &&
                                   ArgsOf(inv.args) == old(ArgsOf(inv.args)) && rt.log == old(rt.log) &&
                                   rt.later == old(rt.later)
    ensures inv.kind.OffKind? ==>
      var rw := ArgumentRewrite(old(inv.invokedMethod), old(ArgsOf(inv.args)), reg.overInterceptor);
      ArgsOf(inv.args) == rw.args &&
      (rw.failure.Some? ==> r == Err(rw.failure.value) && inv.State() == old(inv.State()) &&
                            rt.log == old(rt.log) && rt.later == old(rt.later)) &&
      (rw.failure.None? ==>
        var run := SpinOf(inv.kind, old(inv.State()), CallOf(reflect, inv.target, inv.invokedMethod, rw.args),
                          onEDT, workerRan);
        inv.State() == run.post && r == StartResult(run) && rt.log == old(rt.log) + run.events &&
        rt.later == old(rt.later))
  {
    if !inv.kind.OffKind? {
      return Err(IllegalArgument(OnlySpinOff));
    }
    var m := inv.GetMethod();
    if m.None? {
      return Err(NullPointer);
    }
    if IsListenerAdditionOrRemoval(m.value.name) {
      var args := inv.GetArguments();
      var failure := RewriteArguments(m.value.parameterTypes, args, reg.overInterceptor);
      if failure.Some? {
        return Err(failure.value);
      }
    }
    r := Start(inv, reflect, onEDT, workerRan, rt);
  }

  /**
   * The loop of `intercept`: `args[t] = spinOver(args[t])` at each listener
   * position in turn, in place, until one throws.
   */
  method RewriteArguments(types: seq<TypeDesc>, args: array?<Value>, over: InterceptorRef)
    returns (failure: Option<Throwable>)
    modifies args
    ensures var rw := RewriteUpTo(types, old(ArgsOf(args)), |types|, over);
      ArgsOf(args) == rw.args && failure == rw.failure
  {
    var t := 0;
    while t < |types|
      invariant 0 <= t <= |types|
      invariant ArgsOf(args) == RewriteUpTo(types, old(ArgsOf(args)), t, over).args
      invariant RewriteUpTo(types, old(ArgsOf(args)), t, over).failure.None?
    {
      if IsListener(types[t]) {
        if args == null {
          FailureSticks(types, old(ArgsOf(args)), t + 1, |types|, over);
          return Some(NullPointer);
        }
        if t >= args.Length {
          FailureSticks(types, old(ArgsOf(args)), t + 1, |types|, over);
          return Some(IndexOutOfBounds(t));
        }
        var p := Spin.OverWith(over, args[t]);
        if p.Err? {
          FailureSticks(types, old(ArgsOf(args)), t + 1, |types|, over);
          return Some(p.error);
        }
        args[t] := p.value;
      }
      t := t + 1;
    }
    failure := None;
  }
}
