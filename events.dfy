/** Callback capture: a Lua function held through a registry reference, and
    the host-side event broadcaster whose listeners forward to such
    functions. */
module Events {
  import opened LuaApi

  /** A captured Lua function: the state it lives in and its registry
      reference (the class LuaFunction of the demo). */
  class LuaFunction {
    const L: LuaState
    const reference: int

    constructor (L: LuaState, reference: int)
      ensures this.L == L && this.reference == reference
    {
      this.L := L;
      this.reference := reference;
    }

    /** Pushes registry[reference] and `value`, then calls it with no
        results. The status is ignored, so a failure leaves its error
        object on the stack. */
    method PCall(value: int, outcome: CallOutcome)
      requires L.Open() && CallOutcomeOk(outcome, |L.heap|, |L.userdata|)
      modifies L`stack, L`trace
      ensures L.Open()
      ensures L.trace == old(L.trace) + [Invocation(L.registry, reference, value)]
      ensures L.stack == old(L.stack) + ErrorSlot(outcome)
    {
      L.RawGetI(RegistryIndex, reference);
      L.PushInteger(value);
      var _ := L.PCall(1, 0, 0, outcome);
    }

    /** The finalizer: frees the registry reference (a negative one, such
        as LUA_REFNIL, is left alone). When the collector runs it is not
        modelled. */
    method Finalize()
      requires L.Open()
      modifies L`registry
      ensures L.Open()
      ensures L.registry == if reference >= 0 then old(L.registry) - {Integer(reference)} else old(L.registry)
    {
      L.Unref(RegistryIndex, reference);
    }
  }

  /** The call that invoking the function held under `reference` with
      `value` makes. */
  function Invocation(registry: map<Value, Value>, reference: int, value: int): Call {
    Call(Lookup(registry, Integer(reference)), [Integer(value)])
  }

  /** What a call with no requested results leaves on the stack. */
  function ErrorSlot(o: CallOutcome): (r: seq<Value>)
    ensures |r| <= 1
    ensures r == [] <==> o.Returned?
  {
    if o.Raised? then [o.error] else []
  }

  /** The error objects of a run of calls, in order. */
  function Errors(outcomes: seq<CallOutcome>): seq<Value> {
    if outcomes == [] then []
    else Errors(outcomes[..|outcomes| - 1]) + ErrorSlot(outcomes[|outcomes| - 1])
  }

  /** The errors of two runs in a row are those of the first, then those of
      the second. */
  lemma {:induction false} ErrorsAppend(first: seq<CallOutcome>, second: seq<CallOutcome>)
    ensures Errors(first + second) == Errors(first) + Errors(second)
  {
    if second == [] {
      assert first + second == first;
    } else {
      var init := second[..|second| - 1];
      var last := second[|second| - 1];
      assert second == init + [last];
      calc {
        Errors(first + second);
        { ConcatAssoc(first, init, [last]); }
        Errors((first + init) + [last]);
        { ErrorsSnoc(first + init, last); }
        Errors(first + init) + ErrorSlot(last);
        { ErrorsAppend(first, init); }
        (Errors(first) + Errors(init)) + ErrorSlot(last);
        { ConcatAssoc(Errors(first), Errors(init), ErrorSlot(last)); }
        Errors(first) + (Errors(init) + ErrorSlot(last));
        { ErrorsSnoc(init, last); }
        Errors(first) + Errors(second);
      }
    }
  }

  /** One more call adds its error slot at the end. */
  lemma ErrorsSnoc(outcomes: seq<CallOutcome>, o: CallOutcome)
    ensures Errors(outcomes + [o]) == Errors(outcomes) + ErrorSlot(o)
  {
  }

  /** At most one slot per call, and none when every call returned. */
  lemma {:induction false} ErrorsBound(outcomes: seq<CallOutcome>)
    ensures |Errors(outcomes)| <= |outcomes|
    ensures (forall i :: 0 <= i < |outcomes| ==> outcomes[i].Returned?) ==> Errors(outcomes) == []
  {
    if outcomes != [] {
      ErrorsBound(outcomes[..|outcomes| - 1]);
    }
  }

  /** The calls Dispatch(value) makes: one per listener, in registration
      order. */
  function Invocations(listeners: seq<LuaFunction>, registry: map<Value, Value>, value: int): (r: seq<Call>)
    ensures |r| == |listeners|
    ensures forall i :: 0 <= i < |listeners| ==> r[i] == Invocation(registry, listeners[i].reference, value)
  {
    seq(|listeners|, i requires 0 <= i < |listeners| => Invocation(registry, listeners[i].reference, value))
  }

  /** One more listener adds its call at the end. */
  lemma InvocationsSnoc(listeners: seq<LuaFunction>, f: LuaFunction, registry: map<Value, Value>, value: int)
    ensures Invocations(listeners + [f], registry, value)
            == Invocations(listeners, registry, value) + [Invocation(registry, f.reference, value)]
  {
  }

  /** One more callback of a dispatch, seen from the stack before it. */
  lemma ErrorsStep(base: seq<Value>, outcomes: seq<CallOutcome>, i: nat)
    requires i < |outcomes|
    ensures base + Errors(outcomes[..i + 1]) == (base + Errors(outcomes[..i])) + ErrorSlot(outcomes[i])
  {
    assert outcomes[..i + 1] == outcomes[..i] + [outcomes[i]];
    ErrorsSnoc(outcomes[..i], outcomes[i]);
    ConcatAssoc(base, Errors(outcomes[..i]), ErrorSlot(outcomes[i]));
  }

  /** One more listener of a dispatch, seen from the trace before it. */
  lemma InvocationsStep(base: seq<Call>, listeners: seq<LuaFunction>, registry: map<Value, Value>, value: int, i: nat)
    requires i < |listeners|
    ensures base + Invocations(listeners[..i + 1], registry, value)
            == (base + Invocations(listeners[..i], registry, value)) + [Invocation(registry, listeners[i].reference, value)]
  {
    assert listeners[..i + 1] == listeners[..i] + [listeners[i]];
    InvocationsSnoc(listeners[..i], listeners[i], registry, value);
    ConcatAssoc(base, Invocations(listeners[..i], registry, value), [Invocation(registry, listeners[i].reference, value)]);
  }

  /** The static event of the demo: an ordered multicast list of listeners,
      each of which forwards its argument to a captured Lua function. The
      empty list stands for the null delegate. */
  class EventManager {
    var callbacks: seq<LuaFunction>

    constructor ()
      ensures callbacks == []
    {
      callbacks := [];
    }

    /** `_callbacks += callback`. */
    method Register(callback: LuaFunction)
      modifies this`callbacks
      ensures callbacks == old(callbacks) + [callback]
    {
      callbacks := callbacks + [callback];
    }

    /** `_callbacks = null`. */
    method Clear()
      modifies this`callbacks
      ensures callbacks == []
    {
      callbacks := [];
    }

    /** Invokes every listener once, in order, with `value`; outcomes[i] is
        what the i-th Lua callback does. With no listeners nothing happens. */
    method Dispatch(value: int, ghost L: LuaState, outcomes: seq<CallOutcome>)
      requires L.Open() && |outcomes| == |callbacks|
      requires forall i :: 0 <= i < |callbacks| ==> callbacks[i].L == L
      requires forall i :: 0 <= i < |outcomes| ==> CallOutcomeOk(outcomes[i], |L.heap|, |L.userdata|)
      modifies L`stack, L`trace
      ensures L.Open()
      ensures L.trace == old(L.trace) + Invocations(callbacks, L.registry, value)
      ensures L.stack == old(L.stack) + Errors(outcomes)
    {
      var i := 0;
      while i < |callbacks|
        invariant 0 <= i <= |callbacks|
        invariant L.Open()
        invariant L.trace == old(L.trace) + Invocations(callbacks[..i], L.registry, value)
        invariant L.stack == old(L.stack) + Errors(outcomes[..i])
      {
        callbacks[i].PCall(value, outcomes[i]);
        ErrorsStep(old(L.stack), outcomes, i);
        InvocationsStep(old(L.trace), callbacks, L.registry, value, i);
        i := i + 1;
      }
      assert outcomes[..i] == outcomes;
      assert callbacks[..i] == callbacks;
    }
  }
}
