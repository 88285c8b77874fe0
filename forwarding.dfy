/**
 * The code the generator emits around the dispatch core, and the scenarios
 * of the repository's own tests replayed on the model. A mocked method
 * `Get` of a type `ServiceMockImpl` forwards its arguments to `Invoke`,
 * unboxes a claimed answer with `UnboxN`, and panics with "no mock code
 * matched" otherwise; `MockGet` registers a new `Mocker32` for it.
 */
module Forwarding {
  import opened Wrappers
  import opened Values
  import opened Providers
  import opened GoMock

  /** What the forwarding method makes of `Invoke`'s answer. */
  function Forwarded(d: Out<Reply>, rs: seq<Type>): (o: Out<seq<Value>>)
    requires 1 <= |rs| <= MaxResultCount
    ensures o.env == d.env
    ensures o.Out? <==> d.Out? && d.value.ok
    ensures d.Out? && !d.value.ok ==> o.reason == NoMockMatched
    ensures d.Panicked? ==> o == Panicked(d.reason, d.env)
    ensures o.Out? ==> WellTyped(o.value, rs)
  {
    match d
    case Out(Reply(ret, true), e) => Out(Unbox(ret, rs), e)
    case Out(Reply(_, false), e) => Panicked(NoMockMatched, e)
    case Panicked(reason, e) => Panicked(reason, e)
  }

  /** The forwarding method gives the caller exactly the values the claiming
      handler or return function produced: unboxing undoes their boxing. */
  lemma ForwardRoundTrip(ms: seq<Invoker>, params: seq<Value>, env: Env, rs: seq<Type>)
    requires 1 <= |rs| <= MaxResultCount
    requires Callable(ms, params)
    requires forall i :: i in ms ==> i.mocker.sig.results == rs
    requires Dispatch(ms, params, env).Out? && Dispatch(ms, params, env).value.ok
    ensures Forwarded(Dispatch(ms, params, env), rs) == Out(Dispatch(ms, params, env).value.ret, Dispatch(ms, params, env).env)
  {
    DispatchTyped(ms, params, env, rs);
    UnboxRoundTrip(Dispatch(ms, params, env).value.ret, rs);
  }

  /** The generated forwarding method, for a method with result types `rs`. */
  method Forward(r: Manager?, testing: bool, typ: Type, methodName: string, params: seq<Value>, rs: seq<Type>, env: Env)
    returns (o: Out<seq<Value>>)
    requires 1 <= |rs| <= MaxResultCount
    requires r != null && testing ==> Callable(r.GetMockers(typ, methodName), params)
    ensures r == null || !testing ==> o == Panicked(NoMockMatched, env)
    ensures r != null && testing ==> o == Forwarded(Dispatch(r.GetMockers(typ, methodName), params, env), rs)
  {
    var d := Invoke(r, testing, typ, methodName, params, env);
    o := Forwarded(d, rs);
  }

  // The mocked interface of the repository's test data: `Service.Get` takes a
  // context, a request pointer and a string map, and answers a response
  // pointer and an error.

  const ServiceMockImpl := Concrete("testdata.ServiceMockImpl")
  const ContextType := Interface("context.Context", {"context.backgroundCtx"})
  const RequestPtr := Concrete("*inner.Request")
  const StringMap := Concrete("map[string]string")
  const ResponsePtr := Concrete("*testdata.Response")
  const ErrorType := Interface("error", {})
  const GetSig := Signature([ContextType, RequestPtr, StringMap], [ResponsePtr, ErrorType])

  /** `s.Get(context.Background(), nil, nil)`, boxed. */
  const GetArgs := [Boxed("context.backgroundCtx", 0), Zero(RequestPtr), Zero(StringMap)]

  /** The test's handler: `count++; return nil, nil, count > 1`. */
  const CountingHandler: HandleFn := (args: seq<Value>, count: Env) => (Reply([Zero(ResponsePtr), Nil], count + 1 > 1), count + 1)

  /** The first call is declined by the only handler, so the forwarding
      method panics; the second call, with the counter at 1, is claimed.
      The handler ran both times: the counter ends at 2. */
  method CountingScenario() returns (first: Out<seq<Value>>, second: Out<seq<Value>>)
    ensures first == Panicked(NoMockMatched, 1)
    ensures second == Out([Zero(ResponsePtr), Nil], 2)
  {
    var r, ctx := Init(Background);
    var m := NewMocker(r, ServiceMockImpl, "Get", GetSig);
    CountingHandlerTyped();
    m.Handle(Some(CountingHandler));
    var ms := r.GetMockers(ServiceMockImpl, "Get");
    assert ms == [ms[0]] && ms[0].mocker == m;
    assert GetArgs[..3] == GetArgs;
    assert Step(ms[0], GetArgs, 0) == Decline(1);
    assert Step(ms[0], GetArgs, 1) == Claim([Zero(ResponsePtr), Nil], 2);
    assert Dispatch(ms, GetArgs, 1) == Out(Reply([Zero(ResponsePtr), Nil], true), 2);
    UnboxRoundTrip([Zero(ResponsePtr), Nil], GetSig.results);
    first := Forward(r, true, ServiceMockImpl, "Get", GetArgs, GetSig.results, 0);
    second := Forward(r, true, ServiceMockImpl, "Get", GetArgs, GetSig.results, first.env);
  }

  lemma CountingHandlerTyped()
    ensures HandleFnTyped(GetSig, CountingHandler)
  {
  }

  /** Configuration made through the Mocker after it was registered is seen
      by dispatch: the Invoker holds the same Mocker. Before `When`/`Return`
      the call is unclaimed; after `.When(..).Return(..)` it is claimed. */
  method ConfigureAfterRegistration() returns (before: Out<Reply>, after: Out<Reply>)
    ensures before == Out(Reply([], false), 0)
    ensures after == Out(Reply([Zero(ResponsePtr), Nil], true), 0)
  {
    var r, ctx := Init(Background);
    var m := NewMocker(r, ServiceMockImpl, "Get", GetSig);
    before := InvokeContext(ctx, true, ServiceMockImpl, "Get", GetArgs, 0);
    var same := m.When(Some((args: seq<Value>, e: Env) => (true, e)));
    same.Return(Some((e: Env) => ([Zero(ResponsePtr), Nil], e)));
    after := InvokeContext(ctx, true, ServiceMockImpl, "Get", GetArgs, 0);
  }

  /** Clearing the handler with a nil func hands the provider back to its
      condition and canned response: the same call that the handler claimed
      is then answered by `Return`. */
  method ClearHandler() returns (handled: Out<Reply>, cleared: Out<Reply>)
    ensures handled == Out(Reply([Boxed("*testdata.Response", 7), Nil], true), 0)
    ensures cleared == Out(Reply([Zero(ResponsePtr), Nil], true), 0)
  {
    var r, ctx := Init(Background);
    var m := NewMocker(r, ServiceMockImpl, "Get", GetSig);
    ghost var i := r.GetMockers(ServiceMockImpl, "Get")[0];
    assert r.GetMockers(ServiceMockImpl, "Get") == [i] && i.mocker == m;
    FixedHandlerTyped();
    GetArgsAssertable();
    m.Handle(Some(FixedHandler));
    var same := m.When(Some(Always));
    same.Return(Some(NilResponse));
    ClaimedByHandler(i);
    handled := InvokeContext(ctx, true, ServiceMockImpl, "Get", GetArgs, 0);
    m.Handle(None);
    ClaimedByReturn(i);
    cleared := InvokeContext(ctx, true, ServiceMockImpl, "Get", GetArgs, 0);
  }

  /** A lone provider whose handler is `FixedHandler` claims the call with it. */
  lemma ClaimedByHandler(i: Invoker)
    requires i.mocker.Valid() && i.mocker.sig == GetSig && Assertable(GetArgs, GetSig.params)
    requires i.mocker.fnHandle.Some? && i.mocker.fnHandle.value == FixedHandler
    ensures Callable([i], GetArgs)
    ensures Dispatch([i], GetArgs, 0) == Out(Reply([Boxed("*testdata.Response", 7), Nil], true), 0)
  {
    assert GetArgs[..3] == GetArgs;
    assert Step(i, GetArgs, 0) == Claim([Boxed("*testdata.Response", 7), Nil], 0);
  }

  /** A lone provider without a handler, whose condition always holds, claims
      the call with its canned response. */
  lemma ClaimedByReturn(i: Invoker)
    requires i.mocker.Valid() && i.mocker.sig == GetSig && Assertable(GetArgs, GetSig.params)
    requires i.mocker.fnHandle.None? && i.mocker.fnWhen.Some? && i.mocker.fnWhen.value == Always
    requires i.mocker.fnReturn.Some? && i.mocker.fnReturn.value == NilResponse
    ensures Callable([i], GetArgs)
    ensures Dispatch([i], GetArgs, 0) == Out(Reply([Zero(ResponsePtr), Nil], true), 0)
  {
    assert GetArgs[..3] == GetArgs;
    assert Step(i, GetArgs, 0) == Claim([Zero(ResponsePtr), Nil], 0);
  }

  /** Registers three providers for `Get`: one with nothing set, one whose
      condition is false, and a handler that claims. */
  method FallThroughSetup() returns (r: Manager, ghost i1: Invoker, ghost i2: Invoker, ghost i3: Invoker)
    ensures r.GetMockers(ServiceMockImpl, "Get") == [i1, i2, i3]
    ensures Callable([i1, i2, i3], GetArgs)
    ensures i1.mocker.fnHandle.None? && i1.mocker.fnWhen.None?
    ensures i2.mocker.fnHandle.None? && i2.mocker.fnWhen.Some? && i2.mocker.fnWhen.value == Never
    ensures i3.mocker.fnHandle.Some? && i3.mocker.fnHandle.value == FixedHandler && i3.mocker.sig == GetSig
  {
    var ctx;
    r, ctx := Init(Background);
    var unset := NewMocker(r, ServiceMockImpl, "Get", GetSig);
    i1 := r.GetMockers(ServiceMockImpl, "Get")[0];
    var guarded := NewMocker(r, ServiceMockImpl, "Get", GetSig);
    i2 := r.GetMockers(ServiceMockImpl, "Get")[1];
    var handler := NewMocker(r, ServiceMockImpl, "Get", GetSig);
    i3 := r.GetMockers(ServiceMockImpl, "Get")[2];
    assert r.GetMockers(ServiceMockImpl, "Get") == [i1, i2, i3];
    assert i1.mocker == unset && i2.mocker == guarded && i3.mocker == handler;
    ghost var ms := [i1, i2, i3];
    var self := guarded.When(Some(Never));
    guarded.Return(Some(NilResponse));
    FixedHandlerTyped();
    handler.Handle(Some(FixedHandler));
    assert r.GetMockers(ServiceMockImpl, "Get") == ms;
    GetArgsAssertable();
    assert unset.Valid() && guarded.Valid() && handler.Valid();
    assert forall i :: i in ms ==> i == i1 || i == i2 || i == i3;
  }

  /** The test's arguments pass the casts to `Get`'s parameter types. */
  lemma GetArgsAssertable()
    ensures Assertable(GetArgs, GetSig.params)
  {
  }

  /** A WhenReturn provider whose condition is false, registered before a
      Handle provider under the same key: the call falls through to the
      second. A provider with nothing set is skipped as well. */
  method FallThroughScenario() returns (o: Out<Reply>)
    ensures o == Out(Reply([Boxed("*testdata.Response", 7), Nil], true), 0)
  {
    var r;
    ghost var i1, i2, i3;
    r, i1, i2, i3 := FallThroughSetup();
    FallThroughDispatch(i1, i2, i3);
    o := Invoke(r, true, ServiceMockImpl, "Get", GetArgs, 0);
  }

  /** The dispatch of `FallThroughScenario` over its three providers. */
  lemma FallThroughDispatch(i1: Invoker, i2: Invoker, i3: Invoker)
    requires Callable([i1, i2, i3], GetArgs)
    requires i1.mocker.fnHandle.None? && i1.mocker.fnWhen.None?
    requires i2.mocker.fnHandle.None? && i2.mocker.fnWhen.Some? && i2.mocker.fnWhen.value == Never
    requires i3.mocker.fnHandle.Some? && i3.mocker.fnHandle.value == FixedHandler && i3.mocker.sig == GetSig
    ensures Dispatch([i1, i2, i3], GetArgs, 0) == Out(Reply([Boxed("*testdata.Response", 7), Nil], true), 0)
  {
    assert [i1, i2, i3] == [i1] + [i2, i3];
    UnconfiguredIsSkipped(i1, [i2, i3], GetArgs, 0);
    assert [i2, i3] == [i2] + [i3];
    assert GetArgs[..3] == GetArgs;
    WhenFalseFallsThrough(i2, [i3], GetArgs, 0);
    assert Step(i3, GetArgs, 0) == Claim([Boxed("*testdata.Response", 7), Nil], 0);
  }

  const Never: WhenFn := (args: seq<Value>, e: Env) => (false, e)
  const Always: WhenFn := (args: seq<Value>, e: Env) => (true, e)
  const NilResponse: ReturnFn := (e: Env) => ([Zero(ResponsePtr), Nil], e)
  const FixedHandler: HandleFn := (args: seq<Value>, e: Env) => (Reply([Boxed("*testdata.Response", 7), Nil], true), e)

  lemma FixedHandlerTyped()
    ensures HandleFnTyped(GetSig, FixedHandler)
  {
  }
}
