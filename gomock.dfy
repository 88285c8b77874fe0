/**
 * The dispatch core of gomock/gomock.go: the Manager that maps a
 * (type, method) key to the invokers registered for it, in registration
 * order, and `Invoke`, the first-match search over them. `NewMocker` from
 * gomock/mocker.go lives here because it registers with a Manager.
 */
module GoMock {
  import opened Wrappers
  import opened Values
  import opened Providers

  /** `mockerKey`: the nominal identity of the mocked type and a method name. */
  datatype Key = Key(typ: Type, methodName: string)

  class Manager {
    var mockers: map<Key, seq<Invoker>>

    /** The Manager that `Init` allocates: no invoker for any key. */
    constructor ()
      ensures mockers == map[]
      ensures forall typ, methodName :: GetMockers(typ, methodName) == []
    {
      mockers := map[];
    }

    /** The invokers registered for (typ, methodName), oldest first; Go's nil slice
        for a key never registered. */
    function GetMockers(typ: Type, methodName: string): seq<Invoker>
      reads this
    {
      var k := Key(typ, methodName);
      if k in mockers then mockers[k] else []
    }

    /** Appends `i` to the list of (typ, methodName); every other list is unchanged. */
    method AddMocker(typ: Type, methodName: string, i: Invoker)
      modifies this
      ensures mockers == old(mockers)[Key(typ, methodName) := old(GetMockers(typ, methodName)) + [i]]
      ensures GetMockers(typ, methodName) == old(GetMockers(typ, methodName)) + [i]
      ensures forall t, m :: Key(t, m) != Key(typ, methodName) ==> GetMockers(t, m) == old(GetMockers(t, m))
    {
      var k := Key(typ, methodName);
      mockers := mockers[k := GetMockers(typ, methodName) + [i]];
    }
  }

  /** A `context.Context` as far as the Manager is concerned: the chain of
      values bound by `context.WithValue`, innermost first. */
  datatype Context = Background | WithManager(parent: Context, manager: Manager) | WithOther(parent: Context)

  /** The Manager bound by the innermost `Init` along the chain, or nil. */
  predicate Bound(ctx: Context)
  {
    match ctx
    case Background => false
    case WithManager(_, _) => true
    case WithOther(p) => Bound(p)
  }

  /** `getManager`: `ctx.Value(&managerKey).(*Manager)`, nil when no Manager is bound. */
  function GetManager(ctx: Context): (r: Manager?)
    ensures r == null <==> !Bound(ctx)
    ensures ctx.WithManager? ==> r == ctx.manager
    ensures ctx.WithOther? ==> r == GetManager(ctx.parent)
  {
    match ctx
    case Background => null
    case WithManager(_, m) => m
    case WithOther(p) => GetManager(p)
  }

  /** `ctx` under n further values of other keys. */
  function Derived(ctx: Context, n: nat): Context
  {
    if n == 0 then ctx else WithOther(Derived(ctx, n - 1))
  }

  /** Values of other keys added after `Init` do not hide its Manager. */
  lemma {:induction false} OtherValuesAreTransparent(ctx: Context, r: Manager, n: nat)
    ensures GetManager(Derived(WithManager(ctx, r), n)) == r
  {
    if n > 0 {
      OtherValuesAreTransparent(ctx, r, n - 1);
    }
  }

  /** A fresh, empty Manager, bound into a child of `ctx`. */
  method Init(ctx: Context) returns (r: Manager, ctx': Context)
    ensures fresh(r) && r.mockers == map[]
    ensures ctx' == WithManager(ctx, r) && GetManager(ctx') == r
  {
    r := new Manager();
    ctx' := WithManager(ctx, r);
  }

  /** `NewMockerIJ`: a fresh Mocker with nothing set, and a fresh Invoker over
      it appended to the list of (typ, methodName). */
  method NewMocker(r: Manager, typ: Type, methodName: string, sig: Signature) returns (m: Mocker)
    requires HasShim(sig)
    modifies r
    ensures fresh(m) && m.Valid() && m.sig == sig
    ensures m.fnHandle == None && m.fnWhen == None && m.fnReturn == None
    ensures |r.GetMockers(typ, methodName)| == |old(r.GetMockers(typ, methodName))| + 1
    ensures r.GetMockers(typ, methodName)[..|old(r.GetMockers(typ, methodName))|] == old(r.GetMockers(typ, methodName))
    ensures fresh(Last(r.GetMockers(typ, methodName))) && Last(r.GetMockers(typ, methodName)).mocker == m
    ensures forall t, name :: Key(t, name) != Key(typ, methodName) ==> r.GetMockers(t, name) == old(r.GetMockers(t, name))
  {
    m := new Mocker(sig);
    var i := new Invoker(m);
    r.AddMocker(typ, methodName, i);
  }

  function Last<T>(s: seq<T>): T
    requires |s| > 0
  {
    s[|s| - 1]
  }

  /** What one invoker does with a call in `Invoke`'s loop. */
  datatype Verdict = Claim(ret: seq<Value>, env: Env) | Decline(env: Env) | Fault(env: Env)

  /** The invokers of a key can be consulted with `params`: each is well
      typed and the casts of its set closures succeed. The generated code
      registers only invokers of the mocked method's own signature under its
      key, and forwards that method's arguments. */
  ghost predicate Callable(ms: seq<Invoker>, params: seq<Value>)
    reads set i | i in ms :: i.mocker
  {
    forall i :: i in ms ==> i.mocker.Valid() && i.Accepts(params)
  }

  /** The body of `Invoke`'s loop for one invoker: in Handle mode the handler
      decides; in WhenReturn mode the condition decides and the return
      function answers. */
  function Step(inv: Invoker, params: seq<Value>, env: Env): (v: Verdict)
    reads inv.mocker
    requires inv.mocker.Valid() && inv.Accepts(params)
    ensures v.Claim? ==> WellTyped(v.ret, inv.mocker.sig.results)
    ensures v.Fault? ==> inv.Mode() == ModeWhenReturn && inv.When(params, env).0 && inv.mocker.fnReturn.None?
    ensures inv.Mode() == ModeHandle ==> inv.Handle(params, env).Out? && (v.Claim? <==> inv.Handle(params, env).value.ok)
    ensures inv.Mode() == ModeWhenReturn ==> (v.Decline? <==> !inv.When(params, env).0)
    ensures inv.mocker.fnHandle.None? && inv.mocker.fnWhen.None? ==> v == Decline(env)
  {
    match inv.Mode()
    case ModeHandle =>
      var o := inv.Handle(params, env);
      if o.value.ok then Claim(o.value.ret, o.env) else Decline(o.env)
    case ModeWhenReturn =>
      var (w, e) := inv.When(params, env);
      if !w then Decline(e)
      else match inv.Return(params, e)
        case Out(ret, e') => Claim(ret, e')
        case Panicked(_, e') => Fault(e')
  }

  /** The specification of `Invoke` on a Manager in test mode: the invokers
      are tried in order and the first claim answers. */
  function Dispatch(ms: seq<Invoker>, params: seq<Value>, env: Env): (o: Out<Reply>)
    reads set i | i in ms :: i.mocker
    requires Callable(ms, params)
    ensures o.Out? && !o.value.ok ==> o.value.ret == []
    ensures o.Panicked? ==> o.reason == NilFuncCall
    decreases |ms|
  {
    if ms == [] then Out(Reply([], false), env)
    else
      match Step(ms[0], params, env)
      case Claim(ret, e) => Out(Reply(ret, true), e)
      case Decline(e) => Dispatch(ms[1..], params, e)
      case Fault(e) => Panicked(NilFuncCall, e)
  }

  /** Splitting the invokers into a prefix and a suffix: the suffix is
      consulted only when the prefix left the call unclaimed, and then from
      the closures' state the prefix left behind. A claim or a panic in the
      prefix is the answer whatever the suffix holds. */
  lemma {:induction false} DispatchAppend(a: seq<Invoker>, b: seq<Invoker>, params: seq<Value>, env: Env)
    requires Callable(a + b, params)
    ensures Callable(a, params) && Callable(b, params)
    ensures var o := Dispatch(a, params, env);
      Dispatch(a + b, params, env) == if o.Out? && !o.value.ok then Dispatch(b, params, o.env) else o
    decreases |a|
  {
    if a == [] {
      assert a + b == b;
    } else {
      assert (a + b)[0] == a[0] && (a + b)[1..] == a[1..] + b;
      match Step(a[0], params, env)
      case Claim(_, _) =>
      case Fault(_) =>
      case Decline(e) => DispatchAppend(a[1..], b, params, e);
    }
  }

  /** First match wins: when the invokers before `c` leave the call unclaimed
      and `c` claims it, `Invoke` answers with `c`'s results, whatever is
      registered after `c`, which is never consulted. */
  lemma FirstClaimWins(a: seq<Invoker>, c: Invoker, b: seq<Invoker>, params: seq<Value>, env: Env, e1: Env)
    requires Callable(a + [c] + b, params)
    requires Callable(a, params) && Dispatch(a, params, env) == Out(Reply([], false), e1)
    requires c.mocker.Valid() && c.Accepts(params) && Step(c, params, e1).Claim?
    ensures Dispatch(a + [c] + b, params, env) == Out(Reply(Step(c, params, e1).ret, true), Step(c, params, e1).env)
  {
    DispatchAppend(a + [c], b, params, env);
    DispatchAppend(a, [c], params, env);
  }

  /** A Handle-mode invoker whose handler answers `ok == false` does not stop
      the search: the next invoker is tried, in the state the handler left. */
  lemma HandleDeclineFallsThrough(c: Invoker, rest: seq<Invoker>, params: seq<Value>, env: Env)
    requires Callable([c] + rest, params)
    requires c.Mode() == ModeHandle && !c.Handle(params, env).value.ok
    ensures Dispatch([c] + rest, params, env) == Dispatch(rest, params, c.Handle(params, env).env)
  {
  }

  /** A WhenReturn-mode invoker whose condition is false does not stop the
      search, and its return function is not called. */
  lemma WhenFalseFallsThrough(c: Invoker, rest: seq<Invoker>, params: seq<Value>, env: Env)
    requires Callable([c] + rest, params)
    requires c.Mode() == ModeWhenReturn && !c.When(params, env).0
    ensures Dispatch([c] + rest, params, env) == Dispatch(rest, params, c.When(params, env).1)
  {
  }

  /** A provider with neither a handler nor a condition never matches: it is
      skipped, closures' state untouched, whatever its return function. */
  lemma UnconfiguredIsSkipped(c: Invoker, rest: seq<Invoker>, params: seq<Value>, env: Env)
    requires Callable([c] + rest, params)
    requires c.mocker.fnHandle.None? && c.mocker.fnWhen.None?
    ensures Dispatch([c] + rest, params, env) == Dispatch(rest, params, env)
  {
  }

  /** Invokers that set neither a handler nor a condition never claim a call. */
  lemma {:induction false} NothingConfiguredNothingClaimed(ms: seq<Invoker>, params: seq<Value>, env: Env)
    requires Callable(ms, params)
    requires forall i :: i in ms ==> i.mocker.fnHandle.None? && i.mocker.fnWhen.None?
    ensures Dispatch(ms, params, env) == Out(Reply([], false), env)
    decreases |ms|
  {
    if ms != [] {
      assert ms == [ms[0]] + ms[1..];
      UnconfiguredIsSkipped(ms[0], ms[1..], params, env);
      NothingConfiguredNothingClaimed(ms[1..], params, env);
    }
  }

  /** When every invoker of the key has the result types `rs` (as the
      generated code ensures), a claimed call answers exactly |rs| values of
      those types. */
  lemma {:induction false} DispatchTyped(ms: seq<Invoker>, params: seq<Value>, env: Env, rs: seq<Type>)
    requires Callable(ms, params)
    requires forall i :: i in ms ==> i.mocker.sig.results == rs
    ensures var o := Dispatch(ms, params, env); o.Out? && o.value.ok ==> WellTyped(o.value.ret, rs)
    decreases |ms|
  {
    if ms != [] {
      match Step(ms[0], params, env)
      case Claim(_, _) =>
      case Fault(_) =>
      case Decline(e) => DispatchTyped(ms[1..], params, e, rs);
    }
  }

  /** Once a handler is set, the condition and the return function are never
      consulted: two invokers that agree on the handler make the same step. */
  lemma HandleModeIgnoresWhenReturn(c: Invoker, d: Invoker, params: seq<Value>, env: Env)
    requires c.mocker.Valid() && d.mocker.Valid() && c.Accepts(params) && d.Accepts(params)
    requires c.mocker.fnHandle.Some? && c.mocker.fnHandle == d.mocker.fnHandle
    requires c.mocker.sig.params == d.mocker.sig.params
    ensures Step(c, params, env) == Step(d, params, env)
  {
  }

  /** `Invoke`: inert, whatever is registered, without a Manager or outside a
      test binary; otherwise the first claim among the key's invokers. It
      changes nothing (it has no `modifies` clause). */
  method Invoke(r: Manager?, testing: bool, typ: Type, methodName: string, params: seq<Value>, env: Env)
    returns (o: Out<Reply>)
    requires r != null && testing ==> Callable(r.GetMockers(typ, methodName), params)
    ensures r == null || !testing ==> o == Out(Reply([], false), env)
    ensures r != null && testing ==> o == Dispatch(r.GetMockers(typ, methodName), params, env)
  {
    if r == null || !testing {
      return Out(Reply([], false), env);
    }
    var mockers := r.GetMockers(typ, methodName);
    var e := env;
    for n := 0 to |mockers|
      invariant Dispatch(mockers, params, env) == Dispatch(mockers[n..], params, e)
    {
      var f := mockers[n];
      assert mockers[n..][0] == f && mockers[n..][1..] == mockers[n + 1..];
      match f.Mode()
      case ModeHandle =>
        var h := f.Handle(params, e);
        if h.value.ok {
          return Out(Reply(h.value.ret, true), h.env);
        }
        e := h.env;
      case ModeWhenReturn =>
        var (w, e1) := f.When(params, e);
        if w {
          var ret := f.Return(params, e1);
          if ret.Panicked? {
            return Panicked(NilFuncCall, ret.env);
          }
          return Out(Reply(ret.value, true), ret.env);
        }
        e := e1;
    }
    return Out(Reply([], false), e);
  }

  /** `InvokeContext`: `Invoke` with the Manager bound in `ctx`; a context
      without one makes the call inert. */
  method InvokeContext(ctx: Context, testing: bool, typ: Type, methodName: string, params: seq<Value>, env: Env)
    returns (o: Out<Reply>)
    requires Bound(ctx) && testing ==> Callable(GetManager(ctx).GetMockers(typ, methodName), params)
    ensures !Bound(ctx) || !testing ==> o == Out(Reply([], false), env)
    ensures Bound(ctx) && testing ==> o == old(Dispatch(GetManager(ctx).GetMockers(typ, methodName), params, env))
  {
    var r := GetManager(ctx);
    o := Invoke(r, testing, typ, methodName, params, env);
    if r != null && testing {
      assert r.GetMockers(typ, methodName) == old(r.GetMockers(typ, methodName));
      assert Callable(r.GetMockers(typ, methodName), params);
      assert Dispatch(r.GetMockers(typ, methodName), params, env) == old(Dispatch(r.GetMockers(typ, methodName), params, env));
    }
  }
}
