/**
 * The provider shims of gomock/mocker.go: the 25 generated pairs
 * `MockerIJ`/`InvokerIJ` written once, for a signature of I argument types
 * and J result types (1 <= I, J <= 5). A `Mocker` holds the three optional
 * closures the test configures; an `Invoker` is the object registered with
 * the Manager and sees them through its reference to the Mocker.
 */
module Providers {
  import opened Wrappers
  import opened Values

  const MaxParamCount: nat := 5
  const MaxResultCount: nat := 5

  /** The two dispatch strategies. */
  datatype Mode = ModeHandle | ModeWhenReturn

  /** The state captured by the test's closures (for instance the call counter
      of a handler that declines its first call). Every closure receives it and
      returns its new value, so a stateful Go closure is a function here. */
  type Env = int

  /** The type arguments `T1..Ti` and `R1..Rj` of a shim. */
  datatype Signature = Signature(params: seq<Type>, results: seq<Type>)

  /** The arities for which a generated shim `MockerIJ` exists. */
  predicate HasShim(sig: Signature)
  {
    1 <= |sig.params| <= MaxParamCount && 1 <= |sig.results| <= MaxResultCount
  }

  /** Go's `([]interface{}, bool)`: a result slice and whether the call was claimed. */
  datatype Reply = Reply(ret: seq<Value>, ok: bool)

  /** Why a call panicked: a nil func value was called, or the generated
      forwarding method found no mock that claimed the call. */
  datatype Panic = NilFuncCall | NoMockMatched

  /** The outcome of a call that may panic, with the closures' state after it. */
  datatype Out<+T> = Out(value: T, env: Env) | Panicked(reason: Panic, env: Env)

  /** `func(T1, ..., Ti) (R1, ..., Rj, bool)` over boxed values. */
  type HandleFn = (seq<Value>, Env) -> (Reply, Env)
  /** `func(T1, ..., Ti) bool` over boxed values. */
  type WhenFn = (seq<Value>, Env) -> (bool, Env)
  /** `func() (R1, ..., Rj)` over boxed values. */
  type ReturnFn = Env -> (seq<Value>, Env)

  /** What Go's static typing guarantees of a handle function: on arguments of
      the types `T1..Ti` it answers exactly j values of the types `R1..Rj`. */
  ghost predicate HandleFnTyped(sig: Signature, fn: HandleFn)
  {
    forall args: seq<Value>, env: Env :: WellTyped(args, sig.params) ==> WellTyped(fn(args, env).0.ret, sig.results)
  }

  /** What Go's static typing guarantees of a return function. */
  ghost predicate ReturnFnTyped(sig: Signature, fn: ReturnFn)
  {
    forall env: Env :: WellTyped(fn(env).0, sig.results)
  }

  /** `MockerIJ`: the configuration a test writes through `Handle`, `When` and `Return`. */
  class Mocker {
    const sig: Signature
    var fnHandle: Option<HandleFn>
    var fnWhen: Option<WhenFn>
    var fnReturn: Option<ReturnFn>

    ghost predicate Valid()
      reads this
    {
      && HasShim(sig)
      && (fnHandle.Some? ==> HandleFnTyped(sig, fnHandle.value))
      && (fnReturn.Some? ==> ReturnFnTyped(sig, fnReturn.value))
    }

    /** `&MockerIJ{}`: no closure is set. */
    constructor (sig: Signature)
      requires HasShim(sig)
      ensures Valid() && this.sig == sig
      ensures fnHandle == None && fnWhen == None && fnReturn == None
    {
      this.sig := sig;
      fnHandle, fnWhen, fnReturn := None, None, None;
    }

    /** Sets the custom handler, and nothing else. Go lets the test pass a
        nil func (`None`), which clears the handler and so puts the provider
        back into WhenReturn mode. */
    method Handle(fn: Option<HandleFn>)
      requires Valid() && (fn.Some? ==> HandleFnTyped(sig, fn.value))
      modifies this
      ensures Valid()
      ensures fnHandle == fn && fnWhen == old(fnWhen) && fnReturn == old(fnReturn)
    {
      fnHandle := fn;
    }

    /** Sets the condition (a nil func clears it), and returns the same mocker
        so that `.When(..).Return(..)` configures one provider. */
    method When(fn: Option<WhenFn>) returns (self: Mocker)
      requires Valid()
      modifies this
      ensures Valid() && self == this
      ensures fnWhen == fn && fnHandle == old(fnHandle) && fnReturn == old(fnReturn)
    {
      fnWhen := fn;
      self := this;
    }

    /** Sets the canned response, and nothing else; a nil func clears it, so
        that a later claim of the condition panics. */
    method Return(fn: Option<ReturnFn>)
      requires Valid() && (fn.Some? ==> ReturnFnTyped(sig, fn.value))
      modifies this
      ensures Valid()
      ensures fnReturn == fn && fnHandle == old(fnHandle) && fnWhen == old(fnWhen)
    {
      fnReturn := fn;
    }
  }

  /** `InvokerIJ`: the erased view of a Mocker that the Manager dispatches to.
      It embeds a pointer to its Mocker, so it sees every later configuration. */
  class Invoker {
    const mocker: Mocker

    constructor (mocker: Mocker)
      ensures this.mocker == mocker
    {
      this.mocker := mocker;
    }

    /** Handle mode exactly when a handler is set. */
    function Mode(): (mode: Mode)
      reads mocker
      ensures mode == ModeHandle <==> mocker.fnHandle.Some?
    {
      if mocker.fnHandle.Some? then ModeHandle else ModeWhenReturn
    }

    /** The casts `params[k].(Tk)` that calling a set closure performs succeed. */
    predicate Accepts(params: seq<Value>)
      reads mocker
    {
      (mocker.fnHandle.Some? || mocker.fnWhen.Some?) ==> Assertable(params, mocker.sig.params)
    }

    /** Calls the handler on `params[0..i-1]` and boxes its j results; calling
        an unset handler is a nil func call. */
    function Handle(params: seq<Value>, env: Env): (o: Out<Reply>)
      reads mocker
      requires mocker.Valid()
      requires mocker.fnHandle.Some? ==> Assertable(params, mocker.sig.params)
      ensures o.Panicked? <==> mocker.fnHandle.None?
      ensures o.Panicked? ==> o == Panicked(NilFuncCall, env)
      ensures o.Out? ==> WellTyped(o.value.ret, mocker.sig.results)
      ensures o.Out? ==> (o.value, o.env) == mocker.fnHandle.value(params[..|mocker.sig.params|], env)
    {
      match mocker.fnHandle
      case None => Panicked(NilFuncCall, env)
      case Some(fn) =>
        AssertableIsWellTyped(params, mocker.sig.params);
        var (reply, env') := fn(params[..|mocker.sig.params|], env);
        Out(reply, env')
    }

    /** An unset condition is false for every argument list; a set one is
        applied to `params[0..i-1]`. */
    function When(params: seq<Value>, env: Env): (r: (bool, Env))
      reads mocker
      requires mocker.fnWhen.Some? ==> Assertable(params, mocker.sig.params)
      ensures mocker.fnWhen.None? ==> r == (false, env)
      ensures mocker.fnWhen.Some? ==> r == mocker.fnWhen.value(params[..|mocker.sig.params|], env)
    {
      match mocker.fnWhen
      case None => (false, env)
      case Some(fn) => fn(params[..|mocker.sig.params|], env)
    }

    /** Ignores `params` and boxes the j values of the return function;
        calling an unset one is a nil func call. */
    function Return(params: seq<Value>, env: Env): (o: Out<seq<Value>>)
      reads mocker
      requires mocker.Valid()
      ensures o.Panicked? <==> mocker.fnReturn.None?
      ensures o.Panicked? ==> o == Panicked(NilFuncCall, env)
      ensures o.Out? ==> WellTyped(o.value, mocker.sig.results)
      ensures o.Out? ==> (o.value, o.env) == mocker.fnReturn.value(env)
    {
      match mocker.fnReturn
      case None => Panicked(NilFuncCall, env)
      case Some(fn) =>
        var (ret, env') := fn(env);
        Out(ret, env')
    }
  }
}
