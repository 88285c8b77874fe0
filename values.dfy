/**
 * The untyped values that cross the erasure boundary of the mocking runtime:
 * Go's `interface{}` and the type assertion `v.(T)` on it.
 */
module Values {

  /** A Go type as far as a type assertion can tell: a concrete type is known by
      its name; an interface type by its name and the concrete types (of the
      program under test) that implement it. */
  datatype Type = Concrete(name: string) | Interface(name: string, implementers: set<string>)

  /** The content of an `interface{}`: the nil interface, or a concrete dynamic
      type together with the value stored under it. */
  datatype Value = Nil | Boxed(dynType: string, payload: int)

  /** Go's zero value of a type: nil for an interface type, and for a concrete
      type the value whose payload is 0 (a nil pointer, 0, "", ...). */
  function Zero(t: Type): Value
  {
    if t.Interface? then Nil else Boxed(t.name, 0)
  }

  /** Whether the assertion `v.(t)` succeeds. The nil interface fails every
      assertion, to a concrete type and to an interface type alike. */
  predicate Asserts(v: Value, t: Type)
  {
    v.Boxed? && (if t.Concrete? then v.dynType == t.name else v.dynType in t.implementers)
  }

  /** Whether `v` is what boxing a Go variable of static type `t` into an
      `interface{}` can give: for an interface type this includes nil. */
  predicate HasStaticType(v: Value, t: Type)
  {
    Asserts(v, t) || (t.Interface? && v.Nil?)
  }

  /** The comma-ok assertion `x, _ := v.(t)`: `v` itself when the assertion
      succeeds, the zero value of `t` otherwise. */
  function AssertOr(v: Value, t: Type): (x: Value)
    ensures HasStaticType(x, t)
    ensures Asserts(v, t) ==> x == v
    ensures !Asserts(v, t) ==> x == Zero(t)
  {
    if Asserts(v, t) then v else Zero(t)
  }

  /** A slice boxed from values of the static types `ts`, one per slot. */
  predicate WellTyped(vs: seq<Value>, ts: seq<Type>)
  {
    |vs| == |ts| && forall k :: 0 <= k < |ts| ==> HasStaticType(vs[k], ts[k])
  }

  /** The first |ts| slots of `vs` pass the assertions `vs[k].(ts[k])`. */
  predicate Assertable(vs: seq<Value>, ts: seq<Type>)
  {
    |vs| >= |ts| && forall k :: 0 <= k < |ts| ==> Asserts(vs[k], ts[k])
  }

  /** What passes the assertions is a well-typed prefix. */
  lemma AssertableIsWellTyped(vs: seq<Value>, ts: seq<Type>)
    requires Assertable(vs, ts)
    ensures WellTyped(vs[..|ts|], ts)
  {
  }

  /** One zero value per result type. */
  function Zeros(ts: seq<Type>): (zs: seq<Value>)
    ensures WellTyped(zs, ts)
    ensures forall k :: 0 <= k < |ts| ==> zs[k] == Zero(ts[k])
  {
    seq(|ts|, k requires 0 <= k < |ts| => Zero(ts[k]))
  }

  /**
   * `Unbox1` ... `Unbox5`, written once for the result types `rs` (of length
   * N between 1 and 5): when the slice has exactly N slots, slot k is the
   * comma-ok assertion of `ret[k]` to `rs[k]`; otherwise (after a logged
   * warning) every slot is the zero value.
   */
  function Unbox(ret: seq<Value>, rs: seq<Type>): (r: seq<Value>)
    requires 1 <= |rs| <= 5
    ensures WellTyped(r, rs)
  {
    if |ret| == |rs| then seq(|rs|, k requires 0 <= k < |rs| => AssertOr(ret[k], rs[k]))
    else Zeros(rs)
  }

  /** A slice of the wrong length unboxes to all zero values, and nothing faults. */
  lemma UnboxWrongLength(ret: seq<Value>, rs: seq<Type>)
    requires 1 <= |rs| <= 5 && |ret| != |rs|
    ensures forall k :: 0 <= k < |rs| ==> Unbox(ret, rs)[k] == Zero(rs[k])
  {
  }

  /** With the right length, slot k depends on `ret[k]` and `rs[k]` only: it is
      `ret[k]` when its dynamic type fits and the zero value when it does not,
      whatever the other slots hold. */
  lemma UnboxSlot(ret: seq<Value>, rs: seq<Type>, k: nat)
    requires 1 <= |rs| <= 5 && |ret| == |rs| && k < |rs|
    ensures Asserts(ret[k], rs[k]) ==> Unbox(ret, rs)[k] == ret[k]
    ensures !Asserts(ret[k], rs[k]) ==> Unbox(ret, rs)[k] == Zero(rs[k])
  {
  }

  /** Replacing one slot by a mismatching value zeroes that slot and no other. */
  lemma UnboxMismatchIsLocal(ret: seq<Value>, rs: seq<Type>, k: nat, bad: Value)
    requires 1 <= |rs| <= 5 && |ret| == |rs| && k < |rs| && !Asserts(bad, rs[k])
    ensures Unbox(ret[k := bad], rs)[k] == Zero(rs[k])
    ensures forall j :: 0 <= j < |rs| && j != k ==> Unbox(ret[k := bad], rs)[j] == Unbox(ret, rs)[j]
  {
  }

  /** Unboxing inverts boxing: a slice boxed from values of the result types
      gives those values back, nil interfaces included. */
  lemma UnboxRoundTrip(vs: seq<Value>, rs: seq<Type>)
    requires 1 <= |rs| <= 5 && WellTyped(vs, rs)
    ensures Unbox(vs, rs) == vs
  {
  }
}
