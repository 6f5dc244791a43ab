/**
 * Binding a parameter array onto a prepared statement. The statement's
 * parameters are a map from 1-based position to the bound value; a value of a
 * type the binder does not handle leaves its position unbound and produces a
 * warning instead.
 */
module Binder {

  import opened Variants
  import opened Classifier

  /** One typed bind call on a prepared statement. */
  datatype Binding =
    | BindNull
    | BindBoolean(b: bool)
    | BindInt64(i: Int64)
    | BindDouble(d: Double)
    | BindDateTime(text: string)
    | BindString(text: string)

  /** The warning for parameter `index` (0-based) whose type number is not allowed. */
  datatype Warning = Warning(index: nat, typeId: nat)

  /** The value types that have a bind call: null, bool, int, real and string. */
  predicate Bindable(v: Variant)
  {
    v.Nil? || v.Bool? || v.Int? || v.Real? || v.Str?
  }

  /** The bind call for a value; a string goes in as a datetime exactly when the classifier accepts it. */
  function BindingOf(v: Variant): Binding
    requires Bindable(v)
  {
    match v
    case Nil => BindNull
    case Bool(b) => BindBoolean(b)
    case Int(i) => BindInt64(i)
    case Real(d) => BindDouble(d)
    case Str(s) => if IsSqlDatetime(s) then BindDateTime(s) else BindString(s)
  }

  /** The value a binding carries to the database, as a host value again. */
  function BoundValue(b: Binding): Variant
  {
    match b
    case BindNull => Nil
    case BindBoolean(x) => Bool(x)
    case BindInt64(i) => Int(i)
    case BindDouble(d) => Real(d)
    case BindDateTime(s) => Str(s)
    case BindString(s) => Str(s)
  }

  /** Binding loses nothing: the bound value is the parameter itself, whichever way a string is classified. */
  lemma BindingRoundTrip(v: Variant)
    requires Bindable(v)
    ensures BoundValue(BindingOf(v)) == v
    ensures BindingOf(v).BindDateTime? <==> v.Str? && IsSqlDatetime(v.s)
    ensures BindingOf(v).BindString? <==> v.Str? && !IsSqlDatetime(v.s)
  {
  }

  /** The statement's parameters after binding `params`: position i+1 holds the binding of params[i] when it has one. */
  function Bindings(params: seq<Variant>): map<nat, Binding>
  {
    if params == [] then map[]
    else
      var last := params[|params| - 1];
      var init := Bindings(params[..|params| - 1]);
      if Bindable(last) then init[|params| := BindingOf(last)] else init
  }

  /** Parameter i is bound at position i+1 and only there; unbindable parameters leave their position empty. */
  lemma {:induction false} BindingsExact(params: seq<Variant>)
    ensures forall k: nat :: k in Bindings(params) <==> 1 <= k <= |params| && Bindable(params[k - 1])
    ensures forall i :: 0 <= i < |params| && Bindable(params[i]) ==> Bindings(params)[i + 1] == BindingOf(params[i])
  {
    if params != [] {
      var init := params[..|params| - 1];
      BindingsExact(init);
      assert forall i :: 0 <= i < |init| ==> init[i] == params[i];
    }
  }

  /** The warnings emitted while binding `params`, in parameter order. */
  function Warnings(params: seq<Variant>): seq<Warning>
  {
    if params == [] then []
    else
      var last := params[|params| - 1];
      Warnings(params[..|params| - 1])
        + (if Bindable(last) then [] else [Warning(|params| - 1, TypeId(last))])
  }

  /** Warnings name exactly the unbindable parameters, each once, in increasing order, with their type numbers. */
  lemma {:induction false} WarningsExact(params: seq<Variant>)
    ensures forall j :: 0 <= j < |Warnings(params)| ==>
              var w := Warnings(params)[j];
              w.index < |params| && !Bindable(params[w.index]) && w.typeId == TypeId(params[w.index])
    ensures forall j, k :: 0 <= j < k < |Warnings(params)| ==> Warnings(params)[j].index < Warnings(params)[k].index
    ensures forall i :: 0 <= i < |params| && !Bindable(params[i]) ==> Warning(i, TypeId(params[i])) in Warnings(params)
  {
    if params != [] {
      var init := params[..|params| - 1];
      WarningsExact(init);
      assert forall i :: 0 <= i < |init| ==> init[i] == params[i];
    }
  }

  /**
   * `_prepare_statement`: one pass over the parameters, binding parameter i
   * at position i+1 by its type and warning about the others.
   */
  method PrepareStatement(params: seq<Variant>) returns (bound: map<nat, Binding>, warnings: seq<Warning>)
    ensures forall k: nat :: k in bound <==> 1 <= k <= |params| && Bindable(params[k - 1])
    ensures forall i :: 0 <= i < |params| && Bindable(params[i]) ==> bound[i + 1] == BindingOf(params[i])
    ensures bound == Bindings(params) && warnings == Warnings(params)
  {
    bound, warnings := map[], [];
    for i := 0 to |params|
      invariant bound == Bindings(params[..i])
      invariant warnings == Warnings(params[..i])
    {
      assert params[..i + 1][..i] == params[..i];
      var v := params[i];
      match v {
        case Nil => bound := bound[i + 1 := BindNull];
        case Bool(b) => bound := bound[i + 1 := BindBoolean(b)];
        case Int(n) => bound := bound[i + 1 := BindInt64(n)];
        case Real(d) => bound := bound[i + 1 := BindDouble(d)];
        case Str(s) =>
          if IsSqlDatetime(s) {
            bound := bound[i + 1 := BindDateTime(s)];
          } else {
            bound := bound[i + 1 := BindString(s)];
          }
        case _ => warnings := warnings + [Warning(i, TypeId(v))];
      }
    }
    assert params[..|params|] == params;
    BindingsExact(params);
  }
}
