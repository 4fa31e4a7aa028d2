/**
 * Binding a generic method's type parameters before calling it through
 * reflection: `MethodInfo.MakeGenericMethod` with each type parameter bound
 * to the runtime type of an argument passed for it. The recording test
 * double forwards the open method as it gets it; `BindingInvoke` is the
 * forwarding `Invoke` that binds first, and `BindingRecorder` an
 * interceptor that records like the test double and invokes that way.
 */
module GenericBinding {
  import opened Clr
  import opened Interceptor

  /** `GetType()` of an argument; null has no runtime type. */
  function RuntimeType(v: Value): (r: Option<ClrType>)
    ensures r.None? <==> v.Null?
    ensures r.Some? ==> !r.value.GenericParameter? && r.value != Void
    ensures v.Str? ==> r == Some(String)
  {
    match v
    case Null => None
    case Raw(p) => Some(PrimType(p))
    case Boxed(p) => Some(PrimType(p))
    case Str(_) => Some(String)
    case _ => Some(Object)
  }

  /** Some non-null argument is passed for a parameter typed by the type parameter `name`. */
  predicate Witnessed(name: string, parameters: seq<ClrType>, arguments: seq<Value>)
    requires |parameters| == |arguments|
  {
    exists i :: 0 <= i < |parameters| && parameters[i] == GenericParameter(name) && !arguments[i].Null?
  }

  /**
   * The type argument inferred for `name`: the runtime type of the first
   * non-null argument whose parameter is typed by `name`.
   */
  function Inferred(name: string, parameters: seq<ClrType>, arguments: seq<Value>): (r: Option<ClrType>)
    requires |parameters| == |arguments|
    ensures r.Some? <==> Witnessed(name, parameters, arguments)
    ensures r.Some? ==> !r.value.GenericParameter?
    decreases |parameters|
  {
    if |parameters| == 0 then None
    else if parameters[0] == GenericParameter(name) && !arguments[0].Null? then RuntimeType(arguments[0])
    else
      var rest := Inferred(name, parameters[1..], arguments[1..]);
      assert Witnessed(name, parameters, arguments) ==> Witnessed(name, parameters[1..], arguments[1..]) by {
        if Witnessed(name, parameters, arguments) {
          var i :| 0 <= i < |parameters| && parameters[i] == GenericParameter(name) && !arguments[i].Null?;
          assert i != 0;
          assert parameters[1..][i - 1] == GenericParameter(name) && !arguments[1..][i - 1].Null?;
        }
      }
      assert Witnessed(name, parameters[1..], arguments[1..]) ==> Witnessed(name, parameters, arguments) by {
        if Witnessed(name, parameters[1..], arguments[1..]) {
          var i :| 0 <= i < |parameters| - 1 && parameters[1..][i] == GenericParameter(name) && !arguments[1..][i].Null?;
          assert parameters[i + 1] == GenericParameter(name) && !arguments[i + 1].Null?;
        }
      }
      rest
  }

  /** One type of the signature with its type parameter, if inferred, replaced. */
  function BindType(t: ClrType, parameters: seq<ClrType>, arguments: seq<Value>): (r: ClrType)
    requires |parameters| == |arguments|
    ensures !t.GenericParameter? ==> r == t
    ensures t.GenericParameter? && Witnessed(t.name, parameters, arguments) ==> !r.GenericParameter?
  {
    if t.GenericParameter? && Inferred(t.name, parameters, arguments).Some? then Inferred(t.name, parameters, arguments).value
    else t
  }

  /** Every type parameter in the signature of `m` can be inferred from `arguments`. */
  predicate Inferable(m: MethodDesc, arguments: seq<Value>)
    requires |arguments| == |m.parameters|
  {
    && (m.returnType.GenericParameter? ==> Witnessed(m.returnType.name, m.parameters, arguments))
    && forall i :: 0 <= i < |m.parameters| && m.parameters[i].GenericParameter? ==>
         Witnessed(m.parameters[i].name, m.parameters, arguments)
  }

  /** `m.MakeGenericMethod(...)` with the inferred type arguments. */
  function BindGenericArguments(m: MethodDesc, arguments: seq<Value>): (r: MethodDesc)
    requires |arguments| == |m.parameters|
    ensures r.name == m.name && |r.parameters| == |m.parameters|
    ensures forall i :: 0 <= i < |m.parameters| && !m.parameters[i].GenericParameter? ==> r.parameters[i] == m.parameters[i]
    ensures !m.returnType.GenericParameter? ==> r.returnType == m.returnType
    ensures Inferable(m, arguments) ==> !ContainsGenericParameters(r)
    ensures !ContainsGenericParameters(m) ==> r == m
  {
    var bound := MethodDesc(m.name, seq(|m.parameters|, i requires 0 <= i < |m.parameters| =>
                                          BindType(m.parameters[i], m.parameters, arguments)),
                            BindType(m.returnType, m.parameters, arguments));
    assert !ContainsGenericParameters(m) ==> bound.parameters == m.parameters;
    bound
  }

  /**
   * The forwarding `Invoke` of the test double, binding the method's type
   * parameters before the reflection call when it has any and the argument
   * count fits; the argument array is left as it is.
   */
  function BindingInvoke<S>(target: Target<S>, state: S, implementation: Value, m: Option<MethodDesc>,
                            arguments: Option<seq<Value>>): (r: (S, Result<Value>, Option<seq<Value>>))
    ensures r.2 == arguments
    ensures m.None? ==> r.0 == state && r.1 == Failure(NullReference)
    ensures m.Some? && !ContainsGenericParameters(m.value) ==>
              (r.0, r.1) == MethodInfoInvoke(target, state, implementation, m.value, arguments)
    ensures m.Some? && |ArgumentList(arguments)| == |m.value.parameters| ==>
              (r.0, r.1) == MethodInfoInvoke(target, state, implementation,
                                             BindGenericArguments(m.value, ArgumentList(arguments)), arguments)
    ensures m.Some? && |ArgumentList(arguments)| == |m.value.parameters| && Inferable(m.value, ArgumentList(arguments)) ==>
              r.1 != Failure(InvalidOperation)
  {
    if m.None? then (state, Failure(NullReference), arguments)
    else
      var args := ArgumentList(arguments);
      var callee := if |args| == |m.value.parameters| then BindGenericArguments(m.value, args) else m.value;
      var called := MethodInfoInvoke(target, state, implementation, callee, arguments);
      (called.0, called.1, arguments)
  }

  /** A PreInvoke or PostInvoke that does nothing. */
  function Unchanged<S>(state: S, implementation: Value, m: Option<MethodDesc>, arguments: Option<seq<Value>>)
    : (S, Result<Option<seq<Value>>>)
  {
    (state, Success(arguments))
  }

  function NoPostInvoke<S>(state: S, implementation: Value, m: Option<MethodDesc>, arguments: Option<seq<Value>>,
                           returnValue: Value): (S, Option<Error>)
  {
    (state, None)
  }

  /** The test double with a binding `Invoke`; the hooks it was called with are the proxy's trace. */
  function BindingRecorder<S>(): (i: Interceptor<S>)
    ensures i.Custom?
  {
    Custom(Unchanged, BindingInvoke, NoPostInvoke)
  }

  /**
   * Bound on a non-null argument for its only parameter, a method like
   * `T GetT<T>(T input)` is closed: reflection no longer refuses it.
   */
  lemma {:induction false} BindingClosesSingleParameter(m: MethodDesc, argument: Value)
    requires |m.parameters| == 1 && m.parameters[0].GenericParameter? && m.returnType == m.parameters[0]
    requires !argument.Null?
    ensures var bound := BindGenericArguments(m, [argument]);
            && !ContainsGenericParameters(bound)
            && bound.parameters == [RuntimeType(argument).value] && bound.returnType == RuntimeType(argument).value
  {
    var name := m.parameters[0].name;
    assert Witnessed(name, m.parameters, [argument]) by {
      assert m.parameters[0] == GenericParameter(name) && ![argument][0].Null?;
    }
    assert Inferred(name, m.parameters, [argument]) == RuntimeType(argument);
  }
}
