/**
 * ExampleArgumentChangeInterceptor: a `PreInvoke` that overwrites a string
 * first argument in place; `Invoke` and `PostInvoke` are inherited.
 */
module ArgumentChangeInterceptor {
  import opened Clr

  const ChangedArgument: string := "#~ CHANGED ARGUMENT ~#"

  /** The argument array after `PreInvoke`; `None` is a null array. */
  function RewriteFirstArgument(arguments: Option<seq<Value>>): (r: Option<seq<Value>>)
    ensures r.Some? <==> arguments.Some?
    ensures arguments.None? || arguments.value == [] ==> r == arguments
    ensures arguments.Some? ==> |r.value| == |arguments.value|
    ensures arguments.Some? ==>
              forall i :: 1 <= i < |arguments.value| ==> r.value[i] == arguments.value[i]
    ensures arguments.Some? && arguments.value != [] ==>
              r.value[0] == if arguments.value[0].Str? then Str(ChangedArgument) else arguments.value[0]
  {
    if arguments.None? || |arguments.value| == 0 then arguments
    else if arguments.value[0].Str? then Some(arguments.value[0 := Str(ChangedArgument)])
    else arguments
  }

  /** Rewriting twice gives the same array as rewriting once. */
  lemma RewriteIsIdempotent(arguments: Option<seq<Value>>)
    ensures RewriteFirstArgument(RewriteFirstArgument(arguments)) == RewriteFirstArgument(arguments)
  {
    if arguments.Some? && arguments.value != [] && arguments.value[0].Str? {
      var once := arguments.value[0 := Str(ChangedArgument)];
      assert once[0 := Str(ChangedArgument)] == once;
    }
  }

  /** `PreInvoke` on the array object itself, updated in place. */
  method PreInvoke(arguments: array?<Value>)
    modifies arguments
    ensures arguments != null ==> Some(arguments[..]) == RewriteFirstArgument(Some(old(arguments[..])))
  {
    if arguments == null || arguments.Length == 0 {
      return;
    }
    if arguments[0].Str? {
      arguments[0] := Str(ChangedArgument);
    }
  }
}

/**
 * ExampleReturnValueChangeInterceptor: an `Invoke` that runs the default
 * `Invoke` and then replaces the result of every string-returning method.
 */
module ReturnValueChangeInterceptor {
  import opened Clr
  import InterceptorBase

  const ChangedReturnValue: string := "#~ CHANGED RETURN VALUE ~#"

  function Invoke<S>(target: Target<S>, state: S, implementation: Value, m: Option<MethodDesc>,
                     arguments: Option<seq<Value>>): (r: (S, Result<Value>))
    // the default Invoke always runs, so the implementation's effects happen
    ensures r.0 == InterceptorBase.Invoke(target, state, implementation, m, arguments).0
    // an exception from the default Invoke propagates
    ensures InterceptorBase.Invoke(target, state, implementation, m, arguments).1.Failure? ==>
              r.1 == InterceptorBase.Invoke(target, state, implementation, m, arguments).1
    ensures InterceptorBase.Invoke(target, state, implementation, m, arguments).1.Success? ==>
              r.1 == if m.None? then Failure(NullReference)
                     else if m.value.returnType == String then Success(Str(ChangedReturnValue))
                     else InterceptorBase.Invoke(target, state, implementation, m, arguments).1
    ensures r.1.Success? ==> IsObject(r.1.value)
  {
    var (state', returnValue) := InterceptorBase.Invoke(target, state, implementation, m, arguments);
    if returnValue.Failure? then (state', returnValue)
    else if m.None? then (state', Failure(NullReference))   // methodInfo.ReturnType on null
    else if m.value.returnType == String then (state', Success(Str(ChangedReturnValue)))
    else (state', returnValue)
  }
}
