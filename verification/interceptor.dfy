/**
 * IInterceptor: the three hooks every interceptor offers. The interceptors
 * of the system are named cases, and each hook dispatches on which one it
 * is: a subclass of InterceptorBase that overrides nothing, the two example
 * interceptors and the recording test double (which carries its flags).
 * `Custom` is any other implementation of IInterceptor, given by its three
 * hooks: each may change any state it reaches, may throw, and may overwrite
 * elements of the argument array it is handed.
 */
module Interceptor {
  import opened Clr
  import InterceptorBase
  import ArgumentChangeInterceptor
  import ReturnValueChangeInterceptor
  import opened UnitTestInterceptor

  /**
   * A user-written `PreInvoke`: from the state the interceptor can reach
   * (the implementation's state `S` stands for all of it), the
   * implementation, the MethodInfo and the argument array, the state
   * afterwards and either the array's contents afterwards or the exception.
   */
  type PreHook<!S> = (S, Value, Option<MethodDesc>, Option<seq<Value>>) -> (S, Result<Option<seq<Value>>>)

  /** A user-written `Invoke`, given reflection's access to the implementation: the state, the result and the array afterwards. */
  type InvokeHook<!S> = (Target<S>, S, Value, Option<MethodDesc>, Option<seq<Value>>) -> (S, Result<Value>, Option<seq<Value>>)

  /** A user-written `PostInvoke`: the state afterwards and the exception, if it threw one. */
  type PostHook<!S> = (S, Value, Option<MethodDesc>, Option<seq<Value>>, Value) -> (S, Option<Error>)

  datatype Interceptor<!S> =
    | PassThrough          // derives from InterceptorBase, overrides nothing
    | ArgumentChange       // ExampleArgumentChangeInterceptor
    | ReturnValueChange    // ExampleReturnValueChangeInterceptor
    | Recorder(hits: Hits) // UnitTestInterceptor and its three flags
    | Custom(pre: PreHook<S>, invoke: InvokeHook<S>, post: PostHook<S>)

  /** Only the recorder has state of its own; a hook never turns one interceptor into another. */
  ghost predicate SameKind<S>(a: Interceptor<S>, b: Interceptor<S>) {
    a.Recorder? == b.Recorder? && (!a.Recorder? ==> a == b)
  }

  /** The recorder's flags in `after` are those of `before`, plus possibly more. */
  predicate FlagsOnlyRise<S>(before: Interceptor<S>, after: Interceptor<S>)
    requires before.Recorder? && after.Recorder?
  {
    && (before.hits.preInvokeHit ==> after.hits.preInvokeHit)
    && (before.hits.invokeHit ==> after.hits.invokeHit)
    && (before.hits.postInvokeHit ==> after.hits.postInvokeHit)
  }

  /**
   * `PreInvoke`: the interceptor and the state afterwards, and the argument
   * array's contents afterwards (the hook may overwrite elements in place;
   * it never replaces the array) or the exception it threw.
   */
  function PreInvoke<S>(i: Interceptor<S>, state: S, implementation: Value, m: Option<MethodDesc>,
                        arguments: Option<seq<Value>>): (r: (Interceptor<S>, S, Result<Option<seq<Value>>>))
    ensures SameKind(i, r.0)
    ensures !i.Custom? ==> r.1 == state && r.2.Success?
    ensures i.ArgumentChange? ==> r.2 == Success(ArgumentChangeInterceptor.RewriteFirstArgument(arguments))
    ensures i.PassThrough? || i.ReturnValueChange? || i.Recorder? ==> r.2 == Success(arguments)
    ensures i.Recorder? ==> r.0.hits == i.hits.(preInvokeHit := true)
    ensures i.Custom? ==> r.1 == i.pre(state, implementation, m, arguments).0
                          && r.2 == i.pre(state, implementation, m, arguments).1
  {
    match i
    case PassThrough => (i, state, Success(arguments))
    case ReturnValueChange => (i, state, Success(arguments))
    case ArgumentChange => (i, state, Success(ArgumentChangeInterceptor.RewriteFirstArgument(arguments)))
    case Recorder(hits) => (Recorder(hits.(preInvokeHit := true)), state, Success(arguments))
    case Custom(pre, _, _) =>
      var after := pre(state, implementation, m, arguments);
      (i, after.0, after.1)
  }

  /**
   * `Invoke`: the interceptor, the state, the returned object (or the
   * exception) and the argument array's contents afterwards. What a custom
   * hook returns is an object: a value-type result stands for its box.
   */
  function Invoke<S>(target: Target<S>, i: Interceptor<S>, state: S, implementation: Value, m: Option<MethodDesc>,
                     arguments: Option<seq<Value>>): (r: (Interceptor<S>, S, Result<Value>, Option<seq<Value>>))
    ensures SameKind(i, r.0)
    ensures !i.Custom? ==> r.3 == arguments
    ensures i.Recorder? ==> r.0.hits == i.hits.(invokeHit := true)
    ensures i.PassThrough? || i.ArgumentChange? ==>
              (r.1, r.2) == InterceptorBase.Invoke(target, state, implementation, m, arguments)
    ensures i.ReturnValueChange? ==>
              (r.1, r.2) == ReturnValueChangeInterceptor.Invoke(target, state, implementation, m, arguments)
    ensures i.Recorder? ==> (r.1, r.2) == ForwardInvoke(target, state, implementation, m, arguments)
    ensures i.Custom? ==>
              var c := i.invoke(target, state, implementation, m, arguments);
              && r.1 == c.0 && r.3 == c.2
              && r.2.Success? == c.1.Success?
              && (c.1.Success? ==> r.2.value == BoxValue(c.1.value))
              && (c.1.Failure? ==> r.2.error == c.1.error)
    ensures r.2.Success? ==> IsObject(r.2.value)
  {
    match i
    case PassThrough =>
      var called := InterceptorBase.Invoke(target, state, implementation, m, arguments);
      (i, called.0, called.1, arguments)
    case ArgumentChange =>
      var called := InterceptorBase.Invoke(target, state, implementation, m, arguments);
      (i, called.0, called.1, arguments)
    case ReturnValueChange =>
      var called := ReturnValueChangeInterceptor.Invoke(target, state, implementation, m, arguments);
      (i, called.0, called.1, arguments)
    case Recorder(hits) =>
      var called := ForwardInvoke(target, state, implementation, m, arguments);
      (Recorder(hits.(invokeHit := true)), called.0, called.1, arguments)
    case Custom(_, invoke, _) =>
      var called := invoke(target, state, implementation, m, arguments);
      var result := if called.1.Success? then Success(BoxValue(called.1.value)) else called.1;
      (i, called.0, result, called.2)
  }

  /** `PostInvoke`: the interceptor and the state afterwards, and the exception it threw, if any. */
  function PostInvoke<S>(i: Interceptor<S>, state: S, implementation: Value, m: Option<MethodDesc>,
                         arguments: Option<seq<Value>>, returnValue: Value): (r: (Interceptor<S>, S, Option<Error>))
    ensures SameKind(i, r.0)
    ensures !i.Recorder? ==> r.0 == i
    ensures !i.Custom? ==> r.1 == state && r.2.None?
    ensures i.Recorder? ==> r.0.hits == i.hits.(postInvokeHit := true)
    ensures i.Custom? ==> r.1 == i.post(state, implementation, m, arguments, returnValue).0
                          && r.2 == i.post(state, implementation, m, arguments, returnValue).1
  {
    match i
    case Recorder(hits) => (Recorder(hits.(postInvokeHit := true)), state, None)
    case Custom(_, _, post) =>
      var after := post(state, implementation, m, arguments, returnValue);
      (i, after.0, after.1)
    case _ => (i, state, None)
  }

  /** None of the recorder's hooks ever lowers a flag. */
  lemma RecorderFlagsOnlyRise<S>(target: Target<S>, i: Interceptor<S>, state: S, implementation: Value,
                                 m: Option<MethodDesc>, arguments: Option<seq<Value>>, returnValue: Value)
    requires i.Recorder?
    ensures FlagsOnlyRise(i, PreInvoke(i, state, implementation, m, arguments).0)
    ensures FlagsOnlyRise(i, Invoke(target, i, state, implementation, m, arguments).0)
    ensures FlagsOnlyRise(i, PostInvoke(i, state, implementation, m, arguments, returnValue).0)
  {
    var afterInvoke := Invoke(target, i, state, implementation, m, arguments).0;
    assert afterInvoke.hits == i.hits.(invokeHit := true);
  }
}
