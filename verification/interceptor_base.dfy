/**
 * InterceptorBase: the default hooks. `PreInvoke` and `PostInvoke` do
 * nothing; `Invoke` forwards the call to the implementation through
 * reflection, unless the implementation or the method is null.
 */
module InterceptorBase {
  import opened Clr

  /** The default `Invoke`: the new implementation state and the returned object. */
  function Invoke<S>(target: Target<S>, state: S, implementation: Value, m: Option<MethodDesc>,
                     arguments: Option<seq<Value>>): (r: (S, Result<Value>))
    ensures implementation.Null? || m.None? ==> r == (state, Success(Null))
    ensures !implementation.Null? && m.Some? ==> r == MethodInfoInvoke(target, state, implementation, m.value, arguments)
    ensures r.1.Success? ==> IsObject(r.1.value)
  {
    if !implementation.Null? && m.Some? then MethodInfoInvoke(target, state, implementation, m.value, arguments)
    else (state, Success(Null))
  }
}
