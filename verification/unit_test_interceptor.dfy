/**
 * UnitTestInterceptor: the recording test double. Each hook raises its own
 * flag; `Invoke` also forwards the call to the implementation.
 */
module UnitTestInterceptor {
  import opened Clr

  /** The three flags, as one value. */
  datatype Hits = Hits(preInvokeHit: bool, invokeHit: bool, postInvokeHit: bool)

  const NoHits := Hits(false, false, false)

  /**
   * The forwarding `Invoke`: unlike the default one it does not test for
   * null, so a null method raises NullReferenceException and a null
   * implementation makes reflection raise TargetException.
   */
  function ForwardInvoke<S>(target: Target<S>, state: S, implementation: Value, m: Option<MethodDesc>,
                            arguments: Option<seq<Value>>): (r: (S, Result<Value>))
    ensures m.None? ==> r == (state, Failure(NullReference))
    ensures m.Some? ==> r == MethodInfoInvoke(target, state, implementation, m.value, arguments)
    ensures implementation.Null? ==> r.0 == state && r.1.Failure?
    ensures r.1.Success? ==> IsObject(r.1.value)
  {
    if m.None? then (state, Failure(NullReference))
    else MethodInfoInvoke(target, state, implementation, m.value, arguments)
  }

  class UnitTestInterceptor {
    var preInvokeHit: bool
    var invokeHit: bool
    var postInvokeHit: bool

    function Flags(): Hits
      reads this
    {
      Hits(preInvokeHit, invokeHit, postInvokeHit)
    }

    constructor ()
      ensures Flags() == NoHits
    {
      preInvokeHit, invokeHit, postInvokeHit := false, false, false;
    }

    method PreInvoke(implementation: Value, m: Option<MethodDesc>, arguments: Option<seq<Value>>)
      modifies this
      ensures Flags() == old(Flags()).(preInvokeHit := true)
    {
      preInvokeHit := true;
    }

    method Invoke<S>(target: Target<S>, state: S, implementation: Value, m: Option<MethodDesc>,
                     arguments: Option<seq<Value>>) returns (state': S, r: Result<Value>)
      modifies this
      ensures Flags() == old(Flags()).(invokeHit := true)
      ensures (state', r) == ForwardInvoke(target, state, implementation, m, arguments)
    {
      invokeHit := true;
      state', r := ForwardInvoke(target, state, implementation, m, arguments).0,
                   ForwardInvoke(target, state, implementation, m, arguments).1;
    }

    method PostInvoke(implementation: Value, m: Option<MethodDesc>, arguments: Option<seq<Value>>, returnValue: Value)
      modifies this
      ensures Flags() == old(Flags()).(postInvokeHit := true)
    {
      postInvokeHit := true;
    }
  }
}
