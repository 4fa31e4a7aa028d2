/**
 * What a call through a generated proxy guarantees, stated about the emitted
 * body itself and proved through `Dispatch.EmittedBodyFollowsPipeline`.
 */
module ProxyGuarantees {
  import opened Clr
  import opened MetaInfo
  import opened Interceptor
  import opened Il
  import opened Generator
  import opened Dispatch

  /** A well-formed call: the machine is at entry and the arguments fit the signature. */
  predicate Callable<S>(m: Machine<S>, signature: MethodDesc, xs: seq<Value>) {
    AtEntry(m, xs) && WellTyped(signature.parameters, xs) && InterceptorOrNull(m.world.interceptorField)
  }

  /** The arguments survive marshalling: a value-type argument unboxes back to itself, any other is unchanged. */
  lemma MarshalRoundTrip(parameters: seq<ClrType>, xs: seq<Value>, i: int)
    requires WellTyped(parameters, xs) && 0 <= i < |xs|
    ensures IsObject(Marshal(parameters, xs)[i])
    ensures IsValueType(parameters[i]) ==> Unbox(parameters[i], Marshal(parameters, xs)[i]) == Success(xs[i])
    ensures !IsValueType(parameters[i]) ==> Marshal(parameters, xs)[i] == xs[i]
  {
    var marshalled := Marshal(parameters, xs);
    if IsValueType(parameters[i]) {
      assert marshalled[i] == Boxed(xs[i].p);
    }
  }

  /**
   * Reflection accepts the marshalled arguments as they are: every element
   * converts to its parameter type, to itself.
   */
  lemma {:induction false} MarshalledArgumentsConvert(parameters: seq<ClrType>, xs: seq<Value>)
    requires WellTyped(parameters, xs)
    ensures ConvertArguments(parameters, Marshal(parameters, xs)) == Success(Marshal(parameters, xs))
  {
    var marshalled := Marshal(parameters, xs);
    forall i | 0 <= i < |xs|
      ensures ConvertArgument(parameters[i], marshalled[i]) == Success(marshalled[i])
    {
      MarshalRoundTrip(parameters, xs, i);
    }
    var converted := ConvertArguments(parameters, marshalled);
    assert converted.value == marshalled;
  }

  /** When the method cannot be looked up, no hook runs and the lookup's exception reaches the caller. */
  lemma LookupFailureCallsNoHook<S>(target: Target<S>, typeIdentifier: string, methodIndex: int,
                                    signature: MethodDesc, m: Machine<S>, xs: seq<Value>)
    requires Callable(m, signature, xs)
    requires MethodLookup(m.world.cache, typeIdentifier, methodIndex).1.Failure?
    ensures var e := Run(target, MethodBody(typeIdentifier, methodIndex, signature), m);
            && e.status == Faulted(if typeIdentifier !in m.world.cache then KeyNotFound(typeIdentifier)
                                   else ArgumentOutOfRange(methodIndex))
            && e.machine.world.trace == m.world.trace && e.machine.world.state == m.world.state && e.machine.world.interceptor == m.world.interceptor
  {
    EmittedBodyFollowsPipeline(target, typeIdentifier, methodIndex, signature, m, xs);
  }

  /** A proxy built over a null interceptor throws NullReferenceException at the first hook. */
  lemma NullInterceptorThrows<S>(target: Target<S>, typeIdentifier: string, methodIndex: int,
                                 signature: MethodDesc, m: Machine<S>, xs: seq<Value>)
    requires Callable(m, signature, xs) && m.world.interceptorField.Null?
    requires MethodLookup(m.world.cache, typeIdentifier, methodIndex).1.Success?
    ensures var e := Run(target, MethodBody(typeIdentifier, methodIndex, signature), m);
            && e.status == Faulted(NullReference)
            && e.machine.world.trace == m.world.trace && e.machine.world.state == m.world.state && e.machine.world.interceptor == m.world.interceptor
  {
    EmittedBodyFollowsPipeline(target, typeIdentifier, methodIndex, signature, m, xs);
  }

  // A call whose method is found and whose interceptor is there ends in one
  // of three ways: PreInvoke throws, Invoke throws, or all three hooks run.

  /** The MethodInfo the emitted body finds, when the lookup succeeds. */
  function FoundInfo<S>(m: Machine<S>, typeIdentifier: string, methodIndex: int): Option<MethodDesc>
    requires MethodLookup(m.world.cache, typeIdentifier, methodIndex).1.Success?
  {
    Some(m.world.cache[typeIdentifier].methods[methodIndex])
  }

  /** `PreInvoke` on the marshalled arguments, as the emitted body calls it. */
  function FirstHook<S>(m: Machine<S>, info: Option<MethodDesc>, signature: MethodDesc, xs: seq<Value>)
    : (Interceptor<S>, S, Result<Option<seq<Value>>>)
    requires |xs| == |signature.parameters|
  {
    PreInvoke(m.world.interceptor, m.world.state, m.world.implementationField, info,
              Some(Marshal(signature.parameters, xs)))
  }

  /** A throwing PreInvoke ends the call: Invoke and PostInvoke never run. */
  lemma PreInvokeThrows<S>(target: Target<S>, typeIdentifier: string, methodIndex: int,
                           signature: MethodDesc, m: Machine<S>, xs: seq<Value>)
    requires Callable(m, signature, xs) && m.world.interceptorField.InterceptorRef?
    requires MethodLookup(m.world.cache, typeIdentifier, methodIndex).1.Success?
    requires FirstHook(m, FoundInfo(m, typeIdentifier, methodIndex), signature, xs).2.Failure?
    ensures var e := Run(target, MethodBody(typeIdentifier, methodIndex, signature), m);
            var info := FoundInfo(m, typeIdentifier, methodIndex);
            var pre := FirstHook(m, info, signature, xs);
            && e.status == Faulted(pre.2.error)
            && e.machine.world.trace == m.world.trace
                 + [PreInvokeCall(m.world.implementationField, info, Some(Marshal(signature.parameters, xs)))]
            && e.machine.world.state == pre.1 && e.machine.world.interceptor == pre.0
  {
    EmittedBodyFollowsPipeline(target, typeIdentifier, methodIndex, signature, m, xs);
  }

  /** A throwing Invoke ends the call after PreInvoke and Invoke: PostInvoke never runs. */
  lemma InvokeThrows<S>(target: Target<S>, typeIdentifier: string, methodIndex: int,
                        signature: MethodDesc, m: Machine<S>, xs: seq<Value>)
    requires Callable(m, signature, xs) && m.world.interceptorField.InterceptorRef?
    requires MethodLookup(m.world.cache, typeIdentifier, methodIndex).1.Success?
    requires var info := FoundInfo(m, typeIdentifier, methodIndex);
             var pre := FirstHook(m, info, signature, xs);
             && pre.2.Success?
             && Invoke(target, pre.0, pre.1, m.world.implementationField, info,
                       Some(Overwritten(Marshal(signature.parameters, xs), pre.2.value))).2.Failure?
    ensures var e := Run(target, MethodBody(typeIdentifier, methodIndex, signature), m);
            var info := FoundInfo(m, typeIdentifier, methodIndex);
            var implementation := m.world.implementationField;
            var pre := FirstHook(m, info, signature, xs);
            var rewritten := Overwritten(Marshal(signature.parameters, xs), pre.2.value);
            var inv := Invoke(target, pre.0, pre.1, implementation, info, Some(rewritten));
            && e.status == Faulted(inv.2.error)
            && e.machine.world.trace == m.world.trace
                 + [PreInvokeCall(implementation, info, Some(Marshal(signature.parameters, xs))),
                    InvokeCall(implementation, info, Some(rewritten))]
            && e.machine.world.state == inv.1 && e.machine.world.interceptor == inv.0
  {
    EmittedBodyFollowsPipeline(target, typeIdentifier, methodIndex, signature, m, xs);
  }

  /**
   * When neither PreInvoke nor Invoke throws, all three hooks run in order,
   * each on the state the previous one left and on the array as the
   * previous one left it; PostInvoke gets Invoke's result (null for a void
   * method), and the caller gets that result too unless PostInvoke throws.
   */
  lemma CallCompletes<S>(target: Target<S>, typeIdentifier: string, methodIndex: int,
                         signature: MethodDesc, m: Machine<S>, xs: seq<Value>)
    requires Callable(m, signature, xs) && m.world.interceptorField.InterceptorRef?
    requires MethodLookup(m.world.cache, typeIdentifier, methodIndex).1.Success?
    requires var info := FoundInfo(m, typeIdentifier, methodIndex);
             var pre := FirstHook(m, info, signature, xs);
             && pre.2.Success?
             && Invoke(target, pre.0, pre.1, m.world.implementationField, info,
                       Some(Overwritten(Marshal(signature.parameters, xs), pre.2.value))).2.Success?
    ensures var e := Run(target, MethodBody(typeIdentifier, methodIndex, signature), m);
            var info := FoundInfo(m, typeIdentifier, methodIndex);
            var implementation := m.world.implementationField;
            var pre := FirstHook(m, info, signature, xs);
            var rewritten := Overwritten(Marshal(signature.parameters, xs), pre.2.value);
            var inv := Invoke(target, pre.0, pre.1, implementation, info, Some(rewritten));
            var afterInvoke := Overwritten(rewritten, inv.3);
            var returnValue := if signature.returnType == Void then Null else inv.2.value;
            var post := PostInvoke(inv.0, inv.1, implementation, info, Some(afterInvoke), returnValue);
            && e.status == (if post.2.Some? then Faulted(post.2.value) else ReturnToCaller(signature.returnType, returnValue))
            && e.machine.world.trace == m.world.trace
                 + [PreInvokeCall(implementation, info, Some(Marshal(signature.parameters, xs))),
                    InvokeCall(implementation, info, Some(rewritten)),
                    PostInvokeCall(implementation, info, Some(afterInvoke), returnValue)]
            && e.machine.world.state == post.1 && e.machine.world.interceptor == post.0
  {
    EmittedBodyFollowsPipeline(target, typeIdentifier, methodIndex, signature, m, xs);
  }

  /**
   * Once the method is found and the interceptor is there, the hooks run in
   * the order PreInvoke, Invoke, PostInvoke, each at most once, each on the
   * proxy's implementation and the cached MethodInfo. A throwing PreInvoke
   * means no Invoke, a throwing Invoke no PostInvoke, and then that
   * exception reaches the caller.
   */
  lemma HooksRunInOrder<S>(target: Target<S>, typeIdentifier: string, methodIndex: int,
                           signature: MethodDesc, m: Machine<S>, xs: seq<Value>)
    requires Callable(m, signature, xs) && m.world.interceptorField.InterceptorRef?
    requires MethodLookup(m.world.cache, typeIdentifier, methodIndex).1.Success?
    ensures var e := Run(target, MethodBody(typeIdentifier, methodIndex, signature), m);
            var info := FoundInfo(m, typeIdentifier, methodIndex);
            var implementation := m.world.implementationField;
            && |m.world.trace| + 1 <= |e.machine.world.trace| <= |m.world.trace| + 3
            && e.machine.world.trace[..|m.world.trace|] == m.world.trace
            && var calls := e.machine.world.trace[|m.world.trace|..];
            && calls[0].PreInvokeCall? && (|calls| >= 2 ==> calls[1].InvokeCall?) && (|calls| == 3 ==> calls[2].PostInvokeCall?)
            && (forall k :: 0 <= k < |calls| ==> calls[k].implementation == implementation && calls[k].info == info)
            && var pre := PreInvoke(m.world.interceptor, m.world.state, implementation, info, calls[0].arguments);
               && (|calls| == 1 <==> pre.2.Failure?)
               && (pre.2.Failure? ==> e.status == Faulted(pre.2.error))
               && (|calls| >= 2 ==>
                     var inv := Invoke(target, pre.0, pre.1, implementation, info, calls[1].arguments);
                     && (|calls| == 2 <==> inv.2.Failure?)
                     && (inv.2.Failure? ==> e.status == Faulted(inv.2.error)))
  {
    var e := Run(target, MethodBody(typeIdentifier, methodIndex, signature), m);
    var info := FoundInfo(m, typeIdentifier, methodIndex);
    var n := |m.world.trace|;
    var pre := FirstHook(m, info, signature, xs);
    if pre.2.Failure? {
      PreInvokeThrows(target, typeIdentifier, methodIndex, signature, m, xs);
    } else {
      var rewritten := Overwritten(Marshal(signature.parameters, xs), pre.2.value);
      var inv := Invoke(target, pre.0, pre.1, m.world.implementationField, info, Some(rewritten));
      if inv.2.Failure? {
        InvokeThrows(target, typeIdentifier, methodIndex, signature, m, xs);
      } else {
        CallCompletes(target, typeIdentifier, methodIndex, signature, m, xs);
      }
    }
    assert e.machine.world.trace[..n] == m.world.trace;
  }

  /**
   * PreInvoke sees the marshalled arguments; Invoke sees the array as
   * PreInvoke left it, and PostInvoke the array as Invoke left it, so an
   * interceptor can rewrite arguments. Only a custom Invoke writes the array.
   */
  lemma InvokeSeesRewrittenArguments<S>(target: Target<S>, typeIdentifier: string, methodIndex: int,
                                        signature: MethodDesc, m: Machine<S>, xs: seq<Value>)
    requires Callable(m, signature, xs) && m.world.interceptorField.InterceptorRef?
    requires MethodLookup(m.world.cache, typeIdentifier, methodIndex).1.Success?
    ensures var e := Run(target, MethodBody(typeIdentifier, methodIndex, signature), m);
            var info := FoundInfo(m, typeIdentifier, methodIndex);
            var implementation := m.world.implementationField;
            && |m.world.trace| + 1 <= |e.machine.world.trace| <= |m.world.trace| + 3
            && var calls := e.machine.world.trace[|m.world.trace|..];
            && calls[0].arguments == Some(Marshal(signature.parameters, xs))
            && var pre := PreInvoke(m.world.interceptor, m.world.state, implementation, info, calls[0].arguments);
               && (|calls| >= 2 ==>
                     && pre.2.Success?
                     && calls[1].arguments == Some(Overwritten(Marshal(signature.parameters, xs), pre.2.value)))
               && (|calls| == 3 ==>
                     var inv := Invoke(target, pre.0, pre.1, implementation, info, calls[1].arguments);
                     && calls[2].arguments == Some(Overwritten(calls[1].arguments.value, inv.3))
                     && (!m.world.interceptor.Custom? ==> calls[2].arguments == calls[1].arguments))
  {
    var info := FoundInfo(m, typeIdentifier, methodIndex);
    var pre := FirstHook(m, info, signature, xs);
    if pre.2.Failure? {
      PreInvokeThrows(target, typeIdentifier, methodIndex, signature, m, xs);
    } else {
      var rewritten := Overwritten(Marshal(signature.parameters, xs), pre.2.value);
      var inv := Invoke(target, pre.0, pre.1, m.world.implementationField, info, Some(rewritten));
      if inv.2.Failure? {
        InvokeThrows(target, typeIdentifier, methodIndex, signature, m, xs);
      } else {
        CallCompletes(target, typeIdentifier, methodIndex, signature, m, xs);
      }
    }
  }

  /**
   * What the caller gets back is what Invoke returned, unless PostInvoke
   * throws: nothing for a void method (and PostInvoke sees null), the
   * unboxed value for a value type (or the exception unboxing raises), the
   * object itself otherwise.
   */
  lemma CallerReceivesInvokeResult<S>(target: Target<S>, typeIdentifier: string, methodIndex: int,
                                      signature: MethodDesc, m: Machine<S>, xs: seq<Value>)
    requires Callable(m, signature, xs) && m.world.interceptorField.InterceptorRef?
    requires MethodLookup(m.world.cache, typeIdentifier, methodIndex).1.Success?
    requires var info := FoundInfo(m, typeIdentifier, methodIndex);
             var pre := FirstHook(m, info, signature, xs);
             && pre.2.Success?
             && Invoke(target, pre.0, pre.1, m.world.implementationField, info,
                       Some(Overwritten(Marshal(signature.parameters, xs), pre.2.value))).2.Success?
    ensures var e := Run(target, MethodBody(typeIdentifier, methodIndex, signature), m);
            var info := FoundInfo(m, typeIdentifier, methodIndex);
            var implementation := m.world.implementationField;
            var pre := FirstHook(m, info, signature, xs);
            var rewritten := Overwritten(Marshal(signature.parameters, xs), pre.2.value);
            var inv := Invoke(target, pre.0, pre.1, implementation, info, Some(rewritten));
            var result := inv.2.value;
            var returnType := signature.returnType;
            && |e.machine.world.trace| == |m.world.trace| + 3
            && var postCall := e.machine.world.trace[|m.world.trace| + 2];
            && postCall.PostInvokeCall?
            && postCall.returnValue == (if returnType == Void then Null else result)
            && var post := PostInvoke(inv.0, inv.1, implementation, info, postCall.arguments, postCall.returnValue);
            && (post.2.Some? ==> e.status == Faulted(post.2.value))
            && (post.2.None? && returnType == Void ==> e.status == Returned(None))
            && (post.2.None? && returnType != Void && IsValueType(returnType) ==>
                  && (e.status.Returned? <==> result.Boxed? && PrimType(result.p) == returnType)
                  && (e.status.Returned? ==> e.status.value == Some(Raw(result.p)))
                  && (result.Null? ==> e.status == Faulted(NullReference)))
            && (post.2.None? && !IsValueType(returnType) ==> e.status == Returned(Some(result)))
  {
    CallCompletes(target, typeIdentifier, methodIndex, signature, m, xs);
  }

  /**
   * A proxy's own method is always found: in a cache where the contract is
   * registered, the body generated for method `methodIndex` looks up that
   * very method, leaves the cache unchanged, and hands it to the interceptor.
   */
  lemma GeneratedMethodFindsItself<S>(target: Target<S>, contract: TypeDesc, methodIndex: nat,
                                      m: Machine<S>, xs: seq<Value>)
    requires methodIndex < |contract.methods|
    requires Callable(m, contract.methods[methodIndex], xs)
    requires WellKeyed(m.world.cache) && GetTypeIdentifier(contract) in m.world.cache
    requires m.world.cache[GetTypeIdentifier(contract)] == contract
    ensures var signature := contract.methods[methodIndex];
            var e := Run(target, GeneratedMethod(GetTypeIdentifier(contract), methodIndex, signature).body, m);
            && e.machine.world.cache == m.world.cache
            && Observe(e) == InterceptedCall(target, signature.returnType, signature,
                                             Marshal(signature.parameters, xs), m.world)
  {
    var signature := contract.methods[methodIndex];
    EmittedBodyFollowsPipeline(target, GetTypeIdentifier(contract), methodIndex, signature, m, xs);
  }

  /**
   * The default interceptor over a null implementation makes no call: the
   * implementation is untouched and the caller gets null, which for a
   * value-type result means NullReferenceException from the unboxing.
   */
  lemma PassThroughOverNullImplementation<S>(target: Target<S>, typeIdentifier: string, methodIndex: int,
                                             signature: MethodDesc, m: Machine<S>, xs: seq<Value>)
    requires Callable(m, signature, xs) && m.world.interceptorField.InterceptorRef?
    requires m.world.interceptor == PassThrough && m.world.implementationField.Null?
    requires MethodLookup(m.world.cache, typeIdentifier, methodIndex).1.Success?
    ensures var e := Run(target, MethodBody(typeIdentifier, methodIndex, signature), m);
            && e.machine.world.state == m.world.state && e.machine.world.interceptor == PassThrough
            && e.status == if signature.returnType == Void then Returned(None)
                           else if IsValueType(signature.returnType) then Faulted(NullReference)
                           else Returned(Some(Null))
  {
    EmittedBodyFollowsPipeline(target, typeIdentifier, methodIndex, signature, m, xs);
  }

  /**
   * The recording interceptor notices every hook the proxy calls: after a
   * call whose Invoke returned, all three flags are set; after one whose
   * Invoke threw, PreInvoke's and Invoke's are, and PostInvoke's is as before.
   */
  lemma RecorderSeesEveryHook<S>(target: Target<S>, typeIdentifier: string, methodIndex: int,
                                 signature: MethodDesc, m: Machine<S>, xs: seq<Value>)
    requires Callable(m, signature, xs) && m.world.interceptorField.InterceptorRef? && m.world.interceptor.Recorder?
    requires MethodLookup(m.world.cache, typeIdentifier, methodIndex).1.Success?
    ensures var e := Run(target, MethodBody(typeIdentifier, methodIndex, signature), m);
            && e.machine.world.interceptor.Recorder?
            && e.machine.world.interceptor.hits.preInvokeHit && e.machine.world.interceptor.hits.invokeHit
            && e.machine.world.interceptor.hits.postInvokeHit == (|e.machine.world.trace| == |m.world.trace| + 3
                                                            || m.world.interceptor.hits.postInvokeHit)
  {
    EmittedBodyFollowsPipeline(target, typeIdentifier, methodIndex, signature, m, xs);
  }

  lemma RunStoreField<S>(target: Target<S>, field: Field, k: nat, m: Machine<S>, rest: seq<Instr>)
    requires m.stack == [] && k < |m.args| && m.args[0] == ThisRef
    ensures Run(target, StoreField(field, k) + rest, m) == Run(target, rest, SetField(m, field, m.args[k]))
  {
    var code := StoreField(field, k) + rest;
    RunLdarg(target, code, m);
    var m1 := Push(m, ThisRef);
    RunLdarg(target, code[1..], m1);
    var m2 := m.(stack := [ThisRef, m.args[k]]);
    assert Push(m1, m.args[k]) == m2;
    RunStfld(target, code[2..], m2, m.args[k]);
    assert m2.(stack := []) == m;
    assert code[2..][1..] == rest;
  }

  /** The constructor stores its first argument as `_implementation` and its second as `_interceptor`. */
  lemma ConstructorStoresFields<S>(target: Target<S>, implementation: Value, interceptorRef: Value, m: Machine<S>)
    requires m.stack == [] && m.args == [ThisRef, implementation, interceptorRef]
    ensures var e := Run(target, ConstructorBody(), m);
            && e.status == Returned(None)
            && e.machine.world == m.world.(implementationField := implementation, interceptorField := interceptorRef)
            && e.machine.stack == m.stack && e.machine.locals == m.locals && e.machine.arrays == m.arrays
  {
    var m1 := SetField(m, ImplementationField, implementation);
    var m2 := SetField(m1, InterceptorField, interceptorRef);
    RunStoreField(target, ImplementationField, 1, m, StoreField(InterceptorField, 2) + [Ret]);
    RunStoreField(target, InterceptorField, 2, m1, [Ret]);
    RunRet(target, [Ret], m2);
  }
}
