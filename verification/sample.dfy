/**
 * The test fixture: the `ISampleClass` contract, the `SampleClass`
 * implementation behind it, and the proxy tests that generate a proxy over
 * them, call it once or twice and read the recording interceptor's flags.
 */
module Sample {
  import opened Clr
  import opened MetaInfo
  import opened Interceptor
  import opened UnitTestInterceptor
  import opened Il
  import opened Generator
  import opened Dispatch
  import opened ProxyGuarantees
  import ArgumentChangeInterceptor
  import ReturnValueChangeInterceptor
  import GenericBinding

  // The members of ISampleClass that SampleClass implements, in declaration
  // order; a property contributes its getter and then its setter.
  const GetIntProperty := MethodDesc("get_IntProperty", [], Int32)
  const SetIntProperty := MethodDesc("set_IntProperty", [Int32], Void)
  const GetStringProperty := MethodDesc("get_StringProperty", [], String)
  const SetStringProperty := MethodDesc("set_StringProperty", [String], Void)
  const GetInt := MethodDesc("GetInt", [Int32], Int32)
  const GetString := MethodDesc("GetString", [String], String)
  const GetT := MethodDesc("GetT", [GenericParameter("TInput")], GenericParameter("TInput"))

  const ISampleClass := TypeDesc("Wraptor.Tests.ISampleClass, Wraptor.Tests", true,
                                 [GetIntProperty, SetIntProperty, GetStringProperty, SetStringProperty,
                                  GetInt, GetString, GetT])
  const SampleClass := TypeDesc("Wraptor.Tests.SampleClass, Wraptor.Tests", false, ISampleClass.methods)

  /** The fields of a SampleClass object: the two auto-properties' backing fields. */
  datatype SampleState = SampleState(intProperty: int, stringProperty: Value)

  /** `new SampleClass()`: both properties hold their defaults. */
  const NewSampleClass := SampleState(0, Null)

  /**
   * A SampleClass object running one of its methods on arguments reflection
   * has already converted to the parameter types: the getters read the
   * backing fields, the setters write them and return nothing, and `GetInt`,
   * `GetString` and every closed `GetT<T>` return their argument.
   */
  function SampleClassInvoke(state: SampleState, m: MethodDesc, arguments: seq<Value>): (r: (SampleState, Result<Value>))
    ensures m == GetIntProperty ==> r == (state, Success(Raw(IntPrim(state.intProperty))))
    ensures m == GetStringProperty ==> r == (state, Success(state.stringProperty))
    ensures m == SetIntProperty && |arguments| == 1 && arguments[0].Boxed? && arguments[0].p.IntPrim? ==>
              r == (state.(intProperty := arguments[0].p.i), Success(Null))
    ensures m == SetStringProperty && |arguments| == 1 ==> r == (state.(stringProperty := arguments[0]), Success(Null))
    ensures m == GetInt && |arguments| == 1 && arguments[0].Boxed? && arguments[0].p.IntPrim? ==>
              r == (state, Success(Raw(arguments[0].p)))
    ensures m == GetString && |arguments| == 1 ==> r == (state, Success(arguments[0]))
    ensures m.name == GetT.name && |arguments| == 1 ==> r == (state, Success(arguments[0]))
    ensures r.1.Failure? ==> r.0 == state
  {
    var intArgument := |arguments| == 1 && arguments[0].Boxed? && arguments[0].p.IntPrim?;
    if m == GetIntProperty then (state, Success(Raw(IntPrim(state.intProperty))))
    else if m == GetStringProperty then (state, Success(state.stringProperty))
    else if m == SetIntProperty && intArgument then (state.(intProperty := arguments[0].p.i), Success(Null))
    else if m == SetStringProperty && |arguments| == 1 then (state.(stringProperty := arguments[0]), Success(Null))
    else if m == GetInt && intArgument then (state, Success(Raw(arguments[0].p)))
    else if (m == GetString || m.name == GetT.name) && |arguments| == 1 then (state, Success(arguments[0]))
    // reflection hands a SampleClass object nothing else: it refuses a
    // foreign method (TargetException) and converts every argument first
    else (state, Failure(TargetException))
  }

  /** The proxy `Generate` builds for ISampleClass, with the world it was built over. */
  ghost predicate SampleProxy(proxy: Proxy<SampleState>, provider: MetaInfoProvider)
    reads proxy, provider
  {
    && proxy.typeIdentifier == GetTypeIdentifier(ISampleClass)
    && |proxy.methods| == |ISampleClass.methods|
    && (forall i :: 0 <= i < |proxy.methods| ==>
          proxy.methods[i] == GeneratedMethod(GetTypeIdentifier(ISampleClass), i, ISampleClass.methods[i]))
    && proxy.implementationField == ImplementationRef && proxy.interceptorField == InterceptorRef
    && provider.typeCache == CacheAdd(map[], ISampleClass)
  }

  /** A new provider, and a proxy over a new SampleClass and the given interceptor. */
  method NewSampleProxy(interceptor: Interceptor<SampleState>) returns (proxy: Proxy<SampleState>, provider: MetaInfoProvider)
    ensures fresh(proxy) && fresh(provider)
    ensures SampleProxy(proxy, provider) && proxy.state == NewSampleClass && proxy.interceptor == interceptor
  {
    provider := new MetaInfoProvider();
    var generated := Generate(provider, ISampleClass, ImplementationRef, NewSampleClass, InterceptorRef, interceptor);
    proxy := generated.value;
  }

  /** A call of sample method `index` through the proxy does what `Pipeline` says; `hooks` are the hook calls it made. */
  method CallSample(proxy: Proxy<SampleState>, provider: MetaInfoProvider, index: nat, xs: seq<Value>)
    returns (status: Status, hooks: seq<HookCall>)
    requires SampleProxy(proxy, provider) && index < |ISampleClass.methods|
    requires WellTyped(ISampleClass.methods[index].parameters, xs)
    modifies proxy, provider
    ensures SampleProxy(proxy, provider)
    ensures var out := Pipeline(SampleClassInvoke, GetTypeIdentifier(ISampleClass), index, ISampleClass.methods[index],
                                old(proxy.Entry(provider.typeCache, xs)).world, xs);
            && status == out.status && proxy.state == out.world.state && proxy.interceptor == out.world.interceptor
            && hooks == out.world.trace
  {
    var entry := proxy.Entry(provider.typeCache, xs);
    EmittedBodyFollowsPipeline(SampleClassInvoke, GetTypeIdentifier(ISampleClass), index,
                               ISampleClass.methods[index], entry, xs);
    status, hooks := proxy.Call(provider, SampleClassInvoke, index, xs);
    assert WellKeyed(entry.world.cache);
  }

  /** The world a call through a sample proxy starts from. */
  predicate SampleWorld(w: World<SampleState>) {
    && w.implementationField == ImplementationRef && w.interceptorField == InterceptorRef
    && w.cache == CacheAdd(map[], ISampleClass)
  }

  /**
   * Through the recorder, a call of one of SampleClass's non-generic methods
   * reaches SampleClass with the marshalled arguments, and the caller gets
   * what SampleClass returned; PreInvoke and Invoke are hit, and PostInvoke
   * is hit unless SampleClass threw.
   */
  lemma RecorderReachesSampleClass(w: World<SampleState>, index: nat, xs: seq<Value>)
    requires SampleWorld(w) && w.interceptor.Recorder? && index < 6
    requires WellTyped(ISampleClass.methods[index].parameters, xs)
    ensures var m := ISampleClass.methods[index];
            var out := Pipeline(SampleClassInvoke, GetTypeIdentifier(ISampleClass), index, m, w, xs);
            var called := SampleClassInvoke(w.state, m, Marshal(m.parameters, xs));
            && out.world.state == called.0
            && out.world.interceptor == Recorder(w.interceptor.hits.(preInvokeHit := true, invokeHit := true,
                                                   postInvokeHit := called.1.Success? || w.interceptor.hits.postInvokeHit))
            && out.status == if called.1.Failure? then Faulted(TargetInvocation(called.1.error))
                             else ReturnToCaller(m.returnType, if m.returnType == Void then Null else BoxValue(called.1.value))
  {
    var m := ISampleClass.methods[index];
    LookupAfterRegistration(map[], ISampleClass, index);
    MarshalledArgumentsConvert(m.parameters, xs);
    assert !ContainsGenericParameters(m) by {
      assert index in {0, 1, 2, 3, 4, 5};
    }
  }

  /** The binding test double, over SampleClass objects. */
  const Binder: Interceptor<SampleState> := GenericBinding.BindingRecorder()

  /** The binding test double's hooks on `GetT` and a string: `Invoke` returns the string. */
  lemma BinderCallsGetT(state: SampleState, x: Value)
    requires x.Str?
    ensures PreInvoke(Binder, state, ImplementationRef, Some(GetT), Some([x])) == (Binder, state, Success(Some([x])))
    ensures Invoke(SampleClassInvoke, Binder, state, ImplementationRef, Some(GetT), Some([x])) ==
              (Binder, state, Success(x), Some([x]))
    ensures PostInvoke(Binder, state, ImplementationRef, Some(GetT), Some([x]), x) == (Binder, state, None)
  {
    GenericBinding.BindingClosesSingleParameter(GetT, x);
  }

  /**
   * Through the binding test double, `GetT` called on a string binds
   * `TInput` to `string` and reaches SampleClass, which returns the
   * argument; the three hooks run in order.
   */
  lemma BindingRecorderReachesGetT(w: World<SampleState>, x: Value)
    requires SampleWorld(w) && w.interceptor == Binder && w.trace == [] && x.Str?
    ensures var out := Pipeline(SampleClassInvoke, GetTypeIdentifier(ISampleClass), 6, GetT, w, [x]);
            var hooks := out.world.trace;
            && out.status == Returned(Some(x))
            && |hooks| == 3 && hooks[0].PreInvokeCall? && hooks[1].InvokeCall? && hooks[2].PostInvokeCall?
  {
    LookupAfterRegistration(map[], ISampleClass, 6);
    assert Marshal(GetT.parameters, [x]) == [x];
    BinderCallsGetT(w.state, x);
  }

  /** `MethodWithIntegerReturnValue_IsInvokable`: `GetInt(42)` returns 42 and every hook was hit. */
  method MethodWithIntegerReturnValue() returns (result: Status, flags: Hits)
    ensures result == Returned(Some(Raw(IntPrim(42))))
    ensures flags == Hits(true, true, true)
  {
    var proxy, provider := NewSampleProxy(Recorder(NoHits));
    RecorderReachesSampleClass(proxy.Entry(provider.typeCache, [Raw(IntPrim(42))]).world, 4, [Raw(IntPrim(42))]);
    var calls;
    result, calls := CallSample(proxy, provider, 4, [Raw(IntPrim(42))]);
    flags := proxy.interceptor.hits;
  }

  /** `MethodWithStringReturnValue_IsInvokable`: `GetString("Foo")` returns "Foo" and every hook was hit. */
  method MethodWithStringReturnValue() returns (result: Status, flags: Hits)
    ensures result == Returned(Some(Str("Foo")))
    ensures flags == Hits(true, true, true)
  {
    var proxy, provider := NewSampleProxy(Recorder(NoHits));
    RecorderReachesSampleClass(proxy.Entry(provider.typeCache, [Str("Foo")]).world, 5, [Str("Foo")]);
    var calls;
    result, calls := CallSample(proxy, provider, 5, [Str("Foo")]);
    flags := proxy.interceptor.hits;
  }

  /**
   * `MethodWithGenericReturnValue_IsInvokable` as the code stands: the
   * recorder hands reflection the open `GetT<TInput>`, which reflection
   * refuses, so `GetT("Foo")` throws InvalidOperationException instead of
   * returning "Foo", and PostInvoke is never hit.
   */
  method MethodWithGenericReturnValue() returns (result: Status, flags: Hits)
    ensures result == Faulted(InvalidOperation)
    ensures flags == Hits(true, true, false)
  {
    var proxy, provider := NewSampleProxy(Recorder(NoHits));
    var calls;
    result, calls := CallSample(proxy, provider, 6, [Str("Foo")]);
    flags := proxy.interceptor.hits;
  }

  /**
   * `MethodWithGenericReturnValue_IsInvokable` with an interceptor whose
   * Invoke binds `TInput` to the argument's runtime type first: `GetT("Foo")`
   * returns "Foo", and PreInvoke, Invoke and PostInvoke each ran once.
   */
  method MethodWithGenericReturnValueBound() returns (result: Status, hooks: seq<HookCall>)
    ensures result == Returned(Some(Str("Foo")))
    ensures |hooks| == 3 && hooks[0].PreInvokeCall? && hooks[1].InvokeCall? && hooks[2].PostInvokeCall?
  {
    var proxy, provider := NewSampleProxy(Binder);
    BindingRecorderReachesGetT(proxy.Entry(provider.typeCache, [Str("Foo")]).world, Str("Foo"));
    result, hooks := CallSample(proxy, provider, 6, [Str("Foo")]);
  }

  /** `PropertyWithIntegerType_IsInvokable`: after `IntProperty = 42`, reading `IntProperty` gives 42. */
  method PropertyWithIntegerType() returns (setResult: Status, result: Status, flags: Hits)
    ensures setResult == Returned(None)
    ensures result == Returned(Some(Raw(IntPrim(42))))
    ensures flags == Hits(true, true, true)
  {
    var proxy, provider := NewSampleProxy(Recorder(NoHits));
    RecorderReachesSampleClass(proxy.Entry(provider.typeCache, [Raw(IntPrim(42))]).world, 1, [Raw(IntPrim(42))]);
    var calls;
    setResult, calls := CallSample(proxy, provider, 1, [Raw(IntPrim(42))]);
    assert proxy.state.intProperty == 42 && proxy.interceptor.Recorder?;
    RecorderReachesSampleClass(proxy.Entry(provider.typeCache, []).world, 0, []);
    result, calls := CallSample(proxy, provider, 0, []);
    flags := proxy.interceptor.hits;
  }

  /** `PropertyWithStringType_IsInvokable`: after `StringProperty = "Foo"`, reading `StringProperty` gives "Foo". */
  method PropertyWithStringType() returns (setResult: Status, result: Status, flags: Hits)
    ensures setResult == Returned(None)
    ensures result == Returned(Some(Str("Foo")))
    ensures flags == Hits(true, true, true)
  {
    var proxy, provider := NewSampleProxy(Recorder(NoHits));
    assert Marshal(SetStringProperty.parameters, [Str("Foo")]) == [Str("Foo")];
    RecorderReachesSampleClass(proxy.Entry(provider.typeCache, [Str("Foo")]).world, 3, [Str("Foo")]);
    var calls;
    setResult, calls := CallSample(proxy, provider, 3, [Str("Foo")]);
    assert proxy.state.stringProperty == Str("Foo") && proxy.interceptor.Recorder?;
    RecorderReachesSampleClass(proxy.Entry(provider.typeCache, []).world, 2, []);
    result, calls := CallSample(proxy, provider, 2, []);
    flags := proxy.interceptor.hits;
  }

  /** Behind the argument-changing interceptor, `GetString("Foo")` returns the replacement argument. */
  method ArgumentChangeReachesImplementation() returns (result: Status)
    ensures result == Returned(Some(Str(ArgumentChangeInterceptor.ChangedArgument)))
  {
    var proxy, provider := NewSampleProxy(ArgumentChange);
    var calls;
    result, calls := CallSample(proxy, provider, 5, [Str("Foo")]);
  }

  /** Behind the return-value-changing interceptor, `GetString("Foo")` returns the replacement value. */
  method ReturnValueChangeReachesCaller() returns (result: Status)
    ensures result == Returned(Some(Str(ReturnValueChangeInterceptor.ChangedReturnValue)))
  {
    var proxy, provider := NewSampleProxy(ReturnValueChange);
    var calls;
    result, calls := CallSample(proxy, provider, 5, [Str("Foo")]);
  }

  /** The return-value-changing interceptor leaves a non-string result alone: `GetInt(42)` returns 42. */
  method ReturnValueChangeKeepsInt() returns (result: Status)
    ensures result == Returned(Some(Raw(IntPrim(42))))
  {
    var proxy, provider := NewSampleProxy(ReturnValueChange);
    var calls;
    result, calls := CallSample(proxy, provider, 4, [Raw(IntPrim(42))]);
  }

  /** `Generate<SampleClass>` is refused: the contract must be an interface. */
  method GenerateOverClassFails() returns (r: Result<Proxy<SampleState>>)
    ensures r == Failure(ArgumentError(NotAnInterfaceMessage))
  {
    var provider := new MetaInfoProvider();
    r := Generate(provider, SampleClass, ImplementationRef, NewSampleClass, InterceptorRef, PassThrough);
  }
}
