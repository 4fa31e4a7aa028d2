# Wraptor, modelled in Dafny

Wraptor builds interception proxies at run time. `Generator.Generate<TWrapped>`
takes an interface, an implementation of it and an `IInterceptor`. It emits a
new type with two fields, `_implementation` and `_interceptor`. It also emits a
constructor that stores its two arguments in them, and one method per
interface method. Every emitted method body follows the same IL recipe:

1. Look up its own `MethodInfo` through `MetaInfoProvider.GetMethodInfo(typeIdentifier, index)`.
2. Copy the arguments into a fresh `object[]`, boxing value types.
3. Call `PreInvoke`, `Invoke` and `PostInvoke` on the interceptor, all on that array.
4. Drop the result of a `void` method, or unbox a value-type result.
5. Return.

`MetaInfoProvider` keeps the process-wide type cache that the lookup reads.
`InterceptorBase` and the two example interceptors are the interceptors the
library ships. `UnitTestInterceptor` is the recording test double that the
proxy tests drive.

The model has these layers:

- `Clr` (clr.dfy): the part of the .NET runtime the pipeline touches.
  - Types: `Void`, `Int32`, `Boolean`, `String`, `Object` and generic parameters.
  - The values that travel through the `object` channel: raw, boxed, strings, references.
  - `box` / `unbox.any`, the exceptions that can surface, and `MethodInfo.Invoke`.
  - The implementation behind the proxy is an abstract function (`Target`) from its state, the method and the converted arguments to a new state and a result.
  - `MethodInfo.Invoke` refuses an open generic method, a foreign target, a wrong argument count and an argument it cannot convert, and wraps what the implementation throws in a TargetInvocationException.
- `MetaInfo` (meta_info_provider.dfy):
  - The type cache, as a map from assembly-qualified name to type.
  - The pure functions `CacheAdd` and `MethodLookup` that specify it.
  - The class `MetaInfoProvider`, whose methods update the cache in place.
  - The read-only `ParameterInfos` view.
- `InterceptorBase`, `UnitTestInterceptor`, `ArgumentChangeInterceptor`, `ReturnValueChangeInterceptor`:
  - Each interceptor's hooks.
  - `UnitTestInterceptor` as a class with its three flags.
  - The argument-changing `PreInvoke` as an in-place update of an array.
- `Interceptor` (interceptor.dfy): `IInterceptor`.
  - The interceptors of the system are named cases: one that overrides nothing, the two examples, and the recorder with its flags.
  - Any other interceptor is a `Custom` case, given by its three hooks as functions. Each hook may change the state it reaches, may throw, and may overwrite elements of the argument array.
  - Each hook dispatches on which interceptor it is.
- `Il` (il.dfy):
  - The opcodes the generator emits, as a datatype.
  - A small stack machine that runs them. It has the evaluation stack, the four locals, the IL arguments, the `object[]` arrays allocated so far, and the world a call reaches: the proxy's two fields, the type cache, the implementation's state, the interceptor and the sequence of hook calls.
- `Generator` (generator.dfy):
  - The emitted code, segment by segment.
  - `EmitMethodBody` and `ApplyMethodImplementations`: the emitter's loops, as imperative methods.
  - The generated type, as the class `Proxy`.
  - `Generate`.
- `Dispatch` (dispatch.dfy):
  - `Pipeline`, a direct definition of what one proxied call does.
  - The proof that running the emitted body does exactly that (`EmittedBodyFollowsPipeline`).
- `ProxyGuarantees` (properties.dfy): the guarantees a caller can rely on, stated about the emitted code, including the emitted constructor.
- `GenericBinding` (generic_binding.dfy): binding a generic method's type parameters to the runtime types of its arguments before reflection calls it, and an interceptor that forwards that way.
- `Sample` (sample.dfy): the `ISampleClass` / `SampleClass` fixture and the proxy tests, restated as methods whose postconditions are the tests' assertions.

## Model

| member | source | states |
|---|---|---|
| Clr.BoxValue | src/Wraptor/Generator.cs:189-192 | `box` turns a value-type value into an object that holds it, and leaves an object as it is |
| Clr.Unbox | src/Wraptor/Generator.cs:242-245 | `unbox.any` succeeds exactly on a box of the requested type, and then gives back the value that was boxed; null raises NullReferenceException and any other object raises InvalidCastException |
| Clr.ConvertArgument | src/Wraptor/InterceptorBase.cs:16 | Reflection's conversion of one argument to its parameter type. It succeeds exactly on null or a box of the same type for `int` and `bool`, and null becomes `default(int)` / `default(bool)`. For `string` it succeeds exactly on null or a string, and for `object` or a type parameter on any object. Otherwise it raises ArgumentException. A converted argument is an object, and apart from the null default it is the argument itself |
| Clr.ConvertArguments | src/Wraptor/InterceptorBase.cs:16 | The whole array converts exactly when every element does, element by element; otherwise ArgumentException |
| Clr.MethodInfoInvoke | src/Wraptor/InterceptorBase.cs:16 | Reflection's call. An open generic method raises InvalidOperationException, and a target that is not the implementation raises TargetException. A wrong argument count or a failed conversion also raises, leaving the state unchanged. Otherwise the implementation runs on the converted arguments: its new state is kept, its result comes back boxed, and its exception comes back wrapped in TargetInvocationException. A successful result is always an object |
| MetaInfo.GetTypeIdentifier | src/Wraptor/MetaInfoProvider.cs:14 | The cache key of a type is its assembly-qualified name |
| MetaInfo.CacheAdd | src/Wraptor/MetaInfoProvider.cs:41-48 | Adding a type keys it by its identifier and never overwrites or removes an entry. A type is stored only when its identifier was absent. A well-keyed cache stays well-keyed |
| MetaInfo.MethodLookup | src/Wraptor/MetaInfoProvider.cs:31-35 | The lookup succeeds exactly when the identifier is cached and the index is in range, and then yields that method of the cached type. A missing identifier raises KeyNotFoundException and leaves the cache alone. A bad index raises ArgumentOutOfRangeException. On a well-keyed cache the lookup leaves the cache unchanged |
| MetaInfo.FirstRegistrationWins | src/Wraptor/MetaInfoProvider.cs:41-48 | Registering a second type under an identifier already taken changes nothing, so the first registration stays |
| MetaInfo.LookupAfterRegistration | src/Wraptor/MetaInfoProvider.cs:21-35 | After `GetMethodInfos(t)` has cached `t`, looking up index `i` under `t`'s identifier yields `t.methods[i]` and the cache as it was; an index outside the list is out of range |
| MetaInfo.MetaInfoProvider.constructor | src/Wraptor/MetaInfoProvider.cs:16 | The cache starts empty, which is well-keyed |
| MetaInfo.MetaInfoProvider.AddToTypeCache | src/Wraptor/MetaInfoProvider.cs:41-48 | Updates the cache in place to `CacheAdd` of the old cache and keeps it well-keyed |
| MetaInfo.MetaInfoProvider.GetMethodInfos | src/Wraptor/MetaInfoProvider.cs:21-25 | Registers the type, after which its identifier is cached, and returns the type's methods in reflection order |
| MetaInfo.MetaInfoProvider.GetFromTypeCache | src/Wraptor/MetaInfoProvider.cs:50 | The dictionary indexer returns the cached type, or raises KeyNotFoundException exactly when the identifier is absent |
| MetaInfo.MetaInfoProvider.GetMethodInfo | src/Wraptor/MetaInfoProvider.cs:31-35 | The imperative lookup agrees with `MethodLookup` on both the result and the new cache, and leaves a well-keyed cache unchanged |
| MetaInfo.GetParameterInfos | src/Wraptor/MetaInfoProvider.cs:37 | The parameter view has one entry per parameter of the method: its count is the method's parameter count, and entry `i` gives parameter `i`'s type and whether that type is a value type |
| MetaInfo.GetReturnType | src/Wraptor/MetaInfoProvider.cs:39 | The method's declared return type |
| MetaInfo.ParameterInfos.ParameterCount | src/Wraptor/MetaInfoProvider.cs:55 | The length of the parameter array |
| MetaInfo.ParameterInfos.GetParameterType | src/Wraptor/MetaInfoProvider.cs:64 | Returns parameter `index`'s type exactly when `0 <= index < ParameterCount`, and raises IndexOutOfRangeException otherwise |
| MetaInfo.ParameterInfos.IsParameterValueType | src/Wraptor/MetaInfoProvider.cs:66 | Is true exactly when parameter `index`'s type is a value type, and raises for an index outside the array |
| InterceptorBase.Invoke | src/Wraptor/InterceptorBase.cs:11-20 | A null implementation or a null method gives null and calls nothing. Otherwise the result is exactly reflection's call on the implementation with the given array |
| UnitTestInterceptor.ForwardInvoke | src/Wraptor.Tests/UnitTestInterceptor.cs:18-23 | The recorder forwards without null checks: a null method raises NullReferenceException, a null implementation raises and leaves the state alone, and otherwise the result is reflection's call |
| UnitTestInterceptor.UnitTestInterceptor.constructor | src/Wraptor.Tests/UnitTestInterceptor.cs:7-11 | All three flags start false |
| UnitTestInterceptor.UnitTestInterceptor.PreInvoke | src/Wraptor.Tests/UnitTestInterceptor.cs:13-16 | Sets `PreInvokeHit` and no other flag |
| UnitTestInterceptor.UnitTestInterceptor.Invoke | src/Wraptor.Tests/UnitTestInterceptor.cs:18-23 | Sets `InvokeHit` and no other flag, and returns exactly the forwarded call's state and result |
| UnitTestInterceptor.UnitTestInterceptor.PostInvoke | src/Wraptor.Tests/UnitTestInterceptor.cs:25-28 | Sets `PostInvokeHit` and no other flag |
| ArgumentChangeInterceptor.RewriteFirstArgument | src/Wraptor/Examples/ExampleArgumentChangeInterceptor.cs:8-16 | A null or empty array is untouched. A string first argument becomes `"#~ CHANGED ARGUMENT ~#"` and any other first argument stays. The length and every element after the first never change |
| ArgumentChangeInterceptor.RewriteIsIdempotent | src/Wraptor/Examples/ExampleArgumentChangeInterceptor.cs:12-15 | Rewriting twice gives the same array as rewriting once |
| ArgumentChangeInterceptor.PreInvoke | src/Wraptor/Examples/ExampleArgumentChangeInterceptor.cs:8-16 | The in-place update of the array object leaves it equal to `RewriteFirstArgument` of its old contents |
| ReturnValueChangeInterceptor.Invoke | src/Wraptor/Examples/ExampleReturnValueChangeInterceptor.cs:7-16 | The base `Invoke` always runs, and its effect on the implementation stays. Its exception propagates. Otherwise a string-returning method yields `"#~ CHANGED RETURN VALUE ~#"`, any other method yields the base result unchanged, and a null method raises when its return type is read |
| Interceptor.PreInvoke | src/Wraptor/IInterceptor.cs:7 | No hook turns one interceptor into another. The library's interceptors never throw here and leave the state alone. The argument-changing interceptor leaves the array as `RewriteFirstArgument` of what it got, and the others leave it as it was; the recorder also gains `PreInvokeHit` and nothing else. A custom interceptor's state, array and exception are exactly those of its own hook |
| Interceptor.Invoke | src/Wraptor/IInterceptor.cs:9 | The library's interceptors leave the array alone: the pass-through and argument-changing interceptors forward as the base class does, the other example substitutes the return value, and the recorder forwards with `InvokeHit` raised. A custom interceptor's state and array are those of its own hook, and its result is its hook's, boxed, or its hook's exception. A result is always an object |
| Interceptor.PostInvoke | src/Wraptor/IInterceptor.cs:11 | The library's interceptors never throw and change nothing except the recorder's `PostInvokeHit`. A custom interceptor's state and exception are exactly those of its own hook |
| Interceptor.RecorderFlagsOnlyRise | src/Wraptor.Tests/UnitTestInterceptor.cs:13-28 | No hook of the recorder ever lowers a flag |
| Il.Overwritten | src/Wraptor/Generator.cs:196-234 | The three hooks get the same array object, so a hook can overwrite its elements but cannot resize or replace it: the contents afterwards have the old length, and are what the hook left when the hook kept that length |
| Generator.StoreField | src/Wraptor/Generator.cs:105-112 | `ldarg.0; ldarg k; stfld f`. What it does is the contract of `ProxyGuarantees.RunStoreField` |
| Generator.ConstructorBody | src/Wraptor/Generator.cs:103-124 | The emitted constructor: store argument 1 in `_implementation`, argument 2 in `_interceptor`, return. What it does is the contract of `ProxyGuarantees.ConstructorStoresFields` |
| Generator.LoadMethodInfo | src/Wraptor/Generator.cs:168-176 | The identifier and method lookup segment. What it does is the contract of `Dispatch.RunLoadMethodInfo` |
| Generator.CreateArguments | src/Wraptor/Generator.cs:178-181 | The array allocation segment. What it does is the contract of `Dispatch.RunCreateArguments` |
| Generator.StoreArgument | src/Wraptor/Generator.cs:186-193 | One element store, with `box` exactly for a value-type parameter. What it does is the contract of `Dispatch.RunStoreArgument` |
| Generator.PopulateArguments | src/Wraptor/Generator.cs:184-194 | The per-parameter loop's output, one store per parameter in order. What it does is the contract of `Dispatch.RunPopulateArguments` |
| Generator.LoadHookOperands | src/Wraptor/Generator.cs:197-202 | The operand loads of a hook call. What they do is the contract of `Dispatch.RunLoadHookOperands` |
| Generator.CallHook | src/Wraptor/Generator.cs:196-234 | The operand loads followed by `callvirt` of the hook. What it does is the contract of `Dispatch.RunCallHook` |
| Generator.HandleReturnType | src/Wraptor/Generator.cs:214-224 | `pop` for void, `stloc.3` otherwise. What it does is the contract of `Dispatch.RunHandleReturnType` |
| Generator.PrepareReturnValue | src/Wraptor/Generator.cs:236-249 | Nothing for void, `ldloc.3` otherwise, followed by `unbox.any` for a value type. What it does, with the `ret`, is the contract of `Dispatch.RunReturn` |
| Generator.DispatchCode | src/Wraptor/Generator.cs:196-249 | The three hook calls and the return. What it does is the contract of `Dispatch.RunDispatchCode` |
| Generator.MethodBody | src/Wraptor/Generator.cs:157-249 | The whole body of a generated method, segment by segment. What it does is the contract of `Dispatch.EmittedBodyFollowsPipeline` |
| Generator.GeneratedMethod | src/Wraptor/Generator.cs:150-155 | The generated method keeps the contract method's name, return type and parameter types, read through `GetReturnType` and `GetParameterInfos` |
| Generator.EmitMethodBody | src/Wraptor/Generator.cs:157-249 | The emitter's instruction-by-instruction output, including the per-parameter loop, is exactly the segment recipe `MethodBody` |
| Generator.ApplyMethodImplementations | src/Wraptor/Generator.cs:127-251 | Caches the contract, and emits exactly one method per contract method, in order. Each has the same name, parameter types and return type, and the body for its own index |
| Generator.Proxy.constructor | src/Wraptor/Generator.cs:37-41 | The new proxy holds exactly the given implementation and interceptor references, over the given objects |
| Generator.Proxy.Call | src/Wraptor/Generator.cs:144-249 | Calling proxy method `i` runs its emitted body from the entry state. The caller sees how it ended. The type cache, the implementation and the interceptor keep what the body did to them. The two fields never change |
| Generator.Generate | src/Wraptor/Generator.cs:21-44 | A non-interface contract raises ArgumentException before anything is cached or built. An interface is cached and yields a fresh proxy with one generated method per contract method and the two fields set |
| Dispatch.Marshal | src/Wraptor/Generator.cs:178-194 | The `object[]` a proxy method hands its interceptor: argument `i` in slot `i`, boxed exactly when parameter `i` is a value type. Its properties are the contracts of `ProxyGuarantees.MarshalRoundTrip` and `Dispatch.RunMarshalArguments` |
| Dispatch.Pipeline | src/Wraptor/Generator.cs:157-249 | The direct definition of one proxied call: look the method up, then PreInvoke, Invoke and PostInvoke on the marshalled array, stopping at the first exception, and convert the result for the caller. `Dispatch.EmittedBodyFollowsPipeline` ties it to the emitted code, and the `ProxyGuarantees` lemmas state its properties |
| Dispatch.RunLoadMethodInfo | src/Wraptor/Generator.cs:168-176 | The first segment stores the identifier in local 0 and the looked-up MethodInfo in local 1, or faults with the lookup's exception |
| Dispatch.RunCreateArguments | src/Wraptor/Generator.cs:178-181 | Allocates an all-null `object[]` of the parameter count and stores it in local 2 |
| Dispatch.RunStoreArgument | src/Wraptor/Generator.cs:186-193 | One element store puts argument `i+1`, boxed when parameter `i` is a value type, into slot `i`, and touches nothing else |
| Dispatch.RunPopulateArguments | src/Wraptor/Generator.cs:184-194 | After the first `k` stores, slots below `k` hold the marshalled arguments and the rest are still null |
| Dispatch.RunMarshalArguments | src/Wraptor/Generator.cs:178-194 | Creating and filling the array leaves a new array equal to `Marshal(parameters, xs)` in local 2 |
| Dispatch.RunLoadHookOperands | src/Wraptor/Generator.cs:197-202 | The operand loads push `_interceptor`, `_implementation`, the MethodInfo, the array and, for PostInvoke only, the return value |
| Dispatch.RunCallHook | src/Wraptor/Generator.cs:196-234 | A hook call on an empty stack is `callvirt` of that hook on exactly those operands |
| Dispatch.CallPreInvoke | src/Wraptor/Generator.cs:196-203 | `callvirt PreInvoke` records the call, and then faults with the hook's exception or writes back what the hook left in the array |
| Dispatch.RunPreInvoke | src/Wraptor/Generator.cs:196-203 | The PreInvoke call hands the hook the current array. It then faults with the hook's exception, or writes back what the hook left in the array |
| Dispatch.CallInvoke | src/Wraptor/Generator.cs:205-212 | `callvirt Invoke` records the call and writes back what the hook left in the array, then pushes the result or faults with the hook's exception |
| Dispatch.RunInvoke | src/Wraptor/Generator.cs:205-212 | The Invoke call leaves Invoke's result on the stack, or faults with its exception; either way the array holds what Invoke left in it |
| Dispatch.RunHandleReturnType | src/Wraptor/Generator.cs:214-224 | A void method pops Invoke's result; any other method stores it in local 3 |
| Dispatch.CallPostInvoke | src/Wraptor/Generator.cs:226-234 | `callvirt PostInvoke` records the call with local 3 as the return value, and faults exactly when the hook throws |
| Dispatch.RunPostInvoke | src/Wraptor/Generator.cs:226-234 | The PostInvoke call passes local 3 as the return value and leaves the stack empty, or faults with the hook's exception |
| Dispatch.RunReturn | src/Wraptor/Generator.cs:236-249 | The caller receives nothing for void, the unboxed local 3 (or unboxing's exception) for a value type, and local 3 itself otherwise |
| Dispatch.RunAfterInvoke | src/Wraptor/Generator.cs:214-249 | Once Invoke has returned an object, the rest of the body calls PostInvoke with it (null for a void method) on the array as Invoke left it. The caller receives it converted by `ReturnToCaller`, unless PostInvoke throws |
| Dispatch.RunInvokeAndPostInvoke | src/Wraptor/Generator.cs:205-249 | From Invoke on, the emitted code has the outcome `InvokeAndPostInvoke` defines |
| Dispatch.RunDispatchCode | src/Wraptor/Generator.cs:196-249 | From the filled array on, the emitted code has the outcome `InterceptedCall` defines, including the NullReferenceException of a null interceptor |
| Dispatch.RunMethodBody | src/Wraptor/Generator.cs:168-194 | The body up to the first hook either faults with the lookup's exception or reaches the hooks with the MethodInfo in local 1 and the marshalled array in local 2 |
| Dispatch.EmittedBodyFollowsPipeline | src/Wraptor/Generator.cs:157-249 | Running the emitted body gives exactly the outcome, type cache, implementation state, interceptor and hook-call sequence of the direct definition `Pipeline` |
| ProxyGuarantees.MarshalRoundTrip | src/Wraptor/Generator.cs:184-194 | Every marshalled slot is an object. A value-type argument unboxes back to itself, and any other argument is passed unchanged |
| ProxyGuarantees.MarshalledArgumentsConvert | src/Wraptor/Generator.cs:184-194 | Reflection accepts the array a proxy method builds: every element converts to its parameter type, to itself |
| ProxyGuarantees.LookupFailureCallsNoHook | src/Wraptor/Generator.cs:169-176 | When the lookup fails, the caller gets KeyNotFoundException for an unknown identifier or ArgumentOutOfRangeException for a bad index. No hook runs, and neither the implementation nor the interceptor changes |
| ProxyGuarantees.NullInterceptorThrows | src/Wraptor/Generator.cs:196-203 | A proxy over a null interceptor raises NullReferenceException at PreInvoke, with no hook run and no state changed |
| ProxyGuarantees.PreInvokeThrows | src/Wraptor/Generator.cs:196-203 | When PreInvoke throws, its exception reaches the caller, only PreInvoke was called, and the state and interceptor are as PreInvoke left them |
| ProxyGuarantees.InvokeThrows | src/Wraptor/Generator.cs:205-212 | When Invoke throws, its exception reaches the caller, PreInvoke and then Invoke were called on the array as PreInvoke left it, PostInvoke was not, and the state and interceptor are as Invoke left them |
| ProxyGuarantees.CallCompletes | src/Wraptor/Generator.cs:196-249 | When neither PreInvoke nor Invoke throws, the three hooks run in order, each on the state and array the previous one left. PostInvoke gets Invoke's result (null for void). The caller gets that result converted by `ReturnToCaller`, or PostInvoke's exception |
| ProxyGuarantees.HooksRunInOrder | src/Wraptor/Generator.cs:196-234 | For any interceptor, PreInvoke, Invoke and PostInvoke run at most once each, in that order. Each receives the proxy's implementation and the MethodInfo at the method's own index. The call stops after PreInvoke exactly when PreInvoke throws, and after Invoke exactly when Invoke throws, and that exception reaches the caller |
| ProxyGuarantees.InvokeSeesRewrittenArguments | src/Wraptor/Generator.cs:196-234 | PreInvoke gets the marshalled arguments. Invoke gets the array as PreInvoke left it, and PostInvoke the array as Invoke left it; only a custom Invoke can change it |
| ProxyGuarantees.CallerReceivesInvokeResult | src/Wraptor/Generator.cs:214-247 | When Invoke returns, PostInvoke sees its result (null for void), and the caller receives exactly that result unless PostInvoke throws. The result is unboxed iff the return type is a value type, and a null or mismatched box for a value type raises |
| ProxyGuarantees.GeneratedMethodFindsItself | src/Wraptor/Generator.cs:135-176 | With the contract cached, method `i`'s body finds contract method `i`, leaves the cache unchanged and hands that method to the interceptor |
| ProxyGuarantees.PassThroughOverNullImplementation | src/Wraptor/InterceptorBase.cs:13-19 | The default interceptor over a null implementation calls nothing. The caller gets null, and for a value-type return that means NullReferenceException from the unboxing |
| ProxyGuarantees.RecorderSeesEveryHook | src/Wraptor.Tests/UnitTestInterceptor.cs:13-28 | After any call that reaches the hooks, the recorder's PreInvoke and Invoke flags are set. Its PostInvoke flag is set iff PostInvoke ran or the flag was already set |
| ProxyGuarantees.RunStoreField | src/Wraptor/Generator.cs:105-112 | `ldarg.0; ldarg k; stfld f` sets field `f` to argument `k` and nothing else |
| ProxyGuarantees.ConstructorStoresFields | src/Wraptor/Generator.cs:103-124 | The emitted constructor returns having stored argument 1 in `_implementation` and argument 2 in `_interceptor`, and changes nothing else |
| GenericBinding.RuntimeType | src/Wraptor.Tests/UnitTestInterceptor.cs:22 | `GetType()` of an argument: none exactly for null, a closed type otherwise, `string` for a string |
| GenericBinding.Inferred | src/Wraptor.Tests/UnitTestInterceptor.cs:22 | A type parameter is inferred exactly when some non-null argument is passed for a parameter of that type, and then to a closed type |
| GenericBinding.BindType | src/Wraptor.Tests/UnitTestInterceptor.cs:22 | A closed type stays. A type parameter with an argument to infer it from becomes a closed type |
| GenericBinding.BindGenericArguments | src/Wraptor.Tests/UnitTestInterceptor.cs:22 | `MakeGenericMethod` with the inferred types keeps the name, the arity and every closed type. When every type parameter can be inferred, the result is closed. A method that was already closed is returned unchanged |
| GenericBinding.BindingInvoke | src/Wraptor.Tests/UnitTestInterceptor.cs:22 | The forwarding `Invoke` with binding: a null method raises NullReferenceException, a closed method is reflection's call as before, and a method whose type parameters can all be inferred is never refused as open. The array is left alone |
| GenericBinding.BindingRecorder | src/Wraptor.Tests/UnitTestInterceptor.cs:13-28 | A custom interceptor with no-op PreInvoke and PostInvoke and the binding `Invoke` |
| GenericBinding.BindingClosesSingleParameter | src/Wraptor.Tests/SampleClass.cs:13 | Bound on a non-null argument, a method like `TInput GetT<TInput>(TInput)` becomes closed, with parameter and return type the argument's runtime type |
| Sample.SampleClassInvoke | src/Wraptor.Tests/SampleClass.cs:3-14 | The properties read back what their setters stored, and `GetInt`, `GetString` and every closed `GetT` return their argument. A failure leaves the object unchanged |
| Sample.NewSampleProxy | src/Wraptor.Tests/ProxyTests.cs:11-14 | A fresh provider and a fresh proxy over a new SampleClass and the given interceptor, with ISampleClass cached |
| Sample.CallSample | src/Wraptor/Generator.cs:144-249 | A call through the sample proxy ends as `Pipeline` says and leaves the implementation, the interceptor and the hook calls as `Pipeline` says. The proxy stays a sample proxy |
| Sample.RecorderReachesSampleClass | src/Wraptor.Tests/UnitTestInterceptor.cs:13-28 | Through the recorder, a call of any of SampleClass's six non-generic methods reaches SampleClass with the marshalled arguments. The caller gets SampleClass's result, or its exception wrapped in TargetInvocationException. The PreInvoke and Invoke flags are set, and the PostInvoke flag is set unless SampleClass threw |
| Sample.MethodWithIntegerReturnValue | src/Wraptor.Tests/ProxyTests.cs:9-22 | `GetInt(42)` returns 42 and all three flags are set |
| Sample.MethodWithStringReturnValue | src/Wraptor.Tests/ProxyTests.cs:61-74 | `GetString("Foo")` returns "Foo" and all three flags are set |
| Sample.MethodWithGenericReturnValue | src/Wraptor.Tests/ProxyTests.cs:77-90 | As the code stands, `GetT("Foo")` through the recorder raises InvalidOperationException, because reflection refuses the open `GetT<TInput>`. PreInvoke and Invoke are hit and PostInvoke is not |
| Sample.BinderCallsGetT | src/Wraptor.Tests/ProxyTests.cs:77-90 | The binding interceptor's PreInvoke and PostInvoke change nothing, and its Invoke of `GetT` on a string returns that string |
| Sample.BindingRecorderReachesGetT | src/Wraptor.Tests/ProxyTests.cs:77-90 | Through the binding interceptor, `GetT` on a string returns that string after PreInvoke, Invoke and PostInvoke ran once each, in order |
| Sample.MethodWithGenericReturnValueBound | src/Wraptor.Tests/ProxyTests.cs:77-90 | With `TInput` bound before the call, `GetT("Foo")` returns "Foo" after exactly the three hook calls, as the test expects |
| Sample.PropertyWithIntegerType | src/Wraptor.Tests/ProxyTests.cs:111-124 | After `IntProperty = 42`, reading `IntProperty` gives 42 and all three flags are set |
| Sample.PropertyWithStringType | src/Wraptor.Tests/ProxyTests.cs:127-140 | After `StringProperty = "Foo"`, reading `StringProperty` gives "Foo" and all three flags are set |
| Sample.ArgumentChangeReachesImplementation | src/Wraptor/Examples/ExampleArgumentChangeInterceptor.cs:8-16 | Behind the argument-changing interceptor, `GetString("Foo")` returns the replacement argument, because the implementation saw the rewritten array |
| Sample.ReturnValueChangeReachesCaller | src/Wraptor/Examples/ExampleReturnValueChangeInterceptor.cs:10-13 | Behind the return-value-changing interceptor, `GetString("Foo")` returns the replacement value |
| Sample.ReturnValueChangeKeepsInt | src/Wraptor/Examples/ExampleReturnValueChangeInterceptor.cs:15 | Behind the same interceptor, `GetInt(42)` still returns 42 |
| Sample.GenerateOverClassFails | src/Wraptor/Generator.cs:28-32 | `Generate` over the class `SampleClass` raises ArgumentException |

## Behaviour of the code worth noting

- **Generic methods.** The default `Invoke` (src/Wraptor/InterceptorBase.cs:11-20) and the recorder's `Invoke` (src/Wraptor.Tests/UnitTestInterceptor.cs:18-23) forward the `MethodInfo` they are given. For `GetT<TInput>` that is an open generic method, and reflection refuses to invoke it (see Findings).
- **Exceptions from the implementation.** They reach the proxy's caller wrapped in TargetInvocationException, because reflection wraps them and nothing in the emitted IL unwraps them.
- **Bad method index.** A bad index raises ArgumentOutOfRangeException from `ElementAt` (src/Wraptor/MetaInfoProvider.cs:34), and so does a negative one.
- **PostInvoke on failure.** When PreInvoke or Invoke throws, the hooks after it are not called: nothing in the emitted IL catches the exception.
- **What the cache stores.** It stores the type itself, and every lookup re-reads the type's methods and re-registers the type (src/Wraptor/MetaInfoProvider.cs:31-35). This is harmless, because registration never overwrites.

## Findings

| source | as written | input that shows it | evidently intended | confidence | as-written member | corrected member |
|---|---|---|---|---|---|---|
| src/Wraptor.Tests/UnitTestInterceptor.cs:22 | `Invoke` passes the open generic `GetT<TInput>` straight to `MethodInfo.Invoke`, which raises InvalidOperationException, so `MethodWithGenericReturnValue_IsInvokable` (src/Wraptor.Tests/ProxyTests.cs:77-90) gets an exception instead of "Foo" and PostInvoke is never hit | `proxy.GetT("Foo")` through a `UnitTestInterceptor` | bind `TInput` to the argument's runtime type (`MakeGenericMethod`) before invoking, so the call returns "Foo" after all three hooks | medium, not executed; creating the proxy type may already fail, because `DefineMethod` (src/Wraptor/Generator.cs:150-155) defines no generic parameters, and type creation is not part of this model | Sample.MethodWithGenericReturnValue | Sample.MethodWithGenericReturnValueBound |

## Left out

- Runtime type construction (`AssemblyBuilder`, `ModuleBuilder`, `TypeBuilder`, `CreateTypeInfo`, `Activator.CreateInstance`) is host code generation. The generated type is the Dafny class `Generator.Proxy`, and its constructor stands for `Activator.CreateInstance` running the emitted constructor. The emitted constructor body is proved on its own (`ProxyGuarantees.ConstructorStoresFields`). Whether the runtime accepts the generated type, for instance for a generic contract method, is not modelled.
- Reflection's `Type.GetMethods()` is a given ordered method list (`TypeDesc.methods`), assumed stable across calls. `MethodInfo.Invoke` calls an abstract implementation function (`Clr.Target`). Its argument conversion covers `int`, `bool`, `string`, `object` and type parameters; other types, `ref`/`out` parameters and default parameter values are not modelled.
- The byte encoding of opcodes and the operand sizes `ILGenerator.Emit` chooses are not modelled. An instruction is a datatype value.
- `ldc.i4` operands and the integers carried by `Int32` values are unbounded. 32-bit wrap-around does not arise in the emitted code, whose constants are method and parameter indices.
- The `ConcurrentDictionary` is a single sequential map. Concurrent registration and its race between `ContainsKey` and `TryAdd` are not modelled.
- Generic binding is modelled only for the corrected interceptor (`GenericBinding`): type parameters are inferred from the runtime types of non-null arguments, with no constraints, no inference through array or generic types, and no generic methods of generic types.
- Proxy method calls at the level of the CLR type system (a call reaching the generated method through interface dispatch) are not modelled. A call is `Proxy.Call` with the method's index and any arguments. The guarantees in `ProxyGuarantees` and `Sample.CallSample` assume arguments that fit the signature (`Dispatch.WellTyped`), as the C# compiler ensures for a call through the interface.
- The `object[]` is a value in the machine's list of arrays. A hook can overwrite its elements during the call (`Il.Overwritten`), but aliasing of that array by the interceptor or the implementation beyond the call is not modelled.
- A custom interceptor (`Interceptor.Custom`) reaches only the implementation's state `S` and the argument array, and its hooks are deterministic functions. Interceptor state of its own beyond the recorder's flags is not modelled; the Dafny class `UnitTestInterceptor.UnitTestInterceptor` gives the recorder's flags in place, and the datatype's `Recorder` case carries the same flags through the machine.
- `ExampleLoggerInterceptor` and `ExampleTimerInterceptor` are not part of this model, because of console I/O and `Stopwatch` timing.
- The `ISampleClass` members that `SampleClass` does not implement are not part of this fixture: `GetT1`, `GetT2`, `GetInt1`, `GetInt2`, `GetString1` and `GetString2`. Neither are the tests that call them. The contract holds the seven methods `SampleClass` implements, in declaration order. Those seven come first in declaration order, so their indices are the same.
- `Sample.SampleClassInvoke` answers a method SampleClass does not have, or arguments of the wrong shape, with TargetException. Reflection never hands SampleClass such a call, because it checks the target and converts the arguments first.
- `ProxyGenericTests` and its `SampleGenericClass` / `ISampleGenericClass` fixtures are not part of this model.
