/**
 * Generator: what `Generate` builds for a contract interface. The generated
 * type has two fields, `_implementation` and `_interceptor`, a constructor
 * that stores its two arguments into them, and one method per contract
 * method whose body is the fixed instruction recipe below.
 */
module Generator {
  import opened Clr
  import opened MetaInfo
  import opened Interceptor
  import opened Il

  // The locals every generated method declares.
  const TypeIdentifierLocal: nat := 0
  const MethodInfoLocal: nat := 1
  const ArgumentsLocal: nat := 2
  const ReturnValueLocal: nat := 3

  const NotAnInterfaceMessage: string := "TWrapped must be an interface"

  /** `this.field := argument k`. */
  function StoreField(field: Field, k: nat): seq<Instr> {
    [Ldarg(0), Ldarg(k), Stfld(field)]
  }

  /** The constructor: `_implementation := arg 1; _interceptor := arg 2; ret`. */
  function ConstructorBody(): seq<Instr> {
    StoreField(ImplementationField, 1) + (StoreField(InterceptorField, 2) + [Ret])
  }

  // The segments of a generated method body, in order.

  /** Store the type identifier in local 0, then `GetMethodInfo(identifier, index)` in local 1. */
  function LoadMethodInfo(typeIdentifier: string, methodIndex: int): seq<Instr> {
    [Ldstr(typeIdentifier), Stloc(TypeIdentifierLocal),
     Ldloc(TypeIdentifierLocal), Ldc_I4(methodIndex), Call_GetMethodInfo, Stloc(MethodInfoLocal)]
  }

  /** A new `object[count]` in local 2. */
  function CreateArguments(count: nat): seq<Instr> {
    [Ldc_I4(count), Newarr_Object, Stloc(ArgumentsLocal)]
  }

  /** `arguments[i] := arg i+1`, boxed when parameter `i` has a value type. */
  function StoreArgument(parameters: seq<ClrType>, i: nat): seq<Instr>
    requires i < |parameters|
  {
    [Ldloc(ArgumentsLocal), Ldc_I4(i), Ldarg(i + 1)]
    + (if IsValueType(parameters[i]) then [Box(parameters[i])] else [])
    + [Stelem_Ref]
  }

  /** The stores of the first `count` parameters. */
  function PopulateArguments(parameters: seq<ClrType>, count: nat): seq<Instr>
    requires count <= |parameters|
  {
    if count == 0 then [] else PopulateArguments(parameters, count - 1) + StoreArgument(parameters, count - 1)
  }

  /** The operands of a hook call: `_interceptor`, `_implementation`, `methodInfo`, `arguments`[, `returnValue`]. */
  function LoadHookOperands(hook: Hook): seq<Instr> {
    [Ldarg(0), Ldfld(InterceptorField), Ldarg(0), Ldfld(ImplementationField),
     Ldloc(MethodInfoLocal), Ldloc(ArgumentsLocal)]
    + (if hook.PostInvokeHook? then [Ldloc(ReturnValueLocal)] else [])
  }

  /** `_interceptor.Hook(_implementation, methodInfo, arguments[, returnValue])`. */
  function CallHook(hook: Hook): seq<Instr> {
    LoadHookOperands(hook) + [Callvirt(hook)]
  }

  /** After `Invoke`: drop the result of a void method, otherwise keep it in local 3. */
  function HandleReturnType(returnType: ClrType): seq<Instr> {
    if returnType == Void then [Pop] else [Stloc(ReturnValueLocal)]
  }

  /** Before `ret`: reload the result of a non-void method, unboxing a value type. */
  function PrepareReturnValue(returnType: ClrType): seq<Instr> {
    if returnType == Void then []
    else [Ldloc(ReturnValueLocal)] + (if IsValueType(returnType) then [Unbox_Any(returnType)] else [])
  }

  /** Everything after the argument array is filled: the three hooks and the return. */
  function DispatchCode(returnType: ClrType): seq<Instr> {
    CallHook(PreInvokeHook)
    + (CallHook(InvokeHook)
    + (HandleReturnType(returnType)
    + (CallHook(PostInvokeHook)
    + (PrepareReturnValue(returnType)
    + [Ret]))))
  }

  /** The body of the generated method for contract method `m`, at index `methodIndex`. */
  function MethodBody(typeIdentifier: string, methodIndex: int, m: MethodDesc): seq<Instr> {
    LoadMethodInfo(typeIdentifier, methodIndex)
    + (CreateArguments(|m.parameters|)
    + (PopulateArguments(m.parameters, |m.parameters|)
    + DispatchCode(m.returnType)))
  }

  /** A method of the generated type: its signature and its body. */
  datatype MethodBuilder = MethodBuilder(name: string, returnType: ClrType, parameterTypes: seq<ClrType>,
                                         body: seq<Instr>)

  /** The proxy method for contract method `m`: same name, same signature. */
  function GeneratedMethod(typeIdentifier: string, methodIndex: int, m: MethodDesc): (r: MethodBuilder)
    ensures r.name == m.name && r.returnType == GetReturnType(m)
    ensures r.parameterTypes == GetParameterInfos(m).parameterTypes
  {
    MethodBuilder(m.name, m.returnType, m.parameters, MethodBody(typeIdentifier, methodIndex, m))
  }

  /** Emits the body of one proxy method, segment by segment, in emission order. */
  method EmitMethodBody(typeIdentifier: string, methodIndex: nat, m: MethodDesc) returns (il: seq<Instr>)
    ensures il == MethodBody(typeIdentifier, methodIndex, m)
  {
    var parameterInfos := GetParameterInfos(m);
    var returnType := GetReturnType(m);

    var lookup := [Ldstr(typeIdentifier), Stloc(TypeIdentifierLocal),
                   Ldloc(TypeIdentifierLocal), Ldc_I4(methodIndex), Call_GetMethodInfo, Stloc(MethodInfoLocal)];
    var create := [Ldc_I4(parameterInfos.ParameterCount()), Newarr_Object, Stloc(ArgumentsLocal)];

    var populate := [];
    var parameterIndex := 0;
    while parameterIndex < parameterInfos.ParameterCount()
      invariant parameterIndex <= |m.parameters|
      invariant populate == PopulateArguments(m.parameters, parameterIndex)
    {
      var store := [Ldloc(ArgumentsLocal), Ldc_I4(parameterIndex), Ldarg(parameterIndex + 1)];
      if parameterInfos.IsParameterValueType(parameterIndex).value {
        store := store + [Box(parameterInfos.GetParameterType(parameterIndex).value)];
      }
      store := store + [Stelem_Ref];
      assert store == StoreArgument(m.parameters, parameterIndex);
      populate := populate + store;
      parameterIndex := parameterIndex + 1;
    }

    var loadHookOperands := [Ldarg(0), Ldfld(InterceptorField), Ldarg(0), Ldfld(ImplementationField),
                             Ldloc(MethodInfoLocal), Ldloc(ArgumentsLocal)];
    var pre := loadHookOperands + [Callvirt(PreInvokeHook)];
    var invoke := loadHookOperands + [Callvirt(InvokeHook)];
    var handle := if returnType == Void then [Pop] else [Stloc(ReturnValueLocal)];
    var post := loadHookOperands + [Ldloc(ReturnValueLocal)] + [Callvirt(PostInvokeHook)];
    var prepare := [];
    if returnType != Void {
      prepare := [Ldloc(ReturnValueLocal)];
      if IsValueType(returnType) {
        prepare := prepare + [Unbox_Any(returnType)];
      }
    }
    assert lookup == LoadMethodInfo(typeIdentifier, methodIndex);
    assert create == CreateArguments(|m.parameters|);
    assert pre == CallHook(PreInvokeHook) && invoke == CallHook(InvokeHook) && post == CallHook(PostInvokeHook);
    assert handle == HandleReturnType(m.returnType) && prepare == PrepareReturnValue(m.returnType);
    il := lookup + (create + (populate + (pre + (invoke + (handle + (post + (prepare + [Ret])))))));
  }

  /**
   * `ApplyMethodImplementations`: caches the contract and emits one proxy
   * method per method reflection reports for it, in that order.
   */
  method ApplyMethodImplementations(provider: MetaInfoProvider, interfaceType: TypeDesc)
    returns (methods: seq<MethodBuilder>)
    modifies provider
    ensures provider.typeCache == CacheAdd(old(provider.typeCache), interfaceType)
    ensures |methods| == |interfaceType.methods|
    ensures forall i :: 0 <= i < |methods| ==>
              methods[i] == GeneratedMethod(GetTypeIdentifier(interfaceType), i, interfaceType.methods[i])
  {
    var typeIdentifier := GetTypeIdentifier(interfaceType);
    var methodInfos := provider.GetMethodInfos(interfaceType);
    methods := [];
    var methodIndex := 0;
    while methodIndex < |methodInfos|
      invariant methodIndex <= |methodInfos| && methodInfos == interfaceType.methods
      invariant provider.typeCache == CacheAdd(old(provider.typeCache), interfaceType)
      invariant |methods| == methodIndex
      invariant forall i :: 0 <= i < methodIndex ==>
                  methods[i] == GeneratedMethod(typeIdentifier, i, methodInfos[i])
    {
      var methodInfo := methodInfos[methodIndex];
      var body := EmitMethodBody(typeIdentifier, methodIndex, methodInfo);
      methods := methods + [MethodBuilder(methodInfo.name, methodInfo.returnType, methodInfo.parameters, body)];
      methodIndex := methodIndex + 1;
    }
  }

  /**
   * An instance of the generated type. The two fields hold references (or
   * null); `state` and `interceptor` are the objects those references reach.
   */
  class Proxy<S> {
    const typeIdentifier: string
    const methods: seq<MethodBuilder>
    var implementationField: Value   // `_implementation`
    var interceptorField: Value      // `_interceptor`
    var state: S
    var interceptor: Interceptor<S>

    /** The constructor `ApplyConstructor` emits: it stores its two arguments. */
    constructor (typeIdentifier: string, methods: seq<MethodBuilder>,
                 implementation: Value, state: S, interceptorRef: Value, interceptor: Interceptor<S>)
      ensures this.typeIdentifier == typeIdentifier && this.methods == methods
      ensures implementationField == implementation && interceptorField == interceptorRef
      ensures this.state == state && this.interceptor == interceptor
    {
      this.typeIdentifier := typeIdentifier;
      this.methods := methods;
      implementationField := implementation;
      interceptorField := interceptorRef;
      this.state := state;
      this.interceptor := interceptor;
    }

    /** The machine at the entry of a proxy method called with arguments `xs`. */
    function Entry(cache: TypeCache, xs: seq<Value>): Machine<S>
      reads this
    {
      Machine([], [Null, Null, Null, Null], [ThisRef] + xs, [],
              World(implementationField, interceptorField, cache, state, interceptor, []))
    }

    /**
     * Calls proxy method `methodIndex` with arguments `xs`: runs its body and
     * keeps what the call did to the type cache, the implementation and the
     * interceptor. Returns how the call ended and the hooks it called.
     */
    method Call(provider: MetaInfoProvider, target: Target<S>, methodIndex: nat, xs: seq<Value>)
      returns (status: Status, hooks: seq<HookCall>)
      requires methodIndex < |methods|
      modifies this, provider
      ensures var e := Run(target, methods[methodIndex].body, old(Entry(provider.typeCache, xs)));
              && status == e.status && hooks == e.machine.world.trace
              && provider.typeCache == e.machine.world.cache
              && state == e.machine.world.state && interceptor == e.machine.world.interceptor
      ensures implementationField == old(implementationField) && interceptorField == old(interceptorField)
    {
      var e := Run(target, methods[methodIndex].body, Entry(provider.typeCache, xs));
      status, hooks := e.status, e.machine.world.trace;
      provider.typeCache := e.machine.world.cache;
      state, interceptor := e.machine.world.state, e.machine.world.interceptor;
    }
  }

  /**
   * `Generate`: a non-interface contract is refused before anything is
   * built or cached; otherwise the contract is cached, its methods emitted
   * and a fresh proxy constructed over the two references.
   */
  method Generate<S>(provider: MetaInfoProvider, contract: TypeDesc,
                     implementation: Value, state: S, interceptorRef: Value, interceptor: Interceptor<S>)
    returns (r: Result<Proxy<S>>)
    modifies provider
    ensures !contract.isInterface ==>
              r == Failure(ArgumentError(NotAnInterfaceMessage)) && provider.typeCache == old(provider.typeCache)
    ensures contract.isInterface ==> r.Success? && fresh(r.value)
    ensures contract.isInterface ==> provider.typeCache == CacheAdd(old(provider.typeCache), contract)
    ensures r.Success? ==>
              && r.value.typeIdentifier == GetTypeIdentifier(contract)
              && |r.value.methods| == |contract.methods|
              && (forall i :: 0 <= i < |contract.methods| ==>
                    r.value.methods[i] == GeneratedMethod(GetTypeIdentifier(contract), i, contract.methods[i]))
              && r.value.implementationField == implementation && r.value.interceptorField == interceptorRef
              && r.value.state == state && r.value.interceptor == interceptor
  {
    if !contract.isInterface {
      return Failure(ArgumentError(NotAnInterfaceMessage));
    }
    var methods := ApplyMethodImplementations(provider, contract);
    var proxy := new Proxy(GetTypeIdentifier(contract), methods, implementation, state, interceptorRef, interceptor);
    r := Success(proxy);
  }
}
