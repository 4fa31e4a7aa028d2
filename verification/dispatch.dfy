/**
 * What one call through a generated proxy method does, written directly, and
 * the proof that running the emitted body does exactly that.
 */
module Dispatch {
  import opened Clr
  import opened MetaInfo
  import opened Interceptor
  import opened Il
  import opened Generator

  /** One argument as the generated code stores it into the `object[]`: a value-type argument is boxed. */
  function MarshalArgument(t: ClrType, x: Value): Value {
    if IsValueType(t) then BoxValue(x) else x
  }

  /** The `object[]` a proxy method hands to its interceptor. */
  function Marshal(parameters: seq<ClrType>, xs: seq<Value>): seq<Value>
    requires |xs| == |parameters|
  {
    seq(|xs|, i requires 0 <= i < |xs| => MarshalArgument(parameters[i], xs[i]))
  }

  /** The `object[]` once its first `k` elements have been stored. */
  function PartlyMarshalled(parameters: seq<ClrType>, xs: seq<Value>, k: nat): seq<Value>
    requires |xs| == |parameters| && k <= |parameters|
  {
    seq(|xs|, i requires 0 <= i < |xs| => if i < k then MarshalArgument(parameters[i], xs[i]) else Null)
  }

  /**
   * An argument a caller compiled against the contract can pass for a
   * parameter of type `t`: an unboxed value of that very type for a value
   * type, a string or null for `string`, any object otherwise.
   */
  predicate Fits(t: ClrType, x: Value) {
    if IsValueType(t) then x.Raw? && PrimType(x.p) == t
    else if t == String then x.Null? || x.Str?
    else IsObject(x)
  }

  /** The arguments fit the parameter types, one by one. */
  predicate WellTyped(parameters: seq<ClrType>, xs: seq<Value>) {
    |xs| == |parameters| && forall i :: 0 <= i < |xs| ==> Fits(parameters[i], xs[i])
  }

  /** A proxy method just called with `xs`: empty stack, zeroed locals, `this` and then the arguments. */
  predicate AtEntry<S>(m: Machine<S>, xs: seq<Value>) {
    m.stack == [] && m.locals == [Null, Null, Null, Null] && m.args == [ThisRef] + xs
  }

  /** `_interceptor` holds the interceptor or null. */
  predicate InterceptorOrNull(v: Value) {
    v.Null? || v.InterceptorRef?
  }

  /** What a call leaves behind that anyone can see: how it ended and the world after it. */
  datatype Outcome<!S> = Outcome(status: Status, world: World<S>)

  function Observe<S>(e: Exec<S>): Outcome<S> {
    Outcome(e.status, e.machine.world)
  }

  /** What the caller of a method returning `returnType` receives when `Invoke` produced `returnValue`. */
  function ReturnToCaller(returnType: ClrType, returnValue: Value): Status {
    if returnType == Void then Returned(None)
    else if IsValueType(returnType) then
      match Unbox(returnType, returnValue)
      case Success(v) => Returned(Some(v))
      case Failure(e) => Faulted(e)
    else Returned(Some(returnValue))
  }

  /**
   * The interceptor's part of a call: `PreInvoke` on the marshalled
   * arguments, then, unless it threw, `InvokeAndPostInvoke` on what
   * `PreInvoke` left in the array; a null `_interceptor` throws at the first
   * hook.
   */
  function InterceptedCall<S>(target: Target<S>, returnType: ClrType, info: MethodDesc, marshalled: seq<Value>,
                              w: World<S>): Outcome<S>
  {
    if w.interceptorField.Null? then Outcome(Faulted(NullReference), w)
    else
      var implementation := w.implementationField;
      var pre := PreInvoke(w.interceptor, w.state, implementation, Some(info), Some(marshalled));
      var preInvoked := w.(interceptor := pre.0, state := pre.1,
                           trace := w.trace + [PreInvokeCall(implementation, Some(info), Some(marshalled))]);
      if pre.2.Failure? then Outcome(Faulted(pre.2.error), preInvoked)
      else InvokeAndPostInvoke(target, returnType, info, Overwritten(marshalled, pre.2.value), preInvoked)
  }

  /**
   * `Invoke` and, unless it threw, `PostInvokeAndReturn` with its result,
   * which is null for a void method, on the array as `Invoke` left it.
   */
  function InvokeAndPostInvoke<S>(target: Target<S>, returnType: ClrType, info: MethodDesc,
                                  arguments: seq<Value>, w: World<S>): Outcome<S>
  {
    var implementation := w.implementationField;
    var inv := Invoke(target, w.interceptor, w.state, implementation, Some(info), Some(arguments));
    var invoked := w.(interceptor := inv.0, state := inv.1,
                      trace := w.trace + [InvokeCall(implementation, Some(info), Some(arguments))]);
    if inv.2.Failure? then Outcome(Faulted(inv.2.error), invoked)
    else PostInvokeAndReturn(returnType, info, Overwritten(arguments, inv.3),
                             if returnType == Void then Null else inv.2.value, invoked)
  }

  /** `PostInvoke` and, unless it threw, the return of `returnValue` to the caller. */
  function PostInvokeAndReturn<S>(returnType: ClrType, info: MethodDesc, arguments: seq<Value>, returnValue: Value,
                                  w: World<S>): Outcome<S>
  {
    var implementation := w.implementationField;
    var post := PostInvoke(w.interceptor, w.state, implementation, Some(info), Some(arguments), returnValue);
    var posted := w.(interceptor := post.0, state := post.1,
                     trace := w.trace + [PostInvokeCall(implementation, Some(info), Some(arguments), returnValue)]);
    if post.2.Some? then Outcome(Faulted(post.2.value), posted)
    else Outcome(ReturnToCaller(returnType, returnValue), posted)
  }

  /**
   * One call of the proxy method generated for `signature` at
   * `methodIndex` of the contract cached under `typeIdentifier`, with
   * arguments `xs`: look the method up in the type cache, marshal the
   * arguments, and hand over to the interceptor.
   */
  function Pipeline<S>(target: Target<S>, typeIdentifier: string, methodIndex: int, signature: MethodDesc,
                       w: World<S>, xs: seq<Value>): Outcome<S>
    requires |xs| == |signature.parameters|
  {
    var lookup := MethodLookup(w.cache, typeIdentifier, methodIndex);
    if lookup.1.Failure? then Outcome(Faulted(lookup.1.error), w.(cache := lookup.0))
    else InterceptedCall(target, signature.returnType, lookup.1.value, Marshal(signature.parameters, xs),
                         w.(cache := lookup.0))
  }

  // The emitted body, segment by segment.

  lemma RunLoadMethodInfo<S>(target: Target<S>, typeIdentifier: string, methodIndex: int, m: Machine<S>)
    requires m.stack == [] && |m.locals| == 4
    ensures Run(target, LoadMethodInfo(typeIdentifier, methodIndex), m) ==
              var lookup := MethodLookup(m.world.cache, typeIdentifier, methodIndex);
              var looked := m.(locals := m.locals[TypeIdentifierLocal := Str(typeIdentifier)], world := m.world.(cache := lookup.0));
              if lookup.1.Success? then Next(looked.(locals := looked.locals[MethodInfoLocal := MethodRef(lookup.1.value)]))
              else Fault(looked, lookup.1.error)
  {
    var code := LoadMethodInfo(typeIdentifier, methodIndex);
    RunLdstr(target, code, m);
    var m1 := Push(m, Str(typeIdentifier));
    RunStloc(target, code[1..], m1);
    var m2 := m.(locals := m.locals[TypeIdentifierLocal := Str(typeIdentifier)]);
    assert m1.(stack := [], locals := m1.locals[TypeIdentifierLocal := m1.stack[0]]) == m2;
    RunLdloc(target, code[2..], m2);
    var m3 := Push(m2, Str(typeIdentifier));
    RunLdc(target, code[3..], m3);
    var m4 := Push(m3, Raw(IntPrim(methodIndex)));
    RunCallGetMethodInfo(target, code[4..], m4, typeIdentifier, methodIndex);
    var lookup := MethodLookup(m.world.cache, typeIdentifier, methodIndex);
    var looked := m2.(world := m.world.(cache := lookup.0));
    assert m4.(stack := [], world := m4.world.(cache := lookup.0)) == looked;
    if lookup.1.Success? {
      RunStloc(target, code[5..], Push(looked, MethodRef(lookup.1.value)));
      assert code[5..][1..] == [];
    }
  }

  lemma RunCreateArguments<S>(target: Target<S>, count: nat, m: Machine<S>)
    requires m.stack == [] && |m.locals| == 4
    ensures Run(target, CreateArguments(count), m) ==
              Next(m.(locals := m.locals[ArgumentsLocal := ArrayRef(|m.arrays|)],
                      arrays := m.arrays + [NewArray(count)]))
  {
    var code := CreateArguments(count);
    RunLdc(target, code, m);
    var m1 := m.(stack := [Raw(IntPrim(count))]);
    assert Push(m, Raw(IntPrim(count))) == m1;
    RunNewarr(target, code[1..], m1, count);
    var m2 := m.(stack := [ArrayRef(|m.arrays|)], arrays := m.arrays + [NewArray(count)]);
    RunStloc(target, code[2..], m2);
    assert code[2..][1..] == [];
  }

  /** The machine a segment of the argument-filling code starts from. */
  predicate Filling<S>(m: Machine<S>, parameters: seq<ClrType>, xs: seq<Value>, address: nat) {
    && WellTyped(parameters, xs)
    && m.stack == [] && |m.locals| == 4 && m.locals[ArgumentsLocal] == ArrayRef(address)
    && address < |m.arrays| && |m.arrays[address]| == |parameters| && m.args == [ThisRef] + xs
  }

  lemma RunStoreArgument<S>(target: Target<S>, parameters: seq<ClrType>, xs: seq<Value>, i: nat,
                            m: Machine<S>, address: nat)
    requires Filling(m, parameters, xs, address) && i < |parameters|
    ensures Run(target, StoreArgument(parameters, i), m) ==
              Next(m.(arrays := m.arrays[address :=
                                 m.arrays[address][i := MarshalArgument(parameters[i], xs[i])]]))
  {
    var x, t := xs[i], parameters[i];
    assert m.args[i + 1] == x;
    var marshalled := MarshalArgument(t, x);
    var load := [Ldloc(ArgumentsLocal), Ldc_I4(i), Ldarg(i + 1)];
    var m3 := m.(stack := [ArrayRef(address), Raw(IntPrim(i)), x]);
    RunLoadElementOperands(target, load, m, address, i);
    var m4 := m.(stack := [ArrayRef(address), Raw(IntPrim(i)), marshalled]);
    var stored := m.(arrays := m.arrays[address := m.arrays[address][i := marshalled]]);
    if IsValueType(t) {
      assert Fits(t, x);
      var code := [Box(t), Stelem_Ref];
      assert StoreArgument(parameters, i) == load + code;
      RunAppend(target, load, code, m);
      RunBox(target, code, m3, [ArrayRef(address), Raw(IntPrim(i))], x.p);
      assert m3.(stack := [ArrayRef(address), Raw(IntPrim(i))] + [Boxed(x.p)]) == m4;
      RunStelem(target, code[1..], m4, address, i, marshalled);
      assert code[1..][1..] == [];
    } else {
      assert Fits(t, x) && IsObject(x) && m3 == m4;
      var code := [Stelem_Ref];
      assert StoreArgument(parameters, i) == load + code;
      RunAppend(target, load, code, m);
      RunStelem(target, code, m4, address, i, marshalled);
      assert code[1..] == [];
    }
  }

  /** Loads the array, the index and argument `index + 1`. */
  lemma RunLoadElementOperands<S>(target: Target<S>, code: seq<Instr>, m: Machine<S>, address: nat, index: nat)
    requires code == [Ldloc(ArgumentsLocal), Ldc_I4(index), Ldarg(index + 1)]
    requires m.stack == [] && |m.locals| == 4 && m.locals[ArgumentsLocal] == ArrayRef(address) && index + 1 < |m.args|
    ensures Run(target, code, m) == Next(m.(stack := [ArrayRef(address), Raw(IntPrim(index)), m.args[index + 1]]))
  {
    RunLdloc(target, code, m);
    var m1 := Push(m, ArrayRef(address));
    RunLdc(target, code[1..], m1);
    var m2 := Push(m1, Raw(IntPrim(index)));
    RunLdarg(target, code[2..], m2);
    assert Push(m2, m.args[index + 1]) == m.(stack := [ArrayRef(address), Raw(IntPrim(index)), m.args[index + 1]]);
    assert code[2..][1..] == [];
  }

  lemma {:induction false} RunPopulateArguments<S>(target: Target<S>, parameters: seq<ClrType>, xs: seq<Value>,
                                                   k: nat, m: Machine<S>, address: nat)
    requires Filling(m, parameters, xs, address) && k <= |parameters|
    requires m.arrays[address] == NewArray(|parameters|)
    ensures Run(target, PopulateArguments(parameters, k), m) ==
              Next(m.(arrays := m.arrays[address := PartlyMarshalled(parameters, xs, k)]))
  {
    if k == 0 {
      assert PartlyMarshalled(parameters, xs, 0) == m.arrays[address];
      assert m.arrays[address := PartlyMarshalled(parameters, xs, 0)] == m.arrays;
    } else {
      RunAppend(target, PopulateArguments(parameters, k - 1), StoreArgument(parameters, k - 1), m);
      RunPopulateArguments(target, parameters, xs, k - 1, m, address);
      var filled := m.(arrays := m.arrays[address := PartlyMarshalled(parameters, xs, k - 1)]);
      RunStoreArgument(target, parameters, xs, k - 1, filled, address);
      assert PartlyMarshalled(parameters, xs, k - 1)[k - 1 := MarshalArgument(parameters[k - 1], xs[k - 1])]
          == PartlyMarshalled(parameters, xs, k);
      assert filled.arrays[address := PartlyMarshalled(parameters, xs, k)]
          == m.arrays[address := PartlyMarshalled(parameters, xs, k)];
    }
  }

  /** The operands a hook call loads: the two fields, the MethodInfo, the array and, for `PostInvoke`, the result. */
  function HookOperands<S>(m: Machine<S>, hook: Hook): seq<Value>
    requires |m.locals| == 4
  {
    [m.world.interceptorField, m.world.implementationField, m.locals[MethodInfoLocal], m.locals[ArgumentsLocal]]
    + (if hook.PostInvokeHook? then [m.locals[ReturnValueLocal]] else [])
  }

  /** `ldarg.0; ldfld f`: pushes the value of one of the proxy's fields. */
  lemma RunLoadThisField<S>(target: Target<S>, code: seq<Instr>, m: Machine<S>, f: Field)
    requires 2 <= |code| && code[0] == Ldarg(0) && code[1] == Ldfld(f) && 0 < |m.args| && m.args[0] == ThisRef
    ensures Run(target, code, m) == Run(target, code[2..], m.(stack := m.stack + [FieldValue(m, f)]))
  {
    RunLdarg(target, code, m);
    RunLdfld(target, code[1..], Push(m, ThisRef), m.stack);
  }

  /** `ldarg.0; ldfld _interceptor; ldarg.0; ldfld _implementation` on an empty stack. */
  lemma RunLoadProxyFields<S>(target: Target<S>, m: Machine<S>)
    requires m.stack == [] && 0 < |m.args| && m.args[0] == ThisRef
    ensures Run(target, [Ldarg(0), Ldfld(InterceptorField), Ldarg(0), Ldfld(ImplementationField)], m) ==
              Next(m.(stack := [m.world.interceptorField, m.world.implementationField]))
  {
    var code := [Ldarg(0), Ldfld(InterceptorField), Ldarg(0), Ldfld(ImplementationField)];
    RunLoadThisField(target, code, m, InterceptorField);
    var m2 := m.(stack := [m.world.interceptorField]);
    assert m.(stack := m.stack + [m.world.interceptorField]) == m2;
    RunLoadThisField(target, code[2..], m2, ImplementationField);
    assert m2.(stack := m2.stack + [m.world.implementationField])
        == m.(stack := [m.world.interceptorField, m.world.implementationField]);
    assert code[2..][2..] == [];
  }

  /** `ldloc.1; ldloc.2` and, for `PostInvoke`, `ldloc.3`, above the two fields. */
  lemma RunLoadCallLocals<S>(target: Target<S>, hook: Hook, m: Machine<S>)
    requires |m.stack| == 2 && |m.locals| == 4
    ensures Run(target, [Ldloc(MethodInfoLocal), Ldloc(ArgumentsLocal)]
                        + (if hook.PostInvokeHook? then [Ldloc(ReturnValueLocal)] else []), m) ==
              Next(m.(stack := m.stack + [m.locals[MethodInfoLocal], m.locals[ArgumentsLocal]]
                               + (if hook.PostInvokeHook? then [m.locals[ReturnValueLocal]] else [])))
  {
    var code := [Ldloc(MethodInfoLocal), Ldloc(ArgumentsLocal)]
                + (if hook.PostInvokeHook? then [Ldloc(ReturnValueLocal)] else []);
    RunLdloc(target, code, m);
    var m1 := Push(m, m.locals[MethodInfoLocal]);
    RunLdloc(target, code[1..], m1);
    var m2 := Push(m1, m.locals[ArgumentsLocal]);
    assert m2.stack == m.stack + [m.locals[MethodInfoLocal], m.locals[ArgumentsLocal]];
    if hook.PostInvokeHook? {
      RunLdloc(target, code[2..], m2);
      assert code[2..][1..] == [];
      assert Push(m2, m.locals[ReturnValueLocal]).stack
          == m.stack + [m.locals[MethodInfoLocal], m.locals[ArgumentsLocal]] + [m.locals[ReturnValueLocal]];
    } else {
      assert code[2..] == [];
      assert m2.stack == m.stack + [m.locals[MethodInfoLocal], m.locals[ArgumentsLocal]] + [];
    }
  }

  lemma RunLoadHookOperands<S>(target: Target<S>, hook: Hook, m: Machine<S>)
    requires m.stack == [] && |m.locals| == 4 && 0 < |m.args| && m.args[0] == ThisRef
    ensures Run(target, LoadHookOperands(hook), m) == Next(m.(stack := HookOperands(m, hook)))
  {
    var fields := [Ldarg(0), Ldfld(InterceptorField), Ldarg(0), Ldfld(ImplementationField)];
    var locals := [Ldloc(MethodInfoLocal), Ldloc(ArgumentsLocal)]
                  + (if hook.PostInvokeHook? then [Ldloc(ReturnValueLocal)] else []);
    assert LoadHookOperands(hook) == fields + locals;
    RunAppend(target, fields, locals, m);
    RunLoadProxyFields(target, m);
    var loaded := m.(stack := [m.world.interceptorField, m.world.implementationField]);
    RunLoadCallLocals(target, hook, loaded);
  }

  lemma RunCallHook<S>(target: Target<S>, hook: Hook, m: Machine<S>)
    requires m.stack == [] && |m.locals| == 4 && 0 < |m.args| && m.args[0] == ThisRef
    ensures Run(target, CallHook(hook), m) == CallvirtHook(target, m.(stack := HookOperands(m, hook)), hook)
  {
    RunAppend(target, LoadHookOperands(hook), [Callvirt(hook)], m);
    RunLoadHookOperands(target, hook, m);
    RunCallvirt(target, [Callvirt(hook)], m.(stack := HookOperands(m, hook)), hook);
    assert [Callvirt(hook)][1..] == [];
  }

  lemma RunReturn<S>(target: Target<S>, returnType: ClrType, m: Machine<S>)
    requires m.stack == [] && |m.locals| == 4
    requires IsValueType(returnType) && returnType != Void ==> IsObject(m.locals[ReturnValueLocal])
    ensures Observe(Run(target, PrepareReturnValue(returnType) + [Ret], m)) ==
              Outcome(ReturnToCaller(returnType, m.locals[ReturnValueLocal]), m.world)
  {
    var code := PrepareReturnValue(returnType) + [Ret];
    var returnValue := m.locals[ReturnValueLocal];
    var loaded := m.(stack := [returnValue]);
    if returnType == Void {
      RunRet(target, code, m);
    } else {
      RunLdloc(target, code, m);
      assert Push(m, returnValue) == loaded;
      if IsValueType(returnType) {
        RunUnbox(target, code[1..], loaded);
        var u := Unbox(returnType, returnValue);
        if u.Success? {
          RunRet(target, code[2..], loaded.(stack := [u.value]));
        }
      } else {
        RunRet(target, code[1..], loaded);
      }
    }
  }

  /** The machine once the argument array is filled: what the hook calls rely on. */
  predicate ReadyToDispatch<S>(m: Machine<S>, info: MethodDesc, address: nat) {
    && |m.locals| == 4
    && m.locals[MethodInfoLocal] == MethodRef(info) && m.locals[ArgumentsLocal] == ArrayRef(address)
    && m.locals[ReturnValueLocal] == Null && address < |m.arrays|
    && 0 < |m.args| && m.args[0] == ThisRef && InterceptorOrNull(m.world.interceptorField)
  }

  /** Dropping the result of a void method, or keeping it in local 3. */
  lemma RunHandleReturnType<S>(target: Target<S>, returnType: ClrType, m: Machine<S>, rest: seq<Instr>)
    requires |m.stack| == 1 && |m.locals| == 4
    ensures Run(target, HandleReturnType(returnType) + rest, m) ==
              Run(target, rest, if returnType == Void then m.(stack := [])
                                else m.(stack := [], locals := m.locals[ReturnValueLocal := m.stack[0]]))
  {
    var code := HandleReturnType(returnType) + rest;
    if returnType == Void {
      RunPop(target, code, m);
    } else {
      RunStloc(target, code, m);
    }
    assert code[1..] == rest;
  }

  /** `PostInvoke` with the value of local 3, when the interceptor is there. */
  lemma RunPostInvoke<S>(target: Target<S>, info: MethodDesc, m: Machine<S>, address: nat)
    requires m.stack == [] && |m.locals| == 4 && 0 < |m.args| && m.args[0] == ThisRef
    requires m.locals[MethodInfoLocal] == MethodRef(info) && m.locals[ArgumentsLocal] == ArrayRef(address)
    requires address < |m.arrays| && m.world.interceptorField.InterceptorRef?
    ensures Run(target, CallHook(PostInvokeHook), m) ==
              var arguments, returnValue := Some(m.arrays[address]), m.locals[ReturnValueLocal];
              var postCall := PostInvokeCall(m.world.implementationField, Some(info), arguments, returnValue);
              var post := PostInvoke(m.world.interceptor, m.world.state, m.world.implementationField, Some(info),
                                     arguments, returnValue);
              var posted := m.(world := m.world.(interceptor := post.0, state := post.1,
                                                 trace := m.world.trace + [postCall]));
              if post.2.Some? then Fault(posted, post.2.value) else Next(posted)
  {
    RunCallHook(target, PostInvokeHook, m);
    CallPostInvoke(target, info, m, address);
  }

  /** The `callvirt` of `PostInvoke` on the operands `CallHook` loads. */
  lemma CallPostInvoke<S>(target: Target<S>, info: MethodDesc, m: Machine<S>, address: nat)
    requires m.stack == [] && |m.locals| == 4
    requires m.locals[MethodInfoLocal] == MethodRef(info) && m.locals[ArgumentsLocal] == ArrayRef(address)
    requires address < |m.arrays| && m.world.interceptorField.InterceptorRef?
    ensures CallvirtHook(target, m.(stack := HookOperands(m, PostInvokeHook)), PostInvokeHook) ==
              var arguments, returnValue := Some(m.arrays[address]), m.locals[ReturnValueLocal];
              var postCall := PostInvokeCall(m.world.implementationField, Some(info), arguments, returnValue);
              var post := PostInvoke(m.world.interceptor, m.world.state, m.world.implementationField, Some(info),
                                     arguments, returnValue);
              var posted := m.(world := m.world.(interceptor := post.0, state := post.1,
                                                 trace := m.world.trace + [postCall]));
              if post.2.Some? then Fault(posted, post.2.value) else Next(posted)
  {
    assert HookOperands(m, PostInvokeHook)[..0] == [];
  }

  /** From the object `Invoke` returned, on top of an otherwise empty stack, to the return. */
  lemma RunAfterInvoke<S>(target: Target<S>, returnType: ClrType, info: MethodDesc, m: Machine<S>, address: nat)
    requires ReadyToDispatch(m, info, address) && m.world.interceptorField.InterceptorRef?
    requires |m.stack| == 1 && IsObject(m.stack[0])
    ensures Observe(Run(target, HandleReturnType(returnType) + (CallHook(PostInvokeHook)
                                + (PrepareReturnValue(returnType) + [Ret])), m)) ==
              PostInvokeAndReturn(returnType, info, m.arrays[address],
                                  if returnType == Void then Null else m.stack[0], m.world)
  {
    var tail := PrepareReturnValue(returnType) + [Ret];
    var returnValue := if returnType == Void then Null else m.stack[0];
    var handled := if returnType == Void then m.(stack := []) else m.(stack := [], locals := m.locals[ReturnValueLocal := m.stack[0]]);
    RunHandleReturnType(target, returnType, m, CallHook(PostInvokeHook) + tail);
    RunAppend(target, CallHook(PostInvokeHook), tail, handled);
    RunPostInvoke(target, info, handled, address);
    var arguments := Some(m.arrays[address]);
    var postCall := PostInvokeCall(m.world.implementationField, Some(info), arguments, returnValue);
    var post := PostInvoke(m.world.interceptor, m.world.state, m.world.implementationField, Some(info),
                           arguments, returnValue);
    if post.2.None? {
      var posted := handled.(world := m.world.(interceptor := post.0, state := post.1,
                                               trace := m.world.trace + [postCall]));
      RunReturn(target, returnType, posted);
    }
  }

  /** The `PreInvoke` hook called on the operands the emitted code loads. */
  lemma CallPreInvoke<S>(target: Target<S>, info: MethodDesc, m: Machine<S>, address: nat)
    requires m.stack == [] && |m.locals| == 4
    requires m.locals[MethodInfoLocal] == MethodRef(info) && m.locals[ArgumentsLocal] == ArrayRef(address)
    requires address < |m.arrays| && m.world.interceptorField.InterceptorRef?
    ensures CallvirtHook(target, m.(stack := HookOperands(m, PreInvokeHook)), PreInvokeHook) ==
              var marshalled := Some(m.arrays[address]);
              var pre := PreInvoke(m.world.interceptor, m.world.state, m.world.implementationField, Some(info),
                                   marshalled);
              var preCall := PreInvokeCall(m.world.implementationField, Some(info), marshalled);
              var world := m.world.(interceptor := pre.0, state := pre.1, trace := m.world.trace + [preCall]);
              if pre.2.Failure? then Fault(m.(world := world), pre.2.error)
              else Next(m.(arrays := m.arrays[address := Overwritten(m.arrays[address], pre.2.value)],
                           world := world))
  {
    assert HookOperands(m, PreInvokeHook)[..0] == [];
  }

  /** `PreInvoke` on the argument array: the hook may rewrite the array's elements, or throw. */
  lemma RunPreInvoke<S>(target: Target<S>, info: MethodDesc, m: Machine<S>, address: nat)
    requires ReadyToDispatch(m, info, address) && m.world.interceptorField.InterceptorRef? && m.stack == []
    ensures Run(target, CallHook(PreInvokeHook), m) ==
              var marshalled := Some(m.arrays[address]);
              var pre := PreInvoke(m.world.interceptor, m.world.state, m.world.implementationField, Some(info),
                                   marshalled);
              var preCall := PreInvokeCall(m.world.implementationField, Some(info), marshalled);
              var world := m.world.(interceptor := pre.0, state := pre.1, trace := m.world.trace + [preCall]);
              if pre.2.Failure? then Fault(m.(world := world), pre.2.error)
              else Next(m.(arrays := m.arrays[address := Overwritten(m.arrays[address], pre.2.value)],
                           world := world))
  {
    RunCallHook(target, PreInvokeHook, m);
    CallPreInvoke(target, info, m, address);
  }

  /** The `Invoke` hook called on the operands the emitted code loads. */
  lemma CallInvoke<S>(target: Target<S>, info: MethodDesc, m: Machine<S>, address: nat)
    requires m.stack == [] && |m.locals| == 4
    requires m.locals[MethodInfoLocal] == MethodRef(info) && m.locals[ArgumentsLocal] == ArrayRef(address)
    requires address < |m.arrays| && m.world.interceptorField.InterceptorRef?
    ensures CallvirtHook(target, m.(stack := HookOperands(m, InvokeHook)), InvokeHook) ==
              var arguments := Some(m.arrays[address]);
              var inv := Invoke(target, m.world.interceptor, m.world.state, m.world.implementationField, Some(info), arguments);
              var invokeCall := InvokeCall(m.world.implementationField, Some(info), arguments);
              var called := m.(arrays := m.arrays[address := Overwritten(m.arrays[address], inv.3)],
                               world := m.world.(interceptor := inv.0, state := inv.1, trace := m.world.trace + [invokeCall]));
              if inv.2.Success? then Next(Push(called, inv.2.value)) else Fault(called, inv.2.error)
  {
    assert HookOperands(m, InvokeHook)[..0] == [];
  }

  /** `Invoke`: a returned object is left on the stack, an exception ends the call. */
  lemma RunInvoke<S>(target: Target<S>, info: MethodDesc, m: Machine<S>, address: nat)
    requires m.stack == [] && |m.locals| == 4 && 0 < |m.args| && m.args[0] == ThisRef
    requires m.locals[MethodInfoLocal] == MethodRef(info) && m.locals[ArgumentsLocal] == ArrayRef(address)
    requires address < |m.arrays| && m.world.interceptorField.InterceptorRef?
    ensures Run(target, CallHook(InvokeHook), m) ==
              var arguments := Some(m.arrays[address]);
              var inv := Invoke(target, m.world.interceptor, m.world.state, m.world.implementationField, Some(info), arguments);
              var invokeCall := InvokeCall(m.world.implementationField, Some(info), arguments);
              var called := m.(arrays := m.arrays[address := Overwritten(m.arrays[address], inv.3)],
                               world := m.world.(interceptor := inv.0, state := inv.1, trace := m.world.trace + [invokeCall]));
              if inv.2.Success? then Next(Push(called, inv.2.value)) else Fault(called, inv.2.error)
  {
    RunCallHook(target, InvokeHook, m);
    CallInvoke(target, info, m, address);
  }

  /** From the `Invoke` hook call to the return. */
  lemma RunInvokeAndPostInvoke<S>(target: Target<S>, returnType: ClrType, info: MethodDesc, m: Machine<S>,
                                  address: nat)
    requires ReadyToDispatch(m, info, address) && m.world.interceptorField.InterceptorRef? && m.stack == []
    ensures Observe(Run(target, CallHook(InvokeHook) + (HandleReturnType(returnType) + (CallHook(PostInvokeHook)
                                + (PrepareReturnValue(returnType) + [Ret]))), m)) ==
              InvokeAndPostInvoke(target, returnType, info, m.arrays[address], m.world)
  {
    var afterInvoke := HandleReturnType(returnType) + (CallHook(PostInvokeHook) + (PrepareReturnValue(returnType) + [Ret]));
    RunAppend(target, CallHook(InvokeHook), afterInvoke, m);
    RunInvoke(target, info, m, address);
    var arguments := Some(m.arrays[address]);
    var inv := Invoke(target, m.world.interceptor, m.world.state, m.world.implementationField, Some(info), arguments);
    if inv.2.Success? {
      var invokeCall := InvokeCall(m.world.implementationField, Some(info), arguments);
      var called := m.(arrays := m.arrays[address := Overwritten(m.arrays[address], inv.3)],
                       world := m.world.(interceptor := inv.0, state := inv.1, trace := m.world.trace + [invokeCall]));
      RunAfterInvoke(target, returnType, info, Push(called, inv.2.value), address);
    }
  }

  lemma RunDispatchCode<S>(target: Target<S>, returnType: ClrType, info: MethodDesc, m: Machine<S>, address: nat)
    requires ReadyToDispatch(m, info, address) && m.stack == []
    ensures Observe(Run(target, DispatchCode(returnType), m)) ==
              InterceptedCall(target, returnType, info, m.arrays[address], m.world)
  {
    var afterPre := CallHook(InvokeHook) + (HandleReturnType(returnType) + (CallHook(PostInvokeHook)
                    + (PrepareReturnValue(returnType) + [Ret])));
    RunAppend(target, CallHook(PreInvokeHook), afterPre, m);
    if m.world.interceptorField.Null? {
      RunCallHook(target, PreInvokeHook, m);
    } else {
      RunPreInvoke(target, info, m, address);
      var marshalled := Some(m.arrays[address]);
      var pre := PreInvoke(m.world.interceptor, m.world.state, m.world.implementationField, Some(info), marshalled);
      if pre.2.Success? {
        var preCall := PreInvokeCall(m.world.implementationField, Some(info), marshalled);
        var m1 := m.(arrays := m.arrays[address := Overwritten(m.arrays[address], pre.2.value)],
                     world := m.world.(interceptor := pre.0, state := pre.1, trace := m.world.trace + [preCall]));
        RunInvokeAndPostInvoke(target, returnType, info, m1, address);
      }
    }
  }

  /** Allocating the argument array and filling it with the marshalled arguments. */
  lemma RunMarshalArguments<S>(target: Target<S>, parameters: seq<ClrType>, xs: seq<Value>, m: Machine<S>)
    requires WellTyped(parameters, xs) && m.stack == [] && |m.locals| == 4 && m.args == [ThisRef] + xs
    ensures Run(target, CreateArguments(|parameters|) + PopulateArguments(parameters, |parameters|), m) ==
              Next(m.(locals := m.locals[ArgumentsLocal := ArrayRef(|m.arrays|)],
                      arrays := m.arrays + [Marshal(parameters, xs)]))
  {
    var count := |parameters|;
    RunAppend(target, CreateArguments(count), PopulateArguments(parameters, count), m);
    RunCreateArguments(target, count, m);
    var address := |m.arrays|;
    var created := m.(locals := m.locals[ArgumentsLocal := ArrayRef(address)], arrays := m.arrays + [NewArray(count)]);
    RunPopulateArguments(target, parameters, xs, count, created, address);
    assert PartlyMarshalled(parameters, xs, count) == Marshal(parameters, xs);
    assert created.arrays[address := Marshal(parameters, xs)] == m.arrays + [Marshal(parameters, xs)];
  }

  /** The emitted body up to the first hook call: look the method up, then marshal the arguments. */
  lemma RunMethodBody<S>(target: Target<S>, typeIdentifier: string, methodIndex: int,
                         signature: MethodDesc, m: Machine<S>, xs: seq<Value>)
    requires AtEntry(m, xs) && WellTyped(signature.parameters, xs)
    ensures Run(target, MethodBody(typeIdentifier, methodIndex, signature), m) ==
              var lookup := MethodLookup(m.world.cache, typeIdentifier, methodIndex);
              var looked := m.(locals := m.locals[TypeIdentifierLocal := Str(typeIdentifier)], world := m.world.(cache := lookup.0));
              if lookup.1.Failure? then Fault(looked, lookup.1.error)
              else
                var found := looked.(locals := looked.locals[MethodInfoLocal := MethodRef(lookup.1.value)]);
                Run(target, DispatchCode(signature.returnType),
                    found.(locals := found.locals[ArgumentsLocal := ArrayRef(|m.arrays|)],
                           arrays := m.arrays + [Marshal(signature.parameters, xs)]))
  {
    var parameters := signature.parameters;
    var marshalling := CreateArguments(|parameters|) + PopulateArguments(parameters, |parameters|);
    var afterLookup := CreateArguments(|parameters|)
                       + (PopulateArguments(parameters, |parameters|) + DispatchCode(signature.returnType));
    RunAppend(target, LoadMethodInfo(typeIdentifier, methodIndex), afterLookup, m);
    RunLoadMethodInfo(target, typeIdentifier, methodIndex, m);
    var lookup := MethodLookup(m.world.cache, typeIdentifier, methodIndex);
    if lookup.1.Success? {
      var looked := m.(locals := m.locals[TypeIdentifierLocal := Str(typeIdentifier)], world := m.world.(cache := lookup.0));
      var found := looked.(locals := looked.locals[MethodInfoLocal := MethodRef(lookup.1.value)]);
      assert afterLookup == marshalling + DispatchCode(signature.returnType);
      RunAppend(target, marshalling, DispatchCode(signature.returnType), found);
      RunMarshalArguments(target, parameters, xs, found);
    }
  }

  /**
   * The emitted body of a proxy method does what `Pipeline` says: same
   * outcome for the caller, same type cache, same implementation and
   * interceptor states, same hook calls with the same operands.
   */
  lemma EmittedBodyFollowsPipeline<S>(target: Target<S>, typeIdentifier: string, methodIndex: int,
                                      signature: MethodDesc, m: Machine<S>, xs: seq<Value>)
    requires AtEntry(m, xs) && WellTyped(signature.parameters, xs) && InterceptorOrNull(m.world.interceptorField)
    ensures Observe(Run(target, MethodBody(typeIdentifier, methodIndex, signature), m)) ==
              Pipeline(target, typeIdentifier, methodIndex, signature, m.world, xs)
  {
    RunMethodBody(target, typeIdentifier, methodIndex, signature, m, xs);
    var lookup := MethodLookup(m.world.cache, typeIdentifier, methodIndex);
    if lookup.1.Success? {
      var filled := m.(locals := [Str(typeIdentifier), MethodRef(lookup.1.value), ArrayRef(|m.arrays|), Null],
                       arrays := m.arrays + [Marshal(signature.parameters, xs)],
                       world := m.world.(cache := lookup.0));
      assert m.locals[TypeIdentifierLocal := Str(typeIdentifier)][MethodInfoLocal := MethodRef(lookup.1.value)]
                     [ArgumentsLocal := ArrayRef(|m.arrays|)] == filled.locals;
      RunDispatchCode(target, signature.returnType, lookup.1.value, filled, |m.arrays|);
    }
  }
}
