/**
 * The IL that the generator emits, and a small stack machine that runs it.
 * A machine is one activation of a generated proxy method (or of its
 * constructor): its stack, locals, arguments and the argument arrays it
 * allocates, together with the world of objects the call can reach.
 */
module Il {
  import opened Clr
  import opened MetaInfo
  import opened Interceptor

  datatype Field = ImplementationField | InterceptorField

  /** The three hooks of an interceptor a generated method calls. */
  datatype Hook = PreInvokeHook | InvokeHook | PostInvokeHook

  /** The opcodes the generator emits (`Ldarg_0` is `Ldarg(0)`). */
  datatype Instr =
    | Ldstr(literal: string)
    | Ldc_I4(constant: int)
    | Ldloc(local: nat)
    | Stloc(local: nat)
    | Ldarg(argument: nat)
    | Ldfld(field: Field)
    | Stfld(field: Field)
    | Newarr_Object
    | Stelem_Ref
    | Box(boxedType: ClrType)
    | Unbox_Any(unboxedType: ClrType)
    | Call_GetMethodInfo      // call MetaInfoProvider.GetMethodInfo(string, int)
    | Callvirt(hook: Hook)    // callvirt IInterceptor.PreInvoke / Invoke / PostInvoke
    | Pop
    | Ret

  /** One call of an interceptor hook, with what the hook received. */
  datatype HookCall =
    | PreInvokeCall(implementation: Value, info: Option<MethodDesc>, arguments: Option<seq<Value>>)
    | InvokeCall(implementation: Value, info: Option<MethodDesc>, arguments: Option<seq<Value>>)
    | PostInvokeCall(implementation: Value, info: Option<MethodDesc>, arguments: Option<seq<Value>>,
                     returnValue: Value)

  /**
   * The objects a proxied call can reach and change, besides its own
   * argument arrays: the proxy's two fields, MetaInfoProvider's type cache,
   * the implementation object and the interceptor object. `trace` records
   * the hooks called so far, in order.
   */
  datatype World<!S> = World(
    implementationField: Value, // the proxy's `_implementation`
    interceptorField: Value,    // the proxy's `_interceptor`
    cache: TypeCache,           // MetaInfoProvider's type cache
    state: S,                   // the implementation object's state
    interceptor: Interceptor<S>, // the interceptor object's state
    trace: seq<HookCall>)

  datatype Machine<!S> = Machine(
    stack: seq<Value>,          // the evaluation stack, top last
    locals: seq<Value>,
    args: seq<Value>,           // the IL arguments; argument 0 is `this`
    arrays: seq<seq<Value>>,    // the object[] arrays allocated so far
    world: World<S>)

  datatype Status = Running | Returned(value: Option<Value>) | Faulted(error: Error)

  datatype Exec<!S> = Exec(status: Status, machine: Machine<S>)

  function Next<S>(m: Machine<S>): Exec<S> {
    Exec(Running, m)
  }

  function Fault<S>(m: Machine<S>, e: Error): Exec<S> {
    Exec(Faulted(e), m)
  }

  function Push<S>(m: Machine<S>, v: Value): Machine<S> {
    m.(stack := m.stack + [v])
  }

  /** A fresh `object[length]`: every element is null. */
  function NewArray(length: nat): seq<Value> {
    seq(length, _ => Null)
  }

  function FieldValue<S>(m: Machine<S>, f: Field): Value {
    match f
    case ImplementationField => m.world.implementationField
    case InterceptorField => m.world.interceptorField
  }

  function SetField<S>(m: Machine<S>, f: Field, v: Value): Machine<S> {
    match f
    case ImplementationField => m.(world := m.world.(implementationField := v))
    case InterceptorField => m.(world := m.world.(interceptorField := v))
  }

  /**
   * An array after a hook that may overwrite its elements: the hook can
   * neither resize nor replace it, so contents of another length, or none,
   * leave it as it was.
   */
  function Overwritten(contents: seq<Value>, after: Option<seq<Value>>): (r: seq<Value>)
    ensures |r| == |contents|
    ensures after == Some(contents) || after.None? ==> r == contents
    ensures after.Some? && |after.value| == |contents| ==> r == after.value
  {
    if after.Some? && |after.value| == |contents| then after.value else contents
  }

  /** The arrays after a hook handed the array `arr` left it holding `after`. */
  function WriteBack(arrays: seq<seq<Value>>, arr: Value, after: Option<seq<Value>>): seq<seq<Value>> {
    if arr.ArrayRef? && arr.address < |arrays| then arrays[arr.address := Overwritten(arrays[arr.address], after)]
    else arrays
  }

  /**
   * `callvirt` of one of the interceptor's hooks. The operands are, bottom to
   * top: the interceptor, the implementation, the MethodInfo, the argument
   * array and, for `PostInvoke` only, the return value. An exception a hook
   * throws ends the call.
   */
  function CallvirtHook<S>(target: Target<S>, m: Machine<S>, hook: Hook): Exec<S> {
    var depth := if hook.PostInvokeHook? then 5 else 4;
    var n := |m.stack|;
    if n < depth then Fault(m, InvalidProgram)
    else
      var b := n - depth;
      var receiver, implementation, info, arr := m.stack[b], m.stack[b + 1], m.stack[b + 2], m.stack[b + 3];
      if !(info.Null? || info.MethodRef?) || !(arr.Null? || (arr.ArrayRef? && arr.address < |m.arrays|)) then
        Fault(m, InvalidProgram)
      else if !(receiver.Null? || receiver.InterceptorRef?) then Fault(m, InvalidProgram)
      else
        var popped := m.(stack := m.stack[..b]);
        if receiver.Null? then Fault(popped, NullReference)
        else
          var mi := if info.MethodRef? then Some(info.info) else None;
          var arguments := if arr.ArrayRef? then Some(m.arrays[arr.address]) else None;
          match hook
          case PreInvokeHook =>
            var pre := PreInvoke(m.world.interceptor, m.world.state, implementation, mi, arguments);
            var world := m.world.(interceptor := pre.0, state := pre.1,
                                  trace := m.world.trace + [PreInvokeCall(implementation, mi, arguments)]);
            if pre.2.Failure? then Fault(popped.(world := world), pre.2.error)
            else Next(popped.(arrays := WriteBack(m.arrays, arr, pre.2.value), world := world))
          case InvokeHook =>
            var inv := Invoke(target, m.world.interceptor, m.world.state, implementation, mi, arguments);
            var called := popped.(arrays := WriteBack(m.arrays, arr, inv.3),
                                  world := m.world.(interceptor := inv.0, state := inv.1,
                                                    trace := m.world.trace + [InvokeCall(implementation, mi, arguments)]));
            if inv.2.Success? then Next(Push(called, inv.2.value)) else Fault(called, inv.2.error)
          case PostInvokeHook =>
            var returnValue := m.stack[b + 4];
            var post := PostInvoke(m.world.interceptor, m.world.state, implementation, mi, arguments, returnValue);
            var posted := popped.(world := m.world.(interceptor := post.0, state := post.1,
                                                    trace := m.world.trace + [PostInvokeCall(implementation, mi, arguments, returnValue)]));
            if post.2.Some? then Fault(posted, post.2.value) else Next(posted)
  }

  /** One instruction. */
  function Step<S>(target: Target<S>, m: Machine<S>, instr: Instr): Exec<S> {
    var n := |m.stack|;
    match instr
    case Ldstr(s) => Next(Push(m, Str(s)))
    case Ldc_I4(k) => Next(Push(m, Raw(IntPrim(k))))
    case Ldloc(i) =>
      if i < |m.locals| then Next(Push(m, m.locals[i])) else Fault(m, InvalidProgram)
    case Stloc(i) =>
      if 0 < n && i < |m.locals| then Next(m.(stack := m.stack[..n - 1], locals := m.locals[i := m.stack[n - 1]]))
      else Fault(m, InvalidProgram)
    case Ldarg(i) =>
      if i < |m.args| then Next(Push(m, m.args[i])) else Fault(m, InvalidProgram)
    case Ldfld(f) =>
      if n == 0 then Fault(m, InvalidProgram)
      else if m.stack[n - 1].ThisRef? then Next(Push(m.(stack := m.stack[..n - 1]), FieldValue(m, f)))
      else if m.stack[n - 1].Null? then Fault(m, NullReference)
      else Fault(m, InvalidProgram)
    case Stfld(f) =>
      if n < 2 then Fault(m, InvalidProgram)
      else if m.stack[n - 2].ThisRef? then Next(SetField(m.(stack := m.stack[..n - 2]), f, m.stack[n - 1]))
      else if m.stack[n - 2].Null? then Fault(m, NullReference)
      else Fault(m, InvalidProgram)
    case Newarr_Object =>
      if 0 < n && m.stack[n - 1].Raw? && m.stack[n - 1].p.IntPrim? then
        var length := m.stack[n - 1].p.i;
        if length < 0 then Fault(m, Overflow)
        else Next(m.(stack := m.stack[..n - 1] + [ArrayRef(|m.arrays|)],
                     arrays := m.arrays + [NewArray(length)]))
      else Fault(m, InvalidProgram)
    case Stelem_Ref =>
      if n < 3 then Fault(m, InvalidProgram)
      else
        var arr, index, v := m.stack[n - 3], m.stack[n - 2], m.stack[n - 1];
        if !(index.Raw? && index.p.IntPrim?) || !IsObject(v) then Fault(m, InvalidProgram)
        else if arr.Null? then Fault(m, NullReference)
        else if !(arr.ArrayRef? && arr.address < |m.arrays|) then Fault(m, InvalidProgram)
        else if !(0 <= index.p.i < |m.arrays[arr.address]|) then Fault(m, IndexOutOfRange)
        else Next(m.(stack := m.stack[..n - 3],
                     arrays := m.arrays[arr.address := m.arrays[arr.address][index.p.i := v]]))
    case Box(t) =>
      if 0 < n && m.stack[n - 1].Raw? && PrimType(m.stack[n - 1].p) == t then
        Next(m.(stack := m.stack[..n - 1] + [BoxValue(m.stack[n - 1])]))
      else Fault(m, InvalidProgram)
    case Unbox_Any(t) =>
      // the generator emits unbox.any for value types only
      if 0 < n && IsValueType(t) && IsObject(m.stack[n - 1]) then
        var u := Unbox(t, m.stack[n - 1]);
        if u.Success? then Next(m.(stack := m.stack[..n - 1] + [u.value])) else Fault(m, u.error)
      else Fault(m, InvalidProgram)
    case Call_GetMethodInfo =>
      if 2 <= n && m.stack[n - 2].Str? && m.stack[n - 1].Raw? && m.stack[n - 1].p.IntPrim? then
        var lookup := MethodLookup(m.world.cache, m.stack[n - 2].s, m.stack[n - 1].p.i);
        var called := m.(stack := m.stack[..n - 2], world := m.world.(cache := lookup.0));
        if lookup.1.Success? then Next(Push(called, MethodRef(lookup.1.value))) else Fault(called, lookup.1.error)
      else Fault(m, InvalidProgram)
    case Callvirt(hook) => CallvirtHook(target, m, hook)
    case Pop =>
      if 0 < n then Next(m.(stack := m.stack[..n - 1])) else Fault(m, InvalidProgram)
    case Ret =>
      if n == 0 then Exec(Returned(None), m)
      else if n == 1 then Exec(Returned(Some(m.stack[0])), m)
      else Fault(m, InvalidProgram)
  }

  /** Straight-line code: runs until a `ret`, a fault or the end of the code. */
  function Run<S>(target: Target<S>, code: seq<Instr>, m: Machine<S>): Exec<S>
    decreases |code|
  {
    if |code| == 0 then Next(m)
    else
      var e := Step(target, m, code[0]);
      if e.status.Running? then Run(target, code[1..], e.machine) else e
  }

  /** Running `a + b` runs `a`, then, if `a` neither returned nor faulted, `b`. */
  lemma {:induction false} RunAppend<S>(target: Target<S>, a: seq<Instr>, b: seq<Instr>, m: Machine<S>)
    ensures Run(target, a + b, m) ==
              var e := Run(target, a, m);
              if e.status.Running? then Run(target, b, e.machine) else e
  {
    if |a| == 0 {
      assert a + b == b;
    } else {
      assert (a + b)[0] == a[0];
      assert (a + b)[1..] == a[1..] + b;
      var e := Step(target, m, a[0]);
      if e.status.Running? {
        RunAppend(target, a[1..], b, e.machine);
      }
    }
  }

  // One instruction at the head of the code, run on the machine shapes the
  // generated bodies produce.

  lemma RunLdstr<S>(target: Target<S>, code: seq<Instr>, m: Machine<S>)
    requires 0 < |code| && code[0].Ldstr?
    ensures Run(target, code, m) == Run(target, code[1..], Push(m, Str(code[0].literal)))
  {
  }

  lemma RunLdc<S>(target: Target<S>, code: seq<Instr>, m: Machine<S>)
    requires 0 < |code| && code[0].Ldc_I4?
    ensures Run(target, code, m) == Run(target, code[1..], Push(m, Raw(IntPrim(code[0].constant))))
  {
  }

  lemma RunLdloc<S>(target: Target<S>, code: seq<Instr>, m: Machine<S>)
    requires 0 < |code| && code[0].Ldloc? && code[0].local < |m.locals|
    ensures Run(target, code, m) == Run(target, code[1..], Push(m, m.locals[code[0].local]))
  {
  }

  lemma RunLdarg<S>(target: Target<S>, code: seq<Instr>, m: Machine<S>)
    requires 0 < |code| && code[0].Ldarg? && code[0].argument < |m.args|
    ensures Run(target, code, m) == Run(target, code[1..], Push(m, m.args[code[0].argument]))
  {
  }

  /** `stloc` of the only value on the stack. */
  lemma RunStloc<S>(target: Target<S>, code: seq<Instr>, m: Machine<S>)
    requires 0 < |code| && code[0].Stloc? && code[0].local < |m.locals| && |m.stack| == 1
    ensures Run(target, code, m) ==
              Run(target, code[1..], m.(stack := [], locals := m.locals[code[0].local := m.stack[0]]))
  {
    assert m.stack[..0] == [];
  }

  /** `ldfld` on `this`, on top of the stack. */
  lemma RunLdfld<S>(target: Target<S>, code: seq<Instr>, m: Machine<S>, below: seq<Value>)
    requires 0 < |code| && code[0].Ldfld? && m.stack == below + [ThisRef]
    ensures Run(target, code, m) == Run(target, code[1..], m.(stack := below + [FieldValue(m, code[0].field)]))
  {
    assert m.stack[..|m.stack| - 1] == below;
  }

  /** `stfld` into `this` of the value above it, the two being all the stack holds. */
  lemma RunStfld<S>(target: Target<S>, code: seq<Instr>, m: Machine<S>, v: Value)
    requires 0 < |code| && code[0].Stfld? && m.stack == [ThisRef, v]
    ensures Run(target, code, m) == Run(target, code[1..], SetField(m.(stack := []), code[0].field, v))
  {
    assert m.stack[..0] == [];
  }

  lemma RunNewarr<S>(target: Target<S>, code: seq<Instr>, m: Machine<S>, length: nat)
    requires 0 < |code| && code[0] == Newarr_Object && m.stack == [Raw(IntPrim(length))]
    ensures Run(target, code, m) ==
              Run(target, code[1..], m.(stack := [ArrayRef(|m.arrays|)], arrays := m.arrays + [NewArray(length)]))
  {
    assert m.stack[..0] + [ArrayRef(|m.arrays|)] == [ArrayRef(|m.arrays|)];
  }

  /** `stelem.ref` of an object into an element of an allocated array, the three operands being all the stack holds. */
  lemma RunStelem<S>(target: Target<S>, code: seq<Instr>, m: Machine<S>, address: nat, index: nat, v: Value)
    requires 0 < |code| && code[0] == Stelem_Ref && m.stack == [ArrayRef(address), Raw(IntPrim(index)), v]
    requires IsObject(v) && address < |m.arrays| && index < |m.arrays[address]|
    ensures Run(target, code, m) ==
              Run(target, code[1..], m.(stack := [], arrays := m.arrays[address := m.arrays[address][index := v]]))
  {
    assert m.stack[..0] == [];
  }

  lemma RunBox<S>(target: Target<S>, code: seq<Instr>, m: Machine<S>, below: seq<Value>, p: Prim)
    requires 0 < |code| && code[0] == Box(PrimType(p)) && m.stack == below + [Raw(p)]
    ensures Run(target, code, m) == Run(target, code[1..], m.(stack := below + [Boxed(p)]))
  {
    assert m.stack[..|m.stack| - 1] == below;
  }

  /** `unbox.any` of the only value on the stack, an object. */
  lemma RunUnbox<S>(target: Target<S>, code: seq<Instr>, m: Machine<S>)
    requires 0 < |code| && code[0].Unbox_Any? && IsValueType(code[0].unboxedType)
    requires |m.stack| == 1 && IsObject(m.stack[0])
    ensures Run(target, code, m) ==
              var u := Unbox(code[0].unboxedType, m.stack[0]);
              if u.Success? then Run(target, code[1..], m.(stack := [u.value])) else Fault(m, u.error)
  {
    assert m.stack[..0] == [];
  }

  lemma RunCallGetMethodInfo<S>(target: Target<S>, code: seq<Instr>, m: Machine<S>,
                                typeIdentifier: string, methodIndex: int)
    requires 0 < |code| && code[0] == Call_GetMethodInfo
    requires |m.stack| == 2 && m.stack[0] == Str(typeIdentifier) && m.stack[1] == Raw(IntPrim(methodIndex))
    ensures Run(target, code, m) ==
              var lookup := MethodLookup(m.world.cache, typeIdentifier, methodIndex);
              var looked := m.(stack := [], world := m.world.(cache := lookup.0));
              if lookup.1.Success? then Run(target, code[1..], Push(looked, MethodRef(lookup.1.value)))
              else Fault(looked, lookup.1.error)
  {
    assert m.stack[..0] == [];
  }

  lemma RunCallvirt<S>(target: Target<S>, code: seq<Instr>, m: Machine<S>, hook: Hook)
    requires 0 < |code| && code[0] == Callvirt(hook)
    ensures Run(target, code, m) ==
              var e := CallvirtHook(target, m, hook);
              if e.status.Running? then Run(target, code[1..], e.machine) else e
  {
  }

  /** `pop` of the only value on the stack. */
  lemma RunPop<S>(target: Target<S>, code: seq<Instr>, m: Machine<S>)
    requires 0 < |code| && code[0] == Pop && |m.stack| == 1
    ensures Run(target, code, m) == Run(target, code[1..], m.(stack := []))
  {
    assert m.stack[..0] == [];
  }

  /** `ret` with nothing or with the return value on the stack. */
  lemma RunRet<S>(target: Target<S>, code: seq<Instr>, m: Machine<S>)
    requires 0 < |code| && code[0] == Ret && |m.stack| <= 1
    ensures Run(target, code, m) == Exec(Returned(if m.stack == [] then None else Some(m.stack[0])), m)
  {
  }
}
