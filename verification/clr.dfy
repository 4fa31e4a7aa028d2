/**
 * The slice of the .NET runtime that the proxy pipeline relies on: the types
 * that appear in a contract's signatures, the values that travel through the
 * `object`-typed channel (boxed or not), reflection metadata for methods and
 * interface types, and the exceptions the pipeline can raise.
 */
module Clr {

  datatype Option<+T> = None | Some(value: T)

  /** The CLR types that appear in the signatures of a contract's members. */
  datatype ClrType =
    | Void
    | Int32
    | Boolean
    | String
    | Object
    | GenericParameter(name: string)

  /**
   * `Type.IsValueType`. `System.Void` is a struct, so it counts as a value
   * type too; the generator tests for `void` before it asks this question.
   * An open generic parameter is not a value type.
   */
  predicate IsValueType(t: ClrType) {
    t.Void? || t.Int32? || t.Boolean?
  }

  /** A value of a primitive value type. */
  datatype Prim = IntPrim(i: int) | BoolPrim(b: bool)

  function PrimType(p: Prim): ClrType {
    match p
    case IntPrim(_) => Int32
    case BoolPrim(_) => Boolean
  }

  /** Reflection's description of one method (`MethodInfo`). */
  datatype MethodDesc = MethodDesc(name: string, parameters: seq<ClrType>, returnType: ClrType)

  /** An interface-or-class type as reflection sees it (`Type`). */
  datatype TypeDesc = TypeDesc(
    assemblyQualifiedName: string,
    isInterface: bool,
    methods: seq<MethodDesc>)   // what `Type.GetMethods()` returns, in its order

  /**
   * What an IL evaluation-stack slot, a local, an argument or an array element
   * can hold. Everything except `Raw` is an object reference.
   */
  datatype Value =
    | Null
    | Raw(p: Prim)                 // an unboxed value of a value type
    | Boxed(p: Prim)               // a boxed value type
    | Str(s: string)               // a System.String
    | ArrayRef(address: nat)       // an object[] in the machine's heap
    | MethodRef(info: MethodDesc)    // a MethodInfo object
    | ThisRef                      // the proxy instance itself
    | ImplementationRef            // the wrapped implementation object
    | InterceptorRef               // the interceptor object

  predicate IsObject(v: Value) {
    !v.Raw?
  }

  /** The exceptions that can surface from a proxied call. */
  datatype Error =
    | ArgumentError(message: string)   // System.ArgumentException
    | KeyNotFound(key: string)         // Dictionary indexer on a missing key
    | ArgumentOutOfRange(index: int)   // Enumerable.ElementAt out of range
    | IndexOutOfRange                  // array indexing out of range
    | NullReference                    // a member accessed through null
    | InvalidCast                      // unbox of a value of another type
    | Overflow                         // newarr with a negative length
    | TargetException                  // reflection call of an instance method on null
    | TargetParameterCount             // reflection call with the wrong number of arguments
    | InvalidOperation                 // reflection call of an open generic method
    | TargetInvocation(inner: Error)   // the implementation itself threw `inner`
    | InvalidProgram                   // ill-formed IL

  datatype Result<+T> = Success(value: T) | Failure(error: Error)

  /** `box`: a value-type value becomes an object reference holding it. */
  function BoxValue(v: Value): (r: Value)
    ensures IsObject(r)
    ensures v.Raw? ==> r == Boxed(v.p)
    ensures !v.Raw? ==> r == v
  {
    if v.Raw? then Boxed(v.p) else v
  }

  /**
   * `unbox.any t` for a value type `t`: null raises NullReferenceException,
   * a box of another type raises InvalidCastException.
   */
  function Unbox(t: ClrType, v: Value): (r: Result<Value>)
    ensures r.Success? <==> v.Boxed? && PrimType(v.p) == t
    ensures r.Success? ==> r.value == Raw(v.p) && BoxValue(r.value) == v
    ensures v.Null? ==> r == Failure(NullReference)
    ensures !v.Null? && r.Failure? ==> r.error == InvalidCast
  {
    if v.Null? then Failure(NullReference)
    else if v.Boxed? && PrimType(v.p) == t then Success(Raw(v.p))
    else Failure(InvalidCast)
  }

  /**
   * The implementation itself, as reflection's `MethodInfo.Invoke` reaches
   * it: given the implementation's state, a closed method and arguments
   * already converted to its parameter types, the new state and what the
   * method returned (or the exception it threw).
   */
  type Target<!S> = (S, MethodDesc, seq<Value>) -> (S, Result<Value>)

  /**
   * `MethodInfo.ContainsGenericParameters` for a method of a non-generic
   * type: its signature mentions a type parameter nobody has bound.
   */
  predicate ContainsGenericParameters(m: MethodDesc) {
    m.returnType.GenericParameter? || exists i :: 0 <= i < |m.parameters| && m.parameters[i].GenericParameter?
  }

  /** `default(t)` for the primitive value types. */
  function DefaultPrim(t: ClrType): (p: Prim)
    requires t == Int32 || t == Boolean
    ensures PrimType(p) == t
  {
    if t == Int32 then IntPrim(0) else BoolPrim(false)
  }

  const ConversionMessage: string := "Object cannot be converted to the type of the parameter"

  /**
   * How reflection hands one element of the argument array to a parameter
   * of type `t`: null becomes `default(t)` for a value type and stays null
   * otherwise; a box of the parameter's own type, a string for a string
   * parameter and any object for an `object` parameter pass unchanged;
   * anything else is an ArgumentException.
   */
  function ConvertArgument(t: ClrType, v: Value): (r: Result<Value>)
    ensures r.Success? ==> IsObject(r.value)
    ensures r.Failure? ==> r.error == ArgumentError(ConversionMessage)
    ensures (t == Int32 || t == Boolean) ==>
              (r.Success? <==> v.Null? || (v.Boxed? && PrimType(v.p) == t))
              && (v.Null? ==> r == Success(Boxed(DefaultPrim(t))))
    ensures t == String ==> (r.Success? <==> v.Null? || v.Str?)
    ensures t == Void ==> r.Failure?
    ensures (t.Object? || t.GenericParameter?) ==> (r.Success? <==> IsObject(v))
    ensures r.Success? && !(IsValueType(t) && v.Null?) ==> r.value == v
  {
    if v.Raw? then Failure(ArgumentError(ConversionMessage))
    else match t
      case Int32 =>
        if v.Null? then Success(Boxed(DefaultPrim(t)))
        else if v.Boxed? && PrimType(v.p) == t then Success(v) else Failure(ArgumentError(ConversionMessage))
      case Boolean =>
        if v.Null? then Success(Boxed(DefaultPrim(t)))
        else if v.Boxed? && PrimType(v.p) == t then Success(v) else Failure(ArgumentError(ConversionMessage))
      case String => if v.Null? || v.Str? then Success(v) else Failure(ArgumentError(ConversionMessage))
      case Void => Failure(ArgumentError(ConversionMessage))
      case Object => Success(v)
      case GenericParameter(_) => Success(v)
  }

  /** All arguments converted, left to right; the first refusal is the exception. */
  function ConvertArguments(parameters: seq<ClrType>, arguments: seq<Value>): (r: Result<seq<Value>>)
    requires |parameters| == |arguments|
    ensures r.Success? <==> forall i :: 0 <= i < |arguments| ==> ConvertArgument(parameters[i], arguments[i]).Success?
    ensures r.Success? ==> |r.value| == |arguments|
    ensures r.Success? ==> forall i :: 0 <= i < |arguments| ==> r.value[i] == ConvertArgument(parameters[i], arguments[i]).value
    ensures r.Failure? ==> r.error == ArgumentError(ConversionMessage)
    decreases |arguments|
  {
    if |arguments| == 0 then Success([])
    else
      var first := ConvertArgument(parameters[0], arguments[0]);
      var rest := ConvertArguments(parameters[1..], arguments[1..]);
      if first.Failure? then Failure(first.error)
      else if rest.Failure? then Failure(rest.error)
      else
        assert forall i :: 1 <= i < |arguments| ==>
          ConvertArgument(parameters[i], arguments[i]) == ConvertArgument(parameters[1..][i - 1], arguments[1..][i - 1]);
        Success([first.value] + rest.value)
  }

  /** A null argument array stands for no arguments. */
  function ArgumentList(arguments: Option<seq<Value>>): seq<Value> {
    if arguments.Some? then arguments.value else []
  }

  /** Reflection's checks all pass, so the implementation runs. */
  predicate Invocable(implementation: Value, m: MethodDesc, arguments: Option<seq<Value>>) {
    && !ContainsGenericParameters(m)
    && implementation.ImplementationRef?
    && |ArgumentList(arguments)| == |m.parameters|
    && ConvertArguments(m.parameters, ArgumentList(arguments)).Success?
  }

  /**
   * `MethodInfo.Invoke(implementation, arguments)`. Before the
   * implementation runs, reflection refuses, in this order: an open generic
   * method, a target that is null or not the implementation, an argument
   * count other than the parameter count, and an argument it cannot convert.
   * What the implementation returns comes back as an object (a value-type
   * result is boxed); what it throws comes back wrapped in a
   * TargetInvocationException.
   */
  function MethodInfoInvoke<S>(target: Target<S>, state: S, implementation: Value, m: MethodDesc,
                               arguments: Option<seq<Value>>): (r: (S, Result<Value>))
    ensures ContainsGenericParameters(m) ==> r == (state, Failure(InvalidOperation))
    ensures !ContainsGenericParameters(m) && !implementation.ImplementationRef? ==> r == (state, Failure(TargetException))
    ensures !Invocable(implementation, m, arguments) ==> r.0 == state && r.1.Failure? && !r.1.error.TargetInvocation?
    ensures Invocable(implementation, m, arguments) ==>
              var converted := ConvertArguments(m.parameters, ArgumentList(arguments)).value;
              && r.0 == target(state, m, converted).0
              && r.1.Success? == target(state, m, converted).1.Success?
              && (r.1.Success? ==> r.1.value == BoxValue(target(state, m, converted).1.value))
              && (r.1.Failure? ==> r.1.error == TargetInvocation(target(state, m, converted).1.error))
    ensures r.1.Success? ==> IsObject(r.1.value)
  {
    if ContainsGenericParameters(m) then (state, Failure(InvalidOperation))
    else if !implementation.ImplementationRef? then (state, Failure(TargetException))
    else
      var args := ArgumentList(arguments);
      if |args| != |m.parameters| then (state, Failure(TargetParameterCount))
      else
        var converted := ConvertArguments(m.parameters, args);
        if converted.Failure? then (state, Failure(converted.error))
        else
          var called := target(state, m, converted.value);
          if called.1.Success? then (called.0, Success(BoxValue(called.1.value)))
          else (called.0, Failure(TargetInvocation(called.1.error)))
  }
}
