/**
 * MetaInfoProvider: the process-wide type cache that maps a contract's type
 * identifier to its type, the lookup of a contract method by (identifier,
 * index) that every generated method performs at call time, and the
 * read-only view over a method's parameters.
 */
module MetaInfo {
  import opened Clr

  /** The key a type is cached under: its assembly-qualified name. */
  function GetTypeIdentifier(t: TypeDesc): (id: string)
    ensures id == t.assemblyQualifiedName
  {
    t.assemblyQualifiedName
  }

  type TypeCache = map<string, TypeDesc>

  /** Every entry of the cache is filed under its own type's identifier. */
  ghost predicate WellKeyed(cache: TypeCache) {
    forall identifier :: identifier in cache ==> GetTypeIdentifier(cache[identifier]) == identifier
  }

  /**
   * The cache after `AddToTypeCache(t)`: the type is added under its
   * identifier unless that identifier is already present.
   */
  function CacheAdd(cache: TypeCache, t: TypeDesc): (r: TypeCache)
    ensures r.Keys == cache.Keys + {GetTypeIdentifier(t)}
    ensures forall identifier :: identifier in cache ==> r[identifier] == cache[identifier]
    ensures GetTypeIdentifier(t) !in cache ==> r[GetTypeIdentifier(t)] == t
    ensures WellKeyed(cache) ==> WellKeyed(r)
  {
    var identifier := GetTypeIdentifier(t);
    if identifier in cache then cache else cache[identifier := t]
  }

  /**
   * `GetMethodInfo(identifier, methodIndex)` on a given cache: the cache
   * afterwards (the lookup re-registers the type it found) and the method,
   * or the exception of the dictionary indexer or of `ElementAt`.
   */
  function MethodLookup(cache: TypeCache, identifier: string, methodIndex: int): (r: (TypeCache, Result<MethodDesc>))
    ensures r.1.Success? <==> identifier in cache && 0 <= methodIndex < |cache[identifier].methods|
    ensures r.1.Success? ==> r.1.value == cache[identifier].methods[methodIndex]
    ensures identifier !in cache ==> r == (cache, Failure(KeyNotFound(identifier)))
    ensures identifier in cache && r.1.Failure? ==> r.1.error == ArgumentOutOfRange(methodIndex)
    ensures WellKeyed(cache) ==> r.0 == cache
  {
    if identifier !in cache then (cache, Failure(KeyNotFound(identifier)))
    else
      var t := cache[identifier];
      var cache' := CacheAdd(cache, t);
      if 0 <= methodIndex < |t.methods| then (cache', Success(t.methods[methodIndex]))
      else (cache', Failure(ArgumentOutOfRange(methodIndex)))
  }

  /** The first registration of an identifier wins; later ones change nothing. */
  lemma FirstRegistrationWins(cache: TypeCache, first: TypeDesc, second: TypeDesc)
    requires GetTypeIdentifier(first) == GetTypeIdentifier(second)
    ensures CacheAdd(CacheAdd(cache, first), second) == CacheAdd(cache, first)
    ensures GetTypeIdentifier(first) !in cache ==>
              CacheAdd(CacheAdd(cache, first), second)[GetTypeIdentifier(second)] == first
  {
  }

  /**
   * Once `GetMethodInfos(t)` has cached `t`, looking up index `i` under
   * `t`'s identifier yields element `i` of `t`'s methods and leaves the
   * cache as it was; any other index is out of range.
   */
  lemma {:induction false} LookupAfterRegistration(cache: TypeCache, t: TypeDesc, methodIndex: int)
    requires WellKeyed(cache)
    requires GetTypeIdentifier(t) in cache ==> cache[GetTypeIdentifier(t)] == t
    ensures var cached := CacheAdd(cache, t);
            MethodLookup(cached, GetTypeIdentifier(t), methodIndex) ==
              (cached, if 0 <= methodIndex < |t.methods| then Success(t.methods[methodIndex])
                       else Failure(ArgumentOutOfRange(methodIndex)))
  {
    var cached := CacheAdd(cache, t);
    assert WellKeyed(cached);
    assert cached[GetTypeIdentifier(t)] == t;
  }

  /** The process-wide cache of `MetaInfoProvider` (a static dictionary in the source). */
  class MetaInfoProvider {
    var typeCache: TypeCache

    ghost predicate Valid()
      reads this
    {
      WellKeyed(typeCache)
    }

    constructor ()
      ensures typeCache == map[] && Valid()
    {
      typeCache := map[];
    }

    method AddToTypeCache(t: TypeDesc)
      modifies this
      ensures typeCache == CacheAdd(old(typeCache), t)
      ensures old(Valid()) ==> Valid()
    {
      var identifier := GetTypeIdentifier(t);
      if identifier !in typeCache {
        typeCache := typeCache[identifier := t];
      }
    }

    /** Caches `t` and returns the methods a proxy must implement. */
    method GetMethodInfos(t: TypeDesc) returns (methods: seq<MethodDesc>)
      modifies this
      ensures typeCache == CacheAdd(old(typeCache), t)
      ensures GetTypeIdentifier(t) in typeCache
      ensures methods == t.methods
    {
      AddToTypeCache(t);
      methods := t.methods;
    }

    method GetFromTypeCache(identifier: string) returns (r: Result<TypeDesc>)
      ensures r.Success? <==> identifier in typeCache
      ensures r.Success? ==> r.value == typeCache[identifier]
      ensures r.Failure? ==> r.error == KeyNotFound(identifier)
    {
      if identifier in typeCache {
        r := Success(typeCache[identifier]);
      } else {
        r := Failure(KeyNotFound(identifier));
      }
    }

    method GetMethodInfo(identifier: string, methodIndex: int) returns (r: Result<MethodDesc>)
      modifies this
      ensures (typeCache, r) == MethodLookup(old(typeCache), identifier, methodIndex)
      ensures old(Valid()) ==> typeCache == old(typeCache)
    {
      var found := GetFromTypeCache(identifier);
      if found.Failure? {
        return Failure(found.error);
      }
      var methods := GetMethodInfos(found.value);
      if 0 <= methodIndex < |methods| {
        r := Success(methods[methodIndex]);
      } else {
        r := Failure(ArgumentOutOfRange(methodIndex));
      }
    }
  }

  /** A read-only view over a method's parameter types. */
  datatype ParameterInfos = ParameterInfos(parameterTypes: seq<ClrType>) {

    /** The length of the parameter array. */
    function ParameterCount(): (n: nat)
      ensures n == |parameterTypes|
    {
      |parameterTypes|
    }

    /** The type of parameter `index`; an index outside the array raises. */
    function GetParameterType(index: int): (r: Result<ClrType>)
      ensures r.Success? <==> 0 <= index < ParameterCount()
      ensures r.Success? ==> r.value == parameterTypes[index]
      ensures r.Failure? ==> r.error == IndexOutOfRange
    {
      if 0 <= index < |parameterTypes| then Success(parameterTypes[index]) else Failure(IndexOutOfRange)
    }

    function IsParameterValueType(index: int): (r: Result<bool>)
      ensures r.Success? <==> 0 <= index < ParameterCount()
      ensures r.Success? ==> r.value == IsValueType(parameterTypes[index])
      ensures r.Failure? ==> r.error == IndexOutOfRange
    {
      match GetParameterType(index)
      case Success(t) => Success(IsValueType(t))
      case Failure(e) => Failure(e)
    }
  }

  /** The parameter view of a method: one entry per parameter, in declaration order. */
  function GetParameterInfos(m: MethodDesc): (p: ParameterInfos)
    ensures p.ParameterCount() == |m.parameters|
    ensures forall i :: 0 <= i < |m.parameters| ==>
              p.GetParameterType(i) == Success(m.parameters[i]) &&
              p.IsParameterValueType(i) == Success(IsValueType(m.parameters[i]))
  {
    ParameterInfos(m.parameters)
  }

  /** The declared return type of a method. */
  function GetReturnType(m: MethodDesc): (t: ClrType)
    ensures t == m.returnType
  {
    m.returnType
  }
}
