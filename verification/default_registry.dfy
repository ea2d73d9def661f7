/** Population of the default shader-graph registry: eight fixed registrations in
    a fixed order, then one registration per candidate node class that exposes a
    function descriptor, each followed by an optional notification callback.

    The candidate classes are supplied by the caller in scan order (they stand for
    the reflective scan of loaded assemblies), and the key the registry hands back
    for a descriptor is an abstract function `keyOf` of that descriptor: how the
    registry derives keys and treats duplicates is not part of this model. */
module DefaultRegistry {
  import opened Wrappers
  import opened Descriptors

  /** `RegistryFlags`; both contexts are registered as `Base`. */
  datatype RegistryFlags = Base

  /** The primitive, precision, height and length of a context entry's `GraphType`. */
  datatype Primitive = BoolPrimitive | IntPrimitive | FloatPrimitive
  datatype Precision = Fixed | Half | Single
  datatype Dimension = One | Two | Three | Four

  datatype ContextEntry = ContextEntry(
    fieldName: string,
    primitive: Primitive,
    precision: Precision,
    height: Dimension,
    length: Dimension)

  /** What an `IContextDescriptor` reports: its key, its flags and its entries. */
  datatype ContextDescriptor = ContextDescriptor(
    key: RegistryKey,
    flags: RegistryFlags,
    entries: seq<ContextEntry>)

  const PropertyContext: ContextDescriptor :=
    ContextDescriptor(RegistryKey("MaterialPropertyContext", 1), Base, [])

  const DefaultContext: ContextDescriptor :=
    ContextDescriptor(
      RegistryKey("DefaultContextDescriptor", 1), Base,
      [ContextEntry("BaseColor", FloatPrimitive, Fixed, One, One)])

  /** The built-in definitions registered by type before any node function. */
  datatype Builtin =
    | GraphType
    | GraphTypeAssignment
    | GradientType
    | GradientTypeAssignment
    | GradientNode
    | SampleGradientNode
    | DefaultContextBuiltin
    | PropertyContextBuiltin

  /** The fixed `Register<T>()` calls, in call order. */
  const FixedRegistrations: seq<Builtin> := [
    GraphType, GraphTypeAssignment, GradientType, GradientTypeAssignment,
    GradientNode, SampleGradientNode, DefaultContextBuiltin, PropertyContextBuiltin ]

  /** One `Register` call as the registry receives it. */
  datatype Registration =
    | RegisterBuiltin(builtin: Builtin)
    | RegisterFunction(descriptor: FunctionDescriptor, key: RegistryKey)

  /** The registry, seen as the ordered log of the registrations made on it. */
  datatype Registry = Registry(registrations: seq<Registration>)

  /** One invocation of the `afterNodeRegistered` callback. */
  datatype Callback = Callback(key: RegistryKey, nodeType: NodeType)

  /** A finished build: the registry and the callbacks made while building it, in order. */
  datatype RegistryBuild = RegistryBuild(registry: Registry, callbacks: seq<Callback>)

  /** The scan's filter: a candidate is registered iff it is not the interface itself
      and it has a `FunctionDescriptor` getter. */
  predicate Registers(t: NodeType)
  {
    !t.isMarkerInterface && t.functionDescriptor.Some?
  }

  /** The candidates that get registered, in candidate order. */
  function Eligible(candidates: seq<NodeType>): (r: seq<NodeType>)
    ensures |r| <= |candidates|
    ensures forall t :: t in r <==> t in candidates && Registers(t)
    ensures forall j :: 0 <= j < |r| ==> Registers(r[j])
  {
    if |candidates| == 0 then []
    else
      var last := candidates[|candidates| - 1];
      assert candidates == candidates[..|candidates| - 1] + [last];
      Eligible(candidates[..|candidates| - 1]) + (if Registers(last) then [last] else [])
  }

  /** Filtering distributes over concatenation: registrations follow candidate order. */
  lemma {:induction false} EligibleAppend(a: seq<NodeType>, b: seq<NodeType>)
    ensures Eligible(a + b) == Eligible(a) + Eligible(b)
  {
    if |b| == 0 {
      assert a + b == a;
    } else {
      var b' := b[..|b| - 1];
      assert (a + b)[..|a + b| - 1] == a + b';
      EligibleAppend(a, b');
    }
  }

  /** The `foreach` over the candidates: the function registrations it makes and the
      callbacks it fires (none when the callback is null). */
  function ScanCandidates(candidates: seq<NodeType>, keyOf: FunctionDescriptor -> RegistryKey, hasCallback: bool)
    : (r: (seq<Registration>, seq<Callback>))
    ensures var e := Eligible(candidates);
      && |r.0| == |e|
      && (forall j :: 0 <= j < |e| ==>
            r.0[j] == RegisterFunction(e[j].functionDescriptor.value, keyOf(e[j].functionDescriptor.value)))
      && (hasCallback ==> |r.1| == |e|)
      && (hasCallback ==> forall j :: 0 <= j < |e| ==>
            r.1[j] == Callback(keyOf(e[j].functionDescriptor.value), e[j]))
      && (!hasCallback ==> r.1 == [])
  {
    if |candidates| == 0 then ([], [])
    else
      var rest := ScanCandidates(candidates[..|candidates| - 1], keyOf, hasCallback);
      var t := candidates[|candidates| - 1];
      if Registers(t) then
        var fd := t.functionDescriptor.value;
        var key := keyOf(fd);
        (rest.0 + [RegisterFunction(fd, key)],
         rest.1 + (if hasCallback then [Callback(key, t)] else []))
      else rest
  }

  /** `DefaultRegistry.CreateDefaultRegistry`: the fixed registrations, then the scan. */
  function CreateDefaultRegistry(candidates: seq<NodeType>, keyOf: FunctionDescriptor -> RegistryKey, hasCallback: bool)
    : (r: RegistryBuild)
    ensures |r.registry.registrations| == |FixedRegistrations| + |Eligible(candidates)|
    ensures forall i :: 0 <= i < |FixedRegistrations| ==>
      r.registry.registrations[i] == RegisterBuiltin(FixedRegistrations[i])
    ensures forall k :: |FixedRegistrations| <= k < |r.registry.registrations| ==>
      var t := Eligible(candidates)[k - |FixedRegistrations|];
      r.registry.registrations[k] == RegisterFunction(t.functionDescriptor.value, keyOf(t.functionDescriptor.value))
    ensures hasCallback ==> |r.callbacks| == |Eligible(candidates)|
    ensures hasCallback ==> forall j :: 0 <= j < |r.callbacks| ==>
      var t := Eligible(candidates)[j];
      r.callbacks[j] == Callback(keyOf(t.functionDescriptor.value), t)
    ensures !hasCallback ==> r.callbacks == []
  {
    var scan := ScanCandidates(candidates, keyOf, hasCallback);
    RegistryBuild(Registry(seq(|FixedRegistrations|, i requires 0 <= i < |FixedRegistrations| =>
                                 RegisterBuiltin(FixedRegistrations[i])) + scan.0),
                  scan.1)
  }

  /** Each registered candidate yields exactly one function registration and, with a
      callback, exactly one callback carrying the key that registration returned and
      the candidate's type, in candidate order; other candidates yield neither. */
  lemma RegistrationsMatchCallbacks(candidates: seq<NodeType>, keyOf: FunctionDescriptor -> RegistryKey)
    ensures var build := CreateDefaultRegistry(candidates, keyOf, true);
      var e := Eligible(candidates);
      && |build.callbacks| == |e|
      && forall j :: 0 <= j < |e| ==>
           && build.registry.registrations[|FixedRegistrations| + j]
                == RegisterFunction(e[j].functionDescriptor.value, build.callbacks[j].key)
           && build.callbacks[j].nodeType == e[j]
  {
  }

  /** Whether a callback is given does not change what is registered. */
  lemma NullCallbackSameRegistry(candidates: seq<NodeType>, keyOf: FunctionDescriptor -> RegistryKey)
    ensures CreateDefaultRegistry(candidates, keyOf, false).registry
         == CreateDefaultRegistry(candidates, keyOf, true).registry
    ensures CreateDefaultRegistry(candidates, keyOf, false).callbacks == []
  {
    var a := ScanCandidates(candidates, keyOf, false).0;
    var b := ScanCandidates(candidates, keyOf, true).0;
    assert a == b;
  }

  /** The two context descriptors' keys, flags and entries. */
  lemma ContextFacts()
    ensures PropertyContext.key == RegistryKey("MaterialPropertyContext", 1)
    ensures PropertyContext.flags == Base && PropertyContext.entries == []
    ensures DefaultContext.key == RegistryKey("DefaultContextDescriptor", 1)
    ensures DefaultContext.flags == Base && |DefaultContext.entries| == 1
    ensures DefaultContext.entries[0] == ContextEntry("BaseColor", FloatPrimitive, Fixed, One, One)
  {
  }
}
