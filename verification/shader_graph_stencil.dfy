/** The shader-graph stencil's decisions: which inline constant editor a port type
    gets, the build-once registry with its per-node UI-hint table, the hint lookup
    with its empty default, and the blackboard "create" menu.

    The stencil's two mutable fields (the registry instance and the hint table) are
    threaded through as an immutable `Stencil` value. The registry builder it calls
    is abstract: any `RegistryBuild`, that is, a registry plus the callbacks the
    builder made while producing it. */
module ShaderGraphStencil {
  import opened Wrappers
  import opened Descriptors
  import DefaultRegistry
  import StandardNodes

  /** The port type handles the stencil distinguishes; every other handle is `OtherHandle`. */
  datatype TypeHandle =
    | Vector2 | Vector3 | Vector4 | FloatHandle | BoolHandle | IntHandle
    | Color | Matrix4 | Matrix3 | Matrix2 | Gradient
    | OtherHandle(identification: string)

  /** The constant-model classes `GetConstantNodeValueType` returns. */
  datatype ConstantKind = GraphTypeConstant | GradientTypeConstant | AnyConstant

  /** The handles whose constants are edited as graph-type constants. */
  const GraphTypeHandles: set<TypeHandle> :=
    {Vector2, Vector3, Vector4, FloatHandle, BoolHandle, IntHandle, Color, Matrix4, Matrix3, Matrix2}

  function GetConstantNodeValueType(h: TypeHandle): (k: ConstantKind)
    ensures k == GraphTypeConstant <==> h in GraphTypeHandles
    ensures k == GradientTypeConstant <==> h == Gradient
    ensures k == AnyConstant <==> h !in GraphTypeHandles && h != Gradient
  {
    if h.Vector2? || h.Vector3? || h.Vector4? || h.FloatHandle? || h.BoolHandle? || h.IntHandle?
       || h.Color? || h.Matrix4? || h.Matrix3? || h.Matrix2?
    then GraphTypeConstant
    else if h.Gradient? then GradientTypeConstant
    else AnyConstant
  }

  /** `k_SupportedBlackboardTypes`, in declaration order. */
  const SupportedBlackboardTypes: seq<TypeHandle> :=
    [IntHandle, FloatHandle, BoolHandle, Vector2, Vector3, Vector4, Color, Matrix4, Matrix3, Matrix2, Gradient]

  /** Every type the blackboard can create has an inline constant editor. */
  lemma SupportedTypesHaveEditors()
    ensures forall i :: 0 <= i < |SupportedBlackboardTypes| ==>
      GetConstantNodeValueType(SupportedBlackboardTypes[i]) != AnyConstant
  {
  }

  /** The supported types are exactly the graph types plus the gradient. */
  lemma SupportedTypesAreGraphTypesAndGradient()
    ensures forall t :: t in SupportedBlackboardTypes <==> t in GraphTypeHandles || t == Gradient
  {
  }

  /** No type is offered twice. */
  lemma SupportedTypesDistinct()
    ensures forall i, j :: 0 <= i < j < |SupportedBlackboardTypes| ==>
      SupportedBlackboardTypes[i] != SupportedBlackboardTypes[j]
  {
  }

  /** The stencil's state: the memoised registry (null until first built) and the
      per-node UI hints recorded while building it. */
  datatype Stencil = Stencil(
    registryInstance: Option<DefaultRegistry.Registry>,
    nodeUIHints: map<RegistryKey, map<string, real>>)

  /** A freshly constructed stencil. */
  const NewStencil: Stencil := Stencil(None, map[])

  /** The registration callback `ReadUIInfo`: a node type that exposes `UIHints`
      records them under the key; any other leaves the table as it is. */
  function ReadUIInfo(hints: map<RegistryKey, map<string, real>>, cb: DefaultRegistry.Callback)
    : map<RegistryKey, map<string, real>>
  {
    if cb.nodeType.uiHints.Some? then hints[cb.key := cb.nodeType.uiHints.value] else hints
  }

  /** The hint table after the callbacks `cbs`, in order, starting from a cleared
      table: it has a key exactly when some callback with hints carried that key. */
  function RecordHints(cbs: seq<DefaultRegistry.Callback>): (r: map<RegistryKey, map<string, real>>)
    ensures forall k :: k in r <==>
      exists i :: 0 <= i < |cbs| && cbs[i].key == k && cbs[i].nodeType.uiHints.Some?
  {
    if |cbs| == 0 then map[]
    else
      var prefix := cbs[..|cbs| - 1];
      assert forall i :: 0 <= i < |prefix| ==> prefix[i] == cbs[i];
      ReadUIInfo(RecordHints(prefix), cbs[|cbs| - 1])
  }

  /** Every recorded table is the `UIHints` of some callback carrying its key. */
  lemma {:induction false} RecordedHintsComeFromCallbacks(cbs: seq<DefaultRegistry.Callback>)
    ensures forall k :: k in RecordHints(cbs) ==>
      exists i :: 0 <= i < |cbs| && cbs[i].key == k && cbs[i].nodeType.uiHints == Some(RecordHints(cbs)[k])
  {
    if |cbs| > 0 {
      var prefix := cbs[..|cbs| - 1];
      var last := |cbs| - 1;
      RecordedHintsComeFromCallbacks(prefix);
      var r := RecordHints(cbs);
      forall k | k in r
        ensures exists i :: 0 <= i < |cbs| && cbs[i].key == k && cbs[i].nodeType.uiHints == Some(r[k])
      {
        if cbs[last].nodeType.uiHints.Some? && k == cbs[last].key {
          assert cbs[last].nodeType.uiHints == Some(r[k]);
        } else {
          var i :| 0 <= i < |prefix| && prefix[i].key == k && prefix[i].nodeType.uiHints == Some(RecordHints(prefix)[k]);
          assert cbs[i] == prefix[i];
        }
      }
    }
  }

  /** Last writer wins: a callback with hints that no later callback with hints
      overwrites leaves its hints in the table. */
  lemma {:induction false} LastHintsWin(cbs: seq<DefaultRegistry.Callback>, i: nat)
    requires i < |cbs| && cbs[i].nodeType.uiHints.Some?
    requires forall j :: i < j < |cbs| && cbs[j].key == cbs[i].key ==> cbs[j].nodeType.uiHints.None?
    ensures cbs[i].key in RecordHints(cbs)
    ensures RecordHints(cbs)[cbs[i].key] == cbs[i].nodeType.uiHints.value
  {
    var prefix := cbs[..|cbs| - 1];
    if i < |cbs| - 1 {
      LastHintsWin(prefix, i);
    }
  }

  /** `GetRegistry`: the first call clears the hint table, runs the builder with
      `ReadUIInfo` as its callback and memoises the result; later calls return the
      memoised registry and leave the stencil unchanged. */
  function GetRegistry(s: Stencil, build: DefaultRegistry.RegistryBuild)
    : (r: (Stencil, DefaultRegistry.Registry))
    ensures s.registryInstance.Some? ==> r == (s, s.registryInstance.value)
    ensures s.registryInstance.None? ==>
      && r.1 == build.registry
      && r.0.registryInstance == Some(build.registry)
      && (forall k :: k in r.0.nodeUIHints <==>
            exists i :: 0 <= i < |build.callbacks| && build.callbacks[i].key == k
                        && build.callbacks[i].nodeType.uiHints.Some?)
  {
    if s.registryInstance.None? then
      var hints := RecordHints(build.callbacks);
      (Stencil(Some(build.registry), hints), build.registry)
    else
      (s, s.registryInstance.value)
  }

  /** Building at most once: a second `GetRegistry`, whatever builder it is handed,
      returns the first call's registry and changes nothing. */
  lemma GetRegistryBuildsOnce(s: Stencil, first: DefaultRegistry.RegistryBuild, second: DefaultRegistry.RegistryBuild)
    ensures var (s1, reg1) := GetRegistry(s, first);
      GetRegistry(s1, second) == (s1, reg1)
  {
  }

  /** `GetUIHints`: the recorded hints for a known key, an empty table otherwise. */
  function GetUIHints(s: Stencil, nodeKey: RegistryKey): map<string, real>
  {
    if nodeKey in s.nodeUIHints then s.nodeUIHints[nodeKey] else map[]
  }

  /** The blackboard's sections; only the first is populated. */
  const Sections: seq<string> := ["Properties", "Keywords"]

  /** A menu entry: its label and the variable type its action creates. */
  datatype MenuItem = MenuItem(name: string, createsType: TypeHandle)

  /** `PopulateBlackboardCreateMenu`: for the "Properties" section, appends one
      "Create <type name>" item per supported type, in order; any other section is
      left alone. `typeName` is the handle's `Name`. */
  method PopulateBlackboardCreateMenu(sectionName: string, menuItems: seq<MenuItem>, typeName: TypeHandle -> string)
    returns (items: seq<MenuItem>)
    ensures sectionName != Sections[0] ==> items == menuItems
    ensures sectionName == Sections[0] ==>
      && |items| == |menuItems| + |SupportedBlackboardTypes|
      && items[..|menuItems|] == menuItems
      && forall i :: 0 <= i < |SupportedBlackboardTypes| ==>
           items[|menuItems| + i] == MenuItem("Create " + typeName(SupportedBlackboardTypes[i]), SupportedBlackboardTypes[i])
  {
    items := menuItems;
    if sectionName != Sections[0] {
      return;
    }
    var n := 0;
    while n < |SupportedBlackboardTypes|
      invariant 0 <= n <= |SupportedBlackboardTypes|
      invariant |items| == |menuItems| + n
      invariant items[..|menuItems|] == menuItems
      invariant forall i :: 0 <= i < n ==>
        items[|menuItems| + i] == MenuItem("Create " + typeName(SupportedBlackboardTypes[i]), SupportedBlackboardTypes[i])
    {
      var t := SupportedBlackboardTypes[n];
      items := items + [MenuItem("Create " + typeName(t), t)];
      n := n + 1;
    }
  }

  /** Keys of the given node types' descriptors are pairwise distinct. */
  predicate KeysDistinct(keyOf: FunctionDescriptor -> RegistryKey, nodes: seq<NodeType>)
  {
    forall i, j :: 0 <= i < |nodes| && 0 <= j < |nodes| ==>
      (nodes[i].functionDescriptor.Some? && nodes[j].functionDescriptor.Some? && nodes[i] != nodes[j]) ==>
        keyOf(nodes[i].functionDescriptor.value) != keyOf(nodes[j].functionDescriptor.value)
  }

  /** End to end: after the stencil builds the default registry over candidates drawn
      from the interface and the standard nodes (with distinct keys), the hints of a
      standard node are its `UIHints` if it was a candidate and has them, and empty
      otherwise. */
  lemma HintsAfterDefaultBuild(candidates: seq<NodeType>, keyOf: FunctionDescriptor -> RegistryKey, n: NodeType)
    requires forall i :: 0 <= i < |candidates| ==>
      candidates[i] == StandardNodeInterface || candidates[i] in StandardNodes.Catalogue
    requires KeysDistinct(keyOf, StandardNodes.Catalogue)
    requires n in StandardNodes.Catalogue
    ensures n.functionDescriptor.Some?
    ensures var s := GetRegistry(NewStencil, DefaultRegistry.CreateDefaultRegistry(candidates, keyOf, true)).0;
      GetUIHints(s, keyOf(n.functionDescriptor.value))
        == if n in candidates && n.uiHints.Some? then n.uiHints.value else map[]
  {
    var build := DefaultRegistry.CreateDefaultRegistry(candidates, keyOf, true);
    var s := GetRegistry(NewStencil, build).0;
    var cbs := build.callbacks;
    var e := DefaultRegistry.Eligible(candidates);
    var key := keyOf(n.functionDescriptor.value);
    assert s.nodeUIHints == RecordHints(cbs);
    RecordedHintsComeFromCallbacks(cbs);
    // Every callback carrying `key` is about `n` itself, which was then a candidate.
    forall i | 0 <= i < |cbs| && cbs[i].key == key
      ensures cbs[i].nodeType == n && n in candidates
    {
      assert cbs[i].nodeType == e[i];
      assert e[i] in candidates;
      assert e[i] in StandardNodes.Catalogue;
    }
    if n in candidates && n.uiHints.Some? {
      assert n in e;
      var i :| 0 <= i < |e| && e[i] == n;
      assert cbs[i].key == key;
    }
  }

  /** The scenario with the `All` and `Add` nodes: All's hints are exactly
      {"Preview.Exists" -> 0}, Add has none. */
  lemma AllAndAddHintsAfterDefaultBuild(candidates: seq<NodeType>, keyOf: FunctionDescriptor -> RegistryKey)
    requires forall i :: 0 <= i < |candidates| ==>
      candidates[i] == StandardNodeInterface || candidates[i] in StandardNodes.Catalogue
    requires KeysDistinct(keyOf, StandardNodes.Catalogue)
    requires StandardNodes.AllNode in candidates
    ensures var s := GetRegistry(NewStencil, DefaultRegistry.CreateDefaultRegistry(candidates, keyOf, true)).0;
      && GetUIHints(s, keyOf(StandardNodes.AllDescriptor)) == map["Preview.Exists" := 0.0]
      && GetUIHints(s, keyOf(StandardNodes.AddDescriptor)) == map[]
  {
    HintsAfterDefaultBuild(candidates, keyOf, StandardNodes.AllNode);
    HintsAfterDefaultBuild(candidates, keyOf, StandardNodes.AddNode);
  }

  /** The natural key of a descriptor: its (name, version) pair. */
  function NameVersionKey(fd: FunctionDescriptor): RegistryKey
  {
    RegistryKey(fd.name, fd.version)
  }

  /** The natural key keeps the standard nodes apart. */
  lemma NameVersionKeysDistinct()
    ensures KeysDistinct(NameVersionKey, StandardNodes.Catalogue)
  {
    StandardNodes.CatalogueNamesDistinct();
  }
}
