/** The standard node definitions: each node class's static getters written out as
    constants, with the well-formedness facts their literal data exhibits. */
module StandardNodes {
  import opened Wrappers
  import opened Descriptors

  // ---- Add ----

  const AddDescriptor: FunctionDescriptor := FunctionDescriptor(
    1, "Add", "Out = A + B;",
    [ ParameterDescriptor("A", Vector, In, None),
      ParameterDescriptor("B", Vector, In, None),
      ParameterDescriptor("Out", Vector, Out, None) ])

  const AddNode: NodeType := NodeType(
    "AddNode", false, Some(AddDescriptor), None,
    [ (Category, "Math, Basic"),
      (NameSynonyms, "Addition, Sum, +, plus"),
      (Tooltip, "returns the sum of A and B"),
      (ParameterTooltip("A"), "Input A"),
      (ParameterTooltip("B"), "Input B"),
      (ParameterTooltip("Out"), "A + B") ],
    None)

  // ---- All ----

  const AllDescriptor: FunctionDescriptor := FunctionDescriptor(
    1, "All", "Out = all(In);",
    [ ParameterDescriptor("In", Vector, In, None),
      ParameterDescriptor("Out", Bool, Out, None) ])

  const AllHints: map<string, real> := map["Preview.Exists" := 0.0]

  const AllNode: NodeType := NodeType(
    "AllNode", false, Some(AllDescriptor), None,
    [ (Tooltip, "returns true if all components of the input In are non-zero"),
      (ParameterTooltip("In"), "input value"),
      (ParameterTooltip("Out"), "true if all input components are non-zero"),
      (Category, "Utility, Logic") ],
    Some(AllHints))

  // ---- DegreesToRadians ----

  const DegreesToRadiansDescriptor: FunctionDescriptor := FunctionDescriptor(
    1, "DegreesToRadians", "Out = radians(In);",
    [ ParameterDescriptor("In", Vector, In, None),
      ParameterDescriptor("Out", Vector, Out, None) ])

  const DegreesToRadiansNode: NodeType := NodeType(
    "DegreesToRadiansNode", false, Some(DegreesToRadiansDescriptor), None,
    [ (NameSynonyms, "degtorad, radians, convert"),
      (Tooltip, "converts degrees to radians"),
      (ParameterTooltip("In"), "a value in degrees"),
      (ParameterTooltip("Out"), "the input converted to radians"),
      (Category, "Math, Trigonometry"),
      (DisplayName, "Degrees To Radians") ],
    None)

  // ---- SquareRoot ----

  const SquareRootDescriptor: FunctionDescriptor := FunctionDescriptor(
    1, "SquareRoot", "Out = sqrt(In);",
    [ ParameterDescriptor("In", Vector, In, None),
      ParameterDescriptor("Out", Vector, Out, None) ])

  const SquareRootNode: NodeType := NodeType(
    "SquareRootNode", false, Some(SquareRootDescriptor), None,
    [ (NameSynonyms, "sqrt"),
      (Tooltip, "returns the square root of the input"),
      (ParameterTooltip("In"), "input value"),
      (ParameterTooltip("Out"), "the square root of the input"),
      (Category, "Math, Basic"),
      (DisplayName, "Square Root") ],
    None)

  // ---- Floor ----

  const FloorDescriptor: FunctionDescriptor := FunctionDescriptor(
    1, "Floor", "Out = floor(In);",
    [ ParameterDescriptor("In", Vector, In, None),
      ParameterDescriptor("Out", Vector, Out, None) ])

  const FloorNode: NodeType := NodeType(
    "FloorNode", false, Some(FloorDescriptor), None,
    [ (NameSynonyms, "down"),
      (Tooltip, "rounds the input down to the nearest whole number"),
      (ParameterTooltip("In"), "input value"),
      (ParameterTooltip("Out"), "the input rounded down to the nearest whole number"),
      (Category, "Math, Round") ],
    None)

  // ---- Sine ----

  const SineDescriptor: FunctionDescriptor := FunctionDescriptor(
    1, "Sine", "Out = sin(In);",
    [ ParameterDescriptor("In", Vector, In, None),
      ParameterDescriptor("Out", Vector, Out, None) ])

  const SineNode: NodeType := NodeType(
    "SineNode", false, Some(SineDescriptor), None,
    [ (Tooltip, "returns the sine of the input"),
      (ParameterTooltip("In"), "input value"),
      (ParameterTooltip("Out"), "the sine of the input"),
      (Category, "Math, Trigonometry") ],
    None)

  // ---- SphereMask ----

  /** The node's static `Name` and `Version`, which its UI descriptor uses. */
  const SphereMaskName: string := "SphereMask"
  const SphereMaskVersion: int := 1

  const SphereMaskDescriptor: FunctionDescriptor := FunctionDescriptor(
    1, "SphereMask",
    // the body literal, in pieces short enough for the verifier to unfold
    "Out = 1 - saturate(" + "(distance(Coords, Center) - Radius)" + " / (1 - Hardness));",
    [ ParameterDescriptor("Coords", Vector, In, None),
      ParameterDescriptor("Center", Vector, In, Some([0.5, 0.5, 0.5, 0.5])),
      ParameterDescriptor("Radius", Float, In, Some([0.1])),
      ParameterDescriptor("Hardness", Float, In, Some([0.8])),
      ParameterDescriptor("Out", Vector, Out, None) ])

  const SphereMaskUIDescriptor: NodeUIDescriptor := NodeUIDescriptor(
    SphereMaskVersion, SphereMaskName,
    "Sphere Mask",
    "creates a spherical volume mask originating at the given position",
    ["Math", "Vector"],
    [],
    [ ParameterUIDescriptor("Coords", "coordinate space input"),
      ParameterUIDescriptor("Center", "coordinates of the sphere origin"),
      ParameterUIDescriptor("Radius", "radius of the sphere"),
      ParameterUIDescriptor("Hardness", "soften falloff of the sphere"),
      ParameterUIDescriptor("Out", "a spherical volume mask originating at the given position") ])

  const SphereMaskNode: NodeType := NodeType(
    "SphereMaskNode", false, Some(SphereMaskDescriptor), Some(SphereMaskUIDescriptor),
    [ (Category, "Math, Vector"),
      (DisplayName, "Sphere Mask"),
      (Tooltip, "creates a spherical volume mask originating at the given position"),
      (ParameterTooltip("Coords"), "coordinate space input"),
      (ParameterTooltip("Center"), "coordinates of the sphere origin"),
      (ParameterTooltip("Radius"), "radius of the sphere"),
      (ParameterTooltip("Hardness"), "soften falloff of the sphere"),
      (ParameterTooltip("Out"), "a spherical volume mask originating at the given position") ],
    None)

  /** The standard nodes of this model, in no particular order (the reflective scan fixes none). */
  const Catalogue: seq<NodeType> :=
    [AddNode, AllNode, DegreesToRadiansNode, FloorNode, SineNode, SquareRootNode, SphereMaskNode]

  /** A unary node `Name(In) -> Out` with no defaults, as DegreesToRadians, SquareRoot, Floor and Sine are. */
  predicate UnaryVectorNode(n: NodeType, name: string)
  {
    && n.functionDescriptor.Some?
    && var fd := n.functionDescriptor.value;
    && fd.version == 1
    && fd.name == name
    && |fd.parameters| == 2
    && fd.parameters[0] == ParameterDescriptor("In", Vector, In, None)
    && fd.parameters[1] == ParameterDescriptor("Out", Vector, Out, None)
    && WellFormed(fd)
    && NoDefaults(fd.parameters)
    && DistinctKeys(n.uiStrings)
    && TooltipsNameParameters(n.uiStrings, fd)
    && n.uiHints.None?
  }

  lemma AddNodeFacts()
    ensures AddDescriptor.version == 1 && AddDescriptor.name == "Add"
    ensures ParameterNames(AddDescriptor.parameters) == ["A", "B", "Out"]
    ensures forall i :: 0 <= i < 3 ==> AddDescriptor.parameters[i].parameterType == Vector
    ensures WellFormed(AddDescriptor) && NoDefaults(AddDescriptor.parameters)
    ensures OutputCount(AddDescriptor.parameters) == 1
    ensures DistinctKeys(AddNode.uiStrings) && TooltipsNameParameters(AddNode.uiStrings, AddDescriptor)
    ensures AddNode.uiHints.None?
  {
    OutputLastHasSingleOutput(AddDescriptor.parameters);
  }

  lemma AllNodeFacts()
    ensures AllDescriptor.version == 1 && AllDescriptor.name == "All"
    ensures ParameterNames(AllDescriptor.parameters) == ["In", "Out"]
    ensures AllDescriptor.parameters[0].parameterType == Vector
    ensures AllDescriptor.parameters[1].parameterType == Bool
    ensures WellFormed(AllDescriptor) && NoDefaults(AllDescriptor.parameters)
    ensures OutputCount(AllDescriptor.parameters) == 1
    ensures DistinctKeys(AllNode.uiStrings) && TooltipsNameParameters(AllNode.uiStrings, AllDescriptor)
    ensures AllNode.uiHints == Some(map["Preview.Exists" := 0.0])
  {
    OutputLastHasSingleOutput(AllDescriptor.parameters);
  }

  lemma DegreesToRadiansNodeFacts()
    ensures UnaryVectorNode(DegreesToRadiansNode, "DegreesToRadians")
  {
  }

  lemma SquareRootNodeFacts()
    ensures UnaryVectorNode(SquareRootNode, "SquareRoot")
  {
  }

  lemma FloorNodeFacts()
    ensures UnaryVectorNode(FloorNode, "Floor")
  {
  }

  lemma SineNodeFacts()
    ensures UnaryVectorNode(SineNode, "Sine")
  {
  }

  lemma SphereMaskNodeFacts()
    ensures SphereMaskDescriptor.version == SphereMaskVersion
    ensures SphereMaskDescriptor.name == SphereMaskName
    ensures ParameterNames(SphereMaskDescriptor.parameters) == ["Coords", "Center", "Radius", "Hardness", "Out"]
    ensures WellFormed(SphereMaskDescriptor)
    ensures OutputCount(SphereMaskDescriptor.parameters) == 1
    ensures var ps := SphereMaskDescriptor.parameters;
      && ps[0].parameterType == Vector && ps[1].parameterType == Vector
      && ps[2].parameterType == Float && ps[3].parameterType == Float
      && ps[4].parameterType == Vector && ps[4].usage == Out
      && ps[0].defaultValue.None? && ps[4].defaultValue.None?
    ensures |SphereMaskDescriptor.parameters[1].defaultValue.value| == 4
    ensures |SphereMaskDescriptor.parameters[2].defaultValue.value| == 1
    ensures |SphereMaskDescriptor.parameters[3].defaultValue.value| == 1
  {
    var ps := SphereMaskDescriptor.parameters;
    assert DistinctNames(ParameterNames(ps));
    assert OutputLast(ps);
    OutputLastHasSingleOutput(ps);
  }

  lemma SphereMaskKeysDistinct()
    ensures DistinctKeys(SphereMaskNode.uiStrings)
  {
  }

  lemma SphereMaskTooltipsNameParameters()
    ensures TooltipsNameParameters(SphereMaskNode.uiStrings, SphereMaskDescriptor)
  {
    var strings := SphereMaskNode.uiStrings;
    var names := ParameterNames(SphereMaskDescriptor.parameters);
    assert names == ["Coords", "Center", "Radius", "Hardness", "Out"];
    forall i | 0 <= i < |strings| && strings[i].0.ParameterTooltip?
      ensures strings[i].0.parameter in names
    {
      assert 3 <= i;
      assert strings[i].0.parameter == names[i - 3];
    }
  }

  /** The UI descriptor, the function descriptor and the `UIStrings` of SphereMask agree. */
  lemma SphereMaskUIAgrees()
    ensures UIDescriptorAgrees(SphereMaskDescriptor, SphereMaskUIDescriptor, SphereMaskNode.uiStrings)
  {
    var strings := SphereMaskNode.uiStrings;
    var ui := SphereMaskUIDescriptor;
    assert UIParameterNames(ui.parameters) == ParameterNames(SphereMaskDescriptor.parameters);
    assert Join(ui.categories, ", ") == "Math, Vector";
    forall i | 0 <= i < |ui.parameters|
      ensures (ParameterTooltip(ui.parameters[i].name), ui.parameters[i].tooltip) in strings
    {
      assert strings[i + 3] == (ParameterTooltip(ui.parameters[i].name), ui.parameters[i].tooltip);
    }
    assert strings[0] == (Category, Join(ui.categories, ", "));
    assert strings[1] == (DisplayName, ui.displayName);
    assert strings[2] == (Tooltip, ui.tooltip);
  }

  /** Looking up SphereMask's display name, tooltip, category and parameter tooltips
      in its `UIStrings` yields the UI descriptor's text. */
  lemma SphereMaskStringsLookUp()
    ensures forall i :: 0 <= i < |SphereMaskUIDescriptor.parameters| ==>
      Lookup(SphereMaskNode.uiStrings, ParameterTooltip(SphereMaskUIDescriptor.parameters[i].name))
        == Some(SphereMaskUIDescriptor.parameters[i].tooltip)
    ensures Lookup(SphereMaskNode.uiStrings, DisplayName) == Some(SphereMaskUIDescriptor.displayName)
    ensures Lookup(SphereMaskNode.uiStrings, Tooltip) == Some(SphereMaskUIDescriptor.tooltip)
    ensures Lookup(SphereMaskNode.uiStrings, Category) == Some("Math, Vector")
  {
    SphereMaskUIAgrees();
    SphereMaskKeysDistinct();
    AgreeingStringsLookUp(SphereMaskDescriptor, SphereMaskUIDescriptor, SphereMaskNode.uiStrings);
    assert Join(SphereMaskUIDescriptor.categories, ", ") == "Math, Vector";
  }

  /** Every catalogue entry is a registrable, well-formed node class. */
  lemma CatalogueWellFormed()
    ensures forall n :: n in Catalogue ==>
      && !n.isMarkerInterface
      && n.functionDescriptor.Some?
      && WellFormed(n.functionDescriptor.value)
      && TooltipsNameParameters(n.uiStrings, n.functionDescriptor.value)
  {
    AddNodeFacts();
    AllNodeFacts();
    DegreesToRadiansNodeFacts();
    FloorNodeFacts();
    SineNodeFacts();
    SquareRootNodeFacts();
    SphereMaskNodeFacts();
    SphereMaskKeysDistinct();
    SphereMaskTooltipsNameParameters();
  }

  /** The (name, version) pairs of the catalogue's descriptors are pairwise distinct. */
  lemma CatalogueNamesDistinct()
    ensures forall i, j :: 0 <= i < j < |Catalogue| ==>
      Catalogue[i].functionDescriptor.value.name != Catalogue[j].functionDescriptor.value.name
  {
  }
}
