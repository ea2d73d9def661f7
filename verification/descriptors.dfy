/** The descriptor data of the shader-graph registry: keys, function
    descriptors with their parameters, the UI descriptors and UI strings of a
    node, and the view the registry's candidate scan has of a node class. */
module Descriptors {
  import opened Wrappers

  /** Identity of a registered definition: a (name, version) pair, compared structurally. */
  datatype RegistryKey = RegistryKey(name: string, version: int)

  /** The parameter type tags used by the standard nodes (`TYPE.Vector`, `TYPE.Float`, `TYPE.Bool`). */
  datatype ParameterType = Vector | Float | Bool

  /** Direction of a parameter (`GraphType.Usage`). */
  datatype Usage = In | Out

  /** One parameter of a node function; the optional default is a vector of float components. */
  datatype ParameterDescriptor = ParameterDescriptor(
    name: string,
    parameterType: ParameterType,
    usage: Usage,
    defaultValue: Option<seq<real>>)

  /** A node function: version, name, an HLSL body that refers to the parameters by name, and the ordered parameters. */
  datatype FunctionDescriptor = FunctionDescriptor(
    version: int,
    name: string,
    body: string,
    parameters: seq<ParameterDescriptor>)

  datatype ParameterUIDescriptor = ParameterUIDescriptor(name: string, tooltip: string)

  /** The searcher/inspector presentation of a node. */
  datatype NodeUIDescriptor = NodeUIDescriptor(
    version: int,
    name: string,
    displayName: string,
    tooltip: string,
    categories: seq<string>,
    synonyms: seq<string>,
    parameters: seq<ParameterUIDescriptor>)

  /** The keys a node's `UIStrings` dictionary uses; `KeyText` gives their spelling. */
  datatype UIStringKey = Category | DisplayName | Tooltip | NameSynonyms | ParameterTooltip(parameter: string)

  /** A node class as the registry's scan of `IStandardNode` implementors sees it:
      whether it is the marker interface itself, and the static getters it exposes
      (`FunctionDescriptor`, `NodeUIDescriptor`, `UIStrings`, `UIHints`). */
  datatype NodeType = NodeType(
    typeName: string,
    isMarkerInterface: bool,
    functionDescriptor: Option<FunctionDescriptor>,
    uiDescriptor: Option<NodeUIDescriptor>,
    uiStrings: seq<(UIStringKey, string)>,
    uiHints: Option<map<string, real>>)

  /** The `IStandardNode` interface, which the scan also returns and must skip. */
  const StandardNodeInterface: NodeType :=
    NodeType("IStandardNode", true, None, None, [], None)

  const ParameterTooltipPrefix: string := "Parameters."
  const ParameterTooltipSuffix: string := ".Tooltip"

  /** The spelling of each structured key in the node classes' `UIStrings` dictionaries. */
  function KeyText(k: UIStringKey): string
  {
    match k
    case Category => "Category"
    case DisplayName => "DisplayName"
    case Tooltip => "Tooltip"
    case NameSynonyms => "Name.Synonyms"
    case ParameterTooltip(p) => ParameterTooltipPrefix + p + ParameterTooltipSuffix
  }

  /** Distinct structured keys are spelled differently, so the structured view of a
      `UIStrings` dictionary loses nothing. */
  lemma KeyTextInjective(a: UIStringKey, b: UIStringKey)
    ensures KeyText(a) == KeyText(b) ==> a == b
  {
    if KeyText(a) == KeyText(b) && a.ParameterTooltip? && b.ParameterTooltip? {
      var t := KeyText(a);
      var n := |ParameterTooltipPrefix|;
      assert a.parameter == t[n..|t| - |ParameterTooltipSuffix|];
      assert b.parameter == t[n..|t| - |ParameterTooltipSuffix|];
    }
  }

  /** The value stored under `key`, if any (the first entry: a collection
      initializer with a repeated key throws, see `DistinctKeys`). */
  function Lookup(strings: seq<(UIStringKey, string)>, key: UIStringKey): (r: Option<string>)
    ensures r.None? <==> forall i :: 0 <= i < |strings| ==> strings[i].0 != key
    ensures r.Some? ==> exists i :: 0 <= i < |strings| && strings[i] == (key, r.value)
  {
    if |strings| == 0 then None
    else if strings[0].0 == key then Some(strings[0].1)
    else Lookup(strings[1..], key)
  }

  /** No key appears twice (the dictionary initializer would throw otherwise). */
  predicate DistinctKeys(strings: seq<(UIStringKey, string)>)
  {
    forall i, j :: 0 <= i < j < |strings| ==> strings[i].0 != strings[j].0
  }

  function ParameterNames(ps: seq<ParameterDescriptor>): (names: seq<string>)
    ensures |names| == |ps|
    ensures forall i :: 0 <= i < |ps| ==> names[i] == ps[i].name
  {
    seq(|ps|, i requires 0 <= i < |ps| => ps[i].name)
  }

  function UIParameterNames(ps: seq<ParameterUIDescriptor>): (names: seq<string>)
    ensures |names| == |ps|
    ensures forall i :: 0 <= i < |ps| ==> names[i] == ps[i].name
  {
    seq(|ps|, i requires 0 <= i < |ps| => ps[i].name)
  }

  predicate DistinctNames(names: seq<string>)
  {
    forall i, j :: 0 <= i < j < |names| ==> names[i] != names[j]
  }

  /** Every parameter but the last is an input and the last is the output. */
  predicate OutputLast(ps: seq<ParameterDescriptor>)
  {
    && |ps| > 0
    && ps[|ps| - 1].usage == Out
    && forall i :: 0 <= i < |ps| - 1 ==> ps[i].usage == In
  }

  predicate DefaultsOnInputsOnly(ps: seq<ParameterDescriptor>)
  {
    forall i :: 0 <= i < |ps| && ps[i].defaultValue.Some? ==> ps[i].usage == In
  }

  predicate NoDefaults(ps: seq<ParameterDescriptor>)
  {
    forall i :: 0 <= i < |ps| ==> ps[i].defaultValue.None?
  }

  /** The body is an assignment to the named parameter (`Out = …;`). */
  predicate AssignsTo(body: string, name: string)
  {
    name + " = " <= body
  }

  /** The well-formedness the standard node descriptors exhibit: distinct parameter
      names, a single output that comes last, defaults only on inputs, and a body
      that assigns the output. */
  predicate WellFormed(fd: FunctionDescriptor)
  {
    && DistinctNames(ParameterNames(fd.parameters))
    && OutputLast(fd.parameters)
    && DefaultsOnInputsOnly(fd.parameters)
    && AssignsTo(fd.body, fd.parameters[|fd.parameters| - 1].name)
  }

  /** Every `Parameters.X.Tooltip` entry names a declared parameter. */
  predicate TooltipsNameParameters(strings: seq<(UIStringKey, string)>, fd: FunctionDescriptor)
  {
    forall i :: 0 <= i < |strings| && strings[i].0.ParameterTooltip? ==>
      strings[i].0.parameter in ParameterNames(fd.parameters)
  }

  /** `string.Join(sep, parts)`. */
  function Join(parts: seq<string>, sep: string): string
  {
    if |parts| == 0 then ""
    else if |parts| == 1 then parts[0]
    else parts[0] + sep + Join(parts[1..], sep)
  }

  /** The UI descriptor, the function descriptor and the UI strings of a node agree:
      same version and name, the same parameter names in the same order, and each
      UI string equal to the corresponding UI-descriptor text. */
  predicate UIDescriptorAgrees(fd: FunctionDescriptor, ui: NodeUIDescriptor, strings: seq<(UIStringKey, string)>)
  {
    && ui.version == fd.version
    && ui.name == fd.name
    && UIParameterNames(ui.parameters) == ParameterNames(fd.parameters)
    && (forall i :: 0 <= i < |ui.parameters| ==>
          (ParameterTooltip(ui.parameters[i].name), ui.parameters[i].tooltip) in strings)
    && (DisplayName, ui.displayName) in strings
    && (Tooltip, ui.tooltip) in strings
    && (Category, Join(ui.categories, ", ")) in strings
  }

  /** In a dictionary without repeated keys, an entry is what looking its key up yields. */
  lemma {:induction false} LookupFindsEntry(strings: seq<(UIStringKey, string)>, key: UIStringKey, v: string)
    requires DistinctKeys(strings)
    requires (key, v) in strings
    ensures Lookup(strings, key) == Some(v)
  {
    if strings[0] != (key, v) {
      assert strings[0].0 != key by {
        var j :| 0 <= j < |strings| && strings[j] == (key, v);
        assert j > 0;
      }
      assert (key, v) in strings[1..] by {
        var j :| 0 <= j < |strings| && strings[j] == (key, v);
        assert strings[1..][j - 1] == (key, v);
      }
      LookupFindsEntry(strings[1..], key, v);
    }
  }

  /** When the UI strings agree with the UI descriptor and repeat no key, looking up
      each key the node UI reads yields exactly the UI descriptor's text. */
  lemma AgreeingStringsLookUp(fd: FunctionDescriptor, ui: NodeUIDescriptor, strings: seq<(UIStringKey, string)>)
    requires UIDescriptorAgrees(fd, ui, strings)
    requires DistinctKeys(strings)
    ensures forall i :: 0 <= i < |ui.parameters| ==>
      Lookup(strings, ParameterTooltip(ui.parameters[i].name)) == Some(ui.parameters[i].tooltip)
    ensures Lookup(strings, DisplayName) == Some(ui.displayName)
    ensures Lookup(strings, Tooltip) == Some(ui.tooltip)
    ensures Lookup(strings, Category) == Some(Join(ui.categories, ", "))
  {
    forall i | 0 <= i < |ui.parameters|
      ensures Lookup(strings, ParameterTooltip(ui.parameters[i].name)) == Some(ui.parameters[i].tooltip)
    {
      LookupFindsEntry(strings, ParameterTooltip(ui.parameters[i].name), ui.parameters[i].tooltip);
    }
    LookupFindsEntry(strings, DisplayName, ui.displayName);
    LookupFindsEntry(strings, Tooltip, ui.tooltip);
    LookupFindsEntry(strings, Category, Join(ui.categories, ", "));
  }

  /** Number of output parameters. */
  function OutputCount(ps: seq<ParameterDescriptor>): nat
  {
    if |ps| == 0 then 0
    else OutputCount(ps[..|ps| - 1]) + (if ps[|ps| - 1].usage == Out then 1 else 0)
  }

  lemma {:induction false} InputsOnlyHaveNoOutput(ps: seq<ParameterDescriptor>)
    requires forall i :: 0 <= i < |ps| ==> ps[i].usage == In
    ensures OutputCount(ps) == 0
  {
    if |ps| > 0 {
      InputsOnlyHaveNoOutput(ps[..|ps| - 1]);
    }
  }

  /** A parameter list whose output comes last has exactly one output. */
  lemma {:induction false} OutputLastHasSingleOutput(ps: seq<ParameterDescriptor>)
    requires OutputLast(ps)
    ensures OutputCount(ps) == 1
  {
    InputsOnlyHaveNoOutput(ps[..|ps| - 1]);
  }
}
