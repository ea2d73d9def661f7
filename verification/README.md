# Shader Graph, HDRP and VFX editor logic in Dafny

This project models the few pieces of sequential logic in a set of Unity
graphics packages, and proves properties of them:

- **The VFX timeline clip** (`VisualEffectControlPlayableAsset`), in
  `visual_effect_control.dfy`, module `VisualEffectControl`.
  - Its field defaults.
  - `CreatePlayable`: it copies the clip settings into the behaviour and
    flattens the (enter, exit) clip events and the single events into one event
    array with a fixed layout. It also gates the prewarm settings.
- **The HDRP Shader Graph material inspector block** (`ShaderGraphUIBlock`), in
  `shader_graph_ui_block.dfy`.
  - The `Features` flags.
  - The property-snapshot change detector.
  - What `DrawShaderGraphGUI` draws, as a `DrawPlan`.
  - The property filter of `PropertiesDefaultGUI`.
  - `DrawShadowMatteToggle`.
- **The shadow-matte filter word**, in `shadow_matte_filter.dfy`. The toggle
  decodes three light-type toggles from the low 23 bits of a 32-bit word and
  packs them back.
- **The Shader Graph stencil** (`ShaderGraphStencil`), in
  `shader_graph_stencil.dfy`.
  - The type-handle → constant-kind classification.
  - The build-once registry together with the UI-hint table its registration
    callback fills.
  - The hint lookup, which returns an empty table on a miss.
  - The blackboard "create" menu.
- **Default registry population** (`DefaultRegistry.CreateDefaultRegistry`), in
  `default_registry.dfy`.
  - Eight fixed registrations.
  - Then one registration and one callback per candidate node class that
    exposes a function descriptor.
- **The standard node definitions** Add, All, DegreesToRadians, Floor, Sine,
  SquareRoot and SphereMask, in `standard_nodes.dfy`. They are constants of the
  descriptor datatypes in `descriptors.dfy`, with the well-formedness facts
  their literal data has.

`wrappers.dfy` holds `Option` and `Result`.

Representation choices:

- **Mutable state.** The stencil's registry and hint table, and the UI block's
  previous snapshot, are immutable state values. Each operation takes the state
  and returns the new state.
- **GUI calls.** A GUI call is replaced by what it decides:
  - a drawing decision becomes a field of a `DrawPlan`;
  - an `EditorGUILayout.Toggle` becomes a boolean input.
- **The reflective scan.** The registry's scan of loaded assemblies is a
  candidate sequence supplied by the caller, in scan order.
- **Registry keys.** The key `Registry.Register` hands back is an abstract
  function `keyOf` of the descriptor.
- **The shadow-matte word.** A 32-bit word is modelled as the set of positions
  of its one bits. Bitwise and is intersection, bitwise or is union, and a word
  is zero exactly when the set is empty. The constant `0x007FFFFF` is the set
  {0, …, 22}, and the literal `0b10000000` is {7}. That literal is bit 7: it
  lies inside the float's mantissa field, not its exponent field as the
  comment beside it suggests. The model follows the literal.

## Model

| member | source | states |
|---|---|---|
| ShaderGraphUIBlock.FeatureFlagFacts | com.unity.render-pipelines.high-definition/Editor/Material/UIBlocks/ShaderGraphUIBlock.cs:19-52 | `Unlit` enables exposed properties and shadow matte and nothing outside them, so not the diffusion profile. `All` enables every non-zero flag and `None` enables none. A block constructed without features gets `All`, and no block starts with a snapshot. |
| ShaderGraphUIBlock.DiffersIsInequality | com.unity.render-pipelines.high-definition/Editor/Material/UIBlocks/ShaderGraphUIBlock.cs:86-104 | In the model's property record, which holds exactly the eight fields the detector compares, two properties differ in one of those fields exactly when they are different records. |
| ShaderGraphUIBlock.CheckPropertyChanged | com.unity.render-pipelines.high-definition/Editor/Material/UIBlocks/ShaderGraphUIBlock.cs:73-111 | Reports a change iff there is a previous snapshot and either the lengths differ or some index differs in one of the eight fields. It never reports one on the first call. A length change always counts. The argument is stored as the new snapshot whatever the outcome, and the features are untouched. |
| ShaderGraphUIBlock.SameSnapshotReportsNoChange | com.unity.render-pipelines.high-definition/Editor/Material/UIBlocks/ShaderGraphUIBlock.cs:108-110 | Idempotence: once a snapshot is stored, checking the same snapshot again reports no change. |
| ShaderGraphUIBlock.PropertiesDefaultGUI | com.unity.render-pipelines.high-definition/Editor/Material/UIBlocks/ShaderGraphUIBlock.cs:137-154 | An index is drawn iff its property has neither hiding flag and is not locked by a variant ancestor, unless locked properties are shown. Drawn indices come in strictly increasing order. |
| ShaderGraphUIBlock.HiddenPropertiesNeverDrawn | com.unity.render-pipelines.high-definition/Editor/Material/UIBlocks/ShaderGraphUIBlock.cs:141-144 | A property flagged `HideInInspector` or `PerRendererData` is never drawn, whatever the lock settings. |
| ShaderGraphUIBlock.DrawShaderGraphGUI | com.unity.render-pipelines.high-definition/Editor/Material/UIBlocks/ShaderGraphUIBlock.cs:113-131 | The change check runs on every draw whatever the features. Every material's keywords are reset exactly when it reports a change. Exposed properties are drawn only with their flag. The diffusion profile is drawn iff its flag is set and the editor supports diffusion profiles. Shadow matte is drawn iff its flag is set and every material has the property. |
| ShaderGraphUIBlock.DrawShadowMatteToggle | com.unity.render-pipelines.high-definition/Editor/Material/UIBlocks/ShaderGraphUIBlock.cs:159-181 | Fails exactly when there is no material. Otherwise the toggles show the filter decoded from the first material. Only the first material's word is replaced, by the packed toggles, and every other material is unchanged. |
| ShaderGraphUIBlock.ToggleThenRedrawShowsToggles | com.unity.render-pipelines.high-definition/Editor/Material/UIBlocks/ShaderGraphUIBlock.cs:159-181 | Round trip through the material: with separated light masks, the next draw after the toggle stores its word shows exactly the toggled values. |
| ShadowMatteFilter.DecodeShadowFilter | com.unity.render-pipelines.high-definition/Editor/Material/UIBlocks/ShaderGraphUIBlock.cs:164-170 | Reads the three toggles from the mantissa bits of the stored word. Its behaviour is pinned down by `ShadowMatteFilter.ShadowFilterRoundTrip` and `ShadowMatteFilter.DecodeReadsMantissaOnly`. |
| ShadowMatteFilter.EncodeShadowFilter | com.unity.render-pipelines.high-definition/Editor/Material/UIBlocks/ShaderGraphUIBlock.cs:171-176 | Packs the toggles into the word that is stored back. Its behaviour is pinned down by `ShadowMatteFilter.ShadowFilterRoundTrip`, with the word's shape from `ShadowMatteFilter.PackFlags`. |
| ShadowMatteFilter.SelectedMasks | com.unity.render-pipelines.high-definition/Editor/Material/UIBlocks/ShaderGraphUIBlock.cs:171-174 | Only the three light-type masks are ever or-ed into the flag word. |
| ShadowMatteFilter.PackFlags | com.unity.render-pipelines.high-definition/Editor/Material/UIBlocks/ShaderGraphUIBlock.cs:175-176 | The packed word is a 32-bit word. It always has bit 7 set and lies inside the 23-bit mantissa, so bits 23–31 are clear. |
| ShadowMatteFilter.DecodeReadsMantissaOnly | com.unity.render-pipelines.high-definition/Editor/Material/UIBlocks/ShaderGraphUIBlock.cs:164-170 | Decoding depends only on the low 23 bits of the stored word. |
| ShadowMatteFilter.PackedShows | com.unity.render-pipelines.high-definition/Editor/Material/UIBlocks/ShaderGraphUIBlock.cs:175-176 | For a mask inside the mantissa and clear of bit 7, the packed word meets the mask iff the flag word did. Masking and setting the exponent literal neither add nor lose a bit of it. |
| ShadowMatteFilter.OrAllMeets | com.unity.render-pipelines.high-definition/Editor/Material/UIBlocks/ShaderGraphUIBlock.cs:171-174 | If every or-ed mask either is the given mask or is disjoint from it, the or of them meets the given mask iff it was or-ed in. |
| ShadowMatteFilter.SelectedMembership | com.unity.render-pipelines.high-definition/Editor/Material/UIBlocks/ShaderGraphUIBlock.cs:172-174 | With separated masks, each light type's mask is or-ed in iff its toggle is on. |
| ShadowMatteFilter.ToggleSurvives | com.unity.render-pipelines.high-definition/Editor/Material/UIBlocks/ShaderGraphUIBlock.cs:164-176 | One light type's bit reads back from the packed word iff its mask was selected. |
| ShadowMatteFilter.ShadowFilterRoundTrip | com.unity.render-pipelines.high-definition/Editor/Material/UIBlocks/ShaderGraphUIBlock.cs:161-176 | Decoding the packed word returns the three toggles. This needs the light masks to be pairwise disjoint, non-zero, inside the mantissa and clear of bit 7. |
| VisualEffectControl.DefaultAsset | com.unity.visualeffectgraph/Runtime/Utilities/Playables/VisualEffectControl/VisualEffectControlPlayableAsset.cs:27-79 | The field initialisers of a new asset. Its content is pinned down by `VisualEffectControl.DefaultAssetFacts` and `VisualEffectControl.DefaultAssetDoesNotPrewarm`. |
| VisualEffectControl.DefaultAssetFacts | com.unity.visualeffectgraph/Runtime/Utilities/Playables/VisualEffectControl/VisualEffectControlPlayableAsset.cs:17-79 | A new asset declares no clip caps. It has one clip event, enter = Play at time 0 after clip start and exit = Stop at time 0 before clip end, and no single events. Prewarm is disabled with 20 steps, and scrubbing is on. |
| VisualEffectControl.Flattened | com.unity.visualeffectgraph/Runtime/Utilities/Playables/VisualEffectControl/VisualEffectControlPlayableAsset.cs:96-107 | The flattened event array has twice as many slots as clip events plus one per single event. |
| VisualEffectControl.FlattenedClipSlots | com.unity.visualeffectgraph/Runtime/Utilities/Playables/VisualEffectControl/VisualEffectControlPlayableAsset.cs:97-102 | Clip event `i`'s enter lands at slot `2i` and its exit at `2i + 1`. |
| VisualEffectControl.FlattenedSingleSlot | com.unity.visualeffectgraph/Runtime/Utilities/Playables/VisualEffectControl/VisualEffectControlPlayableAsset.cs:104-107 | Single event `j` lands at slot `2·|clipEvents| + j`. |
| VisualEffectControl.FlattenedIndices | com.unity.visualeffectgraph/Runtime/Utilities/Playables/VisualEffectControl/VisualEffectControlPlayableAsset.cs:96-107 | Both slot layouts at once, for every clip event and every single event. |
| VisualEffectControl.ClipEventsOf | com.unity.visualeffectgraph/Runtime/Utilities/Playables/VisualEffectControl/VisualEffectControlPlayableAsset.cs:95-96 | Reading back with `clipEventsCount` yields that many clip events. |
| VisualEffectControl.FlattenedRoundTrip | com.unity.visualeffectgraph/Runtime/Utilities/Playables/VisualEffectControl/VisualEffectControlPlayableAsset.cs:95-107 | Round trip: reading the flattened array back with the clip-event count recovers both the clip events and the single events. |
| VisualEffectControl.FlattenEvents | com.unity.visualeffectgraph/Runtime/Utilities/Playables/VisualEffectControl/VisualEffectControlPlayableAsset.cs:96-107 | The two cursor loops fill the event array with exactly the flattened layout. Each loop step fills the next slot, with the written prefix standing for the array up to the cursor, so every slot is written once, in order. |
| VisualEffectControl.PrewarmOf | com.unity.visualeffectgraph/Runtime/Utilities/Playables/VisualEffectControl/VisualEffectControlPlayableAsset.cs:109-120 | There is a prewarm event iff prewarm is enabled, the clip scrubs and the event name is neither null nor empty. In that case the step count, delta time and event are the settings'. Otherwise they are 0, 0 and null. |
| VisualEffectControl.DefaultAssetDoesNotPrewarm | com.unity.visualeffectgraph/Runtime/Utilities/Playables/VisualEffectControl/VisualEffectControlPlayableAsset.cs:41-47 | A new asset's behaviour does not prewarm, whatever its clip bounds. |
| VisualEffectControl.NoScrubbingNoPrewarm | com.unity.visualeffectgraph/Runtime/Utilities/Playables/VisualEffectControl/VisualEffectControlPlayableAsset.cs:109-114 | Without scrubbing the prewarm settings are cleared, whatever they were. |
| VisualEffectControl.CreatePlayable | com.unity.visualeffectgraph/Runtime/Utilities/Playables/VisualEffectControl/VisualEffectControlPlayableAsset.cs:81-123 | Null event lists become empty lists stored back on the asset, and nothing else on the asset changes. The call fails iff the array length does not fit in an `int`. Otherwise the clip bounds, scrubbing and seed are copied, `clipEventsCount` is the number of clip events, and the array has `2·|clipEvents| + |singleEvents|` slots that read back as both lists. The prewarm fields are the gated settings. |
| ShaderGraphStencil.GetConstantNodeValueType | com.unity.shadergraph/Editor/GraphUI/ShaderGraphStencil.cs:39-62 | A handle maps to a graph-type constant iff it is one of the ten vector/scalar/colour/matrix handles. It maps to a gradient constant iff it is the gradient handle, and to `AnyConstant` iff it is neither. |
| ShaderGraphStencil.SupportedTypesHaveEditors | com.unity.shadergraph/Editor/GraphUI/ShaderGraphStencil.cs:112-124 | Every type the blackboard can create has an inline constant editor: it classifies as something other than `AnyConstant`. |
| ShaderGraphStencil.SupportedTypesAreGraphTypesAndGradient | com.unity.shadergraph/Editor/GraphUI/ShaderGraphStencil.cs:112-124 | The supported blackboard types are exactly the graph-type handles plus the gradient. |
| ShaderGraphStencil.SupportedTypesDistinct | com.unity.shadergraph/Editor/GraphUI/ShaderGraphStencil.cs:112-124 | No type is offered twice. |
| ShaderGraphStencil.ReadUIInfo | com.unity.shadergraph/Editor/GraphUI/ShaderGraphStencil.cs:82-93 | The registration callback: it records a node type's `UIHints` under the key and otherwise leaves the table alone. Its effect over a whole build is pinned down by `ShaderGraphStencil.RecordHints`, `ShaderGraphStencil.RecordedHintsComeFromCallbacks` and `ShaderGraphStencil.LastHintsWin`. |
| ShaderGraphStencil.RecordHints | com.unity.shadergraph/Editor/GraphUI/ShaderGraphStencil.cs:80-93 | Starting from a cleared table, the table has an entry for a key iff some registration callback carrying that key was about a node type that exposes `UIHints`. |
| ShaderGraphStencil.RecordedHintsComeFromCallbacks | com.unity.shadergraph/Editor/GraphUI/ShaderGraphStencil.cs:86-90 | Every recorded table is exactly the `UIHints` of a node type whose callback carried that key. |
| ShaderGraphStencil.LastHintsWin | com.unity.shadergraph/Editor/GraphUI/ShaderGraphStencil.cs:86-90 | Hints that no later callback with hints overwrites under the same key stay in the table. |
| ShaderGraphStencil.GetRegistry | com.unity.shadergraph/Editor/GraphUI/ShaderGraphStencil.cs:76-99 | Once a registry is memoised, the call returns it and leaves the stencil unchanged. Otherwise it returns and memoises the built registry, and its hint table has a key iff a callback with hints carried it. |
| ShaderGraphStencil.GetRegistryBuildsOnce | com.unity.shadergraph/Editor/GraphUI/ShaderGraphStencil.cs:76-99 | Build at most once: a second call, whatever builder it is handed, returns the first call's registry and changes nothing. |
| ShaderGraphStencil.GetUIHints | com.unity.shadergraph/Editor/GraphUI/ShaderGraphStencil.cs:101-104 | The hint lookup: the stored table for a recorded key and an empty table on a miss. Its results after a build are pinned down by `ShaderGraphStencil.HintsAfterDefaultBuild`. |
| ShaderGraphStencil.PopulateBlackboardCreateMenu | com.unity.shadergraph/Editor/GraphUI/ShaderGraphStencil.cs:126-156 | For any section but "Properties" the menu is unchanged. For "Properties" the old items are kept, then exactly one "Create <type name>" item per supported type follows, in array order. |
| ShaderGraphStencil.HintsAfterDefaultBuild | com.unity.shadergraph/Editor/GraphUI/ShaderGraphStencil.cs:76-104 | End to end over the default registry build, when the standard nodes' keys are distinct: a standard node's hints are its `UIHints` if it was a candidate and declares them, and the empty table otherwise. |
| ShaderGraphStencil.AllAndAddHintsAfterDefaultBuild | com.unity.shadergraph/Editor/GraphDeltaRegistry/FunctionDefinitions/StandardDefinitions/Utility/Logic/AllNode.cs:25-28 | After the build, the All node's hints are exactly {"Preview.Exists" ↦ 0}, and the Add node, which declares none, gets the empty table. |
| ShaderGraphStencil.NameVersionKeysDistinct | com.unity.shadergraph/Editor/GraphDeltaRegistry/Registry/DefaultRegistry.cs:74-75 | Keying each descriptor by its (name, version) keeps the seven standard nodes apart. So the distinct-keys hypothesis of the hint scenario can be met. |
| DefaultRegistry.Eligible | com.unity.shadergraph/Editor/GraphDeltaRegistry/Registry/DefaultRegistry.cs:69-73 | A candidate is registered iff it is not the `IStandardNode` interface and exposes a `FunctionDescriptor` getter. |
| DefaultRegistry.EligibleAppend | com.unity.shadergraph/Editor/GraphDeltaRegistry/Registry/DefaultRegistry.cs:69-78 | Filtering distributes over concatenation of candidate lists, so registrations follow candidate order. |
| DefaultRegistry.ScanCandidates | com.unity.shadergraph/Editor/GraphDeltaRegistry/Registry/DefaultRegistry.cs:69-78 | One function registration per registered candidate, in order, with the key `Register` returns. With a callback there is one callback per registration, carrying that key and the candidate type. Without one there are no callbacks. |
| DefaultRegistry.CreateDefaultRegistry | com.unity.shadergraph/Editor/GraphDeltaRegistry/Registry/DefaultRegistry.cs:50-80 | The eight fixed registrations come first, in their listed order. Then come exactly the function registrations of the registered candidates, in candidate order, and one callback each iff a callback is given. |
| DefaultRegistry.RegistrationsMatchCallbacks | com.unity.shadergraph/Editor/GraphDeltaRegistry/Registry/DefaultRegistry.cs:74-76 | Callback `j` carries the key returned by the `j`-th function registration and the type of the candidate that produced it. |
| DefaultRegistry.NullCallbackSameRegistry | com.unity.shadergraph/Editor/GraphDeltaRegistry/Registry/DefaultRegistry.cs:50-80 | A null callback changes nothing about what is registered, and no callback is made. |
| DefaultRegistry.ContextFacts | com.unity.shadergraph/Editor/GraphDeltaRegistry/Registry/DefaultRegistry.cs:12-46 | `PropertyContext` has key ("MaterialPropertyContext", 1), flags `Base` and no entries. `DefaultContext` has key ("DefaultContextDescriptor", 1), flags `Base` and the one entry "BaseColor" of Float/Fixed/One/One. |
| Descriptors.KeyTextInjective | com.unity.shadergraph/Editor/GraphDeltaRegistry/FunctionDefinitions/StandardDefinitions/Math/Vector/SphereMaskNode.cs:53-63 | Distinct structured `UIStrings` keys are spelled differently, so the structured view of the dictionary loses nothing. |
| Descriptors.Lookup | com.unity.shadergraph/Editor/GraphDeltaRegistry/FunctionDefinitions/StandardDefinitions/Math/Vector/SphereMaskNode.cs:53-63 | A dictionary lookup finds nothing iff no entry has the key. A value it finds is stored under that key. |
| Descriptors.LookupFindsEntry | com.unity.shadergraph/Editor/GraphDeltaRegistry/FunctionDefinitions/StandardDefinitions/Math/Vector/SphereMaskNode.cs:53-63 | In a dictionary without repeated keys, each entry is what looking up its key yields. |
| Descriptors.AgreeingStringsLookUp | com.unity.shadergraph/Editor/GraphDeltaRegistry/FunctionDefinitions/StandardDefinitions/Math/Vector/SphereMaskNode.cs:22-63 | When a node's UI strings agree with its UI descriptor and repeat no key, looking up each parameter tooltip, the display name, the tooltip and the category yields the UI descriptor's text. |
| Descriptors.InputsOnlyHaveNoOutput | com.unity.shadergraph/Editor/GraphDeltaRegistry/FunctionDefinitions/StandardDefinitions/Math/Basic/AddNode.cs:13-15 | A parameter list of inputs only has no output parameter. |
| Descriptors.OutputLastHasSingleOutput | com.unity.shadergraph/Editor/GraphDeltaRegistry/FunctionDefinitions/StandardDefinitions/Math/Basic/AddNode.cs:13-15 | A parameter list whose last parameter is the output and all others inputs has exactly one output. |
| StandardNodes.AddNodeFacts | com.unity.shadergraph/Editor/GraphDeltaRegistry/FunctionDefinitions/StandardDefinitions/Math/Basic/AddNode.cs:9-26 | Version 1, name "Add", parameters A, B, Out, all vectors. It is well formed: distinct names, one output, last, and a body assigning `Out`. It has no defaults. Its tooltip keys name declared parameters and its keys are distinct. It has no `UIHints`. |
| StandardNodes.AllNodeFacts | com.unity.shadergraph/Editor/GraphDeltaRegistry/FunctionDefinitions/StandardDefinitions/Utility/Logic/AllNode.cs:9-28 | Version 1, name "All". The parameters are In (vector) then Out (bool), with one output, last. It is well formed and has no defaults. Its tooltip keys name declared parameters. `UIHints` is exactly {"Preview.Exists" ↦ 0}. |
| StandardNodes.DegreesToRadiansNodeFacts | com.unity.shadergraph/Editor/GraphDeltaRegistry/FunctionDefinitions/StandardDefinitions/Math/Trigonometry/DegreesToRadiansNode.cs:9-25 | Version 1, name "DegreesToRadians", In then Out, both vectors. It is well formed with no defaults. Its tooltip keys name declared parameters and its keys are distinct. It has no `UIHints`. |
| StandardNodes.SquareRootNodeFacts | com.unity.shadergraph/Editor/GraphDeltaRegistry/FunctionDefinitions/StandardDefinitions/Math/Basic/SquareRootNode.cs:9-25 | The same facts for "SquareRoot". |
| StandardNodes.FloorNodeFacts | com.unity.shadergraph/Editor/GraphDeltaRegistry/FunctionDefinitions/StandardDefinitions/Math/Round/FloorNode.cs:9-24 | The same facts for "Floor". |
| StandardNodes.SineNodeFacts | com.unity.shadergraph/Editor/GraphDeltaRegistry/FunctionDefinitions/StandardDefinitions/Math/Trigonometry/SineNode.cs:9-23 | The same facts for "Sine". |
| StandardNodes.SphereMaskNodeFacts | com.unity.shadergraph/Editor/GraphDeltaRegistry/FunctionDefinitions/StandardDefinitions/Math/Vector/SphereMaskNode.cs:8-20 | The descriptor's version and name equal the class's static `Version` and `Name`. The parameters are Coords, Center, Radius, Hardness, Out, typed vector, vector, float, float, vector, with one output, last. It is well formed, and defaults appear only on inputs. Center's default has 4 components and Radius's and Hardness's 1 each. |
| StandardNodes.SphereMaskKeysDistinct | com.unity.shadergraph/Editor/GraphDeltaRegistry/FunctionDefinitions/StandardDefinitions/Math/Vector/SphereMaskNode.cs:53-63 | No `UIStrings` key is repeated, so the dictionary initializer does not throw. |
| StandardNodes.SphereMaskTooltipsNameParameters | com.unity.shadergraph/Editor/GraphDeltaRegistry/FunctionDefinitions/StandardDefinitions/Math/Vector/SphereMaskNode.cs:53-63 | Every "Parameters.X.Tooltip" key names a declared parameter. |
| StandardNodes.SphereMaskUIAgrees | com.unity.shadergraph/Editor/GraphDeltaRegistry/FunctionDefinitions/StandardDefinitions/Math/Vector/SphereMaskNode.cs:22-63 | The UI descriptor has the descriptor's version and name and the same parameter names in the same order. Each parameter tooltip string equals the UI descriptor's tooltip. DisplayName and Tooltip match, and Category is the categories joined with ", ". |
| StandardNodes.SphereMaskStringsLookUp | com.unity.shadergraph/Editor/GraphDeltaRegistry/FunctionDefinitions/StandardDefinitions/Math/Vector/SphereMaskNode.cs:22-63 | Looking up SphereMask's display name, tooltip, category ("Math, Vector") and each parameter tooltip in its `UIStrings` dictionary yields the UI descriptor's text. |
| StandardNodes.CatalogueWellFormed | com.unity.shadergraph/Editor/GraphDeltaRegistry/Registry/DefaultRegistry.cs:69-73 | Every standard node is a registrable class, not the marker interface and with a function descriptor. Its descriptor is well formed and its tooltip keys name its parameters. |
| StandardNodes.CatalogueNamesDistinct | com.unity.shadergraph/Editor/GraphDeltaRegistry/Registry/DefaultRegistry.cs:74-75 | The seven standard descriptors have pairwise distinct names. |

## Left out

- IMGUI drawing is not modelled: `MaterialHeaderScope`, the property height and
  control rect, `ShaderProperty`, the diffusion-profile UI and the override
  scopes. The model records which parts are drawn, not how.
- Editor preferences and variant locks become inputs: the
  `showLockedProperties` preference is a boolean, and the set of property names
  a variant ancestor blocks is a set. Whether the editor supports diffusion
  profiles (`DiffusionProfileMaterialUI.IsSupported`) is a boolean. All three
  are engine queries.
- `HDShadowUtils.Asuint`/`Asfloat` and `GetFloat`/`SetFloat` are not modelled.
  The stored float is represented by its 32-bit pattern, and the
  reinterpretation is the identity on the bits.
- The 32-bit words of the shadow-matte filter are sets of bit positions below
  32, not `bv32`. Dafny's bit-vector reasoning could not carry the packing
  round trip within the verifier's resource limits, while sets express the
  same and, or and zero tests the packing uses. The two forms agree bit for bit,
  but the model does not state that correspondence as a lemma.
- `LightFeatureFlags` values are defined outside the code modelled here. The
  three masks are a parameter, and the round trip assumes the separation the
  packing needs (`Separated`).
- Float comparison is modelled as exact equality of reals. NaN and Unity's
  approximate `Vector4`/`Color` equality are not modelled, and float literals
  such as `0.05f`, `0.1f` and `0.8f` are written as the decimal reals 0.05,
  0.1 and 0.8.
- The stored snapshot holds property values. `MaterialProperty` is a
  reference type in the engine, so aliasing between snapshots is not modelled.
- The reflective `AppDomain` scan and `MethodInfo.Invoke` are replaced by the
  caller's candidate sequence.
- `Registry.Register` key derivation and duplicate handling are not modelled:
  the key is the abstract `keyOf`. `ShaderGraphRegistryBuilder` is not part of
  this model. The stencil accepts any registry build, meaning a registry plus
  its callback log. The end-to-end hint lemmas pair the stencil with
  `DefaultRegistry.CreateDefaultRegistry`.
- `ReadUIInfo` assumes the `UIHints` getter returns a table. A getter
  returning null, which would store null, is not modelled.
- `PlayableGraph`/`ScriptPlayable` creation is not modelled. The behaviour is
  returned as a value.
- VisualEffectControl.CreatePlayable: an event-array length that overflows
  `int` is one error. In C# it is an allocation exception or an index
  exception, depending on the wrapped length. Out-of-memory on a large but
  valid length is not modelled.
- `TimeSpace` values beyond the two the defaults use are an opaque
  `OtherTimeSpace`. `VisualEffectAsset.PlayEventName`/`StopEventName` are taken
  as "OnPlay"/"OnStop", which are engine constants.
- The stencil's `Name`, `ToolName`, searcher providers, graph processors and
  blackboard model creation are not modelled: they are engine wiring. The
  menu items' actions (command dispatch, `Debug.Log`) and
  `CanPasteNode`/`CanPasteVariable`, which throw `NotImplementedException`,
  are also left out.
- `UIStrings` dictionaries are sequences of (structured key, value) pairs.
  `KeyText` spells each structured key as the node classes' `UIStrings` keys
  do, and `KeyTextInjective` shows that the structured view loses nothing.
- ShaderGraphUIBlock.FeatureFlagFacts: states the flag algebra on the 32-bit
  enum word. The `ExpandableBit` foldout index is not modelled.
- ShaderGraphUIBlock.DiffersIsInequality: the property record holds only the
  eight fields the change detector compares. An engine `MaterialProperty`
  carries more state, such as a texture's scale and offset. The detector does
  not compare that state, so changing it triggers no keyword reset, and the
  model cannot represent such a change.
- ShaderGraphUIBlock.DrawShaderGraphGUI: with no materials and the shadow-matte
  flag set, the plan draws the shadow-matte toggle, because "every material has
  the property" holds of an empty list. `DrawShadowMatteToggle` then fails
  indexing the first material. The two are not linked by a lemma: a material
  inspector always has at least one target.
