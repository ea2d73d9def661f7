/** The HDRP material inspector block for Shader Graph properties: which parts it
    draws for a `Features` mask, the change detector that triggers a keyword reset,
    the filter that hides properties, and the bit packing of the shadow-matte
    light filter into a 32-bit word.

    The block's one piece of state, the previous property snapshot, is threaded
    through as an immutable `UIBlock`. GUI calls are replaced by what they decide:
    a `DrawPlan` of what gets drawn, and three booleans for the toggles' values. */
module ShaderGraphUIBlock {
  import opened Wrappers
  import opened ShadowMatteFilter

  // ---- Features ----

  /** The `Features` flags enum, as its 32-bit word. */
  type Features = bv32

  const NoFeatures: Features := 0
  const ExposedProperties: Features := 1 << 1
  const DiffusionProfileAsset: Features := 1 << 2
  const ShadowMatte: Features := 1 << 5
  const Unlit: Features := ExposedProperties | ShadowMatte
  /** `~0`: every bit set. */
  const AllFeatures: Features := !0

  predicate Enabled(features: Features, flag: Features)
  {
    features & flag != 0
  }

  /** `Unlit` enables exactly exposed properties and shadow matte; `All` enables every
      flag; `None` enables nothing; a block built without features gets `All` and starts
      without a snapshot. */
  lemma FeatureFlagFacts()
    ensures NoFeatures == 0
    ensures Enabled(Unlit, ExposedProperties) && Enabled(Unlit, ShadowMatte)
    ensures !Enabled(Unlit, DiffusionProfileAsset)
    ensures Unlit & !(ExposedProperties | ShadowMatte) == 0
    ensures forall f: Features :: Enabled(AllFeatures, f) <==> f != 0
    ensures forall f: Features :: !Enabled(NoFeatures, f)
    ensures NewUIBlock().features == AllFeatures
    ensures NewUIBlock().oldProperties.None?
  {
  }

  // ---- Material properties ----

  /** `MaterialProperty.PropType`. */
  datatype PropType = ColorProp | VectorProp | FloatProp | RangeProp | TextureProp | IntProp

  datatype Vector4 = Vector4(x: real, y: real, z: real, w: real)
  datatype Color = Color(r: real, g: real, b: real, a: real)

  /** The eight fields of a material property the change detector compares. Float
      components are reals and compare exactly; a texture is an asset id or null. */
  datatype MaterialProperty = MaterialProperty(
    propType: PropType,
    displayName: string,
    flags: bv32,
    name: string,
    floatValue: real,
    vectorValue: Vector4,
    colorValue: Color,
    textureValue: Option<nat>)

  /** Some compared field differs. */
  predicate Differs(p: MaterialProperty, q: MaterialProperty)
  {
    || p.propType != q.propType
    || p.displayName != q.displayName
    || p.flags != q.flags
    || p.name != q.name
    || p.floatValue != q.floatValue
    || p.vectorValue != q.vectorValue
    || p.colorValue != q.colorValue
    || p.textureValue != q.textureValue
  }

  /** The eight compared fields are the whole snapshot: two properties differ in one
      of them exactly when they are different values. */
  lemma DiffersIsInequality(p: MaterialProperty, q: MaterialProperty)
    ensures Differs(p, q) <==> p != q
  {
  }

  /** The change the detector reports: none without a previous snapshot; otherwise
      a change in length or some index whose properties differ. */
  predicate PropertiesChanged(previous: Option<seq<MaterialProperty>>, current: seq<MaterialProperty>)
  {
    && previous.Some?
    && (|current| != |previous.value|
        || exists i :: 0 <= i < |current| && Differs(current[i], previous.value[i]))
  }

  /** The block's state: its features and the snapshot of the previous draw (null before the first). */
  datatype UIBlock = UIBlock(features: Features, oldProperties: Option<seq<MaterialProperty>>)

  /** The constructor: the given features, `All` by default, and no snapshot yet. */
  function NewUIBlock(features: Features := AllFeatures): UIBlock
  {
    UIBlock(features, None)
  }

  /** `CheckPropertyChanged`: compares the snapshot with the previous one field by
      field, then stores it whatever the outcome. */
  method CheckPropertyChanged(block: UIBlock, properties: seq<MaterialProperty>)
    returns (changed: bool, block': UIBlock)
    ensures changed <==> PropertiesChanged(block.oldProperties, properties)
    ensures block.oldProperties.None? ==> !changed
    ensures block.oldProperties.Some? && |properties| != |block.oldProperties.value| ==> changed
    ensures block' == block.(oldProperties := Some(properties))
  {
    changed := false;
    if block.oldProperties.Some? {
      var previous := block.oldProperties.value;
      if |properties| != |previous| {
        changed := true;
      } else {
        var i := 0;
        while i < |properties|
          invariant 0 <= i <= |properties|
          invariant changed <==> exists j :: 0 <= j < i && Differs(properties[j], previous[j])
        {
          if properties[i].propType != previous[i].propType { changed := true; }
          if properties[i].displayName != previous[i].displayName { changed := true; }
          if properties[i].flags != previous[i].flags { changed := true; }
          if properties[i].name != previous[i].name { changed := true; }
          if properties[i].floatValue != previous[i].floatValue { changed := true; }
          if properties[i].vectorValue != previous[i].vectorValue { changed := true; }
          if properties[i].colorValue != previous[i].colorValue { changed := true; }
          if properties[i].textureValue != previous[i].textureValue { changed := true; }
          i := i + 1;
        }
      }
    }
    block' := block.(oldProperties := Some(properties));
  }

  /** Idempotence: once a snapshot is stored, checking the same snapshot again
      reports no change. */
  lemma SameSnapshotReportsNoChange(properties: seq<MaterialProperty>)
    ensures !PropertiesChanged(Some(properties), properties)
  {
  }

  // ---- Property filter ----

  /** `MaterialProperty.PropFlags.HideInInspector` and `PerRendererData`. */
  const HideInInspector: bv32 := 1
  const PerRendererData: bv32 := 2

  /** Whether `PropertiesDefaultGUI` draws a property: not hidden, not per-renderer,
      and not locked by a variant ancestor unless locked properties are shown. */
  predicate Drawn(p: MaterialProperty, showLockedProperties: bool, lockedNames: set<string>)
  {
    && p.flags & (HideInInspector | PerRendererData) == 0
    && (showLockedProperties || p.name !in lockedNames)
  }

  /** `PropertiesDefaultGUI`: the indices of the properties it draws, in order. */
  function PropertiesDefaultGUI(properties: seq<MaterialProperty>, showLockedProperties: bool, lockedNames: set<string>)
    : (drawn: seq<nat>)
    ensures forall k: nat :: k in drawn <==>
      k < |properties| && Drawn(properties[k], showLockedProperties, lockedNames)
    ensures forall a, b :: 0 <= a < b < |drawn| ==> drawn[a] < drawn[b]
  {
    if |properties| == 0 then []
    else
      var last := |properties| - 1;
      var earlier := PropertiesDefaultGUI(properties[..last], showLockedProperties, lockedNames);
      assert forall k :: 0 <= k < last ==> properties[..last][k] == properties[k];
      assert forall a :: 0 <= a < |earlier| ==> earlier[a] < last by {
        forall a | 0 <= a < |earlier| ensures earlier[a] < last {
          assert earlier[a] in earlier;
        }
      }
      earlier + (if Drawn(properties[last], showLockedProperties, lockedNames) then [last] else [])
  }

  /** A property flagged `HideInInspector` or `PerRendererData` is never drawn. */
  lemma HiddenPropertiesNeverDrawn(properties: seq<MaterialProperty>, showLockedProperties: bool, lockedNames: set<string>, k: nat)
    requires k < |properties|
    requires properties[k].flags & HideInInspector != 0 || properties[k].flags & PerRendererData != 0
    ensures k !in PropertiesDefaultGUI(properties, showLockedProperties, lockedNames)
  {
  }

  // ---- Draw gating ----

  /** A material being edited: whether it has the shadow-matte property, and that
      float's 32-bit pattern. */
  datatype Material = Material(name: string, hasShadowMatteFilter: bool, shadowMatteFilter: Word)

  /** What one `DrawShaderGraphGUI` does: the properties drawn, the materials whose
      keywords are reset, whether the diffusion profile is drawn (which also needs an
      editor that supports diffusion profiles), and whether the shadow matte is drawn. */
  datatype DrawPlan = DrawPlan(
    drawnProperties: seq<nat>,
    keywordResets: seq<Material>,
    drawDiffusionProfile: bool,
    drawShadowMatte: bool)

  /** `DrawShaderGraphGUI`: each part is gated by its feature flag, while the change
      check runs on every draw and a change resets the keywords of every material. */
  method DrawShaderGraphGUI(
    block: UIBlock, properties: seq<MaterialProperty>, materials: seq<Material>,
    showLockedProperties: bool, lockedNames: set<string>, diffusionProfileSupported: bool)
    returns (block': UIBlock, plan: DrawPlan)
    ensures block' == block.(oldProperties := Some(properties))
    ensures Enabled(block.features, ExposedProperties) ==>
      plan.drawnProperties == PropertiesDefaultGUI(properties, showLockedProperties, lockedNames)
    ensures !Enabled(block.features, ExposedProperties) ==> plan.drawnProperties == []
    ensures PropertiesChanged(block.oldProperties, properties) ==> plan.keywordResets == materials
    ensures !PropertiesChanged(block.oldProperties, properties) ==> plan.keywordResets == []
    ensures plan.drawDiffusionProfile <==>
      Enabled(block.features, DiffusionProfileAsset) && diffusionProfileSupported
    ensures plan.drawShadowMatte <==>
      Enabled(block.features, ShadowMatte) && forall m :: m in materials ==> m.hasShadowMatteFilter
  {
    var drawn: seq<nat> := [];
    if block.features & ExposedProperties != 0 {
      drawn := PropertiesDefaultGUI(properties, showLockedProperties, lockedNames);
    }
    var changed;
    changed, block' := CheckPropertyChanged(block, properties);
    var resets: seq<Material> := [];
    if changed {
      var i := 0;
      while i < |materials|
        invariant 0 <= i <= |materials|
        invariant resets == materials[..i]
      {
        resets := resets + [materials[i]];
        i := i + 1;
      }
    }
    var allHave := forall m :: m in materials ==> m.hasShadowMatteFilter;
    plan := DrawPlan(
      drawn, resets,
      block.features & DiffusionProfileAsset != 0 && diffusionProfileSupported,
      block.features & ShadowMatte != 0 && allHave);
  }

  datatype ToggleError = IndexOutOfRange

  /** `DrawShadowMatteToggle`: shows the filter read from the first material and stores
      the packed toggles back into it. With no material, indexing the first one fails. */
  function DrawShadowMatteToggle(materials: seq<Material>, m: LightFeatureMasks, toggles: ShadowFilter)
    : (r: Result<(ShadowFilter, seq<Material>), ToggleError>)
    ensures r.Failure? <==> |materials| == 0
    ensures r.Success? ==>
      && r.value.0 == DecodeShadowFilter(materials[0].shadowMatteFilter, m)
      && |r.value.1| == |materials|
      && r.value.1[0] == materials[0].(shadowMatteFilter := EncodeShadowFilter(toggles, m))
      && forall i :: 1 <= i < |materials| ==> r.value.1[i] == materials[i]
  {
    if |materials| == 0 then Failure(IndexOutOfRange)
    else
      var shown := DecodeShadowFilter(materials[0].shadowMatteFilter, m);
      var word := EncodeShadowFilter(toggles, m);
      Success((shown, materials[0 := materials[0].(shadowMatteFilter := word)]))
  }

  /** After the toggle stores its word, the next draw shows exactly the toggled values. */
  lemma ToggleThenRedrawShowsToggles(materials: seq<Material>, m: LightFeatureMasks, toggles: ShadowFilter, next: ShadowFilter)
    requires Separated(m)
    requires |materials| > 0
    ensures var first := DrawShadowMatteToggle(materials, m, toggles);
      DrawShadowMatteToggle(first.value.1, m, next).value.0 == toggles
  {
    ShadowFilterRoundTrip(toggles, m);
  }
}
