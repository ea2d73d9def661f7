/** The shadow matte filter word of an unlit material: which light types' shadows
    the matte receives, packed as light-feature masks in the low (mantissa) bits of
    a 32-bit word. A word is modelled by the set of positions of its one bits
    (bit 0 is the least significant), so `&` is intersection, `|` is union and a
    word is zero when the set is empty. The word is stored in a float material
    property; the bit reinterpretation between the float and the word is the
    identity on the bits and is not modelled. */
module ShadowMatteFilter {
  /** A 32-bit word, as the set of positions of its one bits. */
  type Word = w: set<nat> | forall b :: b in w ==> b < 32

  /** The literal `0b10000000` that the packing or-s in as the exponent: bit 7, which
      lies inside the mantissa field rather than the float's exponent field. */
  const ShadowMatteExponent: Word := {7}

  /** `0x007FFFFF`: the 23 low bits that carry the filter. */
  const ShadowMatteMantissa: Word := set b: nat | b < 23

  /** The `LightFeatureFlags` masks for punctual, directional and area lights. */
  datatype LightFeatureMasks = LightFeatureMasks(punctual: Word, directional: Word, area: Word)

  /** A mask the packing can carry: non-zero, inside the mantissa, clear of the exponent bit. */
  predicate Fits(mask: Word)
  {
    mask != {} && mask <= ShadowMatteMantissa && 7 !in mask
  }

  /** Masks the packing can carry, pairwise disjoint. */
  predicate Separated(m: LightFeatureMasks)
  {
    && Fits(m.punctual) && Fits(m.directional) && Fits(m.area)
    && m.punctual !! m.directional
    && m.punctual !! m.area
    && m.directional !! m.area
  }

  /** The three toggles: point/spot, directional and area shadows. */
  datatype ShadowFilter = ShadowFilter(point: bool, directional: bool, area: bool)

  /** Whether the filter bits of a stored word include any bit of `mask`. */
  predicate Shows(word: Word, mask: Word)
  {
    word * ShadowMatteMantissa * mask != {}
  }

  /** Reads the toggles' initial state from the stored word. */
  function DecodeShadowFilter(word: Word, m: LightFeatureMasks): ShadowFilter
  {
    ShadowFilter(Shows(word, m.punctual), Shows(word, m.directional), Shows(word, m.area))
  }

  /** The masks of the toggles that are on, in toggle order. A toggle that is off
      or-s in `0`, which leaves the flag word as it was, so it contributes nothing. */
  function SelectedMasks(f: ShadowFilter, m: LightFeatureMasks): (r: seq<Word>)
    ensures forall i :: 0 <= i < |r| ==> r[i] == m.punctual || r[i] == m.directional || r[i] == m.area
  {
    (if f.point then [m.punctual] else [])
    + (if f.directional then [m.directional] else [])
    + (if f.area then [m.area] else [])
  }

  /** The flag word built from an empty word by or-ing in each mask in turn. */
  function OrAll(masks: seq<Word>): Word
  {
    if |masks| == 0 then {}
    else OrAll(masks[..|masks| - 1]) + masks[|masks| - 1]
  }

  /** Keeps the filter bits of a flag word and sets the exponent bit. */
  function PackFlags(flags: Word): (word: Word)
    ensures 7 in word
    ensures word <= ShadowMatteMantissa
  {
    (flags * ShadowMatteMantissa) + ShadowMatteExponent
  }

  /** Packs the toggles' values into the word that is stored back. */
  function EncodeShadowFilter(f: ShadowFilter, m: LightFeatureMasks): Word
  {
    PackFlags(OrAll(SelectedMasks(f, m)))
  }

  /** Decoding ignores the nine high bits of the word. */
  lemma DecodeReadsMantissaOnly(word: Word, m: LightFeatureMasks)
    ensures DecodeShadowFilter(word, m) == DecodeShadowFilter(word * ShadowMatteMantissa, m)
  {
    assert word * ShadowMatteMantissa * ShadowMatteMantissa == word * ShadowMatteMantissa;
  }

  /** Packing neither adds nor loses any bit of a mask that fits: the exponent bit
      lies outside it and the mantissa covers it. */
  lemma PackedShows(flags: Word, mask: Word)
    requires Fits(mask)
    ensures Shows(PackFlags(flags), mask) <==> flags * mask != {}
  {
    assert PackFlags(flags) * ShadowMatteMantissa * mask == flags * mask;
  }

  /** When every mask in the list either is `mask` or misses it entirely, the or of
      the list meets `mask` exactly when `mask` is in the list. */
  lemma {:induction false} OrAllMeets(masks: seq<Word>, mask: Word)
    requires mask != {}
    requires forall i :: 0 <= i < |masks| ==> masks[i] == mask || masks[i] !! mask
    ensures OrAll(masks) * mask != {} <==> mask in masks
  {
    if |masks| > 0 {
      var init := masks[..|masks| - 1];
      var last := masks[|masks| - 1];
      assert masks == init + [last];
      OrAllMeets(init, mask);
      assert (OrAll(init) + last) * mask == OrAll(init) * mask + last * mask;
    }
  }

  /** Each toggle's mask is among the selected masks exactly when the toggle is on. */
  lemma SelectedMembership(f: ShadowFilter, m: LightFeatureMasks)
    requires Separated(m)
    ensures m.punctual in SelectedMasks(f, m) <==> f.point
    ensures m.directional in SelectedMasks(f, m) <==> f.directional
    ensures m.area in SelectedMasks(f, m) <==> f.area
  {
    var p :| p in m.punctual;
    var d :| d in m.directional;
    assert m.punctual != m.directional && m.punctual != m.area && m.directional != m.area by {
      assert p !in m.directional && p !in m.area && d !in m.area;
    }
  }

  /** One toggle survives packing and decoding. */
  lemma ToggleSurvives(f: ShadowFilter, m: LightFeatureMasks, mask: Word)
    requires Separated(m)
    requires mask == m.punctual || mask == m.directional || mask == m.area
    ensures Shows(EncodeShadowFilter(f, m), mask) <==> mask in SelectedMasks(f, m)
  {
    var selected := SelectedMasks(f, m);
    PackedShows(OrAll(selected), mask);
    OrAllMeets(selected, mask);
  }

  /** With separated masks, decoding the packed word gives back the three toggles. */
  lemma ShadowFilterRoundTrip(f: ShadowFilter, m: LightFeatureMasks)
    requires Separated(m)
    ensures DecodeShadowFilter(EncodeShadowFilter(f, m), m) == f
  {
    SelectedMembership(f, m);
    ToggleSurvives(f, m, m.punctual);
    ToggleSurvives(f, m, m.directional);
    ToggleSurvives(f, m, m.area);
  }
}
