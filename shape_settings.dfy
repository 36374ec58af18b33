/**
 * The shape panel of a node: rotation, aspect ratio, layer order, a
 * transparent background, and the drop shadow and glow effects. Every
 * change is sent as an `updateNodeData` patch.
 */
module ShapeSettings {

  import opened Opt
  import opened Types

  // ---- layer order and background ----

  /** `handleLayerChange`: one layer up or down from the current layer, a missing one counting as 0. */
  function LayerPatch(data: NodeData, forward: bool): (p: NodeData)
    ensures p.(zIndex := None) == EmptyData
    ensures p.zIndex == Some(if forward then IntOr(data.zIndex, 0) + 1 else IntOr(data.zIndex, 0) - 1)
  {
    var current := IntOr(data.zIndex, 0);
    EmptyData.(zIndex := Some(if forward then current + 1 else current - 1))
  }

  /** Bringing forward and then sending backward returns to the starting layer. */
  lemma ForwardThenBackward(data: NodeData)
    ensures var once := MergeData(data, LayerPatch(data, true));
      MergeData(once, LayerPatch(once, false)).zIndex == Some(IntOr(data.zIndex, 0))
  {
  }

  /** The transparent switch: transparent when on, white when off. */
  function TransparentPatch(on: bool): (p: NodeData)
    ensures p.(backgroundColor := None) == EmptyData
    ensures p.backgroundColor == Some(if on then "transparent" else "white")
  {
    EmptyData.(backgroundColor := Some(if on then "transparent" else "white"))
  }

  /** The switch shows on exactly after it was switched on. */
  lemma TransparentSwitchReadsBack(data: NodeData, on: bool)
    ensures (MergeData(data, TransparentPatch(on)).backgroundColor == Some("transparent")) == on
  {
  }

  // ---- rotation and aspect ratio ----

  /** The rotation controls: the slider, the reset button, and the four preset buttons. */
  datatype RotationInput = Slide(value: int) | ResetRotation | Preset0 | Preset90 | Preset180 | Preset270

  /** The angle each rotation control sends. */
  function RotationValue(input: RotationInput): (deg: int)
    ensures input.Slide? ==> deg == input.value
    ensures !input.Slide? ==> deg in {0, 90, 180, 270}
    ensures input == ResetRotation ==> deg == 0
  {
    match input
    case Slide(v) => v
    case ResetRotation => 0
    case Preset0 => 0
    case Preset90 => 90
    case Preset180 => 180
    case Preset270 => 270
  }

  // ---- shadow and glow ----

  /** The node's shadow record as the spread sees it; a missing one has no keys. */
  function ShadowOf(data: NodeData): (s: Shadow)
    ensures data.shadow.Some? ==> s == data.shadow.value
    ensures data.shadow.None? ==> !s.enabled && s.color.None? && s.blur.None? && s.offsetX.None? && s.offsetY.None?
  {
    data.shadow.GetOr(Shadow(false, None, None, None, None))
  }

  /** The node's glow record as the spread sees it; a missing one has no keys. */
  function GlowOf(data: NodeData): (g: Glow)
    ensures data.glow.Some? ==> g == data.glow.value
    ensures data.glow.None? ==> !g.enabled && g.color.None? && g.blur.None?
  {
    data.glow.GetOr(Glow(false, None, None))
  }

  /**
   * `handleShadowChange`: switching on keeps each truthy setting and fills
   * the rest with the defaults; switching off clears all four settings.
   */
  function ShadowSwitchPatch(data: NodeData, on: bool): (p: NodeData)
    ensures p.(shadow := None) == EmptyData && p.shadow.Some?
    ensures p.shadow.value.enabled == on
    ensures !on ==> p.shadow.value == Shadow(false, None, None, None, None)
    ensures on ==> var s := p.shadow.value;
      && s.color == Some(StrOr(ShadowOf(data).color, "rgba(0,0,0,0.3)"))
      && s.blur == Some(IntOr(ShadowOf(data).blur, 5))
      && s.offsetX == Some(IntOr(ShadowOf(data).offsetX, 3))
      && s.offsetY == Some(IntOr(ShadowOf(data).offsetY, 3))
  {
    var was := ShadowOf(data);
    var s := if on then
      Shadow(true, Some(StrOr(was.color, "rgba(0,0,0,0.3)")), Some(IntOr(was.blur, 5)),
             Some(IntOr(was.offsetX, 3)), Some(IntOr(was.offsetY, 3)))
    else Shadow(false, None, None, None, None);
    EmptyData.(shadow := Some(s))
  }

  /** Switching the shadow off and on again forgets the chosen settings: they come back as the defaults. */
  lemma ShadowOffOnUsesDefaults(data: NodeData)
    ensures var off := MergeData(data, ShadowSwitchPatch(data, false));
      ShadowSwitchPatch(off, true).shadow == Some(Shadow(true, Some("rgba(0,0,0,0.3)"), Some(5), Some(3), Some(3)))
  {
  }

  /** Switching an enabled shadow on again changes nothing when its settings are all truthy. */
  lemma ShadowOnIsStable(data: NodeData)
    requires data.shadow.Some? && data.shadow.value.enabled
    requires Truthy(data.shadow.value.color)
    requires data.shadow.value.blur.Some? && data.shadow.value.blur.value != 0
    requires data.shadow.value.offsetX.Some? && data.shadow.value.offsetX.value != 0
    requires data.shadow.value.offsetY.Some? && data.shadow.value.offsetY.value != 0
    ensures ShadowSwitchPatch(data, true).shadow == data.shadow
  {
  }

  /** `handleGlowChange`: switching on keeps a truthy colour and intensity or fills the defaults; off clears both. */
  function GlowSwitchPatch(data: NodeData, on: bool): (p: NodeData)
    ensures p.(glow := None) == EmptyData && p.glow.Some?
    ensures p.glow.value.enabled == on
    ensures !on ==> p.glow.value == Glow(false, None, None)
    ensures on ==> p.glow.value.color == Some(StrOr(GlowOf(data).color, "#9b87f5"))
    ensures on ==> p.glow.value.blur == Some(IntOr(GlowOf(data).blur, 8))
  {
    var g := GlowOf(data);
    EmptyData.(glow := Some(
      if on then Glow(true, Some(StrOr(g.color, "#9b87f5")), Some(IntOr(g.blur, 8)))
      else Glow(false, None, None)))
  }

  /** The shadow colour buttons and blur slider: one setting changes and the shadow is switched on. */
  function ShadowPickPatch(data: NodeData, color: Option<string>, blur: Option<int>): (p: NodeData)
    ensures p.(shadow := None) == EmptyData && p.shadow.Some?
    ensures p.shadow.value.enabled
    ensures p.shadow.value.color == Pick(ShadowOf(data).color, color)
    ensures p.shadow.value.blur == Pick(ShadowOf(data).blur, blur)
    ensures p.shadow.value.offsetX == ShadowOf(data).offsetX && p.shadow.value.offsetY == ShadowOf(data).offsetY
  {
    var s := ShadowOf(data);
    EmptyData.(shadow := Some(s.(enabled := true, color := Pick(s.color, color), blur := Pick(s.blur, blur))))
  }

  /** The glow colour buttons and intensity slider: one setting changes and the glow is switched on. */
  function GlowPickPatch(data: NodeData, color: Option<string>, blur: Option<int>): (p: NodeData)
    ensures p.(glow := None) == EmptyData && p.glow.Some?
    ensures p.glow.value == Glow(true, Pick(GlowOf(data).color, color), Pick(GlowOf(data).blur, blur))
  {
    var g := GlowOf(data);
    EmptyData.(glow := Some(Glow(true, Pick(g.color, color), Pick(g.blur, blur))))
  }

  /** The panel's own switches and rotation read-out, started from the node's data. */
  class ShapePanel {
    var rotation: int
    var maintainAspectRatio: bool
    var shadowEnabled: bool
    var glowEnabled: bool

    constructor (data: NodeData)
      ensures rotation == IntOr(data.rotation, 0)
      ensures maintainAspectRatio == BoolOr(data.aspectRatio, false)
      ensures shadowEnabled == (data.shadow.Some? && data.shadow.value.enabled)
      ensures glowEnabled == (data.glow.Some? && data.glow.value.enabled)
    {
      rotation := IntOr(data.rotation, 0);
      maintainAspectRatio := BoolOr(data.aspectRatio, false);
      shadowEnabled := data.shadow.Some? && data.shadow.value.enabled;
      glowEnabled := data.glow.Some? && data.glow.value.enabled;
    }

    /** `handleRotationChange`: the read-out and the node both take exactly the chosen angle. */
    method HandleRotationChange(input: RotationInput) returns (patch: NodeData)
      modifies this
      ensures rotation == RotationValue(input)
      ensures patch == EmptyData.(rotation := Some(RotationValue(input)))
      ensures maintainAspectRatio == old(maintainAspectRatio) && shadowEnabled == old(shadowEnabled) && glowEnabled == old(glowEnabled)
    {
      rotation := RotationValue(input);
      patch := EmptyData.(rotation := Some(rotation));
    }

    /** `handleAspectRatioChange`: the switch and the node both take the checked flag. */
    method HandleAspectRatioChange(checked: bool) returns (patch: NodeData)
      modifies this
      ensures maintainAspectRatio == checked
      ensures patch == EmptyData.(aspectRatio := Some(checked))
      ensures rotation == old(rotation) && shadowEnabled == old(shadowEnabled) && glowEnabled == old(glowEnabled)
    {
      maintainAspectRatio := checked;
      patch := EmptyData.(aspectRatio := Some(checked));
    }

    method HandleShadowChange(data: NodeData, checked: bool) returns (patch: NodeData)
      modifies this
      ensures shadowEnabled == checked
      ensures patch == ShadowSwitchPatch(data, checked)
      ensures rotation == old(rotation) && maintainAspectRatio == old(maintainAspectRatio) && glowEnabled == old(glowEnabled)
    {
      shadowEnabled := checked;
      patch := ShadowSwitchPatch(data, checked);
    }

    method HandleGlowChange(data: NodeData, checked: bool) returns (patch: NodeData)
      modifies this
      ensures glowEnabled == checked
      ensures patch == GlowSwitchPatch(data, checked)
      ensures rotation == old(rotation) && maintainAspectRatio == old(maintainAspectRatio) && shadowEnabled == old(shadowEnabled)
    {
      glowEnabled := checked;
      patch := GlowSwitchPatch(data, checked);
    }
  }
}
