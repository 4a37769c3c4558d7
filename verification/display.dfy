/** The final render node of the pipeline: it draws its input colour buffer into
    the output target, and maps the gaze point from output coordinates back to
    input coordinates, correcting for an aspect-ratio mismatch between the two
    (a letterbox/pillarbox remap).

    Only the CPU-side state is modelled: the shader uniforms the node keeps
    (`u_stereo`, `u_resolution_in`, `u_resolution_out`, `u_vis_type`,
    `u_heat_scale`). The GPU handles (pipeline state, samplers, render
    targets) are not. Every `f32` is a `real`, so rounding, NaN and infinity
    are abstracted away; resolutions are required to be positive instead. */
module Display {
  import opened VisParam
  import opened Values

  /** A pair of `f32`s: a resolution, a per-axis ratio, scale or offset. */
  datatype Vec2 = Vec2(x: real, y: real)

  /** A point of regard in normalised coordinates. */
  datatype Gaze = Gaze(x: real, y: real)

  /** The negotiation object, reduced to the two sizes the node reads from it. */
  datatype NodeSlots = NodeSlots(inputSize: Vec2, outputSize: Vec2)

  /** The uniform state of the node (`pso_data` without its views). */
  datatype DisplayState = DisplayState(
    stereo: int,
    resolutionIn: Vec2,
    resolutionOut: Vec2,
    visType: int,
    heatScale: real)

  /** The draw the node issues: how many vertices, and with which uniforms. */
  datatype DrawCall = DrawCall(vertexCount: nat, data: DisplayState)

  /** The ValueMap key of the stereo switch. */
  const SplitScreenKey: string := "split_screen_switch"

  /** Vertices of one full-screen quad (two triangles). */
  const QuadVertices: nat := 6

  predicate Positive(v: Vec2)
  {
    v.x > 0.0 && v.y > 0.0
  }

  /** Both resolutions positive: the divisions of the gaze remap are defined. */
  predicate Valid(d: DisplayState)
  {
    Positive(d.resolutionIn) && Positive(d.resolutionOut)
  }

  predicate SlotsValid(s: NodeSlots)
  {
    Positive(s.inputSize) && Positive(s.outputSize)
  }

  // ---------------------------------------------------------------- new

  /** `Display::new`: mono, 1x1 placeholder resolutions, the `Output`
      visualization and a unit heat scale. */
  function New(): (d: DisplayState)
    ensures d.stereo == 0
    ensures d.resolutionIn == Vec2(1.0, 1.0) && d.resolutionOut == Vec2(1.0, 1.0)
    ensures d.visType == Discriminant(DefaultVisualizationType())
    ensures d.heatScale == DefaultParameters().heatScale
    ensures Valid(d)
  {
    DisplayState(0, Vec2(1.0, 1.0), Vec2(1.0, 1.0), 0, 1.0)
  }

  // ---------------------------------------------------------------- negociate_slots

  /** `negociate_slots`: `convert` stands for the window-dependent
      `to_color_input(..).to_color_output(..)` steps, which are not part of this
      model. The node caches the converted sizes as its resolution uniforms and
      passes the converted slots on. */
  function NegotiateSlots(d: DisplayState, slots: NodeSlots, convert: NodeSlots -> NodeSlots): (r: (DisplayState, NodeSlots))
    ensures r.1 == convert(slots)
    ensures r.0.resolutionIn == r.1.inputSize
    ensures r.0.resolutionOut == r.1.outputSize
    ensures r.0.stereo == d.stereo && r.0.visType == d.visType && r.0.heatScale == d.heatScale
    ensures SlotsValid(r.1) ==> Valid(r.0)
  {
    var s := convert(slots);
    (d.(resolutionIn := s.inputSize, resolutionOut := s.outputSize), s)
  }

  // ---------------------------------------------------------------- update_values

  /** `update_values`: `u_stereo` becomes 1 exactly when the switch is stored
      as `Bool(true)`; a missing key or a non-boolean value means mono. */
  function UpdateValues(d: DisplayState, values: ValueMap): (r: DisplayState)
    ensures r.stereo == 0 || r.stereo == 1
    ensures r.stereo == 1 <==> SplitScreenKey in values && values[SplitScreenKey] == Bool(true)
    ensures r.resolutionIn == d.resolutionIn && r.resolutionOut == d.resolutionOut
    ensures r.visType == d.visType && r.heatScale == d.heatScale
  {
    d.(stereo := if ReadBool(values, SplitScreenKey, false) then 1 else 0)
  }

  // ---------------------------------------------------------------- input

  /** Output size over input size, per axis. */
  function Ratio(d: DisplayState): (ratio: Vec2)
    requires Valid(d)
    ensures Positive(ratio)
    ensures ratio.x * d.resolutionIn.x == d.resolutionOut.x
    ensures ratio.y * d.resolutionIn.y == d.resolutionOut.y
  {
    Vec2(d.resolutionOut.x / d.resolutionIn.x, d.resolutionOut.y / d.resolutionIn.y)
  }

  function Max(a: real, b: real): real { if a >= b then a else b }
  function Min(a: real, b: real): real { if a <= b then a else b }

  /** The letterbox/pillarbox correction as the node computes it. */
  datatype Remap = Remap(scale: Vec2, offset: Vec2)

  /** Offsets are non-negative and only the axis with the larger ratio is
      offset; scales are at least 1 and the axis with the smaller ratio keeps
      scale 1. */
  function RemapOf(ratio: Vec2): (m: Remap)
    requires Positive(ratio)
    ensures m.offset.x >= 0.0 && m.offset.y >= 0.0
    ensures m.offset.x == 0.0 || m.offset.y == 0.0
    ensures m.offset.x > 0.0 <==> ratio.x > ratio.y
    ensures m.offset.y > 0.0 <==> ratio.y > ratio.x
    ensures m.scale.x >= 1.0 && m.scale.y >= 1.0
    ensures ratio.x <= ratio.y ==> m.scale.x == 1.0
    ensures ratio.y <= ratio.x ==> m.scale.y == 1.0
  {
    var offset := Vec2(0.5 * Max(ratio.x - ratio.y, 0.0), 0.5 * Max(ratio.y - ratio.x, 0.0));
    var m := Min(ratio.x, ratio.y);
    var scale := Vec2(ratio.x / m, ratio.y / m);
    Remap(scale, offset)
  }

  /** The affine map `scale * gaze - offset`, per axis. */
  function Apply(m: Remap, g: Gaze): Gaze
  {
    Gaze(m.scale.x * g.x - m.offset.x, m.scale.y * g.y - m.offset.y)
  }

  /** The inverse of `Apply`, defined whenever both scales are non-zero. */
  function Unapply(m: Remap, g: Gaze): Gaze
    requires m.scale.x != 0.0 && m.scale.y != 0.0
  {
    Gaze((g.x + m.offset.x) / m.scale.x, (g.y + m.offset.y) / m.scale.y)
  }

  /** `input`: records the visualization parameters as uniforms and returns
      the gaze remapped from output to input coordinates. The head pose
      argument of the source is unused and left out. */
  function Input(d: DisplayState, gaze: Gaze, vis: VisualizationParameters): (r: (DisplayState, Gaze))
    requires Valid(d)
    ensures r.0.visType == Discriminant(vis.visType)
    ensures r.0.visType == 0 <==> vis.visType == Output
    ensures r.0.heatScale == vis.heatScale
    ensures r.0.stereo == d.stereo
    ensures r.0.resolutionIn == d.resolutionIn && r.0.resolutionOut == d.resolutionOut
    ensures Unapply(RemapOf(Ratio(d)), r.1) == gaze
  {
    var m := RemapOf(Ratio(d));
    UnapplyApply(m, gaze);
    (d.(visType := Discriminant(vis.visType), heatScale := vis.heatScale), Apply(m, gaze))
  }

  // ---------------------------------------------------------------- render

  /** `render`: one quad for mono, two (one per eye half) for stereo, drawn
      with the current uniforms, which it leaves as they are. */
  function Render(d: DisplayState): (r: DrawCall)
    ensures r.vertexCount == 6 <==> d.stereo == 0
    ensures r.vertexCount == 12 <==> d.stereo != 0
    ensures r.vertexCount % QuadVertices == 0
    ensures r.data == d
  {
    if d.stereo == 0 then DrawCall(QuadVertices, d) else DrawCall(2 * QuadVertices, d)
  }

  // ================================================================ lemmas

  /** The gaze `input` returns is the remap applied to the given gaze. */
  lemma InputAppliesRemap(d: DisplayState, gaze: Gaze, vis: VisualizationParameters)
    requires Valid(d)
    ensures Input(d, gaze, vis).1 == Apply(RemapOf(Ratio(d)), gaze)
  {
  }

  /** `Unapply` undoes `Apply`. */
  lemma UnapplyApply(m: Remap, g: Gaze)
    requires m.scale.x != 0.0 && m.scale.y != 0.0
    ensures Unapply(m, Apply(m, g)) == g
  {
  }

  /** Equal ratios on both axes make the remap the identity. */
  lemma RemapIdentity(d: DisplayState, gaze: Gaze, vis: VisualizationParameters)
    requires Valid(d)
    requires Ratio(d).x == Ratio(d).y
    ensures RemapOf(Ratio(d)) == Remap(Vec2(1.0, 1.0), Vec2(0.0, 0.0))
    ensures Input(d, gaze, vis).1 == gaze
  {
    var ratio := Ratio(d);
    assert Min(ratio.x, ratio.y) == ratio.x;
  }

  /** Equal input and output resolutions give the identity remap. */
  lemma EqualResolutionsIdentity(d: DisplayState, gaze: Gaze, vis: VisualizationParameters)
    requires Valid(d)
    requires d.resolutionIn == d.resolutionOut
    ensures Input(d, gaze, vis).1 == gaze
  {
    var ratio := Ratio(d);
    Cancel(ratio.x, 1.0, d.resolutionIn.x);
    Cancel(ratio.y, 1.0, d.resolutionIn.y);
    RemapIdentity(d, gaze, vis);
  }

  lemma Cancel(a: real, b: real, c: real)
    requires c != 0.0 && a * c == b * c
    ensures a == b
  {
  }

  /** A freshly constructed node passes the gaze through unchanged. */
  lemma NewRemapIsIdentity(gaze: Gaze, vis: VisualizationParameters)
    ensures Input(New(), gaze, vis).1 == gaze
  {
    EqualResolutionsIdentity(New(), gaze, vis);
  }

  /** The 1x1 input shown in a 2x1 output used below. */
  function WideByTwo(): (d: DisplayState)
    ensures Valid(d)
    ensures d.resolutionIn.x < d.resolutionOut.x && d.resolutionIn.y == d.resolutionOut.y
  {
    New().(resolutionOut := Vec2(2.0, 1.0))
  }

  lemma PillarboxRatio()
    ensures Ratio(WideByTwo()) == Vec2(2.0, 1.0)
  {
  }

  lemma PillarboxRemap()
    ensures RemapOf(Ratio(WideByTwo())) == Remap(Vec2(2.0, 1.0), Vec2(0.5, 0.0))
  {
    PillarboxRatio();
    assert Min(2.0, 1.0) == 1.0;
  }

  lemma PillarboxGaze(vis: VisualizationParameters)
    ensures Input(WideByTwo(), Gaze(0.5, 0.5), vis).1 == Gaze(0.5, 0.5)
  {
    PillarboxRemap();
    InputAppliesRemap(WideByTwo(), Gaze(0.5, 0.5), vis);
  }

  /** A 2:1 output over a 1:1 input: ratio (2,1), scale (2,1), offset (0.5,0)
      on the axis with the larger ratio, and the centre of the output stays
      the centre. */
  lemma PillarboxExample(vis: VisualizationParameters)
    ensures Ratio(WideByTwo()) == Vec2(2.0, 1.0)
    ensures RemapOf(Ratio(WideByTwo())) == Remap(Vec2(2.0, 1.0), Vec2(0.5, 0.0))
    ensures Input(WideByTwo(), Gaze(0.5, 0.5), vis).1 == Gaze(0.5, 0.5)
  {
    PillarboxRatio();
    PillarboxRemap();
    PillarboxGaze(vis);
  }

  /** Negotiating twice with the same slots is the same as negotiating once. */
  lemma NegotiateIdempotent(d: DisplayState, slots: NodeSlots, convert: NodeSlots -> NodeSlots)
    ensures var (d1, s1) := NegotiateSlots(d, slots, convert);
      NegotiateSlots(d1, slots, convert) == (d1, s1)
  {
  }

  /** The negotiated resolutions do not depend on anything the node held
      before: two nodes that differ only in their resolutions agree after
      negotiating the same slots. */
  lemma NegotiateForgetsResolutions(d: DisplayState, e: DisplayState, slots: NodeSlots, convert: NodeSlots -> NodeSlots)
    requires d.stereo == e.stereo && d.visType == e.visType && d.heatScale == e.heatScale
    ensures NegotiateSlots(d, slots, convert) == NegotiateSlots(e, slots, convert)
  {
  }

  /** Without the switch in the map the node is mono, whatever it was before. */
  lemma MissingKeyIsMono(d: DisplayState, values: ValueMap)
    requires SplitScreenKey !in values
    ensures UpdateValues(d, values).stereo == 0
    ensures Render(UpdateValues(d, values)).vertexCount == 6
  {
  }

  /** Toggling stereo changes only the vertex count of the draw: the
      negotiated resolutions and the visualization uniforms stay. */
  lemma StereoToggle(d: DisplayState, on: bool)
    ensures var r := UpdateValues(d, map[SplitScreenKey := Bool(on)]);
      && Render(r).vertexCount == (if on then 12 else 6)
      && r == d.(stereo := if on then 1 else 0)
  {
  }

  /** The stereo flag depends on the switch alone: maps that agree on it give
      the same node state. */
  lemma UpdateValuesReadsOnlySwitch(d: DisplayState, v1: ValueMap, v2: ValueMap)
    requires SplitScreenKey in v1 <==> SplitScreenKey in v2
    requires SplitScreenKey in v1 ==> v1[SplitScreenKey] == v2[SplitScreenKey]
    ensures UpdateValues(d, v1) == UpdateValues(d, v2)
  {
  }

  /** The parameters recorded by `input` are the ones `render` draws with in
      the same frame; the vertex count is still chosen by the stereo flag. */
  lemma InputVisibleInRender(d: DisplayState, gaze: Gaze, vis: VisualizationParameters)
    requires Valid(d)
    ensures var c := Render(Input(d, gaze, vis).0);
      && c.data.visType == Discriminant(vis.visType)
      && c.data.heatScale == vis.heatScale
      && c.vertexCount == Render(d).vertexCount
  {
  }

  /** Feeding the default parameters selects the `Output` visualization with
      a unit heat scale. */
  lemma DefaultParametersInput(d: DisplayState, gaze: Gaze)
    requires Valid(d)
    ensures Input(d, gaze, DefaultParameters()).0.visType == 0
    ensures Input(d, gaze, DefaultParameters()).0.heatScale == 1.0
  {
  }
}
