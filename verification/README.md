# Display node of the visual system simulator, modelled in Dafny

The visual system simulator runs a chain of render nodes. The last one, the
`Display` node, draws the previous node's colour buffer into the window. It
also maps the tracked gaze point from output coordinates back to input
coordinates. When the input and output aspect ratios differ, that remap
applies a letterbox/pillarbox correction.

On the CPU side the node keeps five shader uniforms:

- `u_stereo`
- `u_resolution_in`
- `u_resolution_out`
- `u_vis_type`
- `u_heat_scale`

Five operations act on them:

- `new`
- `negociate_slots`
- `update_values`
- `input`
- `render`

This project models that uniform state as an immutable record. Each operation
is a pure function over that record. The project also models the per-frame
`VisualizationParameters` value that `input` consumes.

Files and modules:

- `vis_param.dfy` (module `VisParam`): `VisualizationType`, its discriminant and
  default, `VisualizationParameters` and its default.
- `values.dfy` (module `Values`): the key/value map that nodes read each frame,
  and the `get` / `unwrap_or` / `as_bool` chain used on it.
- `display.dfy` (module `Display`): the uniform record, the five operations, and
  lemmas about the gaze remap, negotiation, the stereo switch and rendering.
- `letterbox.dfy` (module `Letterbox`): an independent pixel-level definition of
  the centred fit a letterbox/pillarbox is expected to draw, a remap that agrees with it, and the comparison with
  the node's remap as written (see Findings).

Every `f32` is a Dafny `real`, so rounding, NaN and infinity are not modelled.
The source divides by both resolutions. The model instead requires them to be
positive (`Display.Valid` on the uniform record `Display.DisplayState`). `new` establishes this, and `negociate_slots` keeps
it whenever the negotiated slots are positive.

With input 1x1 and output 2x1 the offset falls on x, the axis with the larger
ratio, and gaze (0.5, 0.5) maps to (0.5, 0.5) (`Display.PillarboxExample`).

## Model

| member | source | states |
|---|---|---|
| VisParam.DefaultVisualizationType | vss/src/vis_param.rs:6-10 | the default mode is the variant with discriminant 0 (`Output`) |
| VisParam.Discriminant | vss/src/vis_param.rs:2-5 | `vis_type as u32` is 0 or 1, and the variant can be recovered from it |
| VisParam.DiscriminantBijective | vss/src/vis_param.rs:2-5 | the enum has exactly two variants, numbered 0 and 1 without clashes |
| VisParam.DefaultParameters | vss/src/vis_param.rs:22-31 | the defaults are `Output`, heat scale 1, dir-calc scale 1, and depth bounds 200 and 5000; that depth interval is non-empty |
| Values.ReadBool | vss/src/node/display/mod.rs:70-74 | a boolean stored under the key is returned; a missing key or a non-boolean value yields the default |
| Display.New | vss/src/node/display/mod.rs:44-55 | the node starts mono, with 1x1 resolutions, the default visualization discriminant and heat scale 1, and its resolutions are valid |
| Display.NegotiateSlots | vss/src/node/display/mod.rs:59-67 | the converted slots are returned and their sizes become the resolution uniforms; stereo, visualization type and heat scale are untouched |
| Display.NegotiateIdempotent | vss/src/node/display/mod.rs:59-67 | negotiating the same slots twice gives the same state and slots as negotiating once |
| Display.NegotiateForgetsResolutions | vss/src/node/display/mod.rs:59-67 | the negotiated state does not depend on the resolutions held before |
| Display.UpdateValues | vss/src/node/display/mod.rs:69-80 | `u_stereo` is 1 exactly when the split-screen switch is stored as `Bool(true)`, and 0 otherwise; nothing else changes |
| Display.MissingKeyIsMono | vss/src/node/display/mod.rs:69-80 | without the switch in the map the node becomes mono and draws 6 vertices |
| Display.UpdateValuesReadsOnlySwitch | vss/src/node/display/mod.rs:69-80 | two maps that agree on the switch key give the same node state |
| Display.StereoToggle | vss/src/node/display/mod.rs:69-80 | setting the switch changes only the stereo flag, and the draw uses 12 vertices when on and 6 when off |
| Display.Ratio | vss/src/node/display/mod.rs:83-86 | the per-axis ratio is positive and scales the input resolution to the output resolution |
| Display.RemapOf | vss/src/node/display/mod.rs:87-94 | offsets are non-negative and only the larger-ratio axis is offset; scales are at least 1 and the smaller-ratio axis keeps scale 1 |
| Display.Input | vss/src/node/display/mod.rs:82-103 | the visualization discriminant and heat scale are recorded, stereo and resolutions are untouched, and the returned gaze maps back to the given gaze by the inverse remap |
| Display.UnapplyApply | vss/src/node/display/mod.rs:99-102 | the affine gaze remap is invertible whenever the scales are non-zero |
| Display.RemapIdentity | vss/src/node/display/mod.rs:83-102 | equal ratios on both axes give scale (1,1), offset (0,0) and an unchanged gaze |
| Display.EqualResolutionsIdentity | vss/src/node/display/mod.rs:83-102 | equal input and output resolutions leave the gaze unchanged |
| Display.NewRemapIsIdentity | vss/src/node/display/mod.rs:44-55 | a freshly constructed node passes the gaze through unchanged |
| Display.PillarboxExample | vss/src/node/display/mod.rs:83-102 | input 1x1 and output 2x1 give ratio (2,1), scale (2,1) and offset (0.5,0) on the larger-ratio axis, and gaze (0.5,0.5) maps to (0.5,0.5) |
| Display.Render | vss/src/node/display/mod.rs:105-117 | 6 vertices when `u_stereo` is 0 and 12 otherwise, always whole quads, drawn with the current uniforms, which stay unchanged |
| Display.InputVisibleInRender | vss/src/node/display/mod.rs:96-97 | the draw of the same frame uses the visualization type and heat scale that `input` recorded, and the vertex count does not change |
| Display.DefaultParametersInput | vss/src/node/display/mod.rs:96-97 | the default parameters set `u_vis_type` to 0 and `u_heat_scale` to 1 |
| Letterbox.FitFactor | vss/src/node/display/mod.rs:91-94 | the smaller ratio fits the scaled input inside the output and fills it on at least one axis |
| Letterbox.CorrectedRemapOf | vss/src/node/display/mod.rs:87-94 | keeps the node's scale and the sign pattern of its offsets, and coincides with the node's remap when the smaller ratio is 1 |
| Letterbox.CorrectedMatchesGeometry | vss/src/node/display/mod.rs:87-102 | the corrected remap equals the pixel-level centred-fit geometry for every gaze and every pair of positive resolutions |
| Letterbox.OffsetIsFitTimesCorrected | vss/src/node/display/mod.rs:87-94 | for every positive ratio, the offset as written is the smaller ratio times the centred-fit offset, on both axes |
| Letterbox.CorrectedKeepsCentre | vss/src/node/display/mod.rs:87-102 | the corrected remap maps the output centre to the input centre |
| Letterbox.AsWrittenMatchesWhenUnitFit | vss/src/node/display/mod.rs:87-102 | when the smaller ratio is 1, the node's remap as written equals the geometry, whatever visualization parameters are passed |
| Letterbox.LargerAxisKeepsCentre | vss/src/node/display/mod.rs:87-94 | on the larger-ratio axis the as-written scale and offset keep 0.5 fixed exactly when the ratios are equal or the smaller ratio is 1 |
| Letterbox.AsWrittenKeepsCentreIff | vss/src/node/display/mod.rs:87-102 | the node's remap as written keeps the output centre on the input centre if and only if the ratios are equal or the smaller ratio is 1 |
| Letterbox.AsWrittenMissesCentre | vss/src/node/display/mod.rs:87-90 | with input 1x1 and output 4x2, the node's remap sends the output centre to (0, 0.5) |
| Letterbox.GeometryKeepsCentre | vss/src/node/display/mod.rs:87-102 | with the same sizes, the geometry keeps the centre at (0.5, 0.5) |

## Left out

- GPU plumbing is not modelled, because it goes through a graphics library that is not part of this model. This covers:
  - the pipeline declaration and shader loading;
  - the sampler and render-target allocation in `new`;
  - the views that `negociate_slots` stores (`s_source`, `s_deflection`, `rt_color`).
- `encoder.draw` itself is not modelled; `Display.Render` returns the vertex count and the uniforms the draw would use.
- `NodeSlots` is not part of this model. It is reduced to a pair of input and output sizes. The window-dependent conversions `to_color_input` and `to_color_output` are a function parameter of `Display.NegotiateSlots`.
- The `Value` type of the key/value map is not part of this model. It is modelled as boolean, number or named choice; only `as_bool` matters to the node.
- The head pose argument of `input` is unused by the source and is left out.
- Exact `f32` arithmetic is not modelled: rounding, NaN, infinity, and the division by a zero resolution. `Display.Input` requires positive resolutions instead.
- `u_stereo` and `u_vis_type` are `i32` in the source. They only ever hold 0 or 1, so no wrap-around is modelled.
- The desktop HMD vendor wrapper (`vss-desktop/src/varjo.rs`) and the crate root (`vss/src/lib.rs`) are not modelled. The first is foreign-function glue; the second only declares modules.

## Findings

| source | as written | input that shows it | evidently intended | confidence | as-written member | corrected member |
|---|---|---|---|---|---|---|
| vss/src/node/display/mod.rs:87-90 | offset = 0.5 * max(ratio.x - ratio.y, 0) per axis, in units of the output/input ratio | input 1x1, output 4x2, gaze (0.5, 0.5): the node returns (0, 0.5), but a centred fit would put that point at (0.5, 0.5) | offset divided by the smaller ratio, i.e. 0.5 * (scale - 1), which matches the centred-fit geometry for all sizes | medium, not executed | Letterbox.AsWrittenMissesCentre | Letterbox.CorrectedMatchesGeometry |

For every positive ratio, the offset as written is the smaller ratio times
the corrected offset (`Letterbox.OffsetIsFitTimesCorrected`). So the two
formulas agree whenever the smaller ratio is 1
(`Letterbox.AsWrittenMatchesWhenUnitFit`); that covers the freshly constructed
state and the 1x1 to 2x1 example. Conversely, the formula as written keeps the
centre only when the ratios are equal or the smaller one is 1
(`Letterbox.AsWrittenKeepsCentreIff`).

`Display.Input` keeps the formula as written. What the node draws is decided
by its shader, which is not part of this model. The finding assumes that the
shader draws a centred fit. If the shader instead samples at `scale * uv -
offset` as the CPU code computes, the image is drawn off-centre and the gaze
remap matches it. Hence the medium confidence.
