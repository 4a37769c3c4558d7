/** An independent definition of the centred fit a letterbox/pillarbox is
    expected to draw, used to judge the display node's gaze remap. The node's
    shader, which does the drawing, is not part of this model.

    The input image is scaled uniformly by the smaller of the two per-axis
    ratios, so that it fits the output, and centred; the bars take up the
    rest. A gaze point given in normalised output coordinates is taken to
    output pixels, shifted by the bar, and divided by the drawn image size,
    which gives normalised input coordinates. */
module Letterbox {
  import opened Display

  /** The fit factor: the smaller of the two output/input ratios. */
  function FitFactor(sizeIn: Vec2, sizeOut: Vec2): (k: real)
    requires Positive(sizeIn) && Positive(sizeOut)
    ensures k > 0.0
    ensures k * sizeIn.x <= sizeOut.x && k * sizeIn.y <= sizeOut.y
    ensures k * sizeIn.x == sizeOut.x || k * sizeIn.y == sizeOut.y
  {
    Min(sizeOut.x / sizeIn.x, sizeOut.y / sizeIn.y)
  }

  /** Normalised output coordinates to normalised input coordinates, computed
      in pixels. */
  function ToInput(sizeIn: Vec2, sizeOut: Vec2, g: Gaze): Gaze
    requires Positive(sizeIn) && Positive(sizeOut)
  {
    var k := FitFactor(sizeIn, sizeOut);
    var barX := (sizeOut.x - k * sizeIn.x) / 2.0;
    var barY := (sizeOut.y - k * sizeIn.y) / 2.0;
    Gaze((g.x * sizeOut.x - barX) / (k * sizeIn.x), (g.y * sizeOut.y - barY) / (k * sizeIn.y))
  }

  /** The remap with the offset measured in input coordinates: the node's
      scale, and an offset of half the overshoot of that scale. */
  function CorrectedRemapOf(ratio: Vec2): (m: Remap)
    requires Positive(ratio)
    ensures m.scale == RemapOf(ratio).scale
    ensures m.offset.x >= 0.0 && m.offset.y >= 0.0
    ensures m.offset.x == 0.0 || m.offset.y == 0.0
    ensures m.offset.x > 0.0 <==> ratio.x > ratio.y
    ensures m.offset.y > 0.0 <==> ratio.y > ratio.x
    ensures Min(ratio.x, ratio.y) == 1.0 ==> m == RemapOf(ratio)
  {
    var scale := RemapOf(ratio).scale;
    Remap(scale, Vec2(0.5 * (scale.x - 1.0), 0.5 * (scale.y - 1.0)))
  }

  /** One axis of the corrected remap agrees with the pixel computation. */
  lemma AxisAgrees(sizeIn: real, sizeOut: real, k: real, g: real)
    requires sizeIn > 0.0 && sizeOut > 0.0 && k > 0.0
    ensures var scale := (sizeOut / sizeIn) / k;
      scale * g - 0.5 * (scale - 1.0) == (g * sizeOut - (sizeOut - k * sizeIn) / 2.0) / (k * sizeIn)
  {
    var r := sizeOut / sizeIn;
    var w := k * sizeIn;
    var q := sizeOut / w;
    assert sizeOut == r * sizeIn;
    assert sizeOut == q * w;
    assert r / k == q by {
      assert q * k * sizeIn == r * sizeIn;
    }
    var e := g * q - 0.5 * (q - 1.0);
    assert g * sizeOut - (sizeOut - w) / 2.0 == w * e;
    assert (w * e) / w == e;
  }

  /** The corrected remap is exactly the centred-fit geometry, on every input. */
  lemma CorrectedMatchesGeometry(d: DisplayState, g: Gaze)
    requires Valid(d)
    ensures Apply(CorrectedRemapOf(Ratio(d)), g) == ToInput(d.resolutionIn, d.resolutionOut, g)
  {
    HorizontalAgrees(d, g);
    VerticalAgrees(d, g);
  }

  lemma HorizontalAgrees(d: DisplayState, g: Gaze)
    requires Valid(d)
    ensures Apply(CorrectedRemapOf(Ratio(d)), g).x == ToInput(d.resolutionIn, d.resolutionOut, g).x
  {
    AxisAgrees(d.resolutionIn.x, d.resolutionOut.x, FitFactor(d.resolutionIn, d.resolutionOut), g.x);
  }

  lemma VerticalAgrees(d: DisplayState, g: Gaze)
    requires Valid(d)
    ensures Apply(CorrectedRemapOf(Ratio(d)), g).y == ToInput(d.resolutionIn, d.resolutionOut, g).y
  {
    AxisAgrees(d.resolutionIn.y, d.resolutionOut.y, FitFactor(d.resolutionIn, d.resolutionOut), g.y);
  }

  /** The offset as written is the corrected offset multiplied by the
      smaller ratio, on both axes: the two agree exactly when that ratio is 1
      or both offsets are 0. */
  lemma OffsetIsFitTimesCorrected(ratio: Vec2)
    requires Positive(ratio)
    ensures RemapOf(ratio).offset.x == Min(ratio.x, ratio.y) * CorrectedRemapOf(ratio).offset.x
    ensures RemapOf(ratio).offset.y == Min(ratio.x, ratio.y) * CorrectedRemapOf(ratio).offset.y
  {
    assert RemapOf(ratio).scale.x * Min(ratio.x, ratio.y) == ratio.x;
    assert RemapOf(ratio).scale.y * Min(ratio.x, ratio.y) == ratio.y;
  }

  /** The corrected remap keeps the centre of the output on the centre of the
      input. */
  lemma CorrectedKeepsCentre(ratio: Vec2)
    requires Positive(ratio)
    ensures Apply(CorrectedRemapOf(ratio), Gaze(0.5, 0.5)) == Gaze(0.5, 0.5)
  {
  }

  /** When the smaller ratio is 1 (the output is as large as the input on one
      axis), the node's remap as written agrees with the geometry. */
  lemma AsWrittenMatchesWhenUnitFit(d: DisplayState, g: Gaze, vis: VisParam.VisualizationParameters)
    requires Valid(d)
    requires Min(Ratio(d).x, Ratio(d).y) == 1.0
    ensures Input(d, g, vis).1 == ToInput(d.resolutionIn, d.resolutionOut, g)
  {
    CorrectedMatchesGeometry(d, g);
  }

  /** On the axis with the larger ratio `big` (the smaller being `small`),
      the node's remap as written keeps the centre exactly when the ratios
      are equal or the smaller one is 1. */
  lemma LargerAxisKeepsCentre(big: real, small: real)
    requires 0.0 < small <= big
    ensures (big / small) * 0.5 - 0.5 * (big - small) == 0.5 <==> big == small || small == 1.0
  {
    var s, d := big / small, big - small;
    var e, p := s - d, d * small;
    assert s * small == big;
    assert e * small == big - p by {
      Distribute(s, d, small);
    }
    assert d * (1.0 - small) == d - p by {
      Distribute(1.0, small, d);
    }
    calc {
      s * 0.5 - 0.5 * d == 0.5;
    <==>
      e == 1.0;
    <==> { MulByPositive(e, 1.0, small); }
      e * small == small;
    <==>
      big - p == small;
    <==>
      d * (1.0 - small) == 0.0;
    <==> { ZeroProduct(d, 1.0 - small); }
      big == small || small == 1.0;
    }
  }

  lemma Distribute(a: real, b: real, c: real)
    ensures (a - b) * c == a * c - b * c
  {
  }

  lemma ZeroProduct(a: real, b: real)
    ensures a * b == 0.0 <==> a == 0.0 || b == 0.0
  {
  }

  lemma MulByPositive(a: real, b: real, c: real)
    requires c > 0.0
    ensures a == b <==> a * c == b * c
  {
  }

  /** The node's remap as written keeps the centre of the output on the
      centre of the input exactly when the two ratios are equal or the
      smaller of them is 1; together with `AsWrittenMatchesWhenUnitFit`
      this says when the formula agrees with the centred-fit geometry. */
  lemma AsWrittenKeepsCentreIff(ratio: Vec2)
    requires Positive(ratio)
    ensures Apply(RemapOf(ratio), Gaze(0.5, 0.5)) == Gaze(0.5, 0.5)
      <==> ratio.x == ratio.y || Min(ratio.x, ratio.y) == 1.0
  {
    if ratio.x >= ratio.y {
      LargerAxisKeepsCentre(ratio.x, ratio.y);
      assert RemapOf(ratio).scale.y == 1.0;
    } else {
      LargerAxisKeepsCentre(ratio.y, ratio.x);
      assert RemapOf(ratio).scale.x == 1.0;
    }
  }

  /** The 1x1 input shown in a 4x2 output used below. */
  function WideOutput(): (d: DisplayState)
    ensures Valid(d)
    ensures Ratio(d) == Vec2(4.0, 2.0)
  {
    New().(resolutionOut := Vec2(4.0, 2.0))
  }

  /** The node's remap for the ratios (4, 2): scale (2, 1), offset (1, 0). */
  lemma WideRemap()
    ensures RemapOf(Ratio(WideOutput())) == Remap(Vec2(2.0, 1.0), Vec2(1.0, 0.0))
  {
    assert Min(4.0, 2.0) == 2.0;
  }

  /** The node's remap as written, on a 1x1 input shown in a 4x2 output: the
      output centre lands on the left edge of the input, whatever the
      visualization parameters. */
  lemma AsWrittenMissesCentre(vis: VisParam.VisualizationParameters)
    ensures Input(WideOutput(), Gaze(0.5, 0.5), vis).1 == Gaze(0.0, 0.5)
  {
    InputAppliesRemap(WideOutput(), Gaze(0.5, 0.5), vis);
    WideRemapOfCentre();
  }

  lemma WideRemapOfCentre()
    ensures Apply(RemapOf(Ratio(WideOutput())), Gaze(0.5, 0.5)) == Gaze(0.0, 0.5)
  {
    WideRemap();
  }

  /** On the same sizes the geometry, and with it the corrected remap, keeps
      the output centre on the input centre. */
  lemma GeometryKeepsCentre()
    ensures ToInput(WideOutput().resolutionIn, WideOutput().resolutionOut, Gaze(0.5, 0.5)) == Gaze(0.5, 0.5)
  {
    CorrectedMatchesGeometry(WideOutput(), Gaze(0.5, 0.5));
    CorrectedKeepsCentre(Ratio(WideOutput()));
  }
}
