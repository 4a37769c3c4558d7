/** The per-frame visualization parameters handed to every render node:
    which visualization is active and the scalar values that tune it.
    Every `f32` of the source is modelled as a `real`. */
module VisParam {
  import opened Values

  /** The two visualization modes, in declaration order. */
  datatype VisualizationType = Output | Deflection

  /** The mode a node uses when nothing else is configured. */
  function DefaultVisualizationType(): (t: VisualizationType)
    ensures Discriminant(t) == 0
  {
    Output
  }

  /** The enum's discriminant, as `vis_type as u32` yields it: the position of
      the variant in the declaration. */
  function Discriminant(t: VisualizationType): (d: nat)
    ensures d < 2
    ensures t == FromDiscriminant(d).value
  {
    match t
    case Output => 0
    case Deflection => 1
  }

  /** Inverse of `Discriminant`; absent for a number that names no variant. */
  function FromDiscriminant(d: int): (r: Option<VisualizationType>)
    ensures r.Some? <==> 0 <= d < 2
  {
    if d == 0 then Some(Output)
    else if d == 1 then Some(Deflection)
    else None
  }

  /** The discriminant is a bijection between the variants and {0, 1}: the
      enum has exactly two variants and no two share a number. */
  lemma DiscriminantBijective(d: int)
    ensures 0 <= d < 2 ==> Discriminant(FromDiscriminant(d).value) == d
    ensures forall t, u :: Discriminant(t) == Discriminant(u) ==> t == u
  {
  }

  datatype VisualizationParameters = VisualizationParameters(
    visType: VisualizationType,
    heatScale: real,
    dirCalcScale: real,
    testDepthMin: real,
    testDepthMax: real)

  /** The depth bounds used by the overlay effects form a non-empty interval. */
  predicate DepthRangeValid(p: VisualizationParameters)
  {
    p.testDepthMin < p.testDepthMax
  }

  /** The parameters used before anything is configured. All constants are
      exactly representable as `f32`, so nothing is lost by using `real`. */
  function DefaultParameters(): (p: VisualizationParameters)
    ensures p.visType == DefaultVisualizationType()
    ensures Discriminant(p.visType) == 0
    ensures p.heatScale == 1.0 && p.dirCalcScale == 1.0
    ensures p.testDepthMin == 200.0 && p.testDepthMax == 5000.0
    ensures DepthRangeValid(p)
  {
    VisualizationParameters(DefaultVisualizationType(), 1.0, 1.0, 200.0, 5000.0)
  }
}
