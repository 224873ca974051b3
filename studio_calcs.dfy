/** `StudioCalcs`: the closed-form solvers of a Studio roof. Each takes two of the roof's
    heights and pitch and returns the others, from the wall dimensions fixed at
    construction. Lengths are in inches, the pitch in radians. Nothing is stored after
    construction, so the solvers are functions of the record. */
module StudioCalculations {
  import opened PyValues
  import opened Geometry

  /** Python's `max(a, b)`: the first argument unless the second is larger. */
  function Max(a: real, b: real): (r: real)
    ensures r >= a && r >= b && (r == a || r == b)
  {
    if b > a then b else a
  }

  datatype StudioCalcs = StudioCalcs(
    overhang: real,
    awall: real,
    bwall: real,
    cwall: real,
    panelThickness: real,
    tabWidget: int,
    endcut: string,
    /** The longer gable wall, which the panels run along. */
    sideWall: real)

  /** `StudioCalcs(overhang, awall, bwall, cwall, panel_thickness, tabwidget, endcut)`:
      stores its arguments and the longer of the A and C walls as the side wall. */
  function NewStudioCalcs(overhang: real, awall: real, bwall: real, cwall: real,
                          panelThickness: real, tabWidget: int, endcut: string): (c: StudioCalcs)
    ensures c.overhang == overhang && c.awall == awall && c.bwall == bwall && c.cwall == cwall
    ensures c.panelThickness == panelThickness && c.tabWidget == tabWidget && c.endcut == endcut
    ensures c.sideWall >= awall && c.sideWall >= cwall && (c.sideWall == awall || c.sideWall == cwall)
  {
    StudioCalcs(overhang, awall, bwall, cwall, panelThickness, tabWidget, endcut, Max(awall, cwall))
  }

  /** `wall_height_pitch_soffit(pitch, b_wall_height)`: the soffit lies the overhang's rise
      below the top of the B wall. */
  function WallHeightPitchSoffit(c: StudioCalcs, t: Trig, pitch: real, bWallHeight: real): (soffit: real)
    ensures soffit + Rise(t, c.overhang, pitch) == bWallHeight
  {
    bWallHeight - Rise(t, c.overhang, pitch)
  }

  /** `soffit_height_pitch(pitch, soffit)`: the B wall height is the soffit plus the
      overhang's rise. */
  function SoffitHeightPitch(c: StudioCalcs, t: Trig, pitch: real, soffit: real): (bWallHeight: real)
    ensures bWallHeight - Rise(t, c.overhang, pitch) == soffit
  {
    soffit + Rise(t, c.overhang, pitch)
  }

  /** The two solvers above undo each other, in both orders. */
  lemma SoffitWallHeightInverse(c: StudioCalcs, t: Trig, pitch: real, b: real, soffit: real)
    ensures SoffitHeightPitch(c, t, pitch, WallHeightPitchSoffit(c, t, pitch, b)) == b
    ensures WallHeightPitchSoffit(c, t, pitch, SoffitHeightPitch(c, t, pitch, soffit)) == soffit
  {
  }

  /** On a roof pitch with a non-negative overhang the soffit is never above the B wall. */
  lemma SoffitBelowWallHeight(c: StudioCalcs, t: Trig, pitch: real, b: real)
    requires Lawful(t) && RoofPitch(t, pitch) && 0.0 <= c.overhang
    ensures WallHeightPitchSoffit(c, t, pitch, b) <= b
  {
    assert 0.0 <= t.tan(pitch);
    assert 0.0 <= Rise(t, c.overhang, pitch);
  }

  /** A pair of solved values: a pitch and a height, or two heights. */
  datatype Solved = Solved(first: real, second: real)

  /** `wall_height_peak_height_pitch_soffit(b_wall_height, peak_height)`: the pitch is the
      arc tangent of the rise from wall to peak over the longer gable wall, and the soffit
      follows from the wall height; a zero-length gable wall raises. */
  function WallHeightPeakHeightPitchSoffit(c: StudioCalcs, t: Trig, bWallHeight: real, peak: real): (r: Result<Solved>)
    ensures r.Ok? <==> Max(c.awall, c.cwall) != 0.0
    ensures r.Ok? ==> r.value.second == WallHeightPitchSoffit(c, t, r.value.first, bWallHeight)
  {
    var slope :- Div(peak - bWallHeight, Max(c.awall, c.cwall));
    var pitch := t.atan(slope);
    Ok(Solved(pitch, bWallHeight - Rise(t, c.overhang, pitch)))
  }

  /** The pitch found rises from the B wall to the peak along the longer gable wall. */
  lemma WallHeightPeakHeightReachesPeak(c: StudioCalcs, t: Trig, bWallHeight: real, peak: real)
    requires Lawful(t) && Max(c.awall, c.cwall) != 0.0
    ensures var r := WallHeightPeakHeightPitchSoffit(c, t, bWallHeight, peak);
      bWallHeight + Rise(t, Max(c.awall, c.cwall), r.value.first) == peak
  {
    var slope := (peak - bWallHeight) / Max(c.awall, c.cwall);
    assert t.tan(t.atan(slope)) == slope;
  }

  /** Given the wall height and the peak that a roof pitch produces, the solver gives back
      that pitch and its soffit. */
  lemma WallHeightPeakHeightRoundTrip(c: StudioCalcs, t: Trig, pitch: real, bWallHeight: real)
    requires Lawful(t) && RoofPitch(t, pitch) && Max(c.awall, c.cwall) != 0.0
    ensures var peak := bWallHeight + Rise(t, Max(c.awall, c.cwall), pitch);
      WallHeightPeakHeightPitchSoffit(c, t, bWallHeight, peak)
        == Ok(Solved(pitch, WallHeightPitchSoffit(c, t, pitch, bWallHeight)))
  {
    var run := Max(c.awall, c.cwall);
    var tp := t.tan(pitch);
    var peak := bWallHeight + Rise(t, run, pitch);
    assert peak - bWallHeight == run * tp;
    assert (run * tp) / run == tp;
    assert t.atan(tp) == pitch;
  }

  /** `max_height_pitch(pitch, max_height)`: the B wall height is the max height less the
      rise along the longer gable wall and the angled panel thickness, and the soffit
      follows from it; a vertical pitch raises in the angled thickness. */
  function MaxHeightPitch(c: StudioCalcs, t: Trig, pitch: real, maxHeight: real): (r: Result<Solved>)
    ensures r.Ok? <==> Angled(t, pitch, c.panelThickness).Ok?
    ensures r.Ok? ==>
      && r.value.first + Rise(t, Max(c.awall, c.cwall), pitch) + Angled(t, pitch, c.panelThickness).value
         == maxHeight
      && r.value.second == WallHeightPitchSoffit(c, t, pitch, r.value.first)
  {
    var angled :- Angled(t, pitch, c.panelThickness);
    var bWallHeight := maxHeight - Rise(t, Max(c.awall, c.cwall), pitch) - angled;
    Ok(Solved(bWallHeight, bWallHeight - Rise(t, c.overhang, pitch)))
  }

  /** On a roof pitch the max-height solver always succeeds, and from the max height a
      B wall height produces it gives that wall height back. */
  lemma MaxHeightPitchRoundTrip(c: StudioCalcs, t: Trig, pitch: real, bWallHeight: real)
    requires Lawful(t) && RoofPitch(t, pitch)
    ensures Angled(t, pitch, c.panelThickness).Ok?
    ensures var maxHeight := bWallHeight + Rise(t, Max(c.awall, c.cwall), pitch)
                             + Angled(t, pitch, c.panelThickness).value;
      MaxHeightPitch(c, t, pitch, maxHeight)
        == Ok(Solved(bWallHeight, WallHeightPitchSoffit(c, t, pitch, bWallHeight)))
  {
    AngledDefined(t, pitch, c.panelThickness);
  }

  /** `soffit_height_peak_height(peak_height, soffit)`: the pitch is the arc tangent of the
      rise from soffit to peak over the longer gable wall plus the overhang, and the B wall
      height is the soffit plus the overhang's rise; a zero run raises. */
  function SoffitHeightPeakHeight(c: StudioCalcs, t: Trig, peak: real, soffit: real): (r: Result<Solved>)
    ensures r.Ok? <==> Max(c.awall, c.cwall) + c.overhang != 0.0
    ensures r.Ok? ==> r.value.second == SoffitHeightPitch(c, t, r.value.first, soffit)
  {
    var slope :- Div(peak - soffit, Max(c.awall, c.cwall) + c.overhang);
    var pitch := t.atan(slope);
    Ok(Solved(pitch, soffit + Rise(t, c.overhang, pitch)))
  }

  /** The B wall height found divides the rise from soffit to peak in the ratio of the
      overhang to the whole run, so with non-negative lengths and a peak not below the
      soffit it lies between the two. */
  lemma SoffitHeightPeakHeightBetween(c: StudioCalcs, t: Trig, peak: real, soffit: real)
    requires Lawful(t) && Max(c.awall, c.cwall) + c.overhang != 0.0
    ensures var b := SoffitHeightPeakHeight(c, t, peak, soffit).value.second;
      (b - soffit) * (Max(c.awall, c.cwall) + c.overhang) == c.overhang * (peak - soffit)
    ensures var b := SoffitHeightPeakHeight(c, t, peak, soffit).value.second;
      0.0 <= c.overhang && 0.0 <= Max(c.awall, c.cwall) && soffit <= peak ==> soffit <= b <= peak
  {
    var run := Max(c.awall, c.cwall) + c.overhang;
    var slope := (peak - soffit) / run;
    assert t.tan(t.atan(slope)) == slope;
    var b := SoffitHeightPeakHeight(c, t, peak, soffit).value.second;
    assert b - soffit == c.overhang * slope;
    assert slope * run == peak - soffit;
    assert (b - soffit) * run == c.overhang * (slope * run);
    if 0.0 <= c.overhang && 0.0 <= Max(c.awall, c.cwall) && soffit <= peak {
      assert 0.0 < run;
      assert 0.0 <= slope;
      assert c.overhang * slope <= run * slope;
    }
  }

  /** Given the soffit and peak that a roof pitch and B wall height produce, the solver
      gives back that pitch and wall height. */
  lemma SoffitHeightPeakHeightRoundTrip(c: StudioCalcs, t: Trig, pitch: real, bWallHeight: real)
    requires Lawful(t) && RoofPitch(t, pitch) && Max(c.awall, c.cwall) + c.overhang != 0.0
    ensures var soffit := WallHeightPitchSoffit(c, t, pitch, bWallHeight);
      var peak := bWallHeight + Rise(t, Max(c.awall, c.cwall), pitch);
      SoffitHeightPeakHeight(c, t, peak, soffit) == Ok(Solved(pitch, bWallHeight))
  {
    var run := Max(c.awall, c.cwall) + c.overhang;
    var tp := t.tan(pitch);
    var soffit := WallHeightPitchSoffit(c, t, pitch, bWallHeight);
    var peak := bWallHeight + Rise(t, Max(c.awall, c.cwall), pitch);
    assert peak - soffit == run * tp;
    assert (run * tp) / run == tp;
    assert t.atan(tp) == pitch;
  }

  /** `drip_edge_peak_height()` and `drip_edge_pitch()`: placeholders that return `None`. */
  function DripEdgePeakHeight(c: StudioCalcs): (r: Value)
    ensures r.NoneVal?
  {
    NoneVal
  }

  function DripEdgePitch(c: StudioCalcs): (r: Value)
    ensures r.NoneVal?
  {
    NoneVal
  }
}
