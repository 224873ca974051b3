/** The single-file calculator's `Sunroom` class with its `Studio` and `Cathedral`
    subclasses, held as one class whose `kind` says which subclass it is. A sunroom keeps its
    wall dimensions, panel thickness and end cut; a scenario method assigns the solved
    heights (pitch, peak, max height, wall height under the soffit, soffit, drip edge) one
    after another, so a call that raises part-way leaves the earlier ones assigned. The
    fabrication queries (`panel_length`, `roof_panels`, `hang_rail`, `fascia`,
    `armstrong_panels`) only read the object and are functions over it. */
module LegacySunroom {
  import opened PyValues
  import opened Geometry
  import opened Fabrication
  import opened ToolkitEnums

  /** The heights a scenario method solves, each `None` until a scenario assigns it. */
  datatype Heights = Heights(
    pitch: Option<real>,
    peak: Option<real>,
    maxH: Option<real>,
    soffitWallHeight: Option<real>,
    soffit: Option<real>,
    dripEdge: Option<real>)

  /** The heights of a new sunroom: none solved yet. */
  const Unsolved: Heights := Heights(None, None, None, None, None, None)

  /** The dimensions the scenario methods read. `pitchedWall` is `None` on a Cathedral,
      whose constructor never assigns it. */
  datatype Dims = Dims(overhang: real, awall: real, cwall: real, thickness: real, pitchedWall: Option<real>)

  /** `max(self.awall, self.cwall)`: the longer gable wall. */
  function SideWall(d: Dims): (r: real)
    ensures r >= d.awall && r >= d.cwall && (r == d.awall || r == d.cwall)
  {
    if d.cwall > d.awall then d.cwall else d.awall
  }

  /** What a scenario method leaves behind: the heights after the call, and whether it
      returned or raised. */
  datatype Step = Step(heights: Heights, outcome: Result<()>)

  /** `wall_height_pitch(pitch, soffit_wall_height, side_wall_length)`. */
  function WallHeightPitchStep(t: Trig, d: Dims, h: Heights, pitch: real, wallHeight: real,
                               sideWall: real): Step
  {
    var soffit := wallHeight - Rise(t, d.overhang, pitch);
    var peak := wallHeight + Rise(t, sideWall, pitch);
    var h1 := h.(pitch := Some(pitch), soffitWallHeight := Some(wallHeight), soffit := Some(soffit),
                 peak := Some(peak));
    match Angled(t, pitch, d.thickness)
    case Raised(e) => Step(h1, Raised(e))
    case Ok(a) => Step(h1.(maxH := Some(peak + a)), Ok(()))
  }

  /** `max_height_pitch(pitch, max_h)`; the max height itself is not stored. */
  function MaxHeightPitchStep(t: Trig, d: Dims, h: Heights, pitch: real, maxH: real): Step {
    var h1 := h.(pitch := Some(pitch));
    match Angled(t, pitch, d.thickness)
    case Raised(e) => Step(h1, Raised(e))
    case Ok(a) =>
      var wallHeight := maxH - Rise(t, SideWall(d), pitch) - a;
      Step(h1.(soffitWallHeight := Some(wallHeight), soffit := Some(wallHeight - Rise(t, d.overhang, pitch)),
               peak := Some(maxH - a)), Ok(()))
  }

  /** `soffit_height_peak_height(peak, soffit)`. */
  function SoffitHeightPeakHeightStep(t: Trig, d: Dims, h: Heights, peak: real, soffit: real): Step {
    var h1 := h.(soffit := Some(soffit), peak := Some(peak));
    match Div(peak - soffit, SideWall(d) + d.overhang)
    case Raised(e) => Step(h1, Raised(e))
    case Ok(slope) =>
      var pitch := t.atan(slope);
      var h2 := h1.(pitch := Some(pitch), soffitWallHeight := Some(soffit + Rise(t, d.overhang, pitch)));
      match Angled(t, pitch, d.thickness)
      case Raised(e) => Step(h2, Raised(e))
      case Ok(a) => Step(h2.(maxH := Some(peak + a)), Ok(()))
  }

  /** `soffit_height_pitch(pitch, soffit)`; multiplying a missing pitched wall raises
      `TypeError`. */
  function SoffitHeightPitchStep(t: Trig, d: Dims, h: Heights, pitch: real, soffit: real): Step {
    var wallHeight := soffit + Rise(t, d.overhang, pitch);
    var h1 := h.(pitch := Some(pitch), soffit := Some(soffit), soffitWallHeight := Some(wallHeight));
    match d.pitchedWall
    case None => Step(h1, Raised(TypeError))
    case Some(pitchedWall) =>
      var peak := wallHeight + Rise(t, pitchedWall, pitch);
      var h2 := h1.(peak := Some(peak));
      match Angled(t, pitch, d.thickness)
      case Raised(e) => Step(h2, Raised(e))
      case Ok(a) => Step(h2.(maxH := Some(peak + a)), Ok(()))
  }

  /** `drip_edge_pitch(drip_edge, pitch)`. */
  function DripEdgePitchStep(t: Trig, d: Dims, h: Heights, dripEdge: real, pitch: real): Step {
    var h1 := h.(pitch := Some(pitch), dripEdge := Some(dripEdge));
    match Angled(t, pitch, d.thickness)
    case Raised(e) => Step(h1, Raised(e))
    case Ok(a) =>
      var soffit := dripEdge - a;
      var wallHeight := soffit + Rise(t, d.overhang, pitch);
      var h2 := h1.(soffit := Some(soffit), soffitWallHeight := Some(wallHeight));
      match d.pitchedWall
      case None => Step(h2, Raised(TypeError))
      case Some(pitchedWall) =>
        var peak := wallHeight + Rise(t, pitchedWall, pitch);
        Step(h2.(peak := Some(peak), maxH := Some(peak + a)), Ok(()))
  }

  /** Solving from the max height that `wall_height_pitch` produced (with the longer gable
      wall as side wall) gives back every height it solved: same wall height, soffit and
      peak, and the max height untouched. */
  lemma WallHeightPitchThenMaxHeightPitch(t: Trig, d: Dims, h: Heights, pitch: real, wallHeight: real)
    requires Lawful(t) && RoofPitch(t, pitch)
    ensures var first := WallHeightPitchStep(t, d, h, pitch, wallHeight, SideWall(d));
      && first.outcome.Ok? && first.heights.maxH.Some?
      && MaxHeightPitchStep(t, d, first.heights, pitch, first.heights.maxH.value) == first
  {
    AngledDefined(t, pitch, d.thickness);
  }

  /** On a Studio, whose pitched wall is the longer gable wall, solving from the soffit that
      `wall_height_pitch` produced gives back every height it solved. */
  lemma WallHeightPitchThenSoffitHeightPitch(t: Trig, d: Dims, h: Heights, pitch: real, wallHeight: real)
    requires Lawful(t) && RoofPitch(t, pitch)
    requires d.pitchedWall == Some(SideWall(d))
    ensures var first := WallHeightPitchStep(t, d, h, pitch, wallHeight, SideWall(d));
      && first.outcome.Ok? && first.heights.soffit.Some?
      && SoffitHeightPitchStep(t, d, first.heights, pitch, first.heights.soffit.value) == first
  {
    AngledDefined(t, pitch, d.thickness);
    var tp := t.tan(pitch);
    assert (wallHeight - d.overhang * tp) + d.overhang * tp == wallHeight;
  }

  /** Solving from the peak and soffit that `wall_height_pitch` produced recovers the pitch
      through the arc tangent, and with it every height, as long as the run from soffit to
      peak (side wall plus overhang) is not zero. */
  lemma WallHeightPitchThenSoffitHeightPeakHeight(t: Trig, d: Dims, h: Heights, pitch: real, wallHeight: real)
    requires Lawful(t) && RoofPitch(t, pitch)
    requires SideWall(d) + d.overhang != 0.0
    ensures var first := WallHeightPitchStep(t, d, h, pitch, wallHeight, SideWall(d));
      && first.outcome.Ok? && first.heights.peak.Some? && first.heights.soffit.Some?
      && SoffitHeightPeakHeightStep(t, d, first.heights, first.heights.peak.value, first.heights.soffit.value)
         == first
  {
    AngledDefined(t, pitch, d.thickness);
    var tp := t.tan(pitch);
    var run := SideWall(d) + d.overhang;
    var first := WallHeightPitchStep(t, d, h, pitch, wallHeight, SideWall(d));
    assert first.heights.peak.value - first.heights.soffit.value == run * tp;
    assert (run * tp) / run == tp;
    assert t.atan(tp) == pitch;
  }

  /** On a Studio, solving from the drip edge of a plumb-cut panel (soffit plus the angled
      thickness) at the same pitch gives back every height `wall_height_pitch` solved, and
      records the drip edge. */
  lemma WallHeightPitchThenDripEdgePitch(t: Trig, d: Dims, h: Heights, pitch: real, wallHeight: real)
    requires Lawful(t) && RoofPitch(t, pitch)
    requires d.pitchedWall == Some(SideWall(d))
    ensures var first := WallHeightPitchStep(t, d, h, pitch, wallHeight, SideWall(d));
      && first.outcome.Ok? && first.heights.soffit.Some?
      && var drip := first.heights.soffit.value + Angled(t, pitch, d.thickness).value;
      && DripEdgePitchStep(t, d, first.heights, drip, pitch)
         == Step(first.heights.(dripEdge := Some(drip)), Ok(()))
  {
    AngledDefined(t, pitch, d.thickness);
  }

  class Sunroom {
    /** Which subclass the object is. */
    const kind: SunroomType
    const overhang: real
    const awall: real
    const bwall: real
    const cwall: real
    const thickness: real
    const endcut: string
    /** The overhang past each side, at most 16 inches. */
    const sideOverhang: real
    /** The wall the roof panels run across: B for a Studio, the longer gable wall for a
        Cathedral. */
    const soffitWall: real
    /** The wall the panels run along; only a Studio's constructor assigns it. */
    var pitchedWall: Option<real>
    /** The split-panel option: 0 on a Studio, unset on a Cathedral. */
    var tabWidget: Option<int>
    var pitch: Option<real>
    var peak: Option<real>
    var maxH: Option<real>
    var soffitWallHeight: Option<real>
    var soffit: Option<real>
    var dripEdge: Option<real>

    function SolvedHeights(): Heights
      reads this
    {
      Heights(pitch, peak, maxH, soffitWallHeight, soffit, dripEdge)
    }

    function Dimensions(): Dims
      reads this
    {
      Dims(overhang, awall, cwall, thickness, pitchedWall)
    }

    /** `Studio(overhang, awall, bwall, cwall, thickness, endcut)`: panels run along the
        longer gable wall and across the B wall; no heights solved yet. */
    constructor Studio(overhang: real, awall: real, bwall: real, cwall: real, thickness: real, endcut: string)
      ensures kind == SunroomType.Studio
      ensures this.overhang == overhang && this.awall == awall && this.bwall == bwall
      ensures this.cwall == cwall && this.thickness == thickness && this.endcut == endcut
      ensures sideOverhang == SideOverhang(overhang)
      ensures soffitWall == bwall && pitchedWall == Some(SideWall(Dimensions())) && tabWidget == Some(0)
      ensures SolvedHeights() == Unsolved
    {
      kind := SunroomType.Studio;
      this.overhang := overhang;
      this.awall := awall;
      this.bwall := bwall;
      this.cwall := cwall;
      this.thickness := thickness;
      this.endcut := endcut;
      sideOverhang := if overhang > 16.0 then 16.0 else overhang;
      pitch, peak, maxH, soffitWallHeight, soffit, dripEdge := None, None, None, None, None, None;
      pitchedWall := Some(if cwall > awall then cwall else awall);
      soffitWall := bwall;
      tabWidget := Some(0);
    }

    /** `Cathedral(overhang, awall, bwall, cwall, thickness, endcut)`: panels run across the
        longer gable wall; the pitched wall and the split option are left unset. */
    constructor Cathedral(overhang: real, awall: real, bwall: real, cwall: real, thickness: real, endcut: string)
      ensures kind == SunroomType.Cathedral
      ensures this.overhang == overhang && this.awall == awall && this.bwall == bwall
      ensures this.cwall == cwall && this.thickness == thickness && this.endcut == endcut
      ensures sideOverhang == SideOverhang(overhang)
      ensures soffitWall == SideWall(Dimensions()) && pitchedWall == None && tabWidget == None
      ensures SolvedHeights() == Unsolved
    {
      kind := SunroomType.Cathedral;
      this.overhang := overhang;
      this.awall := awall;
      this.bwall := bwall;
      this.cwall := cwall;
      this.thickness := thickness;
      this.endcut := endcut;
      sideOverhang := if overhang > 16.0 then 16.0 else overhang;
      pitch, peak, maxH, soffitWallHeight, soffit, dripEdge := None, None, None, None, None, None;
      pitchedWall := None;
      tabWidget := None;
      soffitWall := if cwall > awall then cwall else awall;
    }

    /** `panel_length()`: arithmetic on a pitch or pitched wall still `None` raises
        `TypeError`; otherwise the fabrication rule, with `'uncut'` ends using the plain run. */
    function PanelLength(t: Trig): (r: Result<PanelCut>)
      reads this
      ensures pitch.None? || pitchedWall.None? ==> r == Raised(TypeError)
      ensures r.Ok? <==> pitch.Some? && pitchedWall.Some? && t.cos(pitch.value) != 0.0
      ensures r.Ok? ==>
        r == Fabrication.PanelLength(t, endcut == "uncut", pitch.value, pitchedWall.value, overhang, thickness)
    {
      if pitch.None? || pitchedWall.None? then Raised(TypeError)
      else Fabrication.PanelLength(t, endcut == "uncut", pitch.value, pitchedWall.value, overhang, thickness)
    }

    /** `roof_panels()`: the Studio or Cathedral panel layout for this roof's panel length.
        The overhang is never reported too short, and only a Cathedral can split a panel. */
    function RoofPanels(t: Trig): (r: Result<RoofLayout>)
      reads this
      ensures r.Ok? <==> PanelLength(t).Ok?
      ensures r.Ok? ==> !r.value.overhangShort && r.value.roofArea == RoofArea(PanelLength(t).value, r.value.panels)
      ensures r.Ok? && r.value.split ==> kind == SunroomType.Cathedral && tabWidget == Some(1)
      ensures r.Ok? && kind == SunroomType.Studio ==>
        r.value.panels * PanelWidth >= soffitWall + 2.0 * sideOverhang
      ensures r.Ok? ==>
        r.value == if kind == SunroomType.Studio then StudioRoofPanels(soffitWall, sideOverhang, PanelLength(t).value)
                   else CathedralRoofPanels(soffitWall, sideOverhang, tabWidget, PanelLength(t).value)
    {
      var cut :- PanelLength(t);
      if kind == SunroomType.Studio then Ok(StudioRoofPanels(soffitWall, sideOverhang, cut))
      else
        var layout := CathedralRoofPanels(soffitWall, sideOverhang, tabWidget, cut);
        assert kind == SunroomType.Cathedral;
        assert layout.split ==> tabWidget == Some(1);
        Ok(layout)
    }

    /** `hang_rail()`: a Studio's rail spans its panels, a Cathedral's is the panel length;
        either is halved over 216 inches. */
    function HangRail(t: Trig): (r: Result<Capped>)
      reads this
      ensures r.Ok? <==> PanelLength(t).Ok?
      ensures r.Ok? && kind == SunroomType.Studio ==> Unhalved(r.value) == RoofPanels(t).value.panels * PanelWidth
      ensures r.Ok? && kind == SunroomType.Cathedral ==> Unhalved(r.value) == PanelLength(t).value.length
      ensures r.Ok? ==> (r.value.overLimit <==> Unhalved(r.value) > MaxRailStock)
    {
      if kind == SunroomType.Studio then
        var layout :- RoofPanels(t);
        Ok(StudioHangRail(layout.panels))
      else
        var cut :- PanelLength(t);
        Ok(CathedralHangRail(cut))
    }

    /** `fascia()`: wall fascia across the panels plus 12 inches (Studio) or 6 (Cathedral),
        side fascia the panel length plus 6. */
    function Fascia(t: Trig): (r: Result<FasciaCut>)
      reads this
      ensures r.Ok? <==> PanelLength(t).Ok?
      ensures r.Ok? ==>
        && Unhalved(r.value.wall) == RoofPanels(t).value.panels * PanelWidth
                                     + (if kind == SunroomType.Studio then 12.0 else 6.0)
        && Unhalved(r.value.sides) == PanelLength(t).value.length + 6.0
        && (r.value.wall.overLimit <==> Unhalved(r.value.wall) > MaxRailStock)
        && (r.value.sides.overLimit <==> Unhalved(r.value.sides) > MaxRailStock)
      ensures r.Ok? ==>
        r.value == Fabrication.Fascia(RoofPanels(t).value.panels, PanelLength(t).value.length,
                                      if kind == SunroomType.Studio then 12.0 else 6.0)
    {
      match RoofPanels(t)
      case Raised(e) => Raised(e)
      case Ok(layout) =>
        Ok(Fabrication.Fascia(layout.panels, PanelLength(t).value.length,
                              if kind == SunroomType.Studio then 12.0 else 6.0))
    }

    /** A Cathedral's constructor never assigns the pitched wall, so every fabrication query
        that reads it raises `TypeError`, whatever heights have been solved. */
    lemma CathedralQueriesRaise(t: Trig)
      requires kind == SunroomType.Cathedral && pitchedWall.None?
      ensures PanelLength(t) == Raised(TypeError) && RoofPanels(t) == Raised(TypeError)
      ensures HangRail(t) == Raised(TypeError) && Fascia(t) == Raised(TypeError)
      ensures ArmstrongPanels(t) == Raised(TypeError)
    {
    }

    /** `armstrong_panels()`: boxes for the ceiling under the pitched wall's rake across the
        soffit wall. */
    function ArmstrongPanels(t: Trig): (r: Result<int>)
      reads this
      ensures pitch.None? || pitchedWall.None? ==> r == Raised(TypeError)
      ensures r.Ok? <==> pitch.Some? && pitchedWall.Some? && t.cos(pitch.value) != 0.0
      ensures r.Ok? ==> r == ArmstrongBoxes(t, pitch.value, pitchedWall.value, soffitWall)
    {
      if pitch.None? || pitchedWall.None? then Raised(TypeError)
      else ArmstrongBoxes(t, pitch.value, pitchedWall.value, soffitWall)
    }

    /** `wall_height_pitch`: pitch, wall height, soffit and peak, then the max height, which
        needs the angled thickness. */
    method WallHeightPitch(t: Trig, pitch: real, wallHeight: real, sideWall: real) returns (r: Result<()>)
      modifies this
      ensures pitchedWall == old(pitchedWall) && tabWidget == old(tabWidget)
      ensures Step(SolvedHeights(), r) == WallHeightPitchStep(t, old(Dimensions()), old(SolvedHeights()), pitch, wallHeight, sideWall)
    {
      this.pitch := Some(pitch);
      soffitWallHeight := Some(wallHeight);
      soffit := Some(wallHeight - Rise(t, overhang, pitch));
      var newPeak := wallHeight + Rise(t, sideWall, pitch);
      peak := Some(newPeak);
      var a :- Angled(t, pitch, thickness);
      maxH := Some(newPeak + a);
      r := Ok(());
    }

    /** `max_height_pitch`: the wall height is the max height less the rise over the longer
        gable wall and the angled thickness. */
    method MaxHeightPitch(t: Trig, pitch: real, maxH: real) returns (r: Result<()>)
      modifies this
      ensures pitchedWall == old(pitchedWall) && tabWidget == old(tabWidget)
      ensures Step(SolvedHeights(), r) == MaxHeightPitchStep(t, old(Dimensions()), old(SolvedHeights()), pitch, maxH)
    {
      this.pitch := Some(pitch);
      var a :- Angled(t, pitch, thickness);
      var wallHeight := maxH - Rise(t, SideWall(Dimensions()), pitch) - a;
      soffitWallHeight := Some(wallHeight);
      soffit := Some(wallHeight - Rise(t, overhang, pitch));
      peak := Some(maxH - a);
      r := Ok(());
    }

    /** `soffit_height_peak_height`: the pitch is the arc tangent of the rise from soffit to
        peak over the longer gable wall plus the overhang. */
    method SoffitHeightPeakHeight(t: Trig, peak: real, soffit: real) returns (r: Result<()>)
      modifies this
      ensures pitchedWall == old(pitchedWall) && tabWidget == old(tabWidget)
      ensures Step(SolvedHeights(), r) == SoffitHeightPeakHeightStep(t, old(Dimensions()), old(SolvedHeights()), peak, soffit)
    {
      this.soffit := Some(soffit);
      this.peak := Some(peak);
      var slope :- Div(peak - soffit, SideWall(Dimensions()) + overhang);
      var newPitch := t.atan(slope);
      pitch := Some(newPitch);
      soffitWallHeight := Some(soffit + Rise(t, overhang, newPitch));
      var a :- Angled(t, newPitch, thickness);
      maxH := Some(peak + a);
      r := Ok(());
    }

    /** `soffit_height_pitch`: the wall height is the soffit plus the overhang's rise, the
        peak that plus the pitched wall's rise. */
    method SoffitHeightPitch(t: Trig, pitch: real, soffit: real) returns (r: Result<()>)
      modifies this
      ensures pitchedWall == old(pitchedWall) && tabWidget == old(tabWidget)
      ensures Step(SolvedHeights(), r) == SoffitHeightPitchStep(t, old(Dimensions()), old(SolvedHeights()), pitch, soffit)
    {
      this.pitch := Some(pitch);
      this.soffit := Some(soffit);
      var wallHeight := soffit + Rise(t, overhang, pitch);
      soffitWallHeight := Some(wallHeight);
      if pitchedWall.None? {
        return Raised(TypeError);
      }
      var newPeak := wallHeight + Rise(t, pitchedWall.value, pitch);
      peak := Some(newPeak);
      var a :- Angled(t, pitch, thickness);
      maxH := Some(newPeak + a);
      r := Ok(());
    }

    /** `drip_edge_pitch`: the soffit is the drip edge less the angled thickness, and the
        rest follows as in `soffit_height_pitch`. */
    method DripEdgePitch(t: Trig, dripEdge: real, pitch: real) returns (r: Result<()>)
      modifies this
      ensures pitchedWall == old(pitchedWall) && tabWidget == old(tabWidget)
      ensures Step(SolvedHeights(), r) == DripEdgePitchStep(t, old(Dimensions()), old(SolvedHeights()), dripEdge, pitch)
    {
      this.pitch := Some(pitch);
      this.dripEdge := Some(dripEdge);
      var a :- Angled(t, pitch, thickness);
      var newSoffit := dripEdge - a;
      soffit := Some(newSoffit);
      var wallHeight := newSoffit + Rise(t, overhang, pitch);
      soffitWallHeight := Some(wallHeight);
      if pitchedWall.None? {
        return Raised(TypeError);
      }
      var newPeak := wallHeight + Rise(t, pitchedWall.value, pitch);
      peak := Some(newPeak);
      maxH := Some(newPeak + a);
      r := Ok(());
    }
  }
}
