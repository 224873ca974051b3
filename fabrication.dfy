/** The fabrication rules that turn a solved roof into ordered quantities: panel length
    rounded to the foot with a one-inch tolerance, stock-length halving, roof-panel counts
    over 32-inch panels with the side-overhang correction, hang-rail and fascia lengths,
    and the Armstrong ceiling box count. Lengths are in inches. */
module Fabrication {
  import opened PyValues
  import opened Geometry

  /** Width of one roof panel. */
  const PanelWidth: real := 32.0
  /** Longest panel stock; a longer panel is ordered as two halves. */
  const MaxPanelStock: real := 288.0
  /** Longest hang-rail and fascia stock. */
  const MaxRailStock: real := 216.0
  /** Side overhang above which the roof is flagged as overhanging too far. */
  const MaxSideOverhang: real := 16.0
  /** Square feet covered by one box of Armstrong ceiling panels. */
  const ArmstrongBoxArea: real := 29.0

  /** A length rounded to a whole number of feet, with the tolerance flag. */
  datatype FootRounding = FootRounding(value: int, tolerance: bool)

  /** Round a raw panel length to the foot: at most one inch past a foot rounds down
      (the tolerance case), anything more rounds up. */
  function RoundToFoot(p: real): (r: FootRounding)
    ensures r.value % 12 == 0
    ensures r.tolerance <==> PyMod(p, 12.0) <= 1.0
    ensures r.tolerance ==> 0.0 <= p - r.value as real <= 1.0
    ensures !r.tolerance ==> 0.0 < r.value as real - p < 11.0
  {
    var m := PyMod(p, 12.0);
    var q := Floor(p / 12.0);
    assert p - m == q as real * 12.0;
    if m <= 1.0 then
      FootRounding(q * 12, true)
    else
      assert p / 12.0 == q as real + m / 12.0;
      assert Ceil(p / 12.0) == q + 1;
      FootRounding(Ceil(p / 12.0) * 12, false)
  }

  /** A length checked against a stock length. */
  datatype Capped = Capped(length: real, overLimit: bool)

  /** A length over the stock length is ordered as two halves and flagged. */
  function CapAtStock(x: real, stock: real): (r: Capped)
    ensures r.overLimit <==> x > stock
    ensures r.overLimit ==> r.length * 2.0 == x
    ensures !r.overLimit ==> r.length == x
    ensures 0.0 <= stock && x <= 2.0 * stock ==> r.length <= stock
  {
    if x > stock then Capped(x / 2.0, true) else Capped(x, false)
  }

  /** The length before any halving: what the order of two halves adds up to. */
  function Unhalved(c: Capped): real {
    if c.overLimit then c.length * 2.0 else c.length
  }

  /** `panel_length()`'s result: the length to order, whether it was halved, and whether
      the one-inch tolerance rounded it down. */
  datatype PanelCut = PanelCut(length: real, maxLength: bool, tolerance: bool)

  /** The raw panel length along the slope: the run plus the overhang over cos(pitch); for
      cut ends, the larger of that and the length including the top cut's
      `thickness * sin(pitch)`. */
  function RawPanelLength(t: Trig, uncut: bool, pitch: real, pitchedWall: real,
                          overhang: real, thickness: real): (r: Result<real>)
    ensures r.Ok? <==> t.cos(pitch) != 0.0
    ensures r.Ok? ==> r.value >= (pitchedWall + overhang) / t.cos(pitch)
    ensures r.Ok? && uncut ==> r.value * t.cos(pitch) == pitchedWall + overhang
    ensures r.Ok? && !uncut ==> r.value * t.cos(pitch) == pitchedWall + overhang ||
                                r.value * t.cos(pitch) == pitchedWall + overhang + thickness * t.sin(pitch)
    ensures r.Ok? && !uncut ==> r.value >= (pitchedWall + overhang + thickness * t.sin(pitch)) / t.cos(pitch)
  {
    var c := t.cos(pitch);
    if c == 0.0 then Raised(ZeroDivisionError)
    else if uncut then Ok((pitchedWall + overhang) / c)
    else
      var bottom := (pitchedWall + overhang) / c;
      var top := (pitchedWall + overhang + thickness * t.sin(pitch)) / c;
      Ok(if bottom >= top then bottom else top)
  }

  /** On a roof pitch with a non-negative thickness the top cut is never the shorter one:
      cut ends order the run, the overhang and the top cut over cos(pitch). */
  lemma CutEndsUseTopLength(t: Trig, pitch: real, pitchedWall: real, overhang: real, thickness: real)
    requires Lawful(t) && RoofPitch(t, pitch) && 0.0 <= thickness
    ensures RawPanelLength(t, false, pitch, pitchedWall, overhang, thickness).Ok?
    ensures RawPanelLength(t, false, pitch, pitchedWall, overhang, thickness).value * t.cos(pitch)
            == pitchedWall + overhang + thickness * t.sin(pitch)
  {
    var c, s := t.cos(pitch), t.sin(pitch);
    assert 0.0 < c && 0.0 <= s;
    var b, u := pitchedWall + overhang, pitchedWall + overhang + thickness * s;
    assert b <= u;
    DivMonotone(b, u, c);
  }

  lemma DivMonotone(a: real, b: real, c: real)
    requires a <= b && 0.0 < c
    ensures a / c <= b / c
  {
    assert b / c - a / c == (b - a) / c;
  }

  /** `panel_length()`: the raw length rounded to the foot, halved when over 288 inches. */
  function PanelLength(t: Trig, uncut: bool, pitch: real, pitchedWall: real,
                       overhang: real, thickness: real): (r: Result<PanelCut>)
    ensures r.Ok? <==> t.cos(pitch) != 0.0
    ensures r.Ok? ==>
      var raw := RawPanelLength(t, uncut, pitch, pitchedWall, overhang, thickness).value;
      var rounded := RoundToFoot(raw);
      && r.value.tolerance == rounded.tolerance
      && (r.value.maxLength <==> rounded.value as real > MaxPanelStock)
      && (if r.value.maxLength then 2.0 * r.value.length else r.value.length) == rounded.value as real
  {
    var raw :- RawPanelLength(t, uncut, pitch, pitchedWall, overhang, thickness);
    var rounded := RoundToFoot(raw);
    var capped := CapAtStock(rounded.value as real, MaxPanelStock);
    Ok(PanelCut(capped.length, capped.overLimit, rounded.tolerance))
  }

  /** `roof_panels()`'s result. */
  datatype RoofLayout = RoofLayout(
    roofArea: int,
    panels: real,
    sideOverhang: real,
    overhangShort: bool,
    overhangLong: bool,
    split: bool)

  /** The roof area in square inches; a halved panel counts at its full length again. */
  function RoofArea(cut: PanelCut, panels: real): int {
    if cut.maxLength then Ceil(cut.length * 2.0 * panels * PanelWidth)
    else Ceil(cut.length * panels * PanelWidth)
  }

  /** Whatever halving `PanelLength` applied, the roof area is computed from the rounded,
      unhalved panel length. */
  lemma RoofAreaUsesUnhalvedLength(t: Trig, uncut: bool, pitch: real, pitchedWall: real,
                                   overhang: real, thickness: real, panels: real)
    requires PanelLength(t, uncut, pitch, pitchedWall, overhang, thickness).Ok?
    ensures var raw := RawPanelLength(t, uncut, pitch, pitchedWall, overhang, thickness).value;
            RoofArea(PanelLength(t, uncut, pitch, pitchedWall, overhang, thickness).value, panels)
            == Ceil(RoundToFoot(raw).value as real * panels * PanelWidth)
  {
    var cut := PanelLength(t, uncut, pitch, pitchedWall, overhang, thickness).value;
    var raw := RawPanelLength(t, uncut, pitch, pitchedWall, overhang, thickness).value;
    var full := RoundToFoot(raw).value as real;
    if cut.maxLength {
      assert cut.length * 2.0 == full;
      assert cut.length * 2.0 * panels * PanelWidth == full * panels * PanelWidth;
    }
  }

  /** The side overhang a roof is built with: the requested overhang, at most 16 inches. */
  function SideOverhang(overhang: real): (r: real)
    ensures r <= MaxSideOverhang
    ensures r == overhang || r == MaxSideOverhang
    ensures overhang <= MaxSideOverhang ==> r == overhang
  {
    if overhang > 16.0 then 16.0 else overhang
  }

  /** The overhang correction after the panel count is known: `achieved` is the overhang the
      whole panels give on one side. Too short a side is reported first, then too long. */
  function CorrectOverhang(achieved: real, sideOverhang: real): (r: (real, bool, bool))
    ensures !(r.1 && r.2)
    ensures r.1 <==> achieved < sideOverhang
    ensures r.2 <==> sideOverhang <= achieved && achieved > MaxSideOverhang
    ensures r.0 == if r.1 || r.2 then achieved else sideOverhang
  {
    if achieved < sideOverhang then (achieved, true, false)
    else if achieved > 16.0 then (achieved, false, true)
    else (sideOverhang, false, false)
  }

  /** Studio `roof_panels()`: enough 32-inch panels to cover the B wall plus a side overhang
      on each end, then the overhang those panels actually give. */
  function StudioRoofPanels(soffitWall: real, sideOverhang: real, cut: PanelCut): (r: RoofLayout)
    ensures var width := soffitWall + 2.0 * sideOverhang;
      && r.panels == r.panels.Floor as real
      && (r.panels - 1.0) * PanelWidth < width <= r.panels * PanelWidth
    ensures !r.overhangShort && !r.split
    ensures r.overhangLong <==> (r.panels * PanelWidth - soffitWall) / 2.0 > MaxSideOverhang
    ensures r.sideOverhang == if r.overhangLong then (r.panels * PanelWidth - soffitWall) / 2.0 else sideOverhang
    ensures sideOverhang <= r.sideOverhang < sideOverhang + MaxSideOverhang
    ensures r.roofArea == RoofArea(cut, r.panels)
  {
    var width := soffitWall + sideOverhang * 2.0;
    var panels := Ceil(width / PanelWidth);
    assert width <= panels as real * PanelWidth < width + PanelWidth;
    var corrected := CorrectOverhang((panels as real * PanelWidth - soffitWall) / 2.0, sideOverhang);
    RoofLayout(RoofArea(cut, panels as real), panels as real, corrected.0, corrected.1, corrected.2, false)
  }

  /** Cathedral `roof_panels()`: panels for one side of the ridge, that side's overhang only.
      With the split option (`tabWidget == 1`) a width whose last panel is at most half used
      is covered with a half panel. */
  function CathedralRoofPanels(soffitWall: real, sideOverhang: real, tabWidget: Option<int>,
                               cut: PanelCut): (r: RoofLayout)
    ensures var width := soffitWall + sideOverhang;
      && width <= r.panels * PanelWidth
      && (r.split ==> r.panels - 0.5 == (r.panels - 0.5).Floor as real
                      && r.panels * PanelWidth < width + PanelWidth / 2.0 + PanelWidth / 2.0)
      && (!r.split ==> r.panels == r.panels.Floor as real && r.panels * PanelWidth < width + PanelWidth)
    ensures var width := soffitWall + sideOverhang;
      r.split <==> tabWidget == Some(1)
                   && width / PanelWidth <= Floor(width / PanelWidth) as real + 0.5
    ensures var width := soffitWall + sideOverhang;
      r.panels == if r.split then Floor(width / PanelWidth) as real + 0.5 else Ceil(width / PanelWidth) as real
    ensures !r.overhangShort
    ensures r.overhangLong <==> r.panels * PanelWidth - soffitWall > MaxSideOverhang
    ensures r.sideOverhang == if r.overhangLong then r.panels * PanelWidth - soffitWall else sideOverhang
    ensures r.roofArea == RoofArea(cut, r.panels)
  {
    var width := soffitWall + sideOverhang;
    var whole := Floor(width / PanelWidth);
    var half := tabWidget == Some(1) && width / PanelWidth <= whole as real + 0.5;
    var panels := if half then whole as real + 0.5 else Ceil(width / PanelWidth) as real;
    assert width <= panels * PanelWidth by {
      if half {
        assert width == (width / PanelWidth) * PanelWidth;
      }
    }
    var corrected := CorrectOverhang(panels * PanelWidth - soffitWall, sideOverhang);
    RoofLayout(RoofArea(cut, panels), panels, corrected.0, corrected.1, corrected.2, half)
  }

  /** Studio `hang_rail()`: one rail across all the panels. */
  function StudioHangRail(panels: real): (r: Capped)
    ensures Unhalved(r) == panels * PanelWidth
    ensures r.overLimit <==> panels * PanelWidth > MaxRailStock
  {
    CapAtStock(panels * PanelWidth, MaxRailStock)
  }

  /** Cathedral `hang_rail()`: a rail as long as the (possibly halved) panel. */
  function CathedralHangRail(cut: PanelCut): (r: Capped)
    ensures Unhalved(r) == cut.length
    ensures r.overLimit <==> cut.length > MaxRailStock
  {
    CapAtStock(cut.length, MaxRailStock)
  }

  /** `fascia()`'s result: wall fascia and side fascia, each checked against stock. */
  datatype FasciaCut = FasciaCut(wall: Capped, sides: Capped)

  /** `fascia()`: the wall fascia spans the panels plus an end allowance (12 inches for a
      Studio, 6 for a Cathedral), the side fascia the panel length plus 6 inches; each is
      halved independently when over stock. */
  function Fascia(panels: real, panelLength: real, wallAllowance: real): (r: FasciaCut)
    ensures Unhalved(r.wall) == panels * PanelWidth + wallAllowance
    ensures Unhalved(r.sides) == panelLength + 6.0
    ensures r.wall.overLimit <==> panels * PanelWidth + wallAllowance > MaxRailStock
    ensures r.sides.overLimit <==> panelLength + 6.0 > MaxRailStock
  {
    FasciaCut(CapAtStock(panels * PanelWidth + wallAllowance, MaxRailStock),
              CapAtStock(panelLength + 6.0, MaxRailStock))
  }

  /** Boxes of Armstrong panels for a ceiling area in square feet: the fewest boxes of
      29 square feet that cover the area plus 10% waste. */
  function BoxesForArea(area: real): (n: int)
    ensures (n - 1) as real * ArmstrongBoxArea < area + area * 0.1 <= n as real * ArmstrongBoxArea
  {
    var boxes := (area + area * 0.1) / ArmstrongBoxArea;
    assert boxes * ArmstrongBoxArea == area + area * 0.1;
    Ceil(boxes)
  }

  lemma BoxesForAreaMonotone(a1: real, a2: real)
    requires a1 <= a2
    ensures BoxesForArea(a1) <= BoxesForArea(a2)
  {
    CeilMonotone((a1 + a1 * 0.1) / ArmstrongBoxArea, (a2 + a2 * 0.1) / ArmstrongBoxArea);
  }

  lemma BoxesForAreaNonNegative(area: real)
    requires 0.0 <= area
    ensures 0 <= BoxesForArea(area)
  {
    BoxesForAreaMonotone(0.0, area);
  }

  /** The ceiling area in square feet under a rake of `pitchedWall / cos(pitch)`. */
  function CeilingArea(t: Trig, pitch: real, pitchedWall: real, unpitchedWall: real): (r: Result<real>)
    ensures r.Ok? <==> t.cos(pitch) != 0.0
    ensures r.Ok? ==> r.value * t.cos(pitch) * 144.0 == pitchedWall * unpitchedWall
  {
    var rake :- Div(pitchedWall, t.cos(pitch));
    Ok(rake * unpitchedWall / 144.0)
  }

  /** `armstrong_panels()` / `calculate_armstrong_panels`: boxes for the ceiling area. */
  function ArmstrongBoxes(t: Trig, pitch: real, pitchedWall: real, unpitchedWall: real): (r: Result<int>)
    ensures r.Ok? <==> t.cos(pitch) != 0.0
    ensures r.Ok? ==> r.value == BoxesForArea(CeilingArea(t, pitch, pitchedWall, unpitchedWall).value)
  {
    var area :- CeilingArea(t, pitch, pitchedWall, unpitchedWall);
    Ok(BoxesForArea(area))
  }

  /** On a roof pitch with non-negative walls the box count exists, is non-negative and
      grows with the unpitched wall. */
  lemma ArmstrongBoxesOnRoofPitch(t: Trig, pitch: real, pitchedWall: real, u1: real, u2: real)
    requires Lawful(t) && RoofPitch(t, pitch)
    requires 0.0 <= pitchedWall && 0.0 <= u1 <= u2
    ensures ArmstrongBoxes(t, pitch, pitchedWall, u1).Ok?
    ensures 0 <= ArmstrongBoxes(t, pitch, pitchedWall, u1).value
    ensures ArmstrongBoxes(t, pitch, pitchedWall, u1).value <= ArmstrongBoxes(t, pitch, pitchedWall, u2).value
  {
    var c := t.cos(pitch);
    assert 0.0 < c;
    var rake := pitchedWall / c;
    assert 0.0 <= rake;
    var a1, a2 := rake * u1 / 144.0, rake * u2 / 144.0;
    assert 0.0 <= a1 <= a2;
    BoxesForAreaNonNegative(a1);
    BoxesForAreaMonotone(a1, a2);
  }
}
