/** The fabrication rules of the newer `SunroomBuilder`: the Armstrong box count and the
    panel length, which it stores in a new `ToolkitLength` through the length setter. */
module SunroomBuilders {
  import opened PyValues
  import opened Geometry
  import opened Fabrication
  import opened ToolkitEnums
  import opened ToolkitLengths

  /** `calculate_armstrong_panels(pitch, pitched_wall, unpitched_wall)`: the fewest 29 square
      foot boxes covering the ceiling under the rake, plus 10% waste; a zero cosine raises. */
  function CalculateArmstrongPanels(t: Trig, pitch: real, pitchedWall: real, unpitchedWall: real): (r: Result<int>)
    ensures r.Ok? <==> t.cos(pitch) != 0.0
    ensures r.Ok? ==>
      var area := CeilingArea(t, pitch, pitchedWall, unpitchedWall).value;
      && area * t.cos(pitch) * 144.0 == pitchedWall * unpitchedWall
      && (r.value - 1) as real * ArmstrongBoxArea < area + area * 0.1 <= r.value as real * ArmstrongBoxArea
  {
    ArmstrongBoxes(t, pitch, pitchedWall, unpitchedWall)
  }

  /** What `_calculate_panel_length` computes, as values: the length it stores, the
      `'Max Length Check'` flag and the `'Panel Tolerance'` flag. */
  datatype PanelLengthValues = PanelLengthValues(length: real, maxLengthCheck: bool, panelTolerance: bool)

  /** The panel length as the builder computes it. The raw length is rounded to the foot;
      the setter accepts any non-zero value, so the length is stored unhalved with the
      max-length flag false. A zero rounded length is refused, and so is its half, 0.0, in
      the handler, so `ValueError` escapes. */
  function BuilderPanelLength(t: Trig, endCuts: EndCutType, pitch: real, pitchedWall: real,
                              overhang: real, thickness: real): (r: Result<PanelLengthValues>)
  {
    var raw :- RawPanelLength(t, endCuts == UncutTopBottom, pitch, pitchedWall, overhang, thickness);
    var rounded := RoundToFoot(raw);
    if rounded.value == 0 then Raised(ValueError(EmptyLengthMessage))
    else Ok(PanelLengthValues(rounded.value as real, false, rounded.tolerance))
  }

  /** The builder's panel length is the raw length rounded to the foot, never capped: where
      the single-file calculator orders two halves of a panel over 288 inches, the builder
      stores the whole length and reports no max-length problem. */
  lemma BuilderPanelLengthNeverCapped(t: Trig, endCuts: EndCutType, pitch: real, pitchedWall: real,
                                      overhang: real, thickness: real)
    ensures var r := BuilderPanelLength(t, endCuts, pitch, pitchedWall, overhang, thickness);
      var legacy := PanelLength(t, endCuts == UncutTopBottom, pitch, pitchedWall, overhang, thickness);
      && (r.Ok? ==> legacy.Ok?
                    && !r.value.maxLengthCheck
                    && r.value.panelTolerance == legacy.value.tolerance
                    && r.value.length == (if legacy.value.maxLength then 2.0 * legacy.value.length
                                          else legacy.value.length))
      && (r.Ok? && r.value.length > MaxPanelStock ==> legacy.value.maxLength && !r.value.maxLengthCheck)
  {
  }

  /** The builder's length is a whole number of feet, within an inch below the raw length
      (tolerance) or less than 11 inches above it. */
  lemma BuilderPanelLengthRounding(t: Trig, endCuts: EndCutType, pitch: real, pitchedWall: real,
                                   overhang: real, thickness: real)
    requires BuilderPanelLength(t, endCuts, pitch, pitchedWall, overhang, thickness).Ok?
    ensures var r := BuilderPanelLength(t, endCuts, pitch, pitchedWall, overhang, thickness).value;
      var raw := RawPanelLength(t, endCuts == UncutTopBottom, pitch, pitchedWall, overhang, thickness).value;
      && r.length != 0.0 && r.length == r.length.Floor as real && r.length.Floor % 12 == 0
      && (r.panelTolerance <==> PyMod(raw, 12.0) <= 1.0)
      && (r.panelTolerance ==> 0.0 <= raw - r.length <= 1.0)
      && (!r.panelTolerance ==> 0.0 < r.length - raw < 11.0)
  {
  }

  /** A zero cosine raises `ZeroDivisionError`; a raw length that rounds to zero feet raises
      `ValueError` out of the handler; nothing else raises. */
  lemma BuilderPanelLengthErrors(t: Trig, endCuts: EndCutType, pitch: real, pitchedWall: real,
                                 overhang: real, thickness: real)
    ensures var r := BuilderPanelLength(t, endCuts, pitch, pitchedWall, overhang, thickness);
      && (t.cos(pitch) == 0.0 <==> r == Raised(ZeroDivisionError))
      && (t.cos(pitch) != 0.0 ==>
            (r == Raised(ValueError(EmptyLengthMessage)) <==>
             RoundToFoot(RawPanelLength(t, endCuts == UncutTopBottom, pitch, pitchedWall, overhang, thickness).value).value == 0))
      && (r.Raised? ==> r == Raised(ZeroDivisionError) || r == Raised(ValueError(EmptyLengthMessage)))
  {
  }

  /** The entries of the returned dictionary, which always has exactly these three keys. */
  datatype PanelLengthEntry = PanelLengthEntry(panelLength: ToolkitLength, maxLengthCheck: bool, panelTolerance: bool)

  /** `_calculate_panel_length(pitch, pitched_wall, overhang, thickness)`, with `endCuts`
      standing for the state model's end-cut choice: a new panel-type `ToolkitLength` is set
      to the rounded length, falling back to half of it with the max-length flag when the
      setter refuses. */
  method CalculatePanelLength(t: Trig, endCuts: EndCutType, pitch: real, pitchedWall: real,
                              overhang: real, thickness: real) returns (r: Result<PanelLengthEntry>)
    ensures var spec := BuilderPanelLength(t, endCuts, pitch, pitchedWall, overhang, thickness);
      && (r.Ok? <==> spec.Ok?)
      && (r.Raised? ==> r.error == spec.error)
      && (r.Ok? ==>
            && fresh(r.value.panelLength)
            && r.value.panelLength.lengthType == Panel
            && r.value.panelLength.length == Num(spec.value.length)
            && r.value.maxLengthCheck == spec.value.maxLengthCheck
            && r.value.panelTolerance == spec.value.panelTolerance)
  {
    var maxPanelLength := false;
    var panelTolerance := false;
    var panelLength := new ToolkitLength(Panel);
    var pLength :- RawPanelLength(t, endCuts == UncutTopBottom, pitch, pitchedWall, overhang, thickness);
    var value: int;
    if PyMod(pLength, 12.0) <= 1.0 {
      panelTolerance := true;
      value := Floor(pLength / 12.0) * 12;
    } else {
      value := Ceil(pLength / 12.0) * 12;
    }
    assert RoundToFoot(pLength) == FootRounding(value, panelTolerance);
    var stored := panelLength.SetLength(Num(value as real));
    if stored.Raised? {
      maxPanelLength := true;
      var retry := panelLength.SetLength(Num(value as real / 2.0));
      if retry.Raised? {
        return Raised(retry.error);
      }
    }
    r := Ok(PanelLengthEntry(panelLength, maxPanelLength, panelTolerance));
  }
}
