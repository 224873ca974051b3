# LivingSpace Toolkit sunroom calculator, in Dafny

This project models the dimension calculator of the LivingSpace Toolkit. The calculator
takes the walls of a Studio (single-slope) or Cathedral (gabled) sunroom, a roof pitch and one
or two known heights. It solves the remaining heights: wall height under the soffit, soffit,
peak, max height and drip edge. It then turns the solved roof into the quantities ordered for
fabrication:

- the panel length, rounded to the foot with a one-inch round-down tolerance and halved over
  288 inches of stock;
- the number of 32-inch roof panels, and the side overhang they give;
- the hang-rail and fascia lengths, halved over 216 inches;
- the roof area and the Armstrong ceiling boxes.

The model also covers the small types around the calculator:

- `ToolkitLength` and `ToolkitPitch`, value wrappers with validating setters;
- the `SunroomModel` record of per-side results and its `default_state` reset;
- the Studio closed-form solvers of `StudioCalcs`;
- the newer `SunroomBuilder` panel-length and Armstrong rules;
- `ScenarioSelector.identify_scenario`, which picks the solver for the chosen scenario.

Modules, file by file:

- `py_values.dfy` (`PyValues`): Python's exceptions and a `Result` type that either returns or
  raises. It also models the dynamically typed values the wrappers store, with Python's
  truthiness, `<`, `+` and `-`.
- `geometry.dfy` (`Geometry`):
  - floor and ceiling, Python's float `%`, and division that raises on zero;
  - the trigonometric functions as a record of real functions (`Trig`), with the few laws the
    proofs use (`Lawful`);
  - `angled`, the panel thickness measured vertically.
- `toolkit_enums.dfy` (`ToolkitEnums`): the enumerations, and `BySide`, a dictionary keyed by
  every roof side.
- `fabrication.dfy` (`Fabrication`): the fabrication rules as functions over values.
- `legacy_sunroom.dfy` (`LegacySunroom`): the `Sunroom`/`Studio`/`Cathedral` classes of
  `LivingspaceToolkitClass.py`, as one class `Sunroom` whose `kind` names the subclass. Its
  scenario methods assign heights one after another. Each is proved equal to a step function
  that also records how far the method got before raising.
- `units_rounding.dfy` (`UnitsRounding`): `assume_units`, `sixteenth` and `pitch_estimate`.
- `studio_calcs.dfy` (`StudioCalculations`): `StudioCalcs` and its solvers.
- `toolkit_length.dfy`, `toolkit_pitch.dfy` and `sunroom_model.dfy`: the value wrappers and
  the result record, as classes.
- `sunroom_builder.dfy` (`SunroomBuilders`): the builder's rules.
- `scenarios.dfy` (`ScenarioSelection`): scenario dispatch.

Trigonometry is not computed. `sin`, `cos`, `tan` and `atan` are parameters (`t: Trig`), and
the lemmas that need their laws require `Lawful(t)`:

- `pi/2 > 0` and `sin(pi/2) == 1`;
- `tan(atan(x)) == x` for every `x`;
- on a roof pitch `0 <= p < pi/2`: `cos(p) > 0`, `sin(pi/2 - p) == cos(p)`, `sin(p) >= 0`,
  `tan(p) >= 0` and `atan(tan(p)) == p`;
- `0 <= atan(x) < pi/2` for every `x >= 0`.

Floats are modelled as exact reals. Python's integer/float distinction is kept only where it
changes a result (`floor`/`ceil` return integers).

## Model

| member | source | states |
|---|---|---|
| Geometry.Floor | LivingspaceToolkitClass.py:153 | `math.floor`: the greatest integer not above `x` |
| Geometry.Ceil | LivingspaceToolkitClass.py:155 | `math.ceil`: the least integer not below `x` |
| Geometry.CeilMonotone | livingspacetoolkit/lib/sunroom_builder.py:30 | ceiling is monotone, which the box count relies on |
| Geometry.PyMod | LivingspaceToolkitClass.py:148 | Python float `%` by a positive modulus: result in `[0, m)`, and `x - r` is `m` times the floored quotient |
| Geometry.Div | LivingspaceToolkitClass.py:143 | Python `/`: raises `ZeroDivisionError` exactly for a zero divisor, otherwise the quotient times the divisor is the dividend |
| Geometry.Angled | LivingspaceToolkitClass.py:24-31 | `angled` raises exactly when `sin(pi/2 - pitch)` is zero; otherwise the result times that sine is `thickness * sin(pi/2)` |
| Geometry.AngledDefined | LivingspaceToolkitClass.py:31 | on a roof pitch the angled thickness never raises |
| Geometry.AngledOnRoofPitch | LivingspaceToolkitClass.py:31 | on a roof pitch the angled thickness times `cos(pitch)` is the thickness, and it is non-negative for a non-negative thickness |
| UnitsRounding.OccursIff | LivingspaceToolkitClass.py:10 | the recursive substring search holds exactly when some slice equals the pattern, as the regular expression search does |
| UnitsRounding.HasUnitAppend | LivingspaceToolkitClass.py:10 | a unit marker in either part is a unit marker in the concatenation |
| UnitsRounding.AssumeUnits | LivingspaceToolkitClass.py:34-45 | text containing `'`, `ft`, `feet`, `"` or `in` is returned unchanged; other text gets the assumed unit appended |
| UnitsRounding.AssumeUnitsIdempotent | LivingspaceToolkitClass.py:41-45 | with a unit that is itself a marker, the result names a unit and a second call changes nothing |
| UnitsRounding.PyRound | LivingspaceToolkitClass.py:67 | Python's `round`: within one half of the input, and a tie goes to the even integer |
| UnitsRounding.PyRoundUnique | LivingspaceToolkitClass.py:67 | those two properties determine the result |
| UnitsRounding.PyRoundInteger | LivingspaceToolkitClass.py:67 | rounding an integer gives it back |
| UnitsRounding.Sixteenth | LivingspaceToolkitClass.py:70-76 | `sixteenth` returns a multiple of 1/16 within 1/32 of the input |
| UnitsRounding.SixteenthIdempotent | LivingspaceToolkitClass.py:76 | rounding to a sixteenth twice equals rounding once |
| UnitsRounding.PitchEstimate | LivingspaceToolkitClass.py:61-67 | `pitch_estimate` returns a multiple of 1/2 within 1/4 of the input |
| UnitsRounding.PitchEstimateIdempotent | LivingspaceToolkitClass.py:67 | rounding to a half twice equals rounding once |
| Fabrication.RoundToFoot | LivingspaceToolkitClass.py:148-155 | result a multiple of 12; tolerance flag iff `p % 12 <= 1`, then `0 <= p - result <= 1`, else `0 < result - p < 11` |
| Fabrication.CapAtStock | LivingspaceToolkitClass.py:156-158 | flag iff the length exceeds the stock; flagged lengths are exactly halved, others unchanged |
| Fabrication.RawPanelLength | LivingspaceToolkitClass.py:142-147 | raises iff `cos(pitch)` is zero; uncut ends give `(pitched_wall + overhang)/cos`; cut ends give one of the bottom and top lengths and at least each of them, so the larger |
| Fabrication.CutEndsUseTopLength | LivingspaceToolkitClass.py:145-147 | on a roof pitch with non-negative thickness, cut ends use the top length, which includes `thickness * sin(pitch)` |
| Fabrication.PanelLength | LivingspaceToolkitClass.py:139-159 | tolerance flag as in rounding; max-length flag iff the rounded length exceeds 288, and then the result is half of it |
| Fabrication.RoofAreaUsesUnhalvedLength | LivingspaceToolkitClass.py:267-271 | the `*2` applied to a halved panel exactly undoes the halving: roof area is the ceiling of the unhalved rounded length times the roof width |
| Fabrication.SideOverhang | LivingspaceToolkitClass.py:118-121 | the side overhang is the overhang, at most 16 inches |
| Fabrication.CorrectOverhang | LivingspaceToolkitClass.py:257-266 | at most one of the short/long flags; short iff the achieved overhang is below the side overhang; long iff not short and over 16; the reported overhang is the achieved one when flagged, otherwise the side overhang |
| Fabrication.StudioRoofPanels | LivingspaceToolkitClass.py:252-272 | the panel count is the ceiling of `(bwall + 2*side_overhang)/32`, so `(panels-1)*32 < width <= panels*32`; never short, never split; long iff the achieved overhang exceeds 16 |
| Fabrication.CathedralRoofPanels | LivingspaceToolkitClass.py:305-329 | one-sided width `soffit_wall + side_overhang` is covered; split iff `tabWidget == 1` and `width/32 <= floor(width/32) + 0.5`, and then `floor(width/32) + 0.5` panels, otherwise the ceiling of `width/32`; never short; long iff the achieved overhang exceeds 16, which is then reported; the roof area uses the panel length |
| Fabrication.StudioHangRail | LivingspaceToolkitClass.py:274-281 | the rail spans `panels*32`, halved and flagged exactly over 216 |
| Fabrication.CathedralHangRail | LivingspaceToolkitClass.py:331-338 | the rail is the panel length, halved and flagged exactly over 216 |
| Fabrication.Fascia | LivingspaceToolkitClass.py:283-295 | wall fascia spans `panels*32` plus the allowance, side fascia the panel length plus 6, each halved and flagged independently exactly over 216 |
| Fabrication.BoxesForArea | LivingspaceToolkitClass.py:173 | the fewest 29 sq ft boxes covering the area plus 10% |
| Fabrication.BoxesForAreaMonotone | livingspacetoolkit/lib/sunroom_builder.py:30 | a larger area never needs fewer boxes |
| Fabrication.BoxesForAreaNonNegative | livingspacetoolkit/lib/sunroom_builder.py:30 | a non-negative area needs a non-negative number of boxes |
| Fabrication.CeilingArea | LivingspaceToolkitClass.py:171-172 | raises iff `cos(pitch)` is zero; the area times `cos * 144` is `pitched_wall * unpitched_wall` |
| Fabrication.ArmstrongBoxes | LivingspaceToolkitClass.py:170-173 | raises iff `cos(pitch)` is zero; otherwise the boxes for the ceiling area |
| Fabrication.ArmstrongBoxesOnRoofPitch | livingspacetoolkit/lib/sunroom_builder.py:28-30 | on a roof pitch with non-negative walls the count exists, is non-negative and is non-decreasing in the unpitched wall |
| LegacySunroom.SideWall | LivingspaceToolkitClass.py:191 | `max(awall, cwall)`: at least both walls and equal to one of them |
| LegacySunroom.WallHeightPitchThenMaxHeightPitch | LivingspaceToolkitClass.py:176-194 | solving from the max height `wall_height_pitch` produced restores the same wall height, soffit and peak and succeeds |
| LegacySunroom.WallHeightPitchThenSoffitHeightPitch | LivingspaceToolkitClass.py:176-181 | with the pitched wall as side wall, solving from the produced soffit restores every height |
| LegacySunroom.WallHeightPitchThenSoffitHeightPeakHeight | LivingspaceToolkitClass.py:196-201 | solving from the produced peak and soffit recovers the pitch through `atan` and every height, when the run is not zero |
| LegacySunroom.WallHeightPitchThenDripEdgePitch | LivingspaceToolkitClass.py:235-241 | with the pitched wall as side wall, solving from the plumb-cut drip edge restores every height and records the drip edge |
| LegacySunroom.Sunroom.Studio | LivingspaceToolkitClass.py:111-130 | stores the dimensions and a side overhang of at most 16; pitched wall `max(awall, cwall)`, soffit wall B, split option 0, no heights solved |
| LegacySunroom.Sunroom.Cathedral | LivingspaceToolkitClass.py:300-303 | soffit wall `max(awall, cwall)`; pitched wall and split option left `None`; no heights solved |
| LegacySunroom.Sunroom.PanelLength | LivingspaceToolkitClass.py:139-159 | `TypeError` while the pitch or pitched wall is `None`; succeeds exactly when both are set and `cos(pitch) != 0`; otherwise the fabrication panel length with `'uncut'` ends using the plain run |
| LegacySunroom.Sunroom.RoofPanels | LivingspaceToolkitClass.py:252-329 | succeeds iff the panel length does; the layout is the Studio or Cathedral rule applied to this roof's soffit wall, side overhang, split option and panel length; never short; only a Cathedral with `tabWidget == 1` splits; a Studio covers the B wall and both side overhangs |
| LegacySunroom.Sunroom.CathedralQueriesRaise | LivingspaceToolkitClass.py:129 | a Cathedral's pitched wall stays `None`, so its panel length, roof panels, hang rail, fascia and Armstrong panels all raise `TypeError` |
| LegacySunroom.Sunroom.HangRail | LivingspaceToolkitClass.py:274-281 | Studio rail spans the panels, Cathedral rail is the panel length; halved and flagged exactly over 216 |
| LegacySunroom.Sunroom.Fascia | LivingspaceToolkitClass.py:283-295 | succeeds iff the panel length does; wall fascia spans the panels plus 12 (Studio) or 6 (Cathedral), side fascia is the panel length plus 6; each is halved and flagged exactly over 216, as the fabrication rule gives |
| LegacySunroom.Sunroom.ArmstrongPanels | LivingspaceToolkitClass.py:170-173 | `TypeError` while pitch or pitched wall is `None`; otherwise the boxes for the rake across the soffit wall |
| LegacySunroom.Sunroom.WallHeightPitch | LivingspaceToolkitClass.py:176-181 | sets pitch, wall height, soffit and peak, then the max height, or raises in `angled` leaving the earlier heights set; pitched wall and split option unchanged |
| LegacySunroom.Sunroom.MaxHeightPitch | LivingspaceToolkitClass.py:189-194 | sets the pitch, then wall height, soffit and peak from the max height, which is not stored |
| LegacySunroom.Sunroom.SoffitHeightPeakHeight | LivingspaceToolkitClass.py:196-201 | sets soffit and peak, then the pitch by `atan` (raising on a zero run), the wall height and the max height |
| LegacySunroom.Sunroom.SoffitHeightPitch | LivingspaceToolkitClass.py:203-208 | sets pitch, soffit and wall height, then raises `TypeError` on an unset pitched wall before the peak |
| LegacySunroom.Sunroom.DripEdgePitch | LivingspaceToolkitClass.py:235-241 | sets pitch and drip edge, the soffit below it by the angled thickness, the wall height, then the peak and max height over the pitched wall |
| StudioCalculations.Max | StudioCalcs.py:31 | Python `max` of two reals |
| StudioCalculations.NewStudioCalcs | StudioCalcs.py:13-31 | stores every argument and `side_wall == max(awall, cwall)` |
| StudioCalculations.WallHeightPitchSoffit | StudioCalcs.py:33-42 | the soffit plus the overhang's rise is the B wall height |
| StudioCalculations.SoffitHeightPitch | StudioCalcs.py:79-81 | the B wall height less the overhang's rise is the soffit |
| StudioCalculations.SoffitWallHeightInverse | StudioCalcs.py:79-81 | the two solvers undo each other in both orders |
| StudioCalculations.SoffitBelowWallHeight | StudioCalcs.py:41-42 | with a non-negative overhang on a roof pitch the soffit is not above the B wall |
| StudioCalculations.WallHeightPeakHeightPitchSoffit | StudioCalcs.py:44-53 | raises iff `max(awall, cwall)` is zero; the soffit is the one the pitch gives from the wall height |
| StudioCalculations.WallHeightPeakHeightReachesPeak | StudioCalcs.py:51-53 | `b + max(awall,cwall) * tan(pitch) == peak` for the returned pitch |
| StudioCalculations.WallHeightPeakHeightRoundTrip | StudioCalcs.py:51-53 | from the peak a roof pitch produces, the solver returns that pitch and its soffit |
| StudioCalculations.MaxHeightPitch | StudioCalcs.py:55-66 | raises iff the angled thickness does; `b + max(awall,cwall)*tan(p) + angled(p, t) == max_height` and `soffit == b - overhang*tan(p)` |
| StudioCalculations.MaxHeightPitchRoundTrip | StudioCalcs.py:63-66 | on a roof pitch, from the max height a wall height produces, the solver returns that wall height |
| StudioCalculations.SoffitHeightPeakHeight | StudioCalcs.py:68-77 | raises iff the run `max(awall,cwall) + overhang` is zero; the B wall height is the soffit plus the overhang's rise at the returned pitch |
| StudioCalculations.SoffitHeightPeakHeightBetween | StudioCalcs.py:75-77 | `(b - soffit) * run == overhang * (peak - soffit)`, so `soffit <= b <= peak` for non-negative lengths and a peak not below the soffit |
| StudioCalculations.SoffitHeightPeakHeightRoundTrip | StudioCalcs.py:75-77 | from the soffit and peak a roof pitch and wall height produce, the solver returns that pitch and wall height |
| StudioCalculations.DripEdgePeakHeight | StudioCalcs.py:83-84 | returns `None` |
| StudioCalculations.DripEdgePitch | StudioCalcs.py:86-87 | returns `None` |
| PyValues.LexLessIrreflexiveAsymmetric | livingspacetoolkit/lib/toolkit_pitch.py:27 | string `<` is irreflexive and asymmetric |
| PyValues.LexLessIff | livingspacetoolkit/lib/toolkit_pitch.py:27 | string `<` holds exactly when the left string is a proper prefix of the right, or has the smaller character at the first position where they differ |
| PyValues.Less | livingspacetoolkit/lib/toolkit_pitch.py:27 | Python `<` on stored values: numbers by value, strings lexicographically, anything else raises `TypeError` |
| PyValues.LessAsymmetric | livingspacetoolkit/lib/toolkit_pitch.py:24-34 | `a < b` and `b < a` are never both true |
| PyValues.Add | livingspacetoolkit/lib/toolkit_pitch.py:39 | numbers add, strings concatenate (the result is the two strings joined), anything else raises `TypeError` |
| PyValues.Sub | livingspacetoolkit/lib/toolkit_pitch.py:47 | numbers subtract, anything else raises `TypeError` |
| ToolkitLengths.ToolkitLength.constructor | livingspacetoolkit/lib/toolkit_length.py:9-12 | a new length holds `''` and the given type |
| ToolkitLengths.ToolkitLength.SetLength | livingspacetoolkit/lib/toolkit_length.py:26-31 | a falsy value raises `ValueError` and keeps the old length; any truthy value, `'0'` included, is stored exactly |
| ToolkitLengths.ToolkitLength.Equals | livingspacetoolkit/lib/toolkit_length.py:17-20 | equal iff types and lengths are equal; a non-length gets the `NotImplementedError` class |
| ToolkitLengths.EqualsReflexiveSymmetric | livingspacetoolkit/lib/toolkit_length.py:17-19 | length equality is reflexive and symmetric |
| ToolkitPitches.ToolkitPitch.constructor | livingspacetoolkit/lib/toolkit_pitch.py:9-13 | a new pitch holds 0.0 with the given type and side |
| ToolkitPitches.ToolkitPitch.SetPitchValue | livingspacetoolkit/lib/toolkit_pitch.py:56-61 | a falsy value raises `ValueError` and keeps the old value; a truthy value is stored as given |
| ToolkitPitches.ToolkitPitch.SetPitchType | livingspacetoolkit/lib/toolkit_pitch.py:67-69 | the type is reassigned, the value kept |
| ToolkitPitches.ToolkitPitch.Equals | livingspacetoolkit/lib/toolkit_pitch.py:18-22 | equal iff type, side and value are equal; a non-pitch gets the `NotImplementedError` class |
| ToolkitPitches.ToolkitPitch.LessThan | livingspacetoolkit/lib/toolkit_pitch.py:24-28 | false for another type or side; otherwise the values' `<` |
| ToolkitPitches.ToolkitPitch.GreaterThan | livingspacetoolkit/lib/toolkit_pitch.py:30-34 | false for another type or side; otherwise the values' `>` |
| ToolkitPitches.ToolkitPitch.Plus | livingspacetoolkit/lib/toolkit_pitch.py:36-42 | for the same type and side: Ok iff both values are numbers or both strings, numbers summed, strings joined, otherwise `TypeError` raised; a `ValueError` instance is returned, not raised, for a mismatch; the `NotImplementedError` class for a non-pitch |
| ToolkitPitches.ToolkitPitch.Minus | livingspacetoolkit/lib/toolkit_pitch.py:44-50 | the values' difference for the same type and side, raising on non-numbers; a `ValueError` instance for a mismatch |
| ToolkitPitches.LessAndGreaterExclusive | livingspacetoolkit/lib/toolkit_pitch.py:24-34 | `a < b` and `a > b` are never both true |
| ToolkitPitches.NumericArithmeticSymmetry | livingspacetoolkit/lib/toolkit_pitch.py:36-50 | for numeric pitches of the same kind `a + b == b + a` and `a - b == -(b - a)` |
| ToolkitEnums.BySide.Set | livingspacetoolkit/models/sunroom_model.py:65 | assigning one side's entry changes that entry only |
| ToolkitEnums.Uniform | livingspacetoolkit/models/sunroom_model.py:14-18 | a table with the same value for every side |
| SunroomModels.NewLengths | livingspacetoolkit/models/sunroom_model.py:24-28 | one new, empty length object of the table's type per side, three distinct objects |
| SunroomModels.SunroomModel.constructor | livingspacetoolkit/models/sunroom_model.py:12-59 | a fresh model is a Studio with every flag false, every count zero, armstrong panels 0 and new empty length objects of the right types, no object held by two sides |
| SunroomModels.SunroomModel.DefaultState | livingspacetoolkit/models/sunroom_model.py:61-78 | afterwards the sunroom type is the argument, armstrong panels 0, and every side has flags false, counts 0 and every length `'0'`; the result does not depend on the prior state, so a second call changes nothing |
| SunroomModels.SunroomModel.ResetSide | livingspacetoolkit/models/sunroom_model.py:64-77 | one pass of the loop clears side `r`; every other side's entries and stored lengths are unchanged, so a side already cleared stays cleared |
| SunroomModels.SunroomModel.ClearPanelEntries | livingspacetoolkit/models/sunroom_model.py:65-70 | the max-length, tolerance, area, panel-count and split tables are their old selves with side `r`'s entry set to false or zero; other sides' panel entries and every other field are unchanged |
| SunroomModels.SunroomModel.ClearTrimEntries | livingspacetoolkit/models/sunroom_model.py:72-78 | the overhang, hang-rail and fascia flag tables are their old selves with side `r`'s entry set to false; Armstrong panels 0; other sides' entries and every other field are unchanged |
| SunroomModels.SunroomModel.SetHeldLengths | livingspacetoolkit/models/sunroom_model.py:67-76 | the four length objects of side `r` hold `'0'` through the setter, which never raises on `'0'`; every other held object keeps its length |
| SunroomBuilders.CalculateArmstrongPanels | livingspacetoolkit/lib/sunroom_builder.py:19-30 | raises iff `cos(pitch)` is zero; otherwise the fewest 29 sq ft boxes covering 110% of `pitched_wall/cos(pitch) * unpitched_wall / 144` |
| SunroomBuilders.BuilderPanelLengthNeverCapped | livingspacetoolkit/lib/sunroom_builder.py:51-57 | the builder stores the unhalved rounded length with the max-length flag false, where the single-file calculator halves lengths over 288 |
| SunroomBuilders.BuilderPanelLengthRounding | livingspacetoolkit/lib/sunroom_builder.py:36-50 | the stored length is a non-zero multiple of 12; tolerance flag iff `p % 12 <= 1`, with the rounding bounds |
| SunroomBuilders.BuilderPanelLengthErrors | livingspacetoolkit/lib/sunroom_builder.py:37-56 | a zero cosine raises `ZeroDivisionError`; a length rounding to 0 raises `ValueError` out of the handler; nothing else raises |
| SunroomBuilders.CalculatePanelLength | livingspacetoolkit/lib/sunroom_builder.py:32-57 | returns a new panel-type length holding the builder's value, and both flags, or raises what the builder's rule raises |
| ScenarioSelection.ToolkitStateModel.constructor | livingspacetoolkit/lib/base_scenario_class.py:34-35 | the state model holds the chosen scenario |
| ScenarioSelection.WallHeightPitchCondition | livingspacetoolkit/lib/scenario_wall_height_pitch.py:17-20 | true iff the scenario is `WALL_HEIGHT_PITCH`, so false for the other six |
| ScenarioSelection.ConditionAsWritten | livingspacetoolkit/lib/base_scenario_class.py:29-30 | `UnknownScenario`'s instance-method condition called on the class raises `TypeError`; `WallHeightPitch`'s answers its condition |
| ScenarioSelection.Condition | livingspacetoolkit/lib/base_scenario_class.py:18-30 | conditions as declared: never raise, and only `WallHeightPitch` on its scenario is true |
| ScenarioSelection.Instantiate | livingspacetoolkit/lib/scenario_wall_height_pitch.py:14-15 | a `WallHeightPitch` solver keeps the given state model; `UnknownScenario` takes no argument and raises |
| ScenarioSelection.FirstMatch | livingspacetoolkit/lib/base_scenario_class.py:37-44 | the result is decided by the first class not passed over (condition neither false nor `KeyError`): its condition's exception, or the instance built from the state model when the condition is true; the `UnknownScenario` class iff every class is passed over, so the result is determined in every case; `KeyError` never escapes |
| ScenarioSelection.IdentifyScenarioAsWrittenAlwaysRaises | livingspacetoolkit/lib/base_scenario_class.py:24-44 | as written, `identify_scenario` raises `TypeError` for every scenario |
| ScenarioSelection.IdentifyScenarioSelects | livingspacetoolkit/lib/scenario_wall_height_pitch.py:17-20 | with callable conditions, `WALL_HEIGHT_PITCH` gives a `WallHeightPitch` solver on the same state model, every other scenario the `UnknownScenario` class |

## Left out

- The PySide6 views, controllers and main window, logging configuration, and the `main()`
  demo: they display or print and compute nothing.
- `Sunroom.wall_height_peak_height` (LivingspaceToolkitClass.py:183-187): it solves a local
  pitch but reads `self.pitch`, and never sets the peak. Nothing it promises could be stated.
- `Sunroom.drip_edge_peak_height` and `estimate_drip_from_peak`
  (LivingspaceToolkitClass.py:79-102, :210-233). This is a float search loop whose call omits
  three required arguments, so it cannot run.
- `Sunroom.drip_edge` (LivingspaceToolkitClass.py:132-137): `__init__` sets an attribute
  `drip_edge = None` that hides the method on every instance.
- `pitch_input` and the `Units` and `CommonCalcs` modules are not part of this model.
  `Cc.angled_thickness` is taken to be the same `angled` as LivingspaceToolkitClass.py:31.
- `post_width` (LivingspaceToolkitClass.py:303) is stored and never read.
- Floating point: every quantity is an exact real, so results that depend on IEEE rounding
  are not modelled. Trigonometry is abstract (`Trig`) with only the laws listed above.
- `ToolkitStateModel` beyond the scenario it holds, and the `SunroomBuilder` constructor. The
  constructor only stores its arguments and calls `identify_scenario`.
- `CalculatePanelLength`: the end-cut choice is a parameter rather than read from the state
  model.
- `SunroomModels.SunroomModel.DefaultState`: the dictionaries are fields of type `BySide`
  reassigned whole, not mutated entry by entry in place. `SetHeldLengths` mutates the held
  length objects in place, as the source does.
- `LegacySunroom.Sunroom`: one class with a `kind` field stands for the `Studio` and
  `Cathedral` subclasses. The inherited `roof_panels`/`hang_rail`/`fascia` stubs of the base
  class are not modelled, since every constructed object is one of the two.

## Findings

| source | as written | input that shows it | evidently intended | confidence | as-written member | corrected member |
|---|---|---|---|---|---|---|
| livingspacetoolkit/lib/base_scenario_class.py:29-40 | `UnknownScenario.scenario_condition` is an instance method (`self, scenario`). `identify_scenario` calls it on the class with one argument. `UnknownScenario` is the first subclass, so the missing argument raises `TypeError` before any other class is asked | any state model, e.g. scenario `WALL_HEIGHT_PITCH` | a static condition that is always false, like the base class declares, so `WALL_HEIGHT_PITCH` yields a `WallHeightPitch` solver (tests/core/test_scenario.py:25, :39-41) | not executed | ScenarioSelection.IdentifyScenarioAsWrittenAlwaysRaises | ScenarioSelection.IdentifyScenarioSelects |
