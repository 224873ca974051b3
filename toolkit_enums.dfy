/** The enumerations the calculator dispatches on. The enumeration module itself
    (`livingspacetoolkit/lib/toolkit_enums.py`) is not part of this model: the members
    below are the ones its users name. */
module ToolkitEnums {

  /** A and C are the pitched gable walls, B the wall parallel to the ridge. */
  datatype RoofSide = ASide | BSide | CSide

  /** Every roof side, in declaration order (Python iterates an Enum this way). */
  const AllSides: seq<RoofSide> := [ASide, BSide, CSide]

  /** A dictionary keyed by every roof side: one entry per side, none missing. */
  datatype BySide<V> = BySide(a: V, b: V, c: V) {
    function Get(r: RoofSide): V {
      match r
      case ASide => a
      case BSide => b
      case CSide => c
    }

    /** `table[r] = v`: side `r` now maps to `v` and every other side is unchanged. */
    function Set(r: RoofSide, v: V): (t: BySide<V>)
      ensures t.Get(r) == v
      ensures forall s :: s != r ==> t.Get(s) == Get(s)
    {
      match r
      case ASide => this.(a := v)
      case BSide => this.(b := v)
      case CSide => this.(c := v)
    }
  }

  /** A table mapping every side to `v`. */
  function Uniform<V>(v: V): (t: BySide<V>)
    ensures forall r :: t.Get(r) == v
  {
    BySide(v, v, v)
  }

  datatype SunroomType = Studio | Cathedral

  datatype PitchType = Ratio | Angle

  datatype LengthType =
    | WallHeight | PeakHeight | SoffitHeight | DripEdgeHeight | MaxHeight
    | Overhang | Panel | HangRail | Fascia

  /** The seven combinations of known quantities a roof can be solved from. */
  datatype Scenario =
    | WallHeightPitch | WallHeightPeakHeight | MaxHeightPitch
    | SoffitHeightPeakHeight | SoffitHeightPitch | DripEdgePeakHeight | DripEdgePitch

  /** How the panel ends are cut; the calculator only tests for the uncut kind. */
  datatype EndCutType = UncutTopBottom | PlumbTopBottom
}
