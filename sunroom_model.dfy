/** `SunroomModel`: the record of fabrication results the display reads, one table entry per
    roof side for each quantity, plus the Armstrong box count for the whole room. */
module SunroomModels {
  import opened PyValues
  import opened ToolkitEnums
  import opened ToolkitLengths

  /** The objects a table of lengths holds. */
  function Held(t: BySide<ToolkitLength>): set<ToolkitLength> {
    {t.a, t.b, t.c}
  }

  /** One table's worth of new, still empty length objects of type `lengthType`. */
  method NewLengths(lengthType: LengthType) returns (t: BySide<ToolkitLength>)
    ensures fresh(Held(t))
    ensures t.a != t.b && t.a != t.c && t.b != t.c
    ensures forall r :: t.Get(r).lengthType == lengthType && t.Get(r).length == Str("")
  {
    var a := new ToolkitLength(lengthType);
    var b := new ToolkitLength(lengthType);
    var c := new ToolkitLength(lengthType);
    t := BySide(a, b, c);
  }

  class SunroomModel {
    var sunroomType: SunroomType
    var maxPanelLength: BySide<bool>
    var panelTolerance: BySide<bool>
    /** `panel_length`: the length objects are never rebound, only their lengths set. */
    const panelLength: BySide<ToolkitLength>
    var roofArea: BySide<int>
    var roofPanels: BySide<real>
    var roofPanelsSplit: BySide<bool>
    /** `roof_overhang[side]`, a dictionary of three keys, held as one table per key. */
    const overhang: BySide<ToolkitLength>
    var overhangShortCheck: BySide<bool>
    var overhangLongCheck: BySide<bool>
    /** `hang_rails[side]` and `fascia[side]`, dictionaries of two keys, likewise. */
    const hangRail: BySide<ToolkitLength>
    var hangRailMaxLength: BySide<bool>
    const fascia: BySide<ToolkitLength>
    var fasciaMaxLength: BySide<bool>
    var armstrongPanels: int
    /** The length objects the tables hold. */
    ghost const Repr: set<ToolkitLength>

    /** The four length objects side `r` holds. */
    function SideObjects(r: RoofSide): set<ToolkitLength> {
      {panelLength.Get(r), overhang.Get(r), hangRail.Get(r), fascia.Get(r)}
    }

    /** `Repr` is exactly the length objects the tables hold, each carries its table's length
        type, and no two sides share an object (each default factory builds its own). */
    ghost predicate Valid() {
      && Repr == SideObjects(ASide) + SideObjects(BSide) + SideObjects(CSide)
      && SideHeld(ASide) && SideHeld(BSide) && SideHeld(CSide)
      && SideObjects(ASide) !! SideObjects(BSide)
      && SideObjects(ASide) !! SideObjects(CSide)
      && SideObjects(BSide) !! SideObjects(CSide)
    }

    lemma SidesDisjoint(r: RoofSide, s: RoofSide)
      requires Valid() && r != s
      ensures SideObjects(r) !! SideObjects(s)
    {
    }

    ghost predicate SideHeld(r: RoofSide) {
      && panelLength.Get(r) in Repr && overhang.Get(r) in Repr
      && hangRail.Get(r) in Repr && fascia.Get(r) in Repr
      && panelLength.Get(r).lengthType == Panel && overhang.Get(r).lengthType == Overhang
      && hangRail.Get(r).lengthType == HangRail && fascia.Get(r).lengthType == Fascia
    }

    lemma HeldAt(r: RoofSide)
      requires Valid()
      ensures SideHeld(r)
    {
      match r
      case ASide =>
      case BSide =>
      case CSide =>
    }

    /** Side `r` holds nothing computed: flags false, counts zero, and each length object's
        length `length`. */
    ghost predicate SideCleared(r: RoofSide, length: Value)
      reads this, Repr
      requires Valid()
    {
      FlagsCleared(r) && HeldLengthsAre(r, length)
    }

    ghost predicate FlagsCleared(r: RoofSide)
      reads this
    {
      PanelEntriesCleared(r) && TrimEntriesCleared(r)
    }

    ghost predicate PanelEntriesCleared(r: RoofSide)
      reads this
    {
      && !maxPanelLength.Get(r) && !panelTolerance.Get(r) && roofArea.Get(r) == 0
      && roofPanels.Get(r) == 0.0 && !roofPanelsSplit.Get(r)
    }

    ghost predicate TrimEntriesCleared(r: RoofSide)
      reads this
    {
      && !overhangShortCheck.Get(r) && !overhangLongCheck.Get(r)
      && !hangRailMaxLength.Get(r) && !fasciaMaxLength.Get(r)
    }

    /** The flag and count entries of side `r`, in the order `default_state` assigns them. */
    function Entries(r: RoofSide): ((bool, bool, int, real, bool), (bool, bool, bool, bool))
      reads this
    {
      (PanelEntries(r), TrimEntries(r))
    }

    /** The panel entries of side `r`: max-length and tolerance flags, area, count, split. */
    function PanelEntries(r: RoofSide): (bool, bool, int, real, bool)
      reads this
    {
      (maxPanelLength.Get(r), panelTolerance.Get(r), roofArea.Get(r), roofPanels.Get(r),
       roofPanelsSplit.Get(r))
    }

    /** The trim entries of side `r`: the overhang, hang-rail and fascia flags. */
    function TrimEntries(r: RoofSide): (bool, bool, bool, bool)
      reads this
    {
      (overhangShortCheck.Get(r), overhangLongCheck.Get(r), hangRailMaxLength.Get(r), fasciaMaxLength.Get(r))
    }

    /** The lengths stored in side `r`'s panel, overhang, hang-rail and fascia objects. */
    ghost function HeldLengths(r: RoofSide): (Value, Value, Value, Value)
      reads Repr
      requires Valid()
    {
      HeldAt(r);
      (panelLength.Get(r).length, overhang.Get(r).length, hangRail.Get(r).length, fascia.Get(r).length)
    }

    ghost predicate HeldLengthsAre(r: RoofSide, length: Value)
      reads Repr
      requires Valid()
    {
      HeldAt(r);
      && panelLength.Get(r).length == length && overhang.Get(r).length == length
      && hangRail.Get(r).length == length && fascia.Get(r).length == length
    }

    /** A fresh model: a Studio with every flag false, every count zero and every length
        object new, of its table's type, and still empty. */
    constructor ()
      ensures Valid() && fresh(Repr)
      ensures sunroomType == Studio && armstrongPanels == 0
      ensures forall r: RoofSide :: SideCleared(r, Str(""))
    {
      var p := NewLengths(Panel);
      var o := NewLengths(Overhang);
      var h := NewLengths(HangRail);
      var f := NewLengths(Fascia);
      sunroomType := Studio;
      maxPanelLength := Uniform(false);
      panelTolerance := Uniform(false);
      panelLength := p;
      roofArea := Uniform(0);
      roofPanels := Uniform(0.0);
      roofPanelsSplit := Uniform(false);
      overhang := o;
      overhangShortCheck := Uniform(false);
      overhangLongCheck := Uniform(false);
      hangRail := h;
      hangRailMaxLength := Uniform(false);
      fascia := f;
      fasciaMaxLength := Uniform(false);
      armstrongPanels := 0;
      Repr := {p.a, o.a, h.a, f.a} + {p.b, o.b, h.b, f.b} + {p.c, o.c, h.c, f.c};
    }

    /** `default_state(sunroom)`: for each roof side in turn, clear the flags and counts and
        set each length object's length to the string '0' (truthy, so the setter never
        raises). Whatever the model held before, every side ends cleared, so a second call
        changes nothing. */
    method DefaultState(sunroom: SunroomType)
      requires Valid()
      modifies this, Repr
      ensures sunroomType == sunroom && armstrongPanels == 0
      ensures forall r: RoofSide :: SideCleared(r, Str("0"))
    {
      sunroomType := sunroom;
      for i := 0 to |AllSides|
        invariant sunroomType == sunroom
        invariant i > 0 ==> armstrongPanels == 0
        invariant forall j :: 0 <= j < i ==> SideCleared(AllSides[j], Str("0"))
      {
        ResetSide(AllSides[i]);
      }
      forall r: RoofSide
        ensures SideCleared(r, Str("0"))
      {
        match r
        case ASide => assert AllSides[0] == r;
        case BSide => assert AllSides[1] == r;
        case CSide => assert AllSides[2] == r;
      }
    }

    /** One pass of `default_state`'s loop. A side already cleared stays cleared, even one
        sharing a length object with side `r`, since '0' is all that is ever written. */
    method ResetSide(r: RoofSide)
      requires Valid()
      modifies this, Repr
      ensures sunroomType == old(sunroomType) && armstrongPanels == 0
      ensures SideCleared(r, Str("0"))
      ensures forall s: RoofSide :: old(SideCleared(s, Str("0"))) ==> SideCleared(s, Str("0"))
      ensures forall s: RoofSide :: s != r ==> Entries(s) == old(Entries(s)) && HeldLengths(s) == old(HeldLengths(s))
    {
      SetHeldLengths(r);
      ClearPanelEntries(r);
      ClearTrimEntries(r);
    }

    /** The panel assignments of one pass: max length, tolerance, roof area, panel count and
        split of side `r`. */
    method ClearPanelEntries(r: RoofSide)
      modifies this
      ensures maxPanelLength == old(maxPanelLength).Set(r, false) && panelTolerance == old(panelTolerance).Set(r, false)
      ensures roofArea == old(roofArea).Set(r, 0) && roofPanels == old(roofPanels).Set(r, 0.0)
      ensures roofPanelsSplit == old(roofPanelsSplit).Set(r, false)
      ensures PanelEntriesCleared(r)
      ensures forall s: RoofSide :: s != r ==> PanelEntries(s) == old(PanelEntries(s))
      ensures sunroomType == old(sunroomType) && armstrongPanels == old(armstrongPanels)
      ensures overhangShortCheck == old(overhangShortCheck) && overhangLongCheck == old(overhangLongCheck)
      ensures hangRailMaxLength == old(hangRailMaxLength) && fasciaMaxLength == old(fasciaMaxLength)
    {
      maxPanelLength := maxPanelLength.Set(r, false);
      panelTolerance := panelTolerance.Set(r, false);
      roofArea := roofArea.Set(r, 0);
      roofPanels := roofPanels.Set(r, 0.0);
      roofPanelsSplit := roofPanelsSplit.Set(r, false);
    }

    /** The overhang, hang-rail, fascia and Armstrong assignments of one pass. */
    method ClearTrimEntries(r: RoofSide)
      modifies this
      ensures overhangShortCheck == old(overhangShortCheck).Set(r, false)
      ensures overhangLongCheck == old(overhangLongCheck).Set(r, false)
      ensures hangRailMaxLength == old(hangRailMaxLength).Set(r, false)
      ensures fasciaMaxLength == old(fasciaMaxLength).Set(r, false)
      ensures armstrongPanels == 0
      ensures TrimEntriesCleared(r)
      ensures forall s: RoofSide :: s != r ==> TrimEntries(s) == old(TrimEntries(s))
      ensures sunroomType == old(sunroomType)
      ensures maxPanelLength == old(maxPanelLength) && panelTolerance == old(panelTolerance)
      ensures roofArea == old(roofArea) && roofPanels == old(roofPanels) && roofPanelsSplit == old(roofPanelsSplit)
    {
      overhangShortCheck := overhangShortCheck.Set(r, false);
      overhangLongCheck := overhangLongCheck.Set(r, false);
      hangRailMaxLength := hangRailMaxLength.Set(r, false);
      fasciaMaxLength := fasciaMaxLength.Set(r, false);
      armstrongPanels := 0;
    }

    /** The four `.length = '0'` assignments of one pass, through the length setter. */
    method SetHeldLengths(r: RoofSide)
      requires Valid()
      modifies Repr
      ensures HeldLengthsAre(r, Str("0"))
      ensures forall s: RoofSide :: old(HeldLengthsAre(s, Str("0"))) ==> HeldLengthsAre(s, Str("0"))
      ensures forall o :: o in Repr && o !in SideObjects(r) ==> o.length == old(o.length)
      ensures forall s: RoofSide :: s != r ==> HeldLengths(s) == old(HeldLengths(s))
    {
      HeldAt(r);
      var ok := panelLength.Get(r).SetLength(Str("0"));
      ok := overhang.Get(r).SetLength(Str("0"));
      ok := hangRail.Get(r).SetLength(Str("0"));
      ok := fascia.Get(r).SetLength(Str("0"));
    }
  }
}
