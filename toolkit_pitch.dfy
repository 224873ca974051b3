/** `ToolkitPitch`: a pitch value tagged with its display type and its roof side. The value
    starts at 0.0 and is replaced through a setter that refuses falsy values; the type can be
    reassigned, the side cannot. Comparisons and arithmetic only relate pitches of the same
    type and side. */
module ToolkitPitches {
  import opened PyValues
  import opened ToolkitEnums

  const EmptyPitchMessage: string := "Angle/Ratio cannot be empty"
  const MismatchMessage: string := "The pitch type and roof sides must be the same."

  class ToolkitPitch {
    var pitchType: PitchType
    const roofSide: RoofSide
    var pitchValue: Value

    constructor (pitchType: PitchType, roofSide: RoofSide)
      ensures this.pitchType == pitchType && this.roofSide == roofSide
      ensures pitchValue == Num(0.0)
    {
      this.pitchType := pitchType;
      this.roofSide := roofSide;
      pitchValue := Num(0.0);
    }

    /** The `pitch_value` setter: a falsy value raises `ValueError` and stores nothing. */
    method SetPitchValue(value: Value) returns (r: Result<()>)
      modifies this
      ensures r.Ok? <==> Truthy(value)
      ensures r.Ok? ==> pitchValue == value
      ensures r.Raised? ==> r.error == ValueError(EmptyPitchMessage) && pitchValue == old(pitchValue)
      ensures pitchType == old(pitchType)
    {
      if !Truthy(value) {
        return Raised(ValueError(EmptyPitchMessage));
      }
      pitchValue := value;
      return Ok(());
    }

    /** The `pitch_type` setter, which accepts any type. */
    method SetPitchType(pitchType: PitchType)
      modifies this
      ensures this.pitchType == pitchType && pitchValue == old(pitchValue)
    {
      this.pitchType := pitchType;
    }

    /** Same display type and same roof side. */
    predicate SameKind(other: ToolkitPitch)
      reads this, other
    {
      pitchType == other.pitchType && roofSide == other.roofSide
    }

    /** `__eq__`: type, side and value all equal. */
    function Equals(other: PitchOperand): (r: Returned)
      reads this, other.Footprint()
      ensures r.BoolAnswer? <==> other.Pitch?
      ensures other.Pitch? ==> (r.b <==> SameKind(other.p) && pitchValue == other.p.pitchValue)
      ensures other.Foreign? ==> r == NotImplementedErrorClass
    {
      match other
      case Pitch(p) => BoolAnswer(SameKind(p) && pitchValue == p.pitchValue)
      case Foreign => NotImplementedErrorClass
    }

    /** `__lt__`: false for a pitch of another type or side (the value comparison is never
        reached); otherwise the values' own `<`, which raises on values without an order. */
    function LessThan(other: PitchOperand): (r: Result<Returned>)
      reads this, other.Footprint()
      ensures other.Foreign? ==> r == Ok(NotImplementedErrorClass)
      ensures other.Pitch? && !SameKind(other.p) ==> r == Ok(BoolAnswer(false))
      ensures other.Pitch? && SameKind(other.p) ==>
        r.Ok? == Less(pitchValue, other.p.pitchValue).Ok? &&
        (r.Ok? ==> r.value == BoolAnswer(Less(pitchValue, other.p.pitchValue).value))
    {
      match other
      case Pitch(p) =>
        if !SameKind(p) then Ok(BoolAnswer(false))
        else
          var b :- Less(pitchValue, p.pitchValue);
          Ok(BoolAnswer(b))
      case Foreign => Ok(NotImplementedErrorClass)
    }

    /** `__gt__`: as `__lt__` with the values' order reversed. */
    function GreaterThan(other: PitchOperand): (r: Result<Returned>)
      reads this, other.Footprint()
      ensures other.Foreign? ==> r == Ok(NotImplementedErrorClass)
      ensures other.Pitch? && !SameKind(other.p) ==> r == Ok(BoolAnswer(false))
      ensures other.Pitch? && SameKind(other.p) ==>
        r.Ok? == Less(other.p.pitchValue, pitchValue).Ok? &&
        (r.Ok? ==> r.value == BoolAnswer(Less(other.p.pitchValue, pitchValue).value))
    {
      match other
      case Pitch(p) =>
        if !SameKind(p) then Ok(BoolAnswer(false))
        else
          var b :- Less(p.pitchValue, pitchValue);
          Ok(BoolAnswer(b))
      case Foreign => Ok(NotImplementedErrorClass)
    }

    /** `__add__`: the values' own `+` for a pitch of the same type and side; a `ValueError`
        instance is returned, not raised, for a mismatch. */
    function Plus(other: PitchOperand): (r: Result<Returned>)
      reads this, other.Footprint()
      ensures other.Foreign? ==> r == Ok(NotImplementedErrorClass)
      ensures other.Pitch? && !SameKind(other.p) ==> r == Ok(ValueErrorInstance(MismatchMessage))
      ensures other.Pitch? && SameKind(other.p) && pitchValue.Num? && other.p.pitchValue.Num? ==>
        r == Ok(ValueAnswer(Num(pitchValue.x + other.p.pitchValue.x)))
      ensures other.Pitch? && SameKind(other.p) ==>
        (r.Ok? <==> (pitchValue.Num? && other.p.pitchValue.Num?) || (pitchValue.Str? && other.p.pitchValue.Str?))
      ensures other.Pitch? && SameKind(other.p) && pitchValue.Str? && other.p.pitchValue.Str? ==>
        r == Ok(ValueAnswer(Str(pitchValue.s + other.p.pitchValue.s)))
      ensures other.Pitch? && SameKind(other.p) && r.Raised? ==> r.error == TypeError
    {
      match other
      case Pitch(p) =>
        if !SameKind(p) then Ok(ValueErrorInstance(MismatchMessage))
        else
          var v :- Add(pitchValue, p.pitchValue);
          Ok(ValueAnswer(v))
      case Foreign => Ok(NotImplementedErrorClass)
    }

    /** `__sub__`: the values' own `-`, with the same mismatch handling as `__add__`. */
    function Minus(other: PitchOperand): (r: Result<Returned>)
      reads this, other.Footprint()
      ensures other.Foreign? ==> r == Ok(NotImplementedErrorClass)
      ensures other.Pitch? && !SameKind(other.p) ==> r == Ok(ValueErrorInstance(MismatchMessage))
      ensures other.Pitch? && SameKind(other.p) ==>
        (r.Ok? <==> pitchValue.Num? && other.p.pitchValue.Num?) &&
        (r.Ok? ==> r.value == ValueAnswer(Num(pitchValue.x - other.p.pitchValue.x)))
    {
      match other
      case Pitch(p) =>
        if !SameKind(p) then Ok(ValueErrorInstance(MismatchMessage))
        else
          var v :- Sub(pitchValue, p.pitchValue);
          Ok(ValueAnswer(v))
      case Foreign => Ok(NotImplementedErrorClass)
    }
  }

  /** The right-hand side of an operator: a `ToolkitPitch` or an object of another class. */
  datatype PitchOperand = Pitch(p: ToolkitPitch) | Foreign {
    function Footprint(): set<object> {
      if Pitch? then {p} else {}
    }
  }

  /** `a < b` and `a > b` never both answer true. */
  lemma LessAndGreaterExclusive(a: ToolkitPitch, b: ToolkitPitch)
    ensures !(a.LessThan(Pitch(b)) == Ok(BoolAnswer(true)) && a.GreaterThan(Pitch(b)) == Ok(BoolAnswer(true)))
  {
    LessAsymmetric(a.pitchValue, b.pitchValue);
  }

  /** For numeric pitches of the same type and side, `a + b == b + a` and `a - b == -(b - a)`. */
  lemma NumericArithmeticSymmetry(a: ToolkitPitch, b: ToolkitPitch)
    requires a.SameKind(b) && a.pitchValue.Num? && b.pitchValue.Num?
    ensures a.Plus(Pitch(b)) == b.Plus(Pitch(a))
    ensures a.Minus(Pitch(b)).Ok? && b.Minus(Pitch(a)).Ok?
    ensures a.Minus(Pitch(b)).value.v.x == -b.Minus(Pitch(a)).value.v.x
  {
  }
}
