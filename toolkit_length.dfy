/** `ToolkitLength`: a length result tagged with its kind. The stored length starts as the
    empty string and is replaced through a setter that refuses falsy values; the kind is
    fixed at construction. */
module ToolkitLengths {
  import opened PyValues
  import opened ToolkitEnums

  const EmptyLengthMessage: string := "Length cannot be empty"

  class ToolkitLength {
    var length: Value
    const lengthType: LengthType

    constructor (lengthType: LengthType)
      ensures this.lengthType == lengthType
      ensures length == Str("")
    {
      this.lengthType := lengthType;
      length := Str("");
    }

    /** The `length` setter: a falsy value raises `ValueError` and stores nothing; any
        truthy value (the string '0' included) is stored as given. */
    method SetLength(value: Value) returns (r: Result<()>)
      modifies this
      ensures r.Ok? <==> Truthy(value)
      ensures r.Ok? ==> length == value
      ensures r.Raised? ==> r.error == ValueError(EmptyLengthMessage) && length == old(length)
    {
      if !Truthy(value) {
        return Raised(ValueError(EmptyLengthMessage));
      }
      length := value;
      return Ok(());
    }

    /** `__eq__`: another `ToolkitLength` is equal when kind and length are equal; anything
        else gets the `NotImplementedError` class back instead of a bool. */
    function Equals(other: LengthOperand): (r: Returned)
      reads this, other.Footprint()
      ensures r.BoolAnswer? <==> other.Length?
      ensures other.Length? ==>
        (r.b <==> lengthType == other.l.lengthType && length == other.l.length)
      ensures other.Foreign? ==> r == NotImplementedErrorClass
    {
      match other
      case Length(l) => BoolAnswer(lengthType == l.lengthType && length == l.length)
      case Foreign => NotImplementedErrorClass
    }
  }

  /** The right-hand side of `==`: a `ToolkitLength` or an object of some other class. */
  datatype LengthOperand = Length(l: ToolkitLength) | Foreign {
    function Footprint(): set<object> {
      if Length? then {l} else {}
    }
  }

  /** Equality of lengths is reflexive and symmetric. */
  lemma EqualsReflexiveSymmetric(a: ToolkitLength, b: ToolkitLength)
    ensures a.Equals(Length(a)) == BoolAnswer(true)
    ensures a.Equals(Length(b)) == b.Equals(Length(a))
  {
  }
}
