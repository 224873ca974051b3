/** Python's dynamically typed values, as far as the toolkit's value wrappers use them.
    `ToolkitLength` and `ToolkitPitch` store whatever their setters are handed (the empty
    string, the string '0', ints and floats), test it for truthiness, and compare or add
    the stored values with Python's operators. */
module PyValues {

  /** The exceptions the modelled code raises or lets escape. */
  datatype Error =
    | ValueError(message: string)
    | TypeError
    | ZeroDivisionError
    | KeyError

  /** A Python call either returns a value or raises. */
  datatype Result<T> = Ok(value: T) | Raised(error: Error) {
    predicate IsFailure() { Raised? }
    function PropagateFailure<U>(): Result<U>
      requires Raised?
    {
      Raised(error)
    }
    function Extract(): T
      requires Ok?
    {
      value
    }
  }

  /** An attribute that may still be `None`. */
  datatype Option<T> = None | Some(value: T)

  /** A stored Python value: a `str`, a number (`int` and `float` compare and add alike,
      so one real stands for both) or `None`. */
  datatype Value = Str(s: string) | Num(x: real) | NoneVal

  /** What a comparison or arithmetic dunder method hands back: a bool, a value, an
      exception instance returned rather than raised, or the `NotImplementedError` class. */
  datatype Returned =
    | BoolAnswer(b: bool)
    | ValueAnswer(v: Value)
    | ValueErrorInstance(message: string)
    | NotImplementedErrorClass

  /** Python's `bool(v)`: the empty string, zero and `None` are falsy. */
  predicate Truthy(v: Value) {
    match v
    case Str(s) => s != ""
    case Num(x) => x != 0.0
    case NoneVal => false
  }

  /** Python's `str < str`: code point by code point, a proper prefix is smaller. */
  predicate LexLess(a: string, b: string)
    decreases |a|
  {
    if |a| == 0 then |b| > 0
    else if |b| == 0 then false
    else if a[0] != b[0] then a[0] < b[0]
    else LexLess(a[1..], b[1..])
  }

  /** The order `LexLess` computes, stated outright: `a` is a proper prefix of `b`, or the two
      first differ at some position where `a` has the smaller character. */
  lemma {:induction false} LexLessIff(a: string, b: string)
    ensures LexLess(a, b) <==>
      (|a| < |b| && a == b[..|a|]) ||
      (exists k :: 0 <= k < |a| && k < |b| && a[..k] == b[..k] && a[k] < b[k])
    decreases |a|
  {
    if |a| > 0 && |b| > 0 {
      LexLessIff(a[1..], b[1..]);
      assert forall k :: 0 < k <= |a| && k <= |b| ==> a[..k][0] == a[0] && b[..k][0] == b[0];
      if a[0] == b[0] {
        if LexLess(a, b) && !(|a| < |b| && a == b[..|a|]) {
          var k :| 0 <= k < |a| - 1 && k < |b| - 1 && a[1..][..k] == b[1..][..k] && a[1..][k] < b[1..][k];
          assert a[..k + 1] == [a[0]] + a[1..][..k];
          assert b[..k + 1] == [b[0]] + b[1..][..k];
        }
        if |a| < |b| && a == b[..|a|] {
          assert a[1..] == b[1..][..|a| - 1];
        }
        if k :| 0 <= k < |a| && k < |b| && a[..k] == b[..k] && a[k] < b[k] {
          assert k > 0;
          assert a[1..][..k - 1] == a[..k][1..];
          assert b[1..][..k - 1] == b[..k][1..];
        }
      } else {
        if a[0] < b[0] {
          assert a[..0] == b[..0];
        }
      }
    }
  }

  lemma {:induction false} LexLessIrreflexiveAsymmetric(a: string, b: string)
    ensures !(LexLess(a, b) && LexLess(b, a))
    ensures !LexLess(a, a)
    decreases |a|
  {
    if |a| > 0 && |b| > 0 && a[0] == b[0] {
      LexLessIrreflexiveAsymmetric(a[1..], b[1..]);
    }
    if |a| > 0 {
      LexLessIrreflexiveAsymmetric(a[1..], a[1..]);
    }
  }

  /** Python's `<` on two stored values: numbers by value, strings lexicographically,
      anything else raises `TypeError` (`None` has no order at all). */
  function Less(a: Value, b: Value): (r: Result<bool>)
    ensures r.Ok? <==> (a.Num? && b.Num?) || (a.Str? && b.Str?)
    ensures a.Num? && b.Num? ==> r == Ok(a.x < b.x)
    ensures a.Str? && b.Str? ==> r == Ok(LexLess(a.s, b.s))
  {
    match (a, b)
    case (Num(x), Num(y)) => Ok(x < y)
    case (Str(s), Str(t)) => Ok(LexLess(s, t))
    case _ => Raised(TypeError)
  }

  /** `a < b` and `b < a` are never both true, for numbers and for strings. */
  lemma LessAsymmetric(a: Value, b: Value)
    ensures !(Less(a, b) == Ok(true) && Less(b, a) == Ok(true))
    ensures Less(a, a) != Ok(true)
  {
    if a.Str? && b.Str? {
      LexLessIrreflexiveAsymmetric(a.s, b.s);
    }
    if a.Str? {
      LexLessIrreflexiveAsymmetric(a.s, a.s);
    }
  }

  /** Python's `+`: numeric addition, string concatenation, `TypeError` otherwise. */
  function Add(a: Value, b: Value): (r: Result<Value>)
    ensures r.Ok? <==> (a.Num? && b.Num?) || (a.Str? && b.Str?)
    ensures a.Num? && b.Num? ==> r == Ok(Num(a.x + b.x))
    ensures a.Str? && b.Str? ==> r == Ok(Str(a.s + b.s))
  {
    match (a, b)
    case (Num(x), Num(y)) => Ok(Num(x + y))
    case (Str(s), Str(t)) => Ok(Str(s + t))
    case _ => Raised(TypeError)
  }

  /** Python's `-`: defined on numbers only. */
  function Sub(a: Value, b: Value): (r: Result<Value>)
    ensures r.Ok? <==> a.Num? && b.Num?
    ensures r.Ok? ==> r.value == Num(a.x - b.x)
  {
    match (a, b)
    case (Num(x), Num(y)) => Ok(Num(x - y))
    case _ => Raised(TypeError)
  }
}
