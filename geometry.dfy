/** Real arithmetic as the calculator uses it: Python's rounding helpers over reals, division
    that raises on a zero divisor, and the trigonometric functions, which are not defined here
    but passed in as a `Trig` record whose lawful instances are characterised by `Lawful`. */
module Geometry {
  import opened PyValues

  /** `math.floor`: the greatest integer not above `x`. */
  function Floor(x: real): (r: int)
    ensures r as real <= x < r as real + 1.0
  {
    x.Floor
  }

  /** `math.ceil`: the least integer not below `x`. */
  function Ceil(x: real): (r: int)
    ensures r as real - 1.0 < x <= r as real
  {
    -Floor(-x)
  }

  /** Any integer at or above `x` is at or above its ceiling. */
  lemma CeilLeast(x: real, n: int)
    requires x <= n as real
    ensures Ceil(x) <= n
  {
  }

  lemma CeilMonotone(x: real, y: real)
    requires x <= y
    ensures Ceil(x) <= Ceil(y)
  {
    CeilLeast(x, Ceil(y));
  }

  /** Python's float `%` with a positive divisor: the remainder has the divisor's sign. */
  function PyMod(x: real, m: real): (r: real)
    requires 0.0 < m
    ensures 0.0 <= r < m
    ensures (x - r) / m == Floor(x / m) as real
  {
    var q := Floor(x / m) as real;
    ScaleBounds(q, x / m, q + 1.0, m);
    assert (x / m) * m == x;
    x - q * m
  }

  lemma ScaleBounds(lo: real, v: real, hi: real, m: real)
    requires lo <= v < hi && 0.0 < m
    ensures lo * m <= v * m < hi * m
  {
  }

  /** Python's `/` on floats: `ZeroDivisionError` when the divisor is zero. */
  function Div(a: real, b: real): (r: Result<real>)
    ensures r.Ok? <==> b != 0.0
    ensures r.Ok? ==> r.value * b == a
  {
    if b == 0.0 then Raised(ZeroDivisionError) else Ok(a / b)
  }

  /** The trigonometric functions of `math`, and pi/2. */
  datatype Trig = Trig(
    sin: real -> real,
    cos: real -> real,
    tan: real -> real,
    atan: real -> real,
    halfPi: real)

  /** The facts about sine, cosine, tangent and arc tangent that the proofs rely on,
      for a roof pitch `p` with 0 <= p < pi/2: arc tangent inverts tangent both ways. */
  ghost predicate Lawful(t: Trig) {
    && 0.0 < t.halfPi
    && t.sin(t.halfPi) == 1.0
    && (forall p :: 0.0 <= p < t.halfPi ==>
          0.0 < t.cos(p) && t.sin(t.halfPi - p) == t.cos(p))
    && (forall p :: 0.0 <= p < t.halfPi ==> 0.0 <= t.sin(p) && 0.0 <= t.tan(p))
    && (forall x :: t.tan(t.atan(x)) == x)
    && (forall p :: 0.0 <= p < t.halfPi ==> t.atan(t.tan(p)) == p)
    && (forall x :: 0.0 <= x ==> 0.0 <= t.atan(x) < t.halfPi)
  }

  /** A pitch a roof can have: level up to, but not including, vertical. */
  predicate RoofPitch(t: Trig, p: real) {
    0.0 <= p < t.halfPi
  }

  /** The rise of a roof at `pitch` over a horizontal run of `run`: `run * tan(pitch)`. */
  function Rise(t: Trig, run: real, pitch: real): real {
    run * t.tan(pitch)
  }

  /** `angled(pitch, thickness)`: the panel thickness measured vertically through a panel
      laid at `pitch`, written `thickness * sin(pi/2) / sin(pi/2 - pitch)`; a vertical pitch
      makes the divisor zero and Python raises. */
  function Angled(t: Trig, pitch: real, thickness: real): (r: Result<real>)
    ensures r.Ok? <==> t.sin(t.halfPi - pitch) != 0.0
    ensures r.Ok? ==> r.value * t.sin(t.halfPi - pitch) == thickness * t.sin(t.halfPi)
  {
    var d := t.sin(t.halfPi - pitch);
    if d == 0.0 then Raised(ZeroDivisionError)
    else Ok(thickness * (t.sin(t.halfPi) / d))
  }

  /** On a roof pitch the angled thickness exists. */
  lemma AngledDefined(t: Trig, pitch: real, thickness: real)
    requires Lawful(t) && RoofPitch(t, pitch)
    ensures Angled(t, pitch, thickness).Ok?
  {
    assert t.sin(t.halfPi - pitch) == t.cos(pitch) > 0.0;
  }

  /** On a roof pitch the angled thickness exists and is the thickness over cos(pitch). */
  lemma AngledOnRoofPitch(t: Trig, pitch: real, thickness: real)
    requires Lawful(t) && RoofPitch(t, pitch)
    ensures Angled(t, pitch, thickness).Ok?
    ensures Angled(t, pitch, thickness).value * t.cos(pitch) == thickness
    ensures 0.0 <= thickness ==> 0.0 <= Angled(t, pitch, thickness).value
  {
    var c := t.cos(pitch);
    assert t.sin(t.halfPi - pitch) == c && 0.0 < c;
    var v := Angled(t, pitch, thickness).value;
    assert v * c == thickness;
  }
}
