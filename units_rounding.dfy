/** The free helper functions of the original single-file calculator: attaching an assumed
    unit to a bare number typed by the user, and rounding to the nearest sixteenth of an inch
    or the nearest half unit of pitch with Python's `round`. */
module UnitsRounding {
  import opened Geometry

  /** `pat` occurs somewhere in `s` as a contiguous piece. */
  predicate Occurs(pat: string, s: string)
    decreases |s|
  {
    |pat| <= |s| && (s[..|pat|] == pat || Occurs(pat, s[1..]))
  }

  /** `pat` is the slice of `s` starting at `i`. */
  predicate SliceAt(pat: string, s: string, i: int) {
    0 <= i <= |s| - |pat| && s[i..i + |pat|] == pat
  }

  /** `Occurs` is exactly "some slice of `s` equals `pat`". */
  lemma {:induction false} OccursIff(pat: string, s: string)
    ensures Occurs(pat, s) <==> exists i :: SliceAt(pat, s, i)
    decreases |s|
  {
    if |pat| <= |s| && s[..|pat|] == pat {
      assert SliceAt(pat, s, 0);
    } else if |pat| <= |s| {
      OccursIff(pat, s[1..]);
      if exists i :: SliceAt(pat, s, i) {
        var i :| SliceAt(pat, s, i);
        assert s[1..][i - 1..i - 1 + |pat|] == s[i..i + |pat|];
        assert SliceAt(pat, s[1..], i - 1);
      }
      if Occurs(pat, s[1..]) {
        var j :| SliceAt(pat, s[1..], j);
        assert s[j + 1..j + 1 + |pat|] == s[1..][j..j + |pat|];
        assert SliceAt(pat, s, j + 1);
      }
    }
  }

  /** Anything occurring in `u` occurs in `s + u`. */
  lemma {:induction false} OccursInSuffix(pat: string, s: string, u: string)
    requires Occurs(pat, u)
    ensures Occurs(pat, s + u)
    decreases |s|
  {
    if |s| == 0 {
      assert s + u == u;
    } else {
      OccursInSuffix(pat, s[1..], u);
      assert (s + u)[1..] == s[1..] + u;
    }
  }

  /** Anything occurring in `s` occurs in `s + u`. */
  lemma {:induction false} OccursInPrefix(pat: string, s: string, u: string)
    requires Occurs(pat, s)
    ensures Occurs(pat, s + u)
    decreases |s|
  {
    assert (s + u)[..|pat|] == s[..|pat|];
    if s[..|pat|] != pat {
      OccursInPrefix(pat, s[1..], u);
      assert (s + u)[1..] == s[1..] + u;
    }
  }

  /** The unit markers the calculator searches for: `'`, `ft`, `feet`, `"` and `in`. */
  predicate HasUnit(s: string) {
    Occurs("'", s) || Occurs("ft", s) || Occurs("feet", s) || Occurs("\"", s) || Occurs("in", s)
  }

  lemma HasUnitAppend(s: string, u: string)
    requires HasUnit(s) || HasUnit(u)
    ensures HasUnit(s + u)
  {
    var markers := ["'", "ft", "feet", "\"", "in"];
    forall k | 0 <= k < |markers| && (Occurs(markers[k], s) || Occurs(markers[k], u))
      ensures Occurs(markers[k], s + u)
    {
      if Occurs(markers[k], s) {
        OccursInPrefix(markers[k], s, u);
      } else {
        OccursInSuffix(markers[k], s, u);
      }
    }
    assert Occurs(markers[0], s) || Occurs(markers[1], s) || Occurs(markers[2], s)
        || Occurs(markers[3], s) || Occurs(markers[4], s)
        || Occurs(markers[0], u) || Occurs(markers[1], u) || Occurs(markers[2], u)
        || Occurs(markers[3], u) || Occurs(markers[4], u);
  }

  /** `assume_units(string_in, assume_unit)`: text that already names a unit is returned as
      it is; bare text gets the assumed unit appended. */
  function AssumeUnits(s: string, unit: string): (r: string)
    ensures HasUnit(s) ==> r == s
    ensures !HasUnit(s) ==> r == s + unit
    ensures s <= r
  {
    if HasUnit(s) then s else s + unit
  }

  /** With a unit that is itself recognised (the calculator passes `"`), the result always
      names a unit, and assuming units a second time changes nothing. */
  lemma AssumeUnitsIdempotent(s: string, unit: string)
    requires HasUnit(unit)
    ensures HasUnit(AssumeUnits(s, unit))
    ensures AssumeUnits(AssumeUnits(s, unit), unit) == AssumeUnits(s, unit)
  {
    if !HasUnit(s) {
      HasUnitAppend(s, unit);
    }
  }

  /** Python's `round` on a float: the nearest integer, a tie going to the even one. */
  function PyRound(x: real): (n: int)
    ensures -0.5 <= n as real - x <= 0.5
    ensures n as real - x == 0.5 || x - n as real == 0.5 ==> n % 2 == 0
  {
    var f := Floor(x);
    var d := x - f as real;
    if d < 0.5 then f
    else if d > 0.5 then f + 1
    else if f % 2 == 0 then f
    else f + 1
  }

  /** `PyRound`'s two properties pin its result down: no other integer has them. */
  lemma PyRoundUnique(x: real, m: int)
    requires -0.5 <= m as real - x <= 0.5
    requires m as real - x == 0.5 || x - m as real == 0.5 ==> m % 2 == 0
    ensures m == PyRound(x)
  {
  }

  /** Rounding an integer gives it back. */
  lemma PyRoundInteger(n: int)
    ensures PyRound(n as real) == n
  {
    PyRoundUnique(n as real, n);
  }

  /** `sixteenth(number)`: the nearest multiple of 1/16. */
  function Sixteenth(x: real): (r: real)
    ensures (r * 16.0).Floor as real == r * 16.0
    ensures -1.0 / 32.0 <= r - x <= 1.0 / 32.0
  {
    PyRound(x * 16.0) as real / 16.0
  }

  /** A length already on the sixteenth grid is left where it is. */
  lemma SixteenthIdempotent(x: real)
    ensures Sixteenth(Sixteenth(x)) == Sixteenth(x)
  {
    var n := PyRound(x * 16.0);
    assert Sixteenth(x) * 16.0 == n as real;
    PyRoundInteger(n);
  }

  /** `pitch_estimate(number)`: the nearest multiple of 1/2. */
  function PitchEstimate(x: real): (r: real)
    ensures (r * 2.0).Floor as real == r * 2.0
    ensures -0.25 <= r - x <= 0.25
  {
    PyRound(x * 2.0) as real / 2.0
  }

  lemma PitchEstimateIdempotent(x: real)
    ensures PitchEstimate(PitchEstimate(x)) == PitchEstimate(x)
  {
    var n := PyRound(x * 2.0);
    assert PitchEstimate(x) * 2.0 == n as real;
    PyRoundInteger(n);
  }
}
