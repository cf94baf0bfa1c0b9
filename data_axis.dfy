/**
 * The axis string of `rot90_director` in dtmm/data.py: an optional integer
 * count of quarter turns followed by the letter of the rotation axis.
 */
module DataAxis {
  import opened Scalars

  predicate IsDigit(ch: char) { '0' <= ch <= '9' }

  function DigitValue(ch: char): nat
    requires IsDigit(ch)
  {
    ch as nat - '0' as nat
  }

  /** A non-empty run of decimal digits and its value. */
  function ParseDigits(s: string): (r: Option<nat>)
    ensures r.Some? <==> |s| > 0 && forall k :: 0 <= k < |s| ==> IsDigit(s[k])
  {
    if |s| == 0 then None
    else if !IsDigit(s[|s| - 1]) then None
    else if |s| == 1 then Some(DigitValue(s[0]))
    else
      var head := ParseDigits(s[..|s| - 1]);
      assert forall k :: 0 <= k < |s| - 1 ==> s[..|s| - 1][k] == s[k];
      if head.None? then None else Some(10 * head.value + DigitValue(s[|s| - 1]))
  }

  /**
   * `int(s)` for a string without blanks or underscores: an optional sign
   * and then digits; anything else is a ValueError.
   */
  function ParseInt(s: string): Result<int> {
    if |s| > 0 && (s[0] == '+' || s[0] == '-') then
      var d := ParseDigits(s[1..]);
      if d.None? then Err(ValueError) else Ok(if s[0] == '-' then -(d.value as int) else d.value as int)
    else
      var d := ParseDigits(s);
      if d.None? then Err(ValueError) else Ok(d.value as int)
  }

  /** The parsed axis: k quarter turns in the plane of the two array axes. */
  datatype Rot90Axis = Rot90Axis(k: int, axis0: nat, axis1: nat)

  /** The pair of array axes `np.rot90` turns for a rotation about x, y or z. */
  function PlaneOf(name: char): Option<(nat, nat)> {
    if name == 'x' then Some((1, 0))
    else if name == 'y' then Some((0, 2))
    else if name == 'z' then Some((2, 1))
    else None
  }

  /**
   * `k = int(axis[:-1])`, falling back to `int(axis[:-1] + "1")`; then
   * `axis[-1]` (an IndexError for the empty string) picks the plane, and an
   * unknown letter is a ValueError.
   */
  function ParseRot90Axis(axis: string): Result<Rot90Axis> {
    var prefix := if |axis| == 0 then "" else axis[..|axis| - 1];
    var first := ParseInt(prefix);
    var k := if first.Ok? then first else ParseInt(prefix + "1");
    if k.Err? then Err(k.error)
    else if |axis| == 0 then Err(IndexError)
    else
      var plane := PlaneOf(axis[|axis| - 1]);
      if plane.None? then Err(ValueError)
      else Ok(Rot90Axis(k.value, plane.value.0, plane.value.1))
  }

  /** The decimal digits of n. */
  function ShowNat(n: nat): (s: string)
    ensures |s| > 0
    decreases n
  {
    if n < 10 then [('0' as nat + n) as char]
    else ShowNat(n / 10) + [('0' as nat + n % 10) as char]
  }

  /** `str(k)`. */
  function ShowInt(k: int): string {
    if k < 0 then "-" + ShowNat(-k) else ShowNat(k)
  }

  lemma {:induction false} ParseShowNat(n: nat)
    ensures ParseDigits(ShowNat(n)) == Some(n)
    decreases n
  {
    var s := ShowNat(n);
    if n >= 10 {
      ParseShowNat(n / 10);
      assert s[..|s| - 1] == ShowNat(n / 10);
    }
  }

  /** `int(str(k)) == k`. */
  lemma ParseShowInt(k: int)
    ensures ParseInt(ShowInt(k)) == Ok(k)
  {
    if k < 0 {
      ParseShowNat(-k);
      var s := ShowInt(k);
      assert s[0] == '-' && s[1..] == ShowNat(-k);
    } else {
      ParseShowNat(k);
      var s := ShowNat(k);
      assert IsDigit(s[0]);
    }
  }

  /** An explicit turn count followed by an axis letter is read back as that count and that letter's plane. */
  lemma ParseRot90AxisRoundTrip(k: int, name: char)
    requires PlaneOf(name).Some?
    ensures ParseRot90Axis(ShowInt(k) + [name]) ==
      Ok(Rot90Axis(k, PlaneOf(name).value.0, PlaneOf(name).value.1))
  {
    var axis := ShowInt(k) + [name];
    assert axis[..|axis| - 1] == ShowInt(k);
    ParseShowInt(k);
  }

  /** The documented forms: a bare letter or a bare sign mean one turn. */
  lemma ParseRot90AxisExamples()
    ensures ParseRot90Axis("x") == Ok(Rot90Axis(1, 1, 0))
    ensures ParseRot90Axis("+x") == Ok(Rot90Axis(1, 1, 0))
    ensures ParseRot90Axis("-x") == Ok(Rot90Axis(-1, 1, 0))
    ensures ParseRot90Axis("2y") == Ok(Rot90Axis(2, 0, 2))
    ensures ParseRot90Axis("-3z") == Ok(Rot90Axis(-3, 2, 1))
    ensures ParseRot90Axis("") == Err(IndexError)
    ensures ParseRot90Axis("qx") == Err(ValueError)
  {
    assert "qx"[..1] == "q" && "q" + "1" == "q1";
    assert "x"[..0] == "" && "" + "1" == "1";
    assert "+x"[..1] == "+" && "+" + "1" == "+1" && "+1"[1..] == "1";
    assert "-x"[..1] == "-" && "-" + "1" == "-1" && "-1"[1..] == "1";
    assert "2y"[..1] == "2";
    assert "-3z"[..2] == "-3" && "-3"[1..] == "3";
  }

  /** Whatever precedes it, a last character other than x, y and z is rejected with a ValueError. */
  lemma ParseRot90AxisUnknownLetter(axis: string)
    requires |axis| > 0 && PlaneOf(axis[|axis| - 1]).None?
    ensures ParseRot90Axis(axis) == Err(ValueError)
  {
  }

  /** A successful parse names a plane by the string's last letter. */
  lemma ParseRot90AxisPlane(axis: string)
    requires ParseRot90Axis(axis).Ok?
    ensures |axis| > 0 && PlaneOf(axis[|axis| - 1]).Some?
    ensures var r := ParseRot90Axis(axis).value;
      (r.axis0, r.axis1) == PlaneOf(axis[|axis| - 1]).value
  {
  }
}
