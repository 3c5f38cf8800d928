/** Decimal numerals as they are printed, and as unsigned integers are parsed. */
module Numerals {
  import opened Options

  predicate IsDigit(b: nat) { '0' as nat <= b <= '9' as nat }

  function Decimal(n: nat): (s: string)
    ensures s != "" && forall i :: 0 <= i < |s| ==> IsDigit(s[i] as nat)
  {
    var last := '0' + (n % 10) as char;
    if n < 10 then [last] else Decimal(n / 10) + [last]
  }

  lemma {:induction false} DecimalInjective(m: nat, n: nat)
    ensures Decimal(m) == Decimal(n) ==> m == n
  {
    var a, b := Decimal(m), Decimal(n);
    if a == b {
      assert a[|a| - 1] == b[|b| - 1];
      if m >= 10 && n >= 10 {
        assert a[..|a| - 1] == Decimal(m / 10) && b[..|b| - 1] == Decimal(n / 10);
        DecimalInjective(m / 10, n / 10);
      }
    }
  }

  function DigitsValue(s: string): Option<nat> {
    if s == "" || !IsDigit(s[|s| - 1] as nat) then None
    else
      var last := (s[|s| - 1] - '0') as nat;
      if |s| == 1 then Some(last)
      else
        var before := DigitsValue(s[..|s| - 1]);
        if before.None? then None else Some(before.value * 10 + last)
  }

  /** Parsing an unsigned integer: an optional plus sign, digits, and a value that fits. */
  function ParseUnsigned(s: string, limit: nat): Option<nat> {
    var body := if |s| > 1 && s[0] == '+' then s[1..] else s;
    var v := DigitsValue(body);
    if v.Some? && v.value < limit then v else None
  }

  lemma {:induction false} DigitsOfDecimal(n: nat)
    ensures DigitsValue(Decimal(n)) == Some(n)
  {
    if n >= 10 {
      DigitsOfDecimal(n / 10);
      var s := Decimal(n);
      assert s[..|s| - 1] == Decimal(n / 10);
    }
  }

  /** A printed number is read back when it fits, and refused when it does not. */
  lemma ParseDecimal(n: nat, limit: nat)
    ensures ParseUnsigned(Decimal(n), limit) == if n < limit then Some(n) else None
  {
    DigitsOfDecimal(n);
    assert IsDigit(Decimal(n)[0] as nat);
  }
}
