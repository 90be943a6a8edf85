/** JSON numbers as exact decimals, and how JavaScript prints them. */
module Numbers {
  import opened Text

  /** The number `digits / 10^scale`; every number written in a JSON document has this form. */
  datatype Decimal = Decimal(digits: int, scale: nat)

  function Pow10(n: nat): (r: nat)
    ensures r >= 1
  {
    if n == 0 then 1 else 10 * Pow10(n - 1)
  }

  function DecimalValue(d: Decimal): real {
    d.digits as real / Pow10(d.scale) as real
  }

  lemma ZeroIffZeroDigits(d: Decimal)
    ensures DecimalValue(d) == 0.0 <==> d.digits == 0
  {
  }

  function Abs(x: int): nat {
    if x < 0 then -x else x
  }

  /** The same number without trailing zeros after the decimal point. */
  function Normalize(d: Decimal): (r: Decimal)
    ensures r.scale <= d.scale
    ensures r.scale > 0 ==> r.digits % 10 != 0
    ensures DecimalValue(r) == DecimalValue(d)
    decreases d.scale
  {
    if d.scale > 0 && d.digits % 10 == 0 then
      var q := d.digits / 10;
      var p := Pow10(d.scale - 1) as real;
      assert d.digits as real == 10.0 * q as real;
      assert Pow10(d.scale) as real == 10.0 * p;
      assert (10.0 * q as real) / (10.0 * p) == q as real / p;
      Normalize(Decimal(q, d.scale - 1))
    else d
  }

  /** `s` padded on the left with zeros to at least `width` characters. */
  function ZeroPad(s: string, width: nat): (r: string)
    ensures |r| == if |s| >= width then |s| else width
    ensures r[|r| - |s|..] == s
    ensures forall i :: 0 <= i < |r| - |s| ==> r[i] == '0'
  {
    if |s| >= width then s else seq(width - |s|, _ => '0') + s
  }

  /** Prints a normalized decimal: an optional minus sign, the integer digits, and the fraction digits. */
  function Render(n: Decimal): string {
    var body := ZeroPad(NatToString(Abs(n.digits)), n.scale + 1);
    var split := |body| - n.scale;
    (if n.digits < 0 then "-" else "") + (if n.scale == 0 then body else body[..split] + "." + body[split..])
  }

  /** `Number.prototype.toString` for a number that JavaScript prints in plain, non-exponent notation;
      trailing zeros after the decimal point are not printed. */
  function NumberToString(d: Decimal): string {
    Render(Normalize(d))
  }

  /** A whole non-negative number prints as its decimal digits. */
  lemma NumberToStringWhole(n: nat)
    ensures NumberToString(Decimal(n, 0)) == NatToString(n)
  {
  }

  /** Trailing zeros in the written form do not show: 12.50 prints as 12.5. */
  lemma NumberToStringIgnoresTrailingZero(d: Decimal)
    ensures NumberToString(Decimal(d.digits * 10, d.scale + 1)) == NumberToString(d)
  {
    var e := Decimal(d.digits * 10, d.scale + 1);
    assert e.digits % 10 == 0 && e.digits / 10 == d.digits;
    assert Normalize(e) == Normalize(Decimal(d.digits, d.scale));
  }
}
