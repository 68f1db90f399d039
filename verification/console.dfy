/** Console input as the interactive prompts see it: `readLine()` over a finite list of lines
    (running out of lines stands for end of input) and Swift's `Int(String)` conversion, which
    accepts an optional `+` or `-` followed by one or more decimal digits, and nothing else,
    within the range of a 64-bit `Int`. */
module Console {
  import opened Wrappers

  const IntMin: int := -0x8000_0000_0000_0000
  const IntMax: int := 0x7FFF_FFFF_FFFF_FFFF

  predicate IsDigit(c: char)
  {
    '0' <= c <= '9'
  }

  predicate AllDigits(s: string)
  {
    forall i :: 0 <= i < |s| ==> IsDigit(s[i])
  }

  /** The value of a run of decimal digits, most significant first. */
  function DigitsValue(s: string): nat
    requires AllDigits(s)
  {
    if s == [] then 0
    else DigitsValue(s[..|s| - 1]) * 10 + (s[|s| - 1] as int - '0' as int)
  }

  /** Swift's `Int(text)`: `None` where Swift returns `nil`. */
  function ParseInt(text: string): (r: Option<int>)
    ensures r.Some? ==> IntMin <= r.value <= IntMax
    ensures r.Some? ==> 0 < |text|
  {
    if text == [] then None
    else
      var negative := text[0] == '-';
      var digits := if text[0] == '-' || text[0] == '+' then text[1..] else text;
      if digits == [] || !AllDigits(digits) then None
      else
        var magnitude: int := DigitsValue(digits);
        var v := if negative then -magnitude else magnitude;
        if IntMin <= v <= IntMax then Some(v) else None
  }

  /** The decimal digits of `n`, without sign or leading zeros. */
  function Decimal(n: nat): (r: string)
    ensures AllDigits(r) && r != []
  {
    var d := ['0' + (n % 10) as char];
    if n < 10 then d else Decimal(n / 10) + d
  }

  lemma {:induction false} DecimalValue(n: nat)
    ensures DigitsValue(Decimal(n)) == n
  {
    var r := Decimal(n);
    if n >= 10 {
      DecimalValue(n / 10);
      assert r[..|r| - 1] == Decimal(n / 10);
    }
  }

  /** Every `Int` written in decimal, with a minus sign when negative, reads back as itself. */
  lemma DecimalRoundTrip(n: int)
    requires IntMin <= n <= IntMax
    ensures n >= 0 ==> ParseInt(Decimal(n)) == Some(n)
    ensures n < 0 ==> ParseInt("-" + Decimal(-n)) == Some(n)
  {
    if n >= 0 {
      DecimalValue(n);
      assert Decimal(n)[0] != '-' && Decimal(n)[0] != '+';
    } else {
      DecimalValue(-n);
      var t := "-" + Decimal(-n);
      assert t[0] == '-' && t[1..] == Decimal(-n);
    }
  }
}
