/** Natural numbers in decimal notation, as template literals print them and `Number(...)` reads them. */
module Decimal {
  function Digit(d: nat): (c: char)
    requires d < 10
    ensures '0' <= c <= '9'
  {
    (48 + d) as char
  }

  function Print(n: nat): (text: string)
    ensures |text| == Length(n)
    ensures forall i :: 0 <= i < |text| ==> '0' <= text[i] <= '9'
  {
    if n < 10 then [Digit(n)] else Print(n / 10) + [Digit(n % 10)]
  }

  function Length(n: nat): (digits: nat)
    ensures 1 <= digits <= n / 10 + 1
  {
    if n < 10 then 1 else Length(n / 10) + 1
  }

  lemma {:induction false} LengthMonotone(a: nat, b: nat)
    requires a <= b
    ensures Length(a) <= Length(b)
  {
    if a >= 10 {
      LengthMonotone(a / 10, b / 10);
    }
  }

  lemma {:induction false} LengthAlmostConstant(n: nat)
    ensures Length(n + 2) <= Length(n) + 1
  {
    if n >= 10 {
      LengthMonotone((n + 2) / 10, n / 10 + 2);
      LengthAlmostConstant(n / 10);
    }
  }

  /** Reads a run of digits. */
  function Parse(text: string): nat
    requires forall i :: 0 <= i < |text| ==> '0' <= text[i] <= '9'
  {
    if text == [] then 0
    else 10 * Parse(text[..|text| - 1]) + (text[|text| - 1] as int - 48)
  }

  lemma {:induction false} ParsePrint(n: nat)
    ensures Parse(Print(n)) == n
  {
    if n >= 10 {
      ParsePrint(n / 10);
      assert Print(n)[..|Print(n)| - 1] == Print(n / 10);
    } else {
      assert Print(n)[..0] == [];
    }
  }
}
