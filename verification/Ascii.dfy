/** Text as UTF-16 code units, and ASCII literals as numbers for components that work on code units or on bytes. */
module Ascii {
  // A UTF-16 code unit, which may be one half of a surrogate pair.
  type Unit = x: int | 0 <= x < 0x1_0000

  type Text = seq<Unit>

  type Code = x: int | 0 <= x < 128

  function Codes(text: string): (codes: seq<Code>)
    requires forall i :: 0 <= i < |text| ==> text[i] as int < 128
    ensures |codes| == |text| && forall i :: 0 <= i < |text| ==> codes[i] == text[i] as int
  {
    seq(|text|, i requires 0 <= i < |text| => text[i] as int)
  }
}
