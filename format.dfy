/**
 * The two number formats Rust's `format!` produces in the model: `{:0Nx}`
 * (zero-padded lower-case hexadecimal) and `{}` on an unsigned integer
 * (decimal without leading zeros). Each comes with the reading that undoes it.
 */
module Format {
  import opened Base

  const HexDigits: string := "0123456789abcdef"
  const DecDigits: string := "0123456789"

  function Pow16(k: nat): (p: nat)
    ensures p >= 1
  {
    if k == 0 then 1 else 16 * Pow16(k - 1)
  }

  /** The value of one hexadecimal digit character (0 for any other character). */
  function HexDigitValue(c: char): (d: nat)
    ensures d < 16
    ensures forall k :: 0 <= k < 16 ==> (c == HexDigits[k] ==> d == k)
  {
    if '0' <= c <= '9' then c as int - '0' as int
    else if 'a' <= c <= 'f' then c as int - 'a' as int + 10
    else 0
  }

  /**
   * The low `width` hexadecimal digits of `v`, lower-case, most significant
   * first. For `v` below 16^width, as in `Hex4` and `Hex2`, this is
   * `{:0width$x}`; Rust would print a larger value in full.
   */
  function Hex(v: nat, width: nat): (s: string)
    ensures |s| == width
    ensures forall i :: 0 <= i < |s| ==> s[i] in HexDigits
  {
    if width == 0 then "" else Hex(v / 16, width - 1) + [HexDigits[v % 16]]
  }

  /** `{:04x}` of a `u16`. */
  function Hex4(v: u16): (s: string)
    ensures |s| == 4
  {
    Hex(v as nat, 4)
  }

  /** `{:02x}` of a `u8`. */
  function Hex2(v: u8): (s: string)
    ensures |s| == 2
  {
    Hex(v as nat, 2)
  }

  /** The value of a string of hexadecimal digits, most significant first. */
  function HexValue(s: string): nat
  {
    if s == [] then 0 else 16 * HexValue(s[..|s| - 1]) + HexDigitValue(s[|s| - 1])
  }

  /** Reading back the digits `Hex` writes gives the value again. */
  lemma {:induction false} HexRoundTrip(v: nat, width: nat)
    requires v < Pow16(width)
    ensures HexValue(Hex(v, width)) == v
  {
    if width > 0 {
      var s := Hex(v, width);
      HexRoundTrip(v / 16, width - 1);
      assert s[..|s| - 1] == Hex(v / 16, width - 1);
      assert s[|s| - 1] == HexDigits[v % 16];
    }
  }

  /** The four digits `{:04x}` prints for `v` read back as `v`. */
  lemma Hex4Value(v: u16)
    ensures HexValue(Hex4(v)) == v as nat
  {
    assert Pow16(4) == 0x1_0000;
    HexRoundTrip(v as nat, 4);
  }

  /** The two digits `{:02x}` prints for `v` read back as `v`. */
  lemma Hex2Value(v: u8)
    ensures HexValue(Hex2(v)) == v as nat
  {
    assert Pow16(2) == 0x100;
    HexRoundTrip(v as nat, 2);
  }

  /** `{}` of an unsigned integer: its decimal digits, without leading zeros. */
  function Dec(n: nat): (s: string)
    ensures |s| >= 1
    ensures forall i :: 0 <= i < |s| ==> s[i] in DecDigits
    ensures s[0] == '0' ==> n == 0
  {
    if n < 10 then [DecDigits[n]] else Dec(n / 10) + [DecDigits[n % 10]]
  }

  /** The value of a string of decimal digits, most significant first. */
  function DecValue(s: string): nat
  {
    if s == [] then 0 else 10 * DecValue(s[..|s| - 1]) + HexDigitValue(s[|s| - 1])
  }

  /** Reading back the digits `Dec` writes gives the number again. */
  lemma {:induction false} DecRoundTrip(n: nat)
    ensures DecValue(Dec(n)) == n
  {
    var s := Dec(n);
    if n >= 10 {
      DecRoundTrip(n / 10);
      assert s[..|s| - 1] == Dec(n / 10);
    }
    assert s[|s| - 1] == DecDigits[n % 10] == HexDigits[n % 10];
  }
}
