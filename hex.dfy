/**
 * Lower-case hexadecimal text for byte strings, as Python's `hexdigest()`
 * and `str(ObjectId)` produce it: two digits per byte, high nibble first.
 */
module Hex {
  import opened PyValue

  predicate IsHexDigit(c: char) {
    '0' <= c <= '9' || 'a' <= c <= 'f'
  }

  predicate IsHex(s: string) {
    forall i :: 0 <= i < |s| ==> IsHexDigit(s[i])
  }

  function Digit(d: nat): (c: char)
    requires d < 16
    ensures IsHexDigit(c)
  {
    if d < 10 then ('0' as int + d) as char else ('a' as int + d - 10) as char
  }

  function DigitValue(c: char): (d: nat)
    requires IsHexDigit(c)
    ensures d < 16 && Digit(d) == c
  {
    if c <= '9' then c as int - '0' as int else c as int - 'a' as int + 10
  }

  /** The hex text of a byte string. */
  function Hex(bytes: seq<Byte>): (s: string)
    ensures |s| == 2 * |bytes| && IsHex(s)
  {
    if bytes == [] then ""
    else [Digit(bytes[0] as int / 16), Digit(bytes[0] as int % 16)] + Hex(bytes[1..])
  }

  /** The bytes a hex text spells, or None when it is not an even run of hex digits. */
  function Unhex(s: string): Option<seq<Byte>>
  {
    if s == [] then Some([])
    else if |s| < 2 || !IsHexDigit(s[0]) || !IsHexDigit(s[1]) then None
    else
      match Unhex(s[2..])
      case None => None
      case Some(rest) => Some([(DigitValue(s[0]) * 16 + DigitValue(s[1])) as Byte] + rest)
  }

  /** Reading back the hex text of a byte string gives the byte string. */
  lemma {:induction false} UnhexHex(bytes: seq<Byte>)
    ensures Unhex(Hex(bytes)) == Some(bytes)
  {
    if bytes != [] {
      var s := Hex(bytes);
      var b := bytes[0] as int;
      UnhexHex(bytes[1..]);
      assert s[2..] == Hex(bytes[1..]);
      assert DigitValue(s[0]) == b / 16 && DigitValue(s[1]) == b % 16;
      assert [bytes[0]] + bytes[1..] == bytes;
    }
  }

  /** A byte built from two hex digits splits back into them. */
  lemma NibblesOf(hi: nat, lo: nat)
    requires hi < 16 && lo < 16
    ensures (hi * 16 + lo) / 16 == hi && (hi * 16 + lo) % 16 == lo
  {
  }

  /** The hex text of a byte string starts with its first byte's two digits. */
  lemma HexCons(b: Byte, rest: seq<Byte>)
    ensures Hex([b] + rest) == [Digit(b as int / 16), Digit(b as int % 16)] + Hex(rest)
  {
    assert ([b] + rest)[1..] == rest;
  }

  /** Whatever hex text `Unhex` accepts is the hex text of what it returns. */
  lemma {:induction false} HexUnhex(s: string)
    ensures Unhex(s).Some? ==> Hex(Unhex(s).value) == s
  {
    if s != [] && |s| >= 2 && IsHexDigit(s[0]) && IsHexDigit(s[1]) && Unhex(s[2..]).Some? {
      HexUnhex(s[2..]);
      var rest := Unhex(s[2..]).value;
      var hi, lo := DigitValue(s[0]), DigitValue(s[1]);
      NibblesOf(hi, lo);
      var b := (hi * 16 + lo) as Byte;
      assert Unhex(s) == Some([b] + rest);
      HexCons(b, rest);
      assert s == [s[0], s[1]] + s[2..];
    }
  }

  /** Different byte strings have different hex texts. */
  lemma HexInjective(a: seq<Byte>, b: seq<Byte>)
    ensures Hex(a) == Hex(b) <==> a == b
  {
    UnhexHex(a);
    UnhexHex(b);
  }
}
