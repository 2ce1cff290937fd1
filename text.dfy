/**
 * String operations the handlers use: `str.split` with a one-character
 * separator, taking its last piece (`s.split('/')[-1]`), and Python's
 * decimal rendering of integers (`str(n)`).
 */
module Text {

  /** `s.split(sep)`: the pieces between separators, empty pieces kept. */
  function Split(s: string, sep: char): (parts: seq<string>)
    ensures |parts| >= 1
    ensures forall i :: 0 <= i < |parts| ==> sep !in parts[i]
    ensures |parts| == 1 <==> sep !in s
  {
    if s == [] then [""]
    else
      var rest := Split(s[1..], sep);
      assert s == [s[0]] + s[1..];
      if s[0] == sep then [""] + rest
      else [[s[0]] + rest[0]] + rest[1..]
  }

  /** `sep.join(parts)`, the inverse of `Split`. */
  function Join(parts: seq<string>, sep: char): string
    requires |parts| >= 1
  {
    if |parts| == 1 then parts[0]
    else parts[0] + [sep] + Join(parts[1..], sep)
  }

  /** Splitting and joining again gives back the original string. */
  lemma {:induction false} JoinSplit(s: string, sep: char)
    ensures Join(Split(s, sep), sep) == s
  {
    if s != [] {
      var rest := Split(s[1..], sep);
      JoinSplit(s[1..], sep);
      if s[0] == sep {
        assert ([""] + rest)[1..] == rest;
      } else {
        var parts := [[s[0]] + rest[0]] + rest[1..];
        if |rest| > 1 {
          assert parts[1..] == rest[1..];
        }
      }
    }
  }

  /** The last piece of `s.split(sep)`. */
  function LastPiece(s: string, sep: char): (piece: string)
    ensures sep !in piece
  {
    var parts := Split(s, sep);
    parts[|parts| - 1]
  }

  /**
   * `s.split(sep)[-1]` is the text after the last separator: a suffix of `s`
   * without separators that is preceded by a separator, or all of `s` when it
   * has none.
   */
  lemma {:induction false} LastPieceAfterLastSeparator(s: string, sep: char)
    ensures var piece := LastPiece(s, sep);
      && |piece| <= |s|
      && s[|s| - |piece|..] == piece
      && sep !in piece
      && (sep in s ==> |piece| < |s| && s[|s| - |piece| - 1] == sep)
      && (sep !in s ==> piece == s)
  {
    var piece := LastPiece(s, sep);
    if s != [] {
      var rest := Split(s[1..], sep);
      var tail := rest[|rest| - 1];
      LastPieceAfterLastSeparator(s[1..], sep);
      assert s == [s[0]] + s[1..];
      if s[0] == sep {
        assert piece == tail;
        assert s[|s| - |piece|..] == s[1..][|s| - 1 - |piece|..];
      } else if |rest| == 1 {
        assert sep !in s[1..];
        assert piece == [s[0]] + rest[0];
      } else {
        assert piece == tail;
        assert s[|s| - |piece|..] == s[1..][|s| - 1 - |piece|..];
      }
    }
  }

  /** A string without the separator splits into just itself. */
  lemma {:induction false} SplitWithoutSeparator(s: string, sep: char)
    requires sep !in s
    ensures Split(s, sep) == [s]
  {
    JoinSplit(s, sep);
  }

  /** Whatever precedes the last separator, the last piece is exactly what follows it. */
  lemma {:induction false} LastPieceFollowsLastSeparator(prefix: string, tail: string, sep: char)
    requires sep !in tail
    ensures LastPiece(prefix + [sep] + tail, sep) == tail
  {
    var s := prefix + [sep] + tail;
    if prefix == [] {
      assert s[1..] == tail;
      SplitWithoutSeparator(tail, sep);
    } else {
      assert s[1..] == prefix[1..] + [sep] + tail;
      LastPieceFollowsLastSeparator(prefix[1..], tail, sep);
      assert sep in s[1..] by {
        assert s[1..][|prefix| - 1] == sep;
      }
    }
  }

  predicate IsDigit(c: char) {
    '0' <= c <= '9'
  }

  predicate AllDigits(s: string) {
    forall i :: 0 <= i < |s| ==> IsDigit(s[i])
  }

  function DigitChar(d: nat): (c: char)
    requires d < 10
    ensures IsDigit(c)
  {
    ('0' as int + d) as char
  }

  /** The decimal digits of `n`, without leading zeros. */
  function NatToDecimal(n: nat): (s: string)
    ensures |s| >= 1 && AllDigits(s)
    ensures s[0] == '0' <==> n == 0
  {
    if n < 10 then [DigitChar(n)]
    else NatToDecimal(n / 10) + [DigitChar(n % 10)]
  }

  /** The number a string of decimal digits denotes. */
  function DecimalValue(s: string): nat
    requires AllDigits(s)
  {
    if s == [] then 0
    else DecimalValue(s[..|s| - 1]) * 10 + (s[|s| - 1] as int - '0' as int)
  }

  lemma {:induction false} DecimalRoundTrip(n: nat)
    ensures DecimalValue(NatToDecimal(n)) == n
  {
    var s := NatToDecimal(n);
    if n >= 10 {
      DecimalRoundTrip(n / 10);
      assert s[..|s| - 1] == NatToDecimal(n / 10);
    }
  }

  /** `str(i)` for a Python int: an optional minus sign, then the digits. */
  function IntToDecimal(i: int): (s: string)
    ensures |s| >= 1
    ensures s[0] == '-' <==> i < 0
    ensures AllDigits(if i < 0 then s[1..] else s)
    ensures var d := if i < 0 then s[1..] else s;
            |d| >= 1 && (d[0] == '0' <==> i == 0)
    ensures i == 0 <==> s == "0"
  {
    if i < 0 then "-" + NatToDecimal(-i) else NatToDecimal(i)
  }

  /** `int(s)` for the strings `IntToDecimal` produces. */
  function IntValue(s: string): int
    requires |s| >= 1
    requires var d := if s[0] == '-' then s[1..] else s; |d| >= 1 && AllDigits(d)
  {
    if s[0] == '-' then -(DecimalValue(s[1..]) as int) else DecimalValue(s)
  }

  /** Rendering an int in decimal loses nothing: parsing gives it back. */
  lemma IntRoundTrip(i: int)
    ensures IntValue(IntToDecimal(i)) == i
  {
    if i < 0 {
      DecimalRoundTrip(-i);
      assert IntToDecimal(i)[1..] == NatToDecimal(-i);
    } else {
      DecimalRoundTrip(i);
    }
  }

  /** A string of digits without a leading zero (other than "0" itself) is the decimal of its value. */
  lemma {:induction false} DecimalCanonical(s: string)
    requires |s| >= 1 && AllDigits(s) && (s[0] == '0' ==> s == "0")
    ensures NatToDecimal(DecimalValue(s)) == s
  {
    if |s| > 1 {
      var p := s[..|s| - 1];
      DecimalCanonical(p);
      var v := DecimalValue(p);
      var c := s[|s| - 1] as int - '0' as int;
      assert v != 0;
      assert (v * 10 + c) / 10 == v && (v * 10 + c) % 10 == c;
      assert s == p + [s[|s| - 1]];
    }
  }

  /**
   * `str` is onto the canonical decimals: an optional `-`, then digits with
   * no leading zero, and no `-0`. Each of them is `str` of its own value.
   */
  lemma IntDecimalCanonical(s: string)
    requires |s| >= 1
    requires var d := if s[0] == '-' then s[1..] else s;
             |d| >= 1 && AllDigits(d) && (d[0] == '0' ==> d == "0") && (s[0] == '-' ==> d != "0")
    ensures IntToDecimal(IntValue(s)) == s
  {
    if s[0] == '-' {
      DecimalCanonical(s[1..]);
      assert s == "-" + s[1..];
    } else {
      DecimalCanonical(s);
    }
  }
}
