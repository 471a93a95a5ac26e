/** The user library's conversion of 32-bit integers to decimal text. */
module Decimal {
  import opened Queues

  const INT_MIN := -0x8000_0000

  type Int32 = v: int | INT_MIN <= v < 0x8000_0000

  /** Negation in 32 bits: the least value is its own negation. */
  function Neg32(v: Int32): (r: Int32) {
    if v == INT_MIN then v else -v
  }

  function Digit(d: nat): char
    requires d < 10
  {
    '0' + d as char
  }

  /** The decimal digits of a positive number, the highest first. */
  function Digits(n: int): string
    decreases if n > 0 then n else 0
  {
    if n <= 0 then "" else Digits(n / 10) + [Digit(n % 10)]
  }

  /** What `u_itoa` writes before the final zero. */
  function Text(v: Int32): string {
    if v == 0 then "0" else if v < 0 then "-" + Digits(Neg32(v)) else Digits(v)
  }

  /** The value of a non-empty string of digits. */
  function Value(s: string): Option<int> {
    if |s| == 0 then None
    else if !('0' <= s[|s| - 1] <= '9') then None
    else
      var d := (s[|s| - 1] - '0') as int;
      if |s| == 1 then Some(d) else
        match Value(s[..|s| - 1])
        case None => None
        case Some(n) => Some(10 * n + d)
  }

  function Parse(s: string): Option<int> {
    if |s| > 0 && s[0] == '-' then
      match Value(s[1..])
      case None => None
      case Some(n) => Some(-n)
    else Value(s)
  }

  lemma {:induction false} DigitsValue(n: int)
    requires n > 0
    ensures Value(Digits(n)) == Some(n) && Digits(n)[0] != '-'
  {
    var d := n % 10;
    var s := Digits(n / 10);
    assert Digits(n) == s + [Digit(d)];
    assert (s + [Digit(d)])[..|s|] == s;
    if n >= 10 {
      DigitsValue(n / 10);
      assert (s + [Digit(d)])[0] == s[0];
    }
  }

  lemma ZeroText()
    ensures Text(0) == "0" && Parse(Text(0)) == Some(0)
  {
    assert "0"[..0] == "";
  }

  lemma LeastText()
    ensures Text(INT_MIN) == "-" && Parse(Text(INT_MIN)) == None
  {
    assert "-" + "" == "-";
    assert "-"[1..] == "";
  }

  lemma NegativeText(v: Int32)
    requires INT_MIN < v < 0
    ensures Parse(Text(v)) == Some(v)
  {
    DigitsValue(-v);
    hide Digits, Value;
    assert ("-" + Digits(-v))[1..] == Digits(-v);
  }

  lemma PositiveText(v: Int32)
    requires v > 0
    ensures Parse(Text(v)) == Some(v)
  {
    DigitsValue(v);
    hide Digits, Value;
  }

  /** Reading the text back gives the number for every 32-bit value but the least, for which only
      the sign is written. */
  lemma TextRoundTrip(v: Int32)
    ensures Parse(Text(v)) == Some(v) <==> v != INT_MIN
    ensures Text(INT_MIN) == "-"
  {
    hide Parse, Text;
    LeastText();
    if v > 0 {
      PositiveText(v);
    } else if v == 0 {
      ZeroText();
    } else if v != INT_MIN {
      NegativeText(v);
    }
  }

  function Pow10(k: nat): nat {
    if k == 0 then 1 else 10 * Pow10(k - 1)
  }

  lemma {:induction false} DigitsLength(n: int, k: nat)
    requires n < Pow10(k)
    ensures |Digits(n)| <= k
  {
    if n > 0 { DigitsLength(n / 10, k - 1); }
  }

  lemma AtMostTen(n: Int32)
    ensures |Digits(n)| <= 10
  {
    assert Pow10(5) == 100_000;
    assert Pow10(10) == 10_000_000_000;
    DigitsLength(n, 10);
  }

  function Reversed(s: string): (r: string)
    ensures |r| == |s| && forall i :: 0 <= i < |s| ==> r[i] == s[|s| - 1 - i]
  {
    seq(|s|, i requires 0 <= i < |s| => s[|s| - 1 - i])
  }

  lemma LastDigit(v: Int32, t: string)
    requires v > 0
    ensures Digits(v) + Reversed(t) == Digits(v / 10) + Reversed(t + [Digit(v % 10)])
  {
    assert Reversed(t + [Digit(v % 10)]) == [Digit(v % 10)] + Reversed(t);
  }

  lemma FirstOfReversed(t: string)
    requires t != ""
    ensures Reversed(t) == [t[|t| - 1]] + Reversed(t[..|t| - 1])
  {
  }

  /** The first loop of `u_itoa`: the digits, the lowest first. */
  method CollectDigits(n: Int32, tmp: array<char>) returns (i: nat)
    requires tmp.Length == 16
    modifies tmp
    ensures i <= 10 && Reversed(tmp[..i]) == Digits(n)
  {
    AtMostTen(n);
    i := 0;
    var v := n;
    while v > 0
      invariant v <= n && i <= 10 && Digits(n) == Digits(v) + Reversed(tmp[..i])
      decreases v
    {
      LastDigit(v, tmp[..i]);
      ghost var t := tmp[..i];
      tmp[i] := Digit(v % 10);
      assert tmp[..i + 1] == t + [Digit(v % 10)];
      v := v / 10;
      i := i + 1;
    }
  }

  /** The last loop: the collected digits behind the first `j0` characters, in reverse. */
  method CopyReversed(tmp: array<char>, n: nat, out: array<char>, j0: nat)
    requires tmp != out && n <= tmp.Length && j0 + n < out.Length
    modifies out
    ensures out[..j0 + n] == old(out[..j0]) + Reversed(tmp[..n]) && out[j0 + n] == '\0'
  {
    hide Reversed;
    var i: nat, j: nat := n, j0;
    while i > 0
      invariant i <= n && j + i == j0 + n
      invariant out[..j] + Reversed(tmp[..i]) == old(out[..j0]) + Reversed(tmp[..n])
    {
      FirstOfReversed(tmp[..i]);
      i := i - 1;
      ghost var was := out[..j];
      out[j] := tmp[i];
      assert out[..j + 1] == was + [tmp[i]];
      assert tmp[..i + 1][..i] == tmp[..i];
      j := j + 1;
    }
    assert Reversed(tmp[..0]) == "";
    out[j] := '\0';
  }

  lemma TextParts(v: Int32)
    requires v != 0
    ensures Text(v) == (if v < 0 then "-" else "") + Digits(if v < 0 then Neg32(v) else v)
  {
    hide Digits;
  }

  /** `u_itoa`: the digits are collected from the lowest and copied in reverse. */
  method Itoa(v0: Int32, out: array<char>)
    requires out.Length >= 12
    modifies out
    ensures |Text(v0)| <= 11 && out[..|Text(v0)|] == Text(v0) && out[|Text(v0)|] == '\0'
  {
    hide Reversed, Digits, Text;
    if v0 == 0 {
      out[0], out[1] := '0', '\0';
      ZeroText();
      return;
    }
    TextParts(v0);
    var tmp := new char[16];
    var v: Int32 := if v0 < 0 then Neg32(v0) else v0;
    var i := CollectDigits(v, tmp);
    var j := 0;
    if v0 < 0 {
      out[0] := '-';
      j := 1;
    }
    ghost var sign := out[..j];
    assert sign == if v0 < 0 then "-" else "";
    CopyReversed(tmp, i, out, j);
  }
}
