/**
 * Integer and literal formatting (Siv3D/Source/Siv3D/Format/SivFormat.cpp).
 *
 * `detail::AppendInt` writes the decimal form of a signed integer backwards into
 * a 12-character scratch buffer and then copies it to the caller's output
 * pointer; the `Formatter` overloads for `bool`, `nullptr`, `char16_t` and
 * `char32_t` append fixed text to a `FormatData` string.
 */
module Format {
  import opened Wrappers

  /** The exclusive bounds of the values AppendInt accepts: a 32-bit `long` without LONG_MIN. */
  const LongMax := 0x8000_0000

  /** The wide character for the decimal digit `d`. */
  function DigitChar(d: nat): (c: char)
    requires d < 10
    ensures IsDigit(c) && DigitValue(c) == d
  {
    ('0' as int + d) as char
  }

  predicate IsDigit(c: char) {
    '0' <= c <= '9'
  }

  function DigitValue(c: char): int {
    c as int - '0' as int
  }

  predicate AllDigits(s: string) {
    forall i :: 0 <= i < |s| ==> IsDigit(s[i])
  }

  /** The decimal digits of `n`, most significant first, without leading zeros. */
  function Digits(n: nat): string
    decreases n
  {
    if n < 10 then [DigitChar(n)] else Digits(n / 10) + [DigitChar(n % 10)]
  }

  /** The text AppendInt produces: a `-` exactly for negative values, then the digits of the magnitude. */
  function DecimalText(v: int): string {
    if v < 0 then ['-'] + Digits(-v) else Digits(v)
  }

  function Pow10(k: nat): nat {
    if k == 0 then 1 else 10 * Pow10(k - 1)
  }

  /** The value of a digit string, read most significant digit first. */
  function DigitsValue(s: string): nat
    requires AllDigits(s)
  {
    if s == [] then 0 else DigitsValue(s[..|s| - 1]) * 10 + DigitValue(s[|s| - 1])
  }

  /** Reads back an optionally signed decimal integer. */
  function ParseInt(s: string): Option<int> {
    if |s| > 1 && s[0] == '-' && AllDigits(s[1..]) then Some(-(DigitsValue(s[1..]) as int))
    else if |s| > 0 && AllDigits(s) then Some(DigitsValue(s))
    else None
  }

  /** Digits(n) is a non-empty digit string without a leading zero whose value is n. */
  lemma {:induction false} DigitsCorrect(n: nat)
    ensures |Digits(n)| >= 1 && AllDigits(Digits(n))
    ensures n > 0 ==> Digits(n)[0] != '0'
    ensures n == 0 ==> Digits(n) == "0"
    ensures DigitsValue(Digits(n)) == n
    decreases n
  {
    if n >= 10 {
      DigitsCorrect(n / 10);
      var s := Digits(n);
      assert s[..|s| - 1] == Digits(n / 10);
    }
  }

  /** A value below 10^k has at most k digits. */
  lemma {:induction false} DigitsLength(n: nat, k: nat)
    requires 1 <= k && n < Pow10(k)
    ensures |Digits(n)| <= k
    decreases k
  {
    if n >= 10 {
      assert n / 10 < Pow10(k - 1);
      DigitsLength(n / 10, k - 1);
    }
  }

  /** The text of every accepted value fits the 11 usable characters of the 12-character buffer. */
  lemma DecimalTextFits(v: int)
    requires -LongMax < v < LongMax
    ensures 1 <= |DecimalText(v)| <= 11
    ensures |DecimalText(v)| <= (if v < 0 then 11 else 10)
  {
    assert Pow10(10) == 10_000_000_000 by {
      assert Pow10(5) == 100_000;
    }
    DigitsLength(if v < 0 then -v else v, 10);
    DigitsCorrect(if v < 0 then -v else v);
  }

  /** The text starts with '-' exactly for negative values, and never contains anything but digits after it. */
  lemma DecimalTextShape(v: int)
    ensures |DecimalText(v)| >= 1
    ensures DecimalText(v)[0] == '-' <==> v < 0
    ensures v < 0 ==> AllDigits(DecimalText(v)[1..]) && |DecimalText(v)| >= 2
    ensures v >= 0 ==> AllDigits(DecimalText(v))
    ensures forall i :: 0 <= i < |DecimalText(v)| ==> IsDigit(DecimalText(v)[i]) || DecimalText(v)[i] == '-'
  {
    DigitsCorrect(if v < 0 then -v else v);
    if v < 0 {
      assert DecimalText(v)[1..] == Digits(-v);
    }
  }

  /** Parsing the written text gives back the value. */
  lemma ParseDecimalText(v: int)
    ensures ParseInt(DecimalText(v)) == Some(v)
  {
    var s := DecimalText(v);
    DigitsCorrect(if v < 0 then -v else v);
    if v < 0 {
      assert s[1..] == Digits(-v);
    } else {
      assert s[0] != '-';
    }
  }

  /** Different values are written differently. */
  lemma DecimalTextInjective(a: int, b: int)
    requires DecimalText(a) == DecimalText(b)
    ensures a == b
  {
    ParseDecimalText(a);
    ParseDecimalText(b);
  }

  /**
   * detail::AppendInt: writes the decimal text of `value` at `out[p..]` and
   * returns the advanced position (`*p += length`). The digits are produced
   * least significant first into a local 12-character buffer whose last cell
   * holds the terminator, and then copied out.
   */
  method AppendInt(out: array<char>, p: nat, value: int) returns (next: nat)
    requires -LongMax < value < LongMax
    requires p + |DecimalText(value)| <= out.Length
    modifies out
    ensures next == p + |DecimalText(value)| && next - p <= 11
    ensures out[p..next] == DecimalText(value)
    ensures out[..p] == old(out[..p]) && out[next..] == old(out[next..])
  {
    DecimalTextFits(value);
    var buffer, pos := WriteDecimal(value);
    var length := 11 - pos;
    CopyChars(buffer, pos, out, p, length);
    next := p + length;
  }

  /**
   * The first half of AppendInt: the sign and magnitude of `value`, and its
   * text written into a fresh 12-character buffer ending just before the
   * terminator at index 11.
   */
  method WriteDecimal(value: int) returns (buffer: array<char>, pos: nat)
    requires -LongMax < value < LongMax
    ensures fresh(buffer) && buffer.Length == 12
    ensures pos <= 11 && buffer[pos..11] == DecimalText(value) && buffer[11] == '\0'
  {
    var negative: bool;
    var val: nat;
    if value < 0 {
      negative := true;
      val := -value;
    } else {
      negative := false;
      val := value;
    }
    DecimalTextFits(value);

    buffer := new char[12];
    pos := WriteDigitsBackwards(buffer, val);
    if negative {
      pos := pos - 1;
      buffer[pos] := '-';
    }
  }

  /**
   * The do-while loop of AppendInt: terminates `buffer` at index 11 and writes
   * the digits of `val` in front of it, returning the first written index.
   */
  method WriteDigitsBackwards(buffer: array<char>, val: nat) returns (pos: nat)
    requires buffer.Length == 12 && |Digits(val)| <= 10
    modifies buffer
    ensures 1 <= pos <= 11 && 11 - pos == |Digits(val)|
    ensures buffer[pos..11] == Digits(val) && buffer[11] == '\0'
  {
    pos := 11;
    buffer[pos] := '\0';
    var rest := val;
    var done := false;
    while !done
      invariant 1 <= pos <= 11 && buffer[11] == '\0'
      invariant done ==> rest == 0
      invariant Digits(val) == (if done then [] else Digits(rest)) + buffer[pos..11]
      decreases rest + (if done then 0 else 1)
    {
      ghost var before := buffer[pos..11];
      pos := pos - 1;
      buffer[pos] := DigitChar(rest % 10);
      assert buffer[pos..11] == [DigitChar(rest % 10)] + before;
      rest := rest / 10;
      done := rest == 0;
    }
  }

  /** The memcpy of AppendInt: copies `length` characters from `src[from..]` to `dst[at..]`. */
  method CopyChars(src: array<char>, from: nat, dst: array<char>, at: nat, length: nat)
    requires src != dst
    requires from + length <= src.Length && at + length <= dst.Length
    modifies dst
    ensures dst[at..at + length] == src[from..from + length]
    ensures dst[..at] == old(dst[..at]) && dst[at + length..] == old(dst[at + length..])
  {
    for i := 0 to length
      invariant dst[at..at + i] == src[from..from + i]
      invariant dst[..at] == old(dst[..at]) && dst[at + length..] == old(dst[at + length..])
    {
      dst[at + i] := src[from + i];
    }
  }

  /** The text appended for a boolean. */
  function BoolText(value: bool): (s: string)
    ensures ParseBool(s) == Some(value)
  {
    if value then "true" else "false"
  }

  /** Reads back the boolean literals. */
  function ParseBool(s: string): Option<bool> {
    if s == "true" then Some(true) else if s == "false" then Some(false) else None
  }

  /** The text appended for a null pointer. */
  const NullText := "null"

  /** FormatData: the string that the formatters append to. */
  class FormatData {
    var text: string

    constructor (initial: string)
      ensures text == initial
    {
      text := initial;
    }

    /** Formatter(bool): appends exactly "true" or "false". */
    method AppendBool(value: bool)
      modifies this
      ensures text == old(text) + BoolText(value)
      ensures |text| == |old(text)| + (if value then 4 else 5)
    {
      if value {
        text := text + "true";
      } else {
        text := text + "false";
      }
    }

    /** Formatter(nullptr_t): appends exactly "null". */
    method AppendNull()
      modifies this
      ensures text == old(text) + NullText
    {
      text := text + "null";
    }

    /**
     * Formatter(char16_t): appends the single code unit. Only code units that
     * are Unicode scalar values are representable as a Dafny `char`.
     */
    method AppendChar16(ch: char)
      requires ch as int < 0x1_0000
      modifies this
      ensures |text| == |old(text)| + 1
      ensures text[..|old(text)|] == old(text) && text[|old(text)|] == ch
    {
      text := text + [ch];
    }

    /** Formatter(char32_t), non-Windows branch: appends the single code point. */
    method AppendChar32(ch: char)
      modifies this
      ensures |text| == |old(text)| + 1
      ensures text[..|old(text)|] == old(text) && text[|old(text)|] == ch
    {
      text := text + [ch];
    }
  }
}
