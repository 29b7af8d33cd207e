/** Python's `str(int)` and the part of `int(text)` that reads it back. */
module Decimal {
  import opened Wrappers

  const DIGITS := "0123456789"

  predicate IsDigit(c: char) {
    '0' <= c <= '9'
  }

  function Digit(d: nat): (c: char)
    requires d < 10
    ensures IsDigit(c) && DigitValue(c) == d
  {
    DIGITS[d]
  }

  function DigitValue(c: char): (d: nat)
    requires IsDigit(c)
    ensures d < 10
  {
    (c - '0') as nat
  }

  function Print(n: nat): (text: string)
    ensures text != "" && forall i :: 0 <= i < |text| ==> IsDigit(text[i])
  {
    if n < 10 then [Digit(n)] else Print(n / 10) + [Digit(n % 10)]
  }

  function PrintInt(n: int): string {
    if n < 0 then "-" + Print(-n) else Print(n)
  }

  /** Digits, with single underscores between them. */
  function Parse(text: string): Option<nat> {
    if text == "" || !IsDigit(text[|text| - 1]) then None
    else
      var last, before := DigitValue(text[|text| - 1]), text[..|text| - 1];
      if before == "" then Some(last)
      else
        match Parse(if before[|before| - 1] == '_' then before[..|before| - 1] else before)
        case None => None
        case Some(n) => Some(10 * n + last)
  }

  predicate IsSpace(c: char) {
    c == ' ' || c == '\t' || c == '\n' || c == '\r' || c as int == 11 || c as int == 12
  }

  function Stripped(text: string): string {
    if text != "" && IsSpace(text[0]) then Stripped(text[1..])
    else if text != "" && IsSpace(text[|text| - 1]) then Stripped(text[..|text| - 1])
    else text
  }

  /** Python's `int(text)` on ASCII text. */
  function ParseInt(text: string): Option<int> {
    var text := Stripped(text);
    var signed := text != "" && (text[0] == '-' || text[0] == '+');
    var digits: Option<nat> := Parse(if signed then text[1..] else text);
    if digits.None? then None
    else if signed && text[0] == '-' then Some(-(digits.value as int))
    else Some(digits.value as int)
  }

  lemma {:induction false} ParseReadsPrint(n: nat)
    ensures Parse(Print(n)) == Some(n)
  {
    if n >= 10 {
      ParseReadsPrint(n / 10);
      var before := Print(n / 10);
      assert Print(n)[..|Print(n)| - 1] == before;
      assert IsDigit(before[|before| - 1]);
    }
  }

  lemma {:induction false} ParseIntReadsPrintInt(n: int)
    ensures ParseInt(PrintInt(n)) == Some(n)
  {
    hide Parse, Print;
    var text := PrintInt(n);
    var digits := Print(if n < 0 then -n else n);
    ParseReadsPrint(if n < 0 then -n else n);
    assert IsDigit(digits[0]) && IsDigit(text[|text| - 1]) by {
      assert text[|text| - 1] == digits[|digits| - 1];
    }
    assert Stripped(text) == text;
    assert n < 0 ==> text[1..] == digits;
  }

  /** A sign in front of a printed number is read as one would expect. */
  lemma {:induction false} ParseIntReadsSigns(n: nat)
    ensures ParseInt("+" + Print(n)) == Some(n)
    ensures ParseInt("-" + Print(n)) == Some(-(n as int))
    ensures ParseInt(Print(n)) == Some(n)
  {
    hide Print, ParseInt;
    ReadSigned(n, "+");
    ReadSigned(n, "-");
    ReadSigned(n, "");
    assert "" + Print(n) == Print(n);
  }

  lemma {:induction false} ReadSigned(n: nat, sign: string)
    requires sign == "+" || sign == "-" || sign == ""
    ensures ParseInt(sign + Print(n)) == Some(if sign == "-" then -(n as int) else n)
  {
    ParseReadsPrint(n);
    var digits, text := Print(n), sign + Print(n);
    assert IsDigit(digits[0]) && IsDigit(digits[|digits| - 1]);
    hide Parse, Print;
    assert text[|text| - 1] == digits[|digits| - 1];
    NotStripped(text);
    hide Stripped;
    if sign == "" {
      assert text == digits;
    } else {
      assert text[1..] == digits && text[0] == sign[0];
    }
  }

  lemma NotStripped(text: string)
    requires text == "" || (!IsSpace(text[0]) && !IsSpace(text[|text| - 1]))
    ensures Stripped(text) == text
  {
  }

  /** Printing is decimal, the most significant digit first. */
  lemma {:induction false} PrintIsDecimal(n: nat)
    ensures n < 10 ==> Print(n) == ["0123456789"[n]]
    ensures n >= 10 ==> Print(n) == Print(n / 10) + Print(n % 10)
    ensures PrintInt(-(n as int)) == if n == 0 then "0" else "-" + Print(n)
  {
  }
}
