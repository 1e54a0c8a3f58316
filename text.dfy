/**
 * Decimal rendering of integers, as Python's `str(int)` and an f-string `{n}`
 * placeholder produce it, together with the parser that reads such text back.
 * The prompts of both scripts embed the 1-based lot number this way.
 */
module Text {
  import opened Wrappers

  predicate IsDigit(ch: char) {
    '0' <= ch <= '9'
  }

  predicate AllDigits(s: string) {
    forall i :: 0 <= i < |s| ==> IsDigit(s[i])
  }

  function DigitChar(d: nat): (ch: char)
    requires d < 10
    ensures IsDigit(ch) && ch as int - '0' as int == d
  {
    (d + '0' as int) as char
  }

  function DigitValue(ch: char): (d: nat)
    requires IsDigit(ch)
    ensures d < 10 && DigitChar(d) == ch
  {
    ch as int - '0' as int
  }

  /** The decimal digits of `n`, most significant first, without leading zeros. */
  function NatToString(n: nat): (s: string)
    ensures |s| >= 1 && AllDigits(s)
    ensures s[0] == '0' ==> n == 0 && |s| == 1
  {
    if n < 10 then [DigitChar(n)] else NatToString(n / 10) + [DigitChar(n % 10)]
  }

  /** The number a run of decimal digits denotes (0 for the empty run). */
  function ParseDigits(s: string): nat
    requires AllDigits(s)
  {
    if s == [] then 0 else ParseDigits(s[..|s| - 1]) * 10 + DigitValue(s[|s| - 1])
  }

  lemma {:induction false} ParseNatToString(n: nat)
    ensures ParseDigits(NatToString(n)) == n
  {
    var s := NatToString(n);
    if n >= 10 {
      ParseNatToString(n / 10);
      assert s[..|s| - 1] == NatToString(n / 10);
    }
  }

  /** Python's `str(i)` for an integer: a minus sign before the digits of a negative value. */
  function IntToString(i: int): (s: string)
  {
    if i < 0 then "-" + NatToString(-i) else NatToString(i)
  }

  /** Reads back the text `IntToString` writes; `None` for anything else. */
  function ParseInt(s: string): (r: Option<int>)
  {
    if |s| >= 2 && s[0] == '-' && AllDigits(s[1..]) && s[1] != '0' then Some(0 - ParseDigits(s[1..]))
    else if |s| >= 1 && AllDigits(s) && (s[0] == '0' ==> |s| == 1) then Some(ParseDigits(s))
    else None
  }

  lemma IntToStringRoundTrip(i: int)
    ensures ParseInt(IntToString(i)) == Some(i)
  {
    var s := IntToString(i);
    if i < 0 {
      var d := NatToString(-i);
      assert s == "-" + d && s[1..] == d;
      assert d[0] != '0';
      ParseNatToString(-i);
    } else {
      ParseNatToString(i);
      assert !(|s| >= 2 && s[0] == '-');
    }
  }

  /** The longest prefix of `s` made of decimal digits. */
  function TakeDigits(s: string): (d: string)
    ensures d <= s && AllDigits(d)
    ensures |d| < |s| ==> !IsDigit(s[|d|])
  {
    if s != [] && IsDigit(s[0]) then [s[0]] + TakeDigits(s[1..]) else []
  }

  lemma {:induction false} TakeDigitsAppend(d: string, rest: string)
    requires AllDigits(d)
    requires rest == [] || !IsDigit(rest[0])
    ensures TakeDigits(d + rest) == d
  {
    if d != [] {
      assert (d + rest)[1..] == d[1..] + rest;
      TakeDigitsAppend(d[1..], rest);
    } else {
      assert d + rest == rest;
    }
  }

  /**
   * The number written immediately after `prefix` at the start of `text`:
   * how a reader of a prompt finds the lot number in it.
   */
  function LabelAfter(prefix: string, text: string): (r: Option<nat>)
    ensures r.Some? ==> prefix <= text
  {
    if prefix <= text && TakeDigits(text[|prefix|..]) != [] then
      Some(ParseDigits(TakeDigits(text[|prefix|..])))
    else
      None
  }

  /** Writing `n` after `prefix`, followed by anything that does not start with a digit, lets `LabelAfter` recover `n`. */
  lemma LabelAfterRoundTrip(prefix: string, n: nat, rest: string)
    requires rest == [] || !IsDigit(rest[0])
    ensures LabelAfter(prefix, prefix + NatToString(n) + rest) == Some(n)
  {
    var text := prefix + NatToString(n) + rest;
    assert text[|prefix|..] == NatToString(n) + rest;
    TakeDigitsAppend(NatToString(n), rest);
    ParseNatToString(n);
  }
}
