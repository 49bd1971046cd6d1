/** The few Python string operations the client relies on: `str.join`,
    `str(int)`, `int(str)` and `str.rstrip`. */
module Text {
  import opened Wrappers

  /** `sep.join(parts)`. */
  function Join(sep: string, parts: seq<string>): string
    decreases |parts|
  {
    if parts == [] then ""
    else if |parts| == 1 then parts[0]
    else parts[0] + sep + Join(sep, parts[1..])
  }

  predicate IsDigit(ch: char) { '0' <= ch <= '9' }

  function DigitChar(d: nat): (ch: char)
    requires d < 10
    ensures IsDigit(ch) && DigitValue(ch) == d
  {
    "0123456789"[d]
  }

  function DigitValue(ch: char): nat
    requires IsDigit(ch)
  {
    (ch as int - '0' as int) as nat
  }

  /** The decimal digits of `n`, most significant first, without leading zeros. */
  function Digits(n: nat): (s: string)
    ensures s != [] && forall k :: 0 <= k < |s| ==> IsDigit(s[k])
  {
    if n < 10 then [DigitChar(n)] else Digits(n / 10) + [DigitChar(n % 10)]
  }

  /** `str(i)` for a Python integer. */
  function IntToString(i: int): string
  {
    if i < 0 then "-" + Digits(-i) else Digits(i)
  }

  /** The value of a non-empty string of decimal digits. */
  function DigitsValue(s: string): nat
    requires forall k :: 0 <= k < |s| ==> IsDigit(s[k])
    decreases |s|
  {
    if s == [] then 0 else DigitsValue(s[..|s| - 1]) * 10 + DigitValue(s[|s| - 1])
  }

  /** The characters `int()` strips around its argument: the ASCII white space
      (tab, line feed, vertical tab, form feed, carriage return and space), and
      the white space above ASCII, which `int()` first turns into a space. The
      ASCII separators 28-31 stay as they are and are not stripped. */
  predicate IsSpace(ch: char)
  {
    var c := ch as int;
    || 9 <= c <= 13 || c == 32 || c == 0x85 || c == 0xA0 || c == 0x1680
    || 0x2000 <= c <= 0x200A || c == 0x2028 || c == 0x2029 || c == 0x202F
    || c == 0x205F || c == 0x3000
  }

  function LStrip(s: string): (r: string)
    ensures r == [] || !IsSpace(r[0])
    decreases |s|
  {
    if s != [] && IsSpace(s[0]) then LStrip(s[1..]) else s
  }

  function RStripSpace(s: string): (r: string)
    ensures r == [] || !IsSpace(r[|r| - 1])
    decreases |s|
  {
    if s != [] && IsSpace(s[|s| - 1]) then RStripSpace(s[..|s| - 1]) else s
  }

  predicate AllDigits(s: string)
  {
    forall k :: 0 <= k < |s| ==> IsDigit(s[k])
  }

  predicate DigitsOrUnderscores(s: string)
  {
    forall k :: 0 <= k < |s| ==> IsDigit(s[k]) || s[k] == '_'
  }

  /** Digits in groups: it starts and ends with a digit, holds only digits and
      underscores, and no two underscores are adjacent. */
  predicate DigitGroups(s: string)
  {
    && s != [] && IsDigit(s[0]) && IsDigit(s[|s| - 1])
    && DigitsOrUnderscores(s)
    && forall j, k :: 0 <= j < |s| && j < k < |s| && k == j + 1 ==> !(s[j] == '_' && s[k] == '_')
  }

  /** `s` with its underscores removed. */
  function DropUnderscores(s: string): (r: string)
    ensures DigitsOrUnderscores(s) ==> AllDigits(r)
    ensures AllDigits(s) ==> r == s
    decreases |s|
  {
    if s == [] then []
    else if s[|s| - 1] == '_' then DropUnderscores(s[..|s| - 1])
    else DropUnderscores(s[..|s| - 1]) + [s[|s| - 1]]
  }

  /** The value of digit groups, or None when `s` is not one. */
  function ParseDigits(s: string): Option<int>
  {
    if DigitGroups(s) then Some(DigitsValue(DropUnderscores(s))) else None
  }

  /** `int(s)` for a string in base 10: surrounding white space, an optional sign,
      then digits, which single underscores may separate into groups. */
  function ParseInt(s: string): Option<int>
  {
    var t := RStripSpace(LStrip(s));
    if t != [] && t[0] == '-' then
      (match ParseDigits(t[1..])
       case None => None
       case Some(v) => Some(0 - v))
    else if t != [] && t[0] == '+' then ParseDigits(t[1..])
    else ParseDigits(t)
  }

  /** A string that neither starts nor ends with white space is not stripped. */
  lemma StripNothing(s: string)
    requires s != [] ==> !IsSpace(s[0]) && !IsSpace(s[|s| - 1])
    ensures RStripSpace(LStrip(s)) == s
  {
    assert LStrip(s) == s;
  }

  /** Digits alone form one group, with no underscore to drop. */
  lemma GroupsOfDigits(s: string)
    requires s != [] && AllDigits(s)
    ensures DigitGroups(s) && DropUnderscores(s) == s
  {
    assert IsDigit(s[0]) && IsDigit(s[|s| - 1]);
  }

  /** A string of digits alone reads as its decimal value. */
  lemma ParseIntOfDigits(s: string)
    requires s != [] && forall k :: 0 <= k < |s| ==> IsDigit(s[k])
    ensures ParseInt(s) == Some(DigitsValue(s))
  {
    assert IsDigit(s[0]) && IsDigit(s[|s| - 1]);
    StripNothing(s);
    GroupsOfDigits(s);
  }

  /** An ASCII separator is not white space to `int()`: `int("\x1c5")` raises. */
  lemma ParseIntSeparatorRejected()
    ensures ParseInt("\U{1C}5") == None
  {
    ParseIntRejects("\U{1C}5");
  }

  /** Underscores between digit groups are dropped: `int("1_000") == 1000`. */
  lemma ParseIntGrouped()
    ensures ParseInt("1_000") == Some(1000)
  {
    var s := "1_000";
    assert !IsSpace(s[0]) && !IsSpace(s[4]);
    assert LStrip(s) == s;
    assert RStripSpace(s) == s;
    assert DigitGroups(s);
    assert DropUnderscores(s[..2]) == "1";
    assert DropUnderscores(s) == "1000" by {
      assert s[..4][..3][..2] == s[..2];
    }
    assert DigitsValue("1000") == 1000 by {
      assert "1000"[..3] == "100" && "100"[..2] == "10" && "10"[..1] == "1";
    }
  }

  /** Two underscores in a row are not a literal: `int("1__0")` raises. */
  lemma ParseIntDoubleUnderscore()
    ensures ParseInt("1__0") == None
  {
    var s := "1__0";
    assert !IsSpace(s[0]) && !IsSpace(s[3]);
    assert LStrip(s) == s;
    assert RStripSpace(s) == s;
    assert s[1] == '_' && s[2] == '_';
  }

  /** A string that starts with neither white space, a sign nor a digit is not
      an integer literal. */
  lemma ParseIntRejects(s: string)
    requires s != [] && !IsSpace(s[0]) && !IsSpace(s[|s| - 1])
    requires s[0] != '-' && s[0] != '+' && !IsDigit(s[0])
    ensures ParseInt(s) == None
  {
    assert LStrip(s) == s;
    assert RStripSpace(s) == s;
    assert !DigitGroups(s);
  }

  lemma {:induction false} DigitsValueOfDigits(n: nat)
    ensures DigitsValue(Digits(n)) == n
  {
    if n >= 10 {
      DigitsValueOfDigits(n / 10);
      var s := Digits(n);
      assert s[..|s| - 1] == Digits(n / 10);
    }
  }

  /** A minus sign before digits negates their value. */
  lemma ParseIntOfNegative(d: string)
    requires d != [] && AllDigits(d)
    ensures ParseInt("-" + d).Some? && ParseInt("-" + d).value == 0 - DigitsValue(d)
  {
    var s := "-" + d;
    assert IsDigit(d[|d| - 1]) && s[|s| - 1] == d[|d| - 1];
    StripNothing(s);
    GroupsOfDigits(d);
    assert s[1..] == d;
  }

  /** `int(str(i)) == i`. */
  lemma ParseIntOfIntToString(i: int)
    ensures ParseInt(IntToString(i)) == Some(i)
  {
    var d := Digits(if i < 0 then -i else i);
    DigitsValueOfDigits(if i < 0 then -i else i);
    if i < 0 {
      ParseIntOfNegative(d);
    } else {
      ParseIntOfDigits(d);
    }
  }

  /** `s.rstrip(c)`: `s` without its trailing run of `c`. */
  function RStrip(s: string, c: char): (r: string)
    ensures |r| <= |s| && r == s[..|r|]
    ensures r == [] || r[|r| - 1] != c
    ensures forall k :: |r| <= k < |s| ==> s[k] == c
    decreases |s|
  {
    if s == [] || s[|s| - 1] != c then s else RStrip(s[..|s| - 1], c)
  }
}
