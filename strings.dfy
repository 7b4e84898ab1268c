/** The JavaScript string built-ins the components rely on: the digit filter of a
    score field, String.prototype.trim, Number.parseInt (radix 10), the decimal
    rendering of an integer by toString. ASCII upper-casing is used only to relate
    the tournament table's "Vencedor R16_1" descriptions to the lower-case slot ids. */
module Strings {
  import opened Types

  predicate IsDigit(c: char) {
    '0' <= c <= '9'
  }

  predicate AllDigits(s: string) {
    forall k :: 0 <= k < |s| ==> IsDigit(s[k])
  }

  /** `value.replace(/[^0-9]/g, "")`: every character that is not an ASCII digit is removed. */
  function DigitsOnly(s: string): (r: string)
    ensures AllDigits(r)
    ensures |r| <= |s|
    ensures forall c :: IsDigit(c) ==> multiset(r)[c] == multiset(s)[c]
  {
    if s == [] then []
    else
      var rest := DigitsOnly(s[1..]);
      assert s == [s[0]] + s[1..];
      if IsDigit(s[0]) then [s[0]] + rest else rest
  }

  /** The filter works character by character, so it keeps the digits in their order. */
  lemma {:induction false} DigitsOnlyAppend(a: string, b: string)
    ensures DigitsOnly(a + b) == DigitsOnly(a) + DigitsOnly(b)
  {
    if a == [] {
      assert a + b == b;
    } else {
      assert (a + b)[1..] == a[1..] + b;
      DigitsOnlyAppend(a[1..], b);
    }
  }

  /** A string that already holds only digits passes the filter unchanged. */
  lemma {:induction false} DigitsOnlyKeepsDigits(s: string)
    requires AllDigits(s)
    ensures DigitsOnly(s) == s
  {
    if s != [] {
      DigitsOnlyKeepsDigits(s[1..]);
    }
  }

  /** The characters String.prototype.trim and Number.parseInt treat as white space
      (ECMAScript WhiteSpace and LineTerminator). */
  predicate IsJsSpace(c: char) {
    var n := c as int;
    n == 0x09 || n == 0x0A || n == 0x0B || n == 0x0C || n == 0x0D || n == 0x20 ||
    n == 0xA0 || n == 0x1680 || (0x2000 <= n <= 0x200A) || n == 0x2028 || n == 0x2029 ||
    n == 0x202F || n == 0x205F || n == 0x3000 || n == 0xFEFF
  }

  predicate AllSpace(s: string) {
    forall k :: 0 <= k < |s| ==> IsJsSpace(s[k])
  }

  function TrimStart(s: string): (r: string)
    ensures |r| <= |s| && r == s[|s| - |r|..]
    ensures AllSpace(s[..|s| - |r|])
    ensures r == [] || !IsJsSpace(r[0])
  {
    if s != [] && IsJsSpace(s[0]) then
      var r := TrimStart(s[1..]);
      var p := s[..|s| - |r|];
      assert s[|s| - |r|..] == s[1..][|s[1..]| - |r|..];
      assert forall k | 1 <= k < |p| :: p[k] == s[1..][..|s[1..]| - |r|][k - 1];
      r
    else s
  }

  function TrimEnd(s: string): (r: string)
    ensures |r| <= |s| && r == s[..|r|]
    ensures AllSpace(s[|r|..])
    ensures r == [] || !IsJsSpace(r[|r| - 1])
  {
    if s != [] && IsJsSpace(s[|s| - 1]) then
      var r := TrimEnd(s[..|s| - 1]);
      assert forall k :: |r| <= k < |s| - 1 ==> s[k] == s[..|s| - 1][k];
      r
    else s
  }

  /** String.prototype.trim: the string without its leading and trailing white space;
      what is left neither starts nor ends with white space. */
  function Trim(s: string): (r: string)
    ensures |r| <= |s|
    ensures r == [] || (!IsJsSpace(r[0]) && !IsJsSpace(r[|r| - 1]))
  {
    TrimEnds(s);
    TrimEnd(TrimStart(s))
  }

  lemma {:induction false} TrimEnds(s: string)
    ensures var r := TrimEnd(TrimStart(s)); r == [] || (!IsJsSpace(r[0]) && !IsJsSpace(r[|r| - 1]))
  {
    var t := TrimStart(s);
    var r := TrimEnd(t);
    assert r != [] ==> r[0] == t[0];
  }

  /** `!name.trim()` holds exactly for the names made only of white space, "" included. */
  lemma {:induction false} TrimBlank(s: string)
    ensures Trim(s) == [] <==> AllSpace(s)
  {
    var t := TrimStart(s);
    if Trim(s) == [] {
      assert AllSpace(t[0..]);
      assert t[0..] == t;
      assert t == [];
      assert s[..|s|] == s;
    } else {
      var r := Trim(s);
      assert r[0] == t[0];
      assert t[0] == s[|s| - |t|];
    }
  }

  /** The result of trim has no white space at either end, so trimming again changes nothing. */
  lemma {:induction false} TrimShape(s: string)
    ensures Trim(Trim(s)) == Trim(s)
  {
    var r := Trim(s);
    if r != [] {
      assert TrimStart(r) == r;
      assert TrimEnd(r) == r;
    }
  }

  function DigitValue(c: char): int
    requires IsDigit(c)
  {
    c as int - '0' as int
  }

  /** The decimal value of a string of digits. */
  function DigitsValue(s: string): nat
    requires AllDigits(s)
  {
    if s == [] then 0 else 10 * DigitsValue(s[..|s| - 1]) + DigitValue(s[|s| - 1])
  }

  /** Number.prototype.toString for a non-negative integer: its decimal digits. */
  function NatToString(n: nat): (r: string)
    ensures r != [] && AllDigits(r)
  {
    if n < 10 then [Digit(n)] else NatToString(n / 10) + [Digit(n % 10)]
  }

  /** Number.prototype.toString for an integer. */
  function IntToString(n: int): (r: string)
    ensures r != []
  {
    if n < 0 then "-" + NatToString(-n) else NatToString(n)
  }

  lemma {:induction false} NatToStringValue(n: nat)
    ensures DigitsValue(NatToString(n)) == n
  {
    if n >= 10 {
      NatToStringValue(n / 10);
      var s := NatToString(n);
      assert s[..|s| - 1] == NatToString(n / 10);
    }
  }

  /** The longest prefix of digits. */
  function LeadingDigits(s: string): (r: string)
    ensures AllDigits(r) && |r| <= |s| && r == s[..|r|]
    ensures |r| < |s| ==> !IsDigit(s[|r|])
  {
    if s != [] && IsDigit(s[0]) then [s[0]] + LeadingDigits(s[1..]) else []
  }

  /** Number.parseInt with radix 10 on integers: leading white space is skipped, one
      optional sign is read, then the longest run of digits; None stands for NaN.
      A digit string reads as its decimal value, and blank text as NaN. */
  function ParseInt(s: string): (v: Option<int>)
    ensures s != [] && AllDigits(s) ==> v == Some(DigitsValue(s) as int)
    ensures AllSpace(s) ==> v == None
  {
    DigitTextParses(s);
    BlankTextParses(s);
    ParseSigned(TrimStart(s))
  }

  lemma {:induction false} DigitTextParses(s: string)
    ensures s != [] && AllDigits(s) ==> ParseSigned(TrimStart(s)) == Some(DigitsValue(s) as int)
  {
    if s != [] && AllDigits(s) {
      TrimStartKeeps(s);
      assert s[0] != '-' && s[0] != '+';
      ParseDigitsOfDigits(s);
    }
  }

  lemma {:induction false} BlankTextParses(s: string)
    ensures AllSpace(s) ==> ParseSigned(TrimStart(s)) == None
  {
    if AllSpace(s) {
      var t := TrimStart(s);
      assert t == [];
      assert LeadingDigits(t) == [];
    }
  }

  function ParseSigned(t: string): Option<int> {
    if t != [] && t[0] == '-' then
      var v := ParseDigits(t[1..]);
      if v.None? then None else Some(-(v.value as int))
    else if t != [] && t[0] == '+' then
      var v := ParseDigits(t[1..]);
      if v.None? then None else Some(v.value as int)
    else
      var v := ParseDigits(t);
      if v.None? then None else Some(v.value as int)
  }

  /** The value of the leading run of digits; None when there is none. */
  function ParseDigits(t: string): Option<nat> {
    var digits := LeadingDigits(t);
    if digits == [] then None else Some(DigitsValue(digits))
  }

  lemma LeadingDigitsOfDigits(s: string)
    requires AllDigits(s)
    ensures LeadingDigits(s) == s
  {
  }

  /** Parsing a number that toString rendered gives the number back. */
  lemma {:induction false} ParseIntOfToString(n: int)
    ensures ParseInt(IntToString(n)) == Some(n)
  {
    if n < 0 {
      ParseIntOfNegativeText(n);
    } else {
      ParseIntOfNatText(n);
    }
  }

  lemma {:induction false} ParseIntOfNatText(n: nat)
    ensures ParseInt(IntToString(n)) == Some(n)
  {
    var d := NatToString(n);
    assert IntToString(n) == d;
    NatToStringValue(n);
    assert ParseInt(d) == Some(DigitsValue(d) as int);
  }

  lemma {:induction false} ParseIntOfNegativeText(n: int)
    requires n < 0
    ensures ParseInt(IntToString(n)) == Some(n)
  {
    var m: nat := -n;
    var d := NatToString(m);
    NatToStringValue(m);
    ParseIntOfNegative(d, m);
    var t := "-" + d;
    NegativeToString(n, m, t);
    assert ParseInt(t) == Some(n);
  }

  lemma {:induction false} NegativeToString(n: int, m: nat, t: string)
    requires n < 0 && m == -n && t == "-" + NatToString(m)
    ensures IntToString(n) == t
  {
  }

  lemma {:induction false} ParseIntOfNegative(d: string, m: nat)
    requires d != [] && AllDigits(d) && DigitsValue(d) == m
    ensures ParseInt("-" + d) == Some(-(m as int))
  {
    TrimStartKeeps("-" + d);
    ParseSignedNegative(d);
  }

  lemma {:induction false} TrimStartKeeps(s: string)
    requires s != [] && !IsJsSpace(s[0])
    ensures TrimStart(s) == s
  {
  }

  lemma {:induction false} ParseSignedNegative(d: string)
    requires d != [] && AllDigits(d)
    ensures ParseSigned("-" + d) == Some(-(DigitsValue(d) as int))
  {
    var s := "-" + d;
    assert s != [] && s[0] == '-' && s[1..] == d;
    ParseDigitsOfDigits(d);
  }

  lemma {:induction false} ParseDigitsOfDigits(d: string)
    requires d != [] && AllDigits(d)
    ensures ParseDigits(d) == Some(DigitsValue(d))
  {
    LeadingDigitsOfDigits(d);
  }

  /** A non-empty filtered score field parses to the non-negative value of its digits. */
  lemma {:induction false} ParseIntOfDigits(s: string)
    requires s != [] && AllDigits(s)
    ensures ParseInt(s) == Some(DigitsValue(s))
  {
    var v := ParseInt(s);
    assert v == Some(DigitsValue(s) as int);
  }

  function UpperChar(c: char): char {
    if 'a' <= c <= 'z' then (c as int - 32) as char else c
  }

  /** String.prototype.toUpperCase restricted to ASCII letters. */
  function ToUpperAscii(s: string): (r: string)
    ensures |r| == |s|
  {
    if s == [] then [] else [UpperChar(s[0])] + ToUpperAscii(s[1..])
  }
}
