/**
  The pieces of java.lang.String and java.lang.Integer that the translator relies on:
  startsWith, toLowerCase (ASCII letters), split(" "), Integer.parseInt, Integer.toString
  and 32-bit int addition.
 */
module JavaStrings {
  import opened Options

  predicate StartsWith(s: string, prefix: string) {
    |prefix| <= |s| && s[..|prefix|] == prefix
  }

  /* ---------------- toLowerCase ---------------- */

  function LowerChar(c: char): char {
    if 'A' <= c <= 'Z' then (c as int + 32) as char else c
  }

  /** String.toLowerCase restricted to the ASCII letters. */
  function Lower(s: string): (r: string)
    ensures |r| == |s|
  {
    if s == [] then [] else [LowerChar(s[0])] + Lower(s[1..])
  }

  /** Lower-casing acts character by character. */
  lemma {:induction false} LowerAt(s: string)
    ensures forall k :: 0 <= k < |s| ==> Lower(s)[k] == LowerChar(s[k])
  {
    if s != [] {
      LowerAt(s[1..]);
      assert forall k :: 1 <= k < |s| ==> Lower(s)[k] == Lower(s[1..])[k - 1];
    }
  }

  /** Two strings are equal up to the case of ASCII letters (String.equalsIgnoreCase). */
  predicate EqualsIgnoreCase(a: string, b: string) {
    |a| == |b| && forall k :: 0 <= k < |a| ==> LowerChar(a[k]) == LowerChar(b[k])
  }

  /** Lower-casing a token and comparing it with a lower-case keyword is a case-insensitive match. */
  lemma LowerMatchIsCaseInsensitive(tok: string, keyword: string)
    requires Lower(keyword) == keyword
    ensures Lower(tok) == keyword <==> EqualsIgnoreCase(tok, keyword)
  {
    LowerAt(tok);
    LowerAt(keyword);
    if EqualsIgnoreCase(tok, keyword) {
      assert forall k :: 0 <= k < |tok| ==> Lower(tok)[k] == Lower(keyword)[k];
    }
  }

  /* ---------------- split(" ") ---------------- */

  /** The pieces between consecutive spaces, empty pieces included: the regex split before
      Java removes trailing empty strings. */
  function Fields(s: string): (r: seq<string>)
    ensures |r| >= 1
    ensures forall k :: 0 <= k < |r| ==> ' ' !in r[k]
  {
    if s == [] then [""]
    else
      var rest := Fields(s[1..]);
      if s[0] == ' ' then [""] + rest else [[s[0]] + rest[0]] + rest[1..]
  }

  /** The pieces glued back together with one space between neighbours. */
  function Join(pieces: seq<string>): string
    requires |pieces| >= 1
  {
    if |pieces| == 1 then pieces[0] else pieces[0] + " " + Join(pieces[1..])
  }

  /** Removes the empty strings at the end of a list, as String.split does. */
  function DropTrailingEmpty(fs: seq<string>): (r: seq<string>)
    ensures |r| <= |fs| && r == fs[..|r|]
    ensures r == [] || r[|r| - 1] != ""
    ensures forall k :: |r| <= k < |fs| ==> fs[k] == ""
  {
    if fs == [] then []
    else if fs[|fs| - 1] == "" then DropTrailingEmpty(fs[..|fs| - 1])
    else fs
  }

  /** String.split(" "): an input without a space comes back whole (so "" gives [""]);
      otherwise the fields with the trailing empty ones removed. */
  function Split(s: string): seq<string> {
    if ' ' !in s then [s] else DropTrailingEmpty(Fields(s))
  }

  predicate AllSpaces(s: string) {
    forall k :: 0 <= k < |s| ==> s[k] == ' '
  }

  predicate AllEmpty(fs: seq<string>) {
    forall k :: 0 <= k < |fs| ==> fs[k] == ""
  }

  /** Fields of a space-free prefix followed by anything: the prefix joins the first field. */
  lemma {:induction false} FieldsOfPrefix(x: string, tail: string)
    requires ' ' !in x
    ensures Fields(x + tail) == [x + Fields(tail)[0]] + Fields(tail)[1..]
  {
    if x != [] {
      assert (x + tail)[1..] == x[1..] + tail;
      FieldsOfPrefix(x[1..], tail);
      assert [x[0]] + (x[1..] + Fields(tail)[0]) == x + Fields(tail)[0];
    } else {
      var ft := Fields(tail);
      assert x + tail == tail;
      assert x + ft[0] == ft[0];
      assert ft == [ft[0]] + ft[1..];
    }
  }

  /** Joining space-free words and splitting again gives back the words. */
  lemma {:induction false} FieldsJoin(ws: seq<string>)
    requires |ws| >= 1
    requires forall k :: 0 <= k < |ws| ==> ' ' !in ws[k]
    ensures Fields(Join(ws)) == ws
  {
    if |ws| == 1 {
      FieldsOfPrefix(ws[0], "");
      assert Fields("") == [""];
      assert ws[0] + "" == ws[0];
      assert Join(ws) == ws[0] + "";
    } else {
      FieldsJoin(ws[1..]);
      var tail := " " + Join(ws[1..]);
      assert Join(ws) == ws[0] + tail;
      FieldsOfPrefix(ws[0], tail);
      assert tail[1..] == Join(ws[1..]);
      assert Fields(tail) == [""] + ws[1..];
      assert Fields(tail)[0] == "" && Fields(tail)[1..] == ws[1..];
      assert ws[0] + "" == ws[0];
      assert ws == [ws[0]] + ws[1..];
    }
  }

  lemma {:induction false} FieldsAllEmptyIff(s: string)
    ensures AllEmpty(Fields(s)) <==> AllSpaces(s)
  {
    if s != [] {
      FieldsAllEmptyIff(s[1..]);
      var rest := Fields(s[1..]);
      if s[0] == ' ' {
        assert Fields(s) == [""] + rest;
        assert AllEmpty(Fields(s)) <==> AllEmpty(rest) by {
          if AllEmpty(rest) {
            forall k | 0 <= k < |Fields(s)| ensures Fields(s)[k] == "" {
              if k > 0 { assert Fields(s)[k] == rest[k - 1]; }
            }
          }
          if AllEmpty(Fields(s)) {
            forall k | 0 <= k < |rest| ensures rest[k] == "" {
              assert rest[k] == Fields(s)[k + 1];
            }
          }
        }
        assert AllSpaces(s) <==> AllSpaces(s[1..]) by {
          if AllSpaces(s[1..]) {
            forall k | 0 <= k < |s| ensures s[k] == ' ' {
              if k > 0 { assert s[k] == s[1..][k - 1]; }
            }
          }
        }
      } else {
        assert Fields(s)[0] == [s[0]] + rest[0];
      }
    }
  }

  /** split(" ") yields no tokens exactly for a non-empty line made only of spaces. */
  lemma SplitEmptyIff(s: string)
    ensures |Split(s)| == 0 <==> s != "" && AllSpaces(s)
  {
    if ' ' in s {
      var fs := Fields(s);
      FieldsAllEmptyIff(s);
    } else if s != "" {
      assert s[0] != ' ';
    }
  }

  /** Splitting a line built from space-free words, the last one non-empty, gives the words. */
  lemma SplitWords(ws: seq<string>)
    requires |ws| >= 1 && ws[|ws| - 1] != ""
    requires forall k :: 0 <= k < |ws| ==> ' ' !in ws[k]
    ensures Split(Join(ws)) == ws
  {
    FieldsJoin(ws);
    if |ws| > 1 {
      assert Join(ws) == ws[0] + " " + Join(ws[1..]);
      assert Join(ws)[|ws[0]|] == ' ';
    } else {
      assert Join(ws) == ws[0];
    }
  }

  /* ---------------- decimal numerals ---------------- */

  predicate IsDigit(c: char) {
    '0' <= c <= '9'
  }

  predicate IsDigits(s: string) {
    forall k :: 0 <= k < |s| ==> IsDigit(s[k])
  }

  /** A non-empty run of ASCII digits. */
  predicate IsNumeral(s: string) {
    s != "" && IsDigits(s)
  }

  function DigitValue(c: char): nat
    requires IsDigit(c)
  {
    c as int - '0' as int
  }

  function DigitChar(n: nat): (c: char)
    requires n < 10
    ensures IsDigit(c) && DigitValue(c) == n
  {
    (n + '0' as int) as char
  }

  /** The value of a decimal numeral, most significant digit first. */
  function ParseDecimal(s: string): nat
    requires IsDigits(s)
  {
    if s == [] then 0 else 10 * ParseDecimal(s[..|s| - 1]) + DigitValue(s[|s| - 1])
  }

  /** The decimal numeral of n without leading zeros (Integer.toString for n >= 0). */
  function NatToString(n: nat): (r: string)
    ensures IsNumeral(r)
  {
    if n < 10 then [DigitChar(n)] else NatToString(n / 10) + [DigitChar(n % 10)]
  }

  lemma {:induction false} ParseNatToString(n: nat)
    ensures ParseDecimal(NatToString(n)) == n
  {
    if n >= 10 {
      var s := NatToString(n);
      ParseNatToString(n / 10);
      assert s[..|s| - 1] == NatToString(n / 10);
    }
  }

  /* ---------------- int (32-bit) ---------------- */

  const MinInt32: int := -0x8000_0000
  const MaxInt32: int := 0x7fff_ffff

  predicate InInt32(x: int) {
    MinInt32 <= x <= MaxInt32
  }

  /** Java int arithmetic: x reduced into the 32-bit two's-complement range. */
  function Wrap32(x: int): (r: int)
    ensures InInt32(r)
    ensures (r - x) % 0x1_0000_0000 == 0
    ensures InInt32(x) ==> r == x
  {
    (x - MinInt32) % 0x1_0000_0000 + MinInt32
  }

  /** A decimal numeral with an optional leading sign, as Integer.parseInt accepts it. */
  predicate IsSignedNumeral(s: string) {
    IsNumeral(s) || (|s| >= 2 && (s[0] == '-' || s[0] == '+') && IsNumeral(s[1..]))
  }

  /** The mathematical value of a signed numeral, leading zeros allowed. */
  function SignedValue(s: string): int
    requires IsSignedNumeral(s)
  {
    if IsNumeral(s) then ParseDecimal(s)
    else if s[0] == '-' then -(ParseDecimal(s[1..]) as int)
    else ParseDecimal(s[1..])
  }

  /** Integer.parseInt(s) in radix 10 (ASCII digits): an optional sign, at least one digit,
      and a value that fits in an int; None stands for NumberFormatException. */
  function ParseInt(s: string): (r: Option<int>)
    ensures r.Some? <==> IsSignedNumeral(s) && InInt32(SignedValue(s))
    ensures r.Some? ==> r.value == SignedValue(s)
    ensures IsNumeral(s) && ParseDecimal(s) <= MaxInt32 ==> r == Some(ParseDecimal(s))
  {
    if s == "" then None
    else if s[0] == '-' || s[0] == '+' then
      var digits := s[1..];
      if !IsNumeral(digits) then None
      else
        var n := ParseDecimal(digits) as int;
        var v := if s[0] == '-' then -n else n;
        if InInt32(v) then Some(v) else None
    else if IsDigits(s) && ParseDecimal(s) <= MaxInt32 then Some(ParseDecimal(s))
    else None
  }

  /** Integer.toString(x). */
  function IntToString(x: int): string {
    if x < 0 then "-" + NatToString(-x) else NatToString(x)
  }

  /** Integer.parseInt reads back what Integer.toString wrote, for every int. */
  lemma IntToStringRoundTrip(x: int)
    requires InInt32(x)
    ensures ParseInt(IntToString(x)) == Some(x)
  {
    var s := IntToString(x);
    if x < 0 {
      ParseNatToString(-x);
      assert s[1..] == NatToString(-x);
    } else {
      ParseNatToString(x);
      assert IsDigit(s[0]);
    }
  }
}
