/**
 * The JavaScript number/string conversions the application relies on,
 * restricted to the non-negative integers that occur in it:
 * `Number.prototype.toString`, `String.prototype.padStart(2, '0')`,
 * `Number(s)`, `parseInt(s)` and `String.prototype.split(sep)`.
 */
module Decimal {

  predicate IsDigit(c: char) {
    '0' <= c <= '9'
  }

  predicate IsDigits(s: string) {
    forall i :: 0 <= i < |s| ==> IsDigit(s[i])
  }

  function DigitChar(d: nat): (c: char)
    requires d < 10
    ensures IsDigit(c)
  {
    ('0' as int + d) as char
  }

  function DigitValue(c: char): (d: nat)
    requires IsDigit(c)
    ensures d < 10
  {
    c as int - '0' as int
  }

  /** Decimal text of `n`, as `n.toString()` gives it (no sign, no leading zero). */
  function NatToString(n: nat): (s: string)
    ensures |s| >= 1 && IsDigits(s)
    ensures |s| > 1 ==> s[0] != '0'
    decreases n
  {
    if n < 10 then [DigitChar(n)] else NatToString(n / 10) + [DigitChar(n % 10)]
  }

  /** The number a string of decimal digits denotes (leading zeros allowed). */
  function DigitsValue(s: string): (v: nat)
    requires IsDigits(s)
  {
    if s == [] then 0 else DigitsValue(s[..|s| - 1]) * 10 + DigitValue(s[|s| - 1])
  }

  /** Reading back the text that `toString` produced gives the number again. */
  lemma {:induction false} NatToStringRoundTrip(n: nat)
    ensures DigitsValue(NatToString(n)) == n
    decreases n
  {
    if n >= 10 {
      NatToStringRoundTrip(n / 10);
      var s := NatToString(n);
      assert s[..|s| - 1] == NatToString(n / 10);
    }
  }

  /** Distinct numbers have distinct decimal texts. */
  lemma NatToStringInjective(a: nat, b: nat)
    ensures NatToString(a) == NatToString(b) ==> a == b
  {
    NatToStringRoundTrip(a);
    NatToStringRoundTrip(b);
  }

  /** A leading zero does not change the value of a digit string. */
  lemma {:induction false} LeadingZeroIgnored(s: string)
    requires IsDigits(s)
    ensures IsDigits("0" + s) && DigitsValue("0" + s) == DigitsValue(s)
    decreases |s|
  {
    if s != [] {
      var t := "0" + s;
      assert t[..|t| - 1] == "0" + s[..|s| - 1];
      LeadingZeroIgnored(s[..|s| - 1]);
    }
  }

  /** `s.padStart(2, '0')`: left-pads with zeros to at least two characters. */
  function PadStart2(s: string): (r: string)
    ensures |r| == if |s| < 2 then 2 else |s|
    ensures r[|r| - |s|..] == s
    ensures forall i :: 0 <= i < |r| - |s| ==> r[i] == '0'
  {
    if |s| == 0 then "00" else if |s| == 1 then "0" + s else s
  }

  /** Padding a digit string keeps its value. */
  lemma PadStart2Value(s: string)
    requires IsDigits(s)
    ensures IsDigits(PadStart2(s)) && DigitsValue(PadStart2(s)) == DigitsValue(s)
  {
    if |s| == 0 {
      LeadingZeroIgnored("0");
    } else if |s| == 1 {
      LeadingZeroIgnored(s);
    }
  }

  /**
   * A JavaScript number as far as this application can produce one:
   * a non-negative integer, or NaN.
   */
  datatype JsNumber = NaN | Finite(value: nat)

  /**
   * `Number(s)`: the empty string gives 0, a string of decimal digits its value,
   * anything else NaN.
   */
  function ToNumber(s: string): (r: JsNumber)
    ensures r.Finite? <==> IsDigits(s)
    ensures IsDigits(s) ==> r == Finite(DigitsValue(s))
    ensures s == "" ==> r == Finite(0)
  {
    if IsDigits(s) then Finite(DigitsValue(s)) else NaN
  }

  /** Length of the longest prefix of `s` made of decimal digits. */
  function LeadingDigitCount(s: string): (k: nat)
    ensures k <= |s| && IsDigits(s[..k])
    ensures k < |s| ==> !IsDigit(s[k])
  {
    if s == [] || !IsDigit(s[0]) then 0
    else
      var k := 1 + LeadingDigitCount(s[1..]);
      assert s[..k] == [s[0]] + s[1..][..k - 1];
      k
  }

  /**
   * `parseInt(s)`: the value of the leading digits, NaN when `s` does not
   * start with a digit. A `0x` prefix is read as the digit 0, not as the
   * start of a hexadecimal numeral.
   */
  function ParseInt(s: string): (r: JsNumber)
    ensures r.NaN? <==> s == [] || !IsDigit(s[0])
    ensures IsDigits(s) && s != [] ==> r == Finite(DigitsValue(s))
  {
    var k := LeadingDigitCount(s);
    assert IsDigits(s) ==> k == |s|;
    assert s[..|s|] == s;
    if k == 0 then NaN else Finite(DigitsValue(s[..k]))
  }

  /** The leading digits of `p + rest` are exactly `p` when `rest` does not start with a digit. */
  lemma {:induction false} LeadingDigitsOf(p: string, rest: string)
    requires IsDigits(p) && (rest == [] || !IsDigit(rest[0]))
    ensures LeadingDigitCount(p + rest) == |p|
    decreases |p|
  {
    if p == [] {
      assert p + rest == rest;
    } else {
      assert (p + rest)[0] == p[0];
      assert (p + rest)[1..] == p[1..] + rest;
      LeadingDigitsOf(p[1..], rest);
    }
  }

  /** `parseInt` reads the leading digits and ignores whatever follows them ("50abc" is 50). */
  lemma ParseIntPrefix(p: string, rest: string)
    requires IsDigits(p) && p != [] && (rest == [] || !IsDigit(rest[0]))
    ensures ParseInt(p + rest) == Finite(DigitsValue(p))
  {
    LeadingDigitsOf(p, rest);
    assert (p + rest)[..|p|] == p;
  }

  /** `s.split(sep)` for a one-character separator. */
  function Split(s: string, sep: char): (parts: seq<string>)
    ensures |parts| >= 1
    ensures forall i :: 0 <= i < |parts| ==> sep !in parts[i]
  {
    if s == [] then [""]
    else
      var rest := Split(s[1..], sep);
      if s[0] == sep then [""] + rest
      else [[s[0]] + rest[0]] + rest[1..]
  }

  /** `parts.join(sep)`. */
  function Join(parts: seq<string>, sep: char): (s: string)
    requires |parts| >= 1
  {
    if |parts| == 1 then parts[0] else parts[0] + [sep] + Join(parts[1..], sep)
  }

  /** Joining the pieces of a split gives back the original string. */
  lemma {:induction false} SplitJoin(s: string, sep: char)
    ensures Join(Split(s, sep), sep) == s
  {
    if s != [] {
      SplitJoin(s[1..], sep);
      var rest := Split(s[1..], sep);
      if s[0] == sep {
        assert Split(s, sep)[1..] == rest;
      } else {
        var parts := Split(s, sep);
        if |rest| == 1 {
          assert parts == [[s[0]] + rest[0]];
        } else {
          assert parts[1..] == rest[1..];
          assert Join(rest, sep) == rest[0] + [sep] + Join(rest[1..], sep);
        }
      }
    }
  }

  /** A separator-free prefix extends the first piece of the split. */
  lemma {:induction false} SplitFreePrefix(a: string, t: string, sep: char)
    requires sep !in a
    ensures Split(a + t, sep) == [a + Split(t, sep)[0]] + Split(t, sep)[1..]
    decreases |a|
  {
    if a != [] {
      assert (a + t)[1..] == a[1..] + t;
      SplitFreePrefix(a[1..], t, sep);
      var parts := Split(t, sep);
      var rest := Split(a[1..] + t, sep);
      assert a[0] != sep;
      assert rest[0] == a[1..] + parts[0] && rest[1..] == parts[1..];
      assert Split(a + t, sep) == [[a[0]] + rest[0]] + rest[1..];
      assert [a[0]] + (a[1..] + parts[0]) == a + parts[0];
    } else {
      var parts := Split(t, sep);
      assert a + t == t && a + parts[0] == parts[0];
      assert parts == [parts[0]] + parts[1..];
    }
  }

  /** Two separator-free strings joined by the separator split back into exactly those two. */
  lemma SplitPair(a: string, b: string, sep: char)
    requires sep !in a && sep !in b
    ensures Split(a + [sep] + b, sep) == [a, b]
  {
    SplitFreePrefix(b, [], sep);
    assert b + [] == b;
    assert ([sep] + b)[1..] == b;
    assert Split([sep] + b, sep) == ["", b];
    assert a + [sep] + b == a + ([sep] + b);
    SplitFreePrefix(a, [sep] + b, sep);
    assert Split(a + [sep] + b, sep) == [a + ""] + [b];
    assert a + "" == a;
  }

  /** Digit strings contain no ':' (or any other non-digit). */
  lemma DigitsExclude(s: string, c: char)
    requires IsDigits(s) && !IsDigit(c)
    ensures c !in s
  {
  }
}
