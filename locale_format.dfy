/**
  The two JavaScript number routines the slide tables rely on, restricted to integers:
  `parseInt(string)` with no radix, as section 19.2.5 of ECMA-262 defines it, and
  `Number.prototype.toLocaleString('en-US')`, which prints an integer with a comma
  between every group of three digits counted from the right (ECMA-402).
 */
module LocaleFormat {

  predicate IsDigit(c: char)
  {
    '0' <= c <= '9'
  }

  /** The value of c as a digit in base 10 or 16, or -1 when it is none. */
  function DigitValue(c: char, radix: nat): (v: int)
    requires radix == 10 || radix == 16
    ensures -1 <= v < radix
    ensures IsDigit(c) ==> v == c as int - '0' as int
  {
    if IsDigit(c) then c as int - '0' as int
    else if radix == 16 && 'a' <= c <= 'f' then c as int - 'a' as int + 10
    else if radix == 16 && 'A' <= c <= 'F' then c as int - 'A' as int + 10
    else -1
  }

  predicate AllRadixDigits(s: string, radix: nat)
    requires radix == 10 || radix == 16
  {
    forall k :: 0 <= k < |s| ==> DigitValue(s[k], radix) >= 0
  }

  /** The number a string of digits denotes in the given base. */
  function RadixValue(s: string, radix: nat): nat
    requires radix == 10 || radix == 16
    requires AllRadixDigits(s, radix)
    decreases |s|
  {
    if s == [] then 0
    else radix * RadixValue(s[..|s| - 1], radix) + DigitValue(s[|s| - 1], radix)
  }

  function DigitChar(d: nat): (c: char)
    requires d < 10
    ensures IsDigit(c) && DigitValue(c, 10) == d
  {
    ('0' as int + d) as char
  }

  /** The decimal digits of n, most significant first, with no leading zero. */
  function Decimal(n: nat): (r: string)
    ensures |r| >= 1 && AllRadixDigits(r, 10)
    ensures forall k :: 0 <= k < |r| ==> IsDigit(r[k])
    ensures r[0] == '0' ==> n == 0
    decreases n
  {
    if n < 10 then [DigitChar(n)] else Decimal(n / 10) + [DigitChar(n % 10)]
  }

  /** Appending a digit to a positive number appends its character to the decimal. */
  lemma DecimalAppendDigit(n: nat, d: nat)
    requires 1 <= n && d < 10
    ensures Decimal(10 * n + d) == Decimal(n) + [DigitChar(d)]
  {
    assert (10 * n + d) / 10 == n && (10 * n + d) % 10 == d;
  }

  /** Reading the digits back gives the number. */
  lemma {:induction false} DecimalRoundTrip(n: nat)
    ensures RadixValue(Decimal(n), 10) == n
    decreases n
  {
    if n >= 10 {
      var r := Decimal(n);
      DecimalRoundTrip(n / 10);
      assert r[..|r| - 1] == Decimal(n / 10);
    }
  }

  /** A digit string with no leading zero is the decimal of its own value. */
  lemma {:induction false} DecimalOfCanonical(s: string)
    requires |s| >= 1 && AllRadixDigits(s, 10)
    requires s[0] != '0' || |s| == 1
    ensures Decimal(RadixValue(s, 10)) == s
    decreases |s|
  {
    if |s| > 1 {
      var p := s[..|s| - 1];
      var d := DigitValue(s[|s| - 1], 10);
      assert AllRadixDigits(p, 10);
      LeadingDigitPositive(p);
      DecimalOfCanonical(p);
      var n := RadixValue(s, 10);
      assert n == 10 * RadixValue(p, 10) + d;
      assert n / 10 == RadixValue(p, 10) && n % 10 == d;
      assert DigitChar(d) == s[|s| - 1];
    } else {
      assert s[..0] == [];
      assert RadixValue(s, 10) == DigitValue(s[0], 10);
    }
  }

  lemma {:induction false} LeadingDigitPositive(s: string)
    requires |s| >= 1 && AllRadixDigits(s, 10) && s[0] != '0'
    ensures RadixValue(s, 10) >= 1
    decreases |s|
  {
    if |s| > 1 {
      LeadingDigitPositive(s[..|s| - 1]);
    }
  }

  // ---------------------------------------------------------------------------
  // en-US digit grouping
  // ---------------------------------------------------------------------------

  /** A comma before every group of three digits counted from the right. */
  function GroupThousands(d: string): (r: string)
    ensures |d| <= 3 ==> r == d
    decreases |d|
  {
    if |d| <= 3 then d else GroupThousands(d[..|d| - 3]) + "," + d[|d| - 3..]
  }

  /** The string with every comma removed. */
  function StripCommas(s: string): (r: string)
    ensures ',' !in r
    decreases |s|
  {
    if s == [] then [] else (if s[0] == ',' then [] else [s[0]]) + StripCommas(s[1..])
  }

  lemma {:induction false} StripCommasAppend(a: string, b: string)
    ensures StripCommas(a + b) == StripCommas(a) + StripCommas(b)
    decreases |a|
  {
    if a != [] {
      assert (a + b)[1..] == a[1..] + b;
      StripCommasAppend(a[1..], b);
    } else {
      assert a + b == b;
    }
  }

  lemma {:induction false} StripCommasNoComma(s: string)
    requires ',' !in s
    ensures StripCommas(s) == s
    decreases |s|
  {
    if s != [] {
      StripCommasNoComma(s[1..]);
    }
  }

  /** Removing the commas from a grouped string gives back the digits. */
  lemma {:induction false} GroupThousandsStrip(d: string)
    requires ',' !in d
    ensures StripCommas(GroupThousands(d)) == d
    decreases |d|
  {
    if |d| <= 3 {
      StripCommasNoComma(d);
    } else {
      var p, t := d[..|d| - 3], d[|d| - 3..];
      assert d == p + t;
      GroupThousandsStrip(p);
      StripGroupStep(GroupThousands(p), p, t);
    }
  }

  lemma StripGroupStep(g: string, p: string, t: string)
    requires StripCommas(g) == p && ',' !in t
    ensures StripCommas(g + "," + t) == p + t
  {
    StripCommasAppend(g + ",", t);
    StripTrailingComma(g);
    StripCommasNoComma(t);
  }

  lemma StripTrailingComma(g: string)
    ensures StripCommas(g + ",") == StripCommas(g)
  {
    StripCommasAppend(g, ",");
    assert StripCommas(",") == [];
    assert StripCommas(g) + [] == StripCommas(g);
  }

  /** One comma for every full group of three digits after the first. */
  lemma {:induction false} GroupThousandsLength(d: string)
    requires |d| >= 1
    ensures |GroupThousands(d)| == |d| + (|d| - 1) / 3
    decreases |d|
  {
    if |d| > 3 {
      GroupThousandsLength(d[..|d| - 3]);
    }
  }

  /**
    The layout of a grouped string: a comma exactly at the positions 4, 8, 12, ... counted
    from the right, so every group after the first has three digits and the first has one
    to three.
   */
  lemma {:induction false} GroupThousandsLayout(d: string)
    requires |d| >= 1 && ',' !in d
    ensures forall k :: 0 <= k < |GroupThousands(d)| ==>
              (GroupThousands(d)[k] == ',' <==> (|GroupThousands(d)| - k) % 4 == 0)
    decreases |d|
  {
    var r := GroupThousands(d);
    if |d| <= 3 {
      forall k | 0 <= k < |r|
        ensures r[k] == ',' <==> (|r| - k) % 4 == 0
      {
        assert r[k] == d[k];
      }
    } else {
      var p, t := d[..|d| - 3], d[|d| - 3..];
      assert ',' !in p && ',' !in t by { assert d == p + t; }
      GroupThousandsLayout(p);
      var g := GroupThousands(p);
      assert r == g + "," + t;
      forall k | 0 <= k < |r|
        ensures r[k] == ',' <==> (|r| - k) % 4 == 0
      {
        GroupedPosition(g, t, k);
      }
    }
  }

  lemma GroupedPosition(g: string, t: string, k: int)
    requires |t| == 3 && ',' !in t && 0 <= k < |g| + 4
    requires forall j :: 0 <= j < |g| ==> (g[j] == ',' <==> (|g| - j) % 4 == 0)
    ensures (g + "," + t)[k] == ',' <==> (|g| + 4 - k) % 4 == 0
  {
    var r := g + "," + t;
    if k < |g| {
      assert r[k] == g[k];
      assert (|g| + 4 - k) % 4 == (|g| - k) % 4;
    } else if k > |g| {
      assert r[k] == t[k - |g| - 1];
    }
  }

  /** The first character of a grouped number is a digit, never a comma. */
  lemma {:induction false} GroupThousandsStartsWithDigit(d: string)
    requires |d| >= 1
    ensures GroupThousands(d)[0] == d[0]
    decreases |d|
  {
    if |d| > 3 {
      GroupThousandsLength(d[..|d| - 3]);
      GroupThousandsStartsWithDigit(d[..|d| - 3]);
    }
  }

  /** Fewer than four digits get no comma. */
  lemma ShortNumbersUngrouped(d: string)
    requires |d| <= 3
    ensures GroupThousands(d) == d
  {
  }

  // ---------------------------------------------------------------------------
  // Numbers, toLocaleString and parseInt
  // ---------------------------------------------------------------------------

  /** A JavaScript number as far as these routines need: NaN, or an integer with its sign (so -0 is kept). */
  datatype Number = NaN | Integer(negative: bool, magnitude: nat)

  function FromInt(v: int): (x: Number)
    ensures x.Integer? && (x.negative <==> v < 0)
    ensures x.magnitude == if v < 0 then -v else v
  {
    if v < 0 then Integer(true, -v) else Integer(false, v)
  }

  /** `x.toLocaleString('en-US')`: "NaN", or an optional minus sign followed by the grouped decimal digits. */
  function ToLocaleString(x: Number): (r: string)
    ensures x.NaN? ==> r == "NaN"
    ensures x.Integer? ==> StripCommas(r) == (if x.negative then "-" else "") + Decimal(x.magnitude)
  {
    match x
    case NaN => "NaN"
    case Integer(negative, m) =>
      GroupThousandsStrip(Decimal(m));
      StripCommasAppend(if negative then "-" else "", GroupThousands(Decimal(m)));
      (if negative then "-" else "") + GroupThousands(Decimal(m))
  }

  /** StrWhiteSpaceChar of ECMA-262: white space and line terminators. */
  predicate IsStrWhiteSpace(c: char)
  {
    || c == '\t' || c == '\n' || c == '\U{000B}' || c == '\U{000C}' || c == '\r'
    || c == ' ' || c == '\U{00A0}' || c == '\U{1680}' || ('\U{2000}' <= c <= '\U{200A}')
    || c == '\U{2028}' || c == '\U{2029}' || c == '\U{202F}' || c == '\U{205F}'
    || c == '\U{3000}' || c == '\U{FEFF}'
  }

  /** The string with its leading white space removed. */
  function TrimStart(s: string): (r: string)
    ensures |r| <= |s| && r == s[|s| - |r|..]
    ensures forall k :: 0 <= k < |s| - |r| ==> IsStrWhiteSpace(s[k])
    ensures r != [] ==> !IsStrWhiteSpace(r[0])
    decreases |s|
  {
    if s != [] && IsStrWhiteSpace(s[0]) then TrimStart(s[1..]) else s
  }

  /** The length of the longest prefix made of digits of the radix. */
  function DigitPrefixLength(s: string, radix: nat): (n: nat)
    requires radix == 10 || radix == 16
    ensures n <= |s| && AllRadixDigits(s[..n], radix)
    ensures n < |s| ==> DigitValue(s[n], radix) < 0
    decreases |s|
  {
    if s != [] && DigitValue(s[0], radix) >= 0 then
      var n := 1 + DigitPrefixLength(s[1..], radix);
      assert s[..n] == [s[0]] + s[1..][..n - 1];
      n
    else 0
  }

  /**
    `parseInt(s)` with no radix: skip leading white space, take an optional sign, switch to
    base 16 after a "0x" or "0X" prefix, read the longest run of digits, and give NaN when
    there is none.
   */
  function ParseInt(s: string): (r: Number)
    ensures r.Integer? ==> (r.negative <==> TrimStart(s) != [] && TrimStart(s)[0] == '-')
  {
    ParseSigned(TrimStart(s))
  }

  /** The sign step: a leading '-' makes the result negative; '+' or '-' is then dropped. */
  function ParseSigned(t: string): (r: Number)
    ensures r.Integer? ==> (r.negative <==> t != [] && t[0] == '-')
    ensures t != [] && (t[0] == '+' || t[0] == '-') ==> r == ParsePrefixed(t[0] == '-', t[1..])
    ensures t == [] || (t[0] != '+' && t[0] != '-') ==> r == ParsePrefixed(false, t)
  {
    var negative := t != [] && t[0] == '-';
    ParsePrefixed(negative, if t != [] && (t[0] == '+' || t[0] == '-') then t[1..] else t)
  }

  /** The radix step: "0x" or "0X" selects base 16, anything else base 10. */
  function ParsePrefixed(negative: bool, u: string): (r: Number)
    ensures r.Integer? ==> r.negative == negative
    ensures |u| >= 2 && u[0] == '0' && (u[1] == 'x' || u[1] == 'X') ==>
              (r.NaN? <==> |u| == 2 || DigitValue(u[2], 16) < 0)
    ensures !(|u| >= 2 && u[0] == '0' && (u[1] == 'x' || u[1] == 'X')) ==>
              (r.NaN? <==> u == [] || !IsDigit(u[0]))
    ensures |u| >= 2 && u[0] == '0' && (u[1] == 'x' || u[1] == 'X') && r.Integer? ==>
              r.magnitude == RadixValue(u[2..][..DigitPrefixLength(u[2..], 16)], 16)
    ensures !(|u| >= 2 && u[0] == '0' && (u[1] == 'x' || u[1] == 'X')) && r.Integer? ==>
              r.magnitude == RadixValue(u[..DigitPrefixLength(u, 10)], 10)
  {
    if |u| >= 2 && u[0] == '0' && (u[1] == 'x' || u[1] == 'X') then ParseDigits(negative, u[2..], 16)
    else ParseDigits(negative, u, 10)
  }

  /** The digit step: the value of the longest run of digits, NaN when it is empty. */
  function ParseDigits(negative: bool, v: string, radix: nat): (r: Number)
    requires radix == 10 || radix == 16
    ensures r.NaN? <==> v == [] || DigitValue(v[0], radix) < 0
    ensures r.Integer? ==> r.negative == negative && r.magnitude == RadixValue(v[..DigitPrefixLength(v, radix)], radix)
  {
    var n := DigitPrefixLength(v, radix);
    if n == 0 then NaN else Integer(negative, RadixValue(v[..n], radix))
  }

  lemma {:induction false} DigitPrefixOfDigits(s: string)
    requires AllRadixDigits(s, 10)
    ensures DigitPrefixLength(s, 10) == |s|
    decreases |s|
  {
    if s != [] {
      DigitPrefixOfDigits(s[1..]);
    }
  }

  /** A plain digit string parses to its decimal value. */
  lemma ParseIntOfDigits(s: string)
    requires |s| >= 1 && AllRadixDigits(s, 10)
    ensures ParseInt(s) == Integer(false, RadixValue(s, 10))
  {
    DigitsUntrimmed(s);
    DigitsUnsignedDecimal(s);
    DigitPrefixOfDigits(s);
    assert s[..|s|] == s;
  }

  lemma DigitsUntrimmed(s: string)
    requires |s| >= 1 && AllRadixDigits(s, 10)
    ensures TrimStart(s) == s
  {
    assert IsDigit(s[0]) by { assert DigitValue(s[0], 10) >= 0; }
  }

  lemma DigitsUnsignedDecimal(s: string)
    requires |s| >= 1 && AllRadixDigits(s, 10)
    ensures ParseSigned(s) == ParseDigits(false, s, 10)
  {
    assert IsDigit(s[0]) by { assert DigitValue(s[0], 10) >= 0; }
    assert ParseSigned(s) == ParsePrefixed(false, s);
    if |s| >= 2 {
      assert IsDigit(s[1]) by { assert DigitValue(s[1], 10) >= 0; }
    }
  }


  /**
    Blanks, an optional sign, a run of decimal digits and then anything that does not continue
    the run parse to the signed value of the run. The one exception is a run "0" followed by
    'x' or 'X', which selects base 16.
   */
  lemma ParseIntOfDigitRun(w: string, sg: string, d: string, rest: string)
    requires forall k :: 0 <= k < |w| ==> IsStrWhiteSpace(w[k])
    requires sg == "" || sg == "+" || sg == "-"
    requires |d| >= 1 && AllRadixDigits(d, 10)
    requires rest == [] || !IsDigit(rest[0])
    requires !(d == "0" && rest != [] && (rest[0] == 'x' || rest[0] == 'X'))
    ensures ParseInt(w + sg + d + rest) == Integer(sg == "-", RadixValue(d, 10))
  {
    var u := d + rest;
    DigitRunStartsWithDigit(d, rest);
    SignThenDigit(sg, u);
    DecimalRunThen(sg == "-", d, rest);
    ParseIntAfterBlanks(w, sg + u);
    Regroup(w, sg, d, rest);
  }

  lemma DigitRunStartsWithDigit(d: string, rest: string)
    requires |d| >= 1 && AllRadixDigits(d, 10)
    ensures d + rest != [] && IsDigit((d + rest)[0])
  {
    assert (d + rest)[0] == d[0] && DigitValue(d[0], 10) >= 0;
  }

  lemma Regroup(w: string, sg: string, d: string, rest: string)
    ensures w + sg + d + rest == w + (sg + (d + rest))
  {
  }

  lemma ParseIntAfterBlanks(w: string, x: string)
    requires forall k :: 0 <= k < |w| ==> IsStrWhiteSpace(w[k])
    requires x != [] && !IsStrWhiteSpace(x[0])
    ensures ParseInt(w + x) == ParseSigned(x)
  {
    TrimStartOfBlanks(w, x);
  }

  lemma SignThenDigit(sg: string, u: string)
    requires sg == "" || sg == "+" || sg == "-"
    requires u != [] && IsDigit(u[0])
    ensures (sg + u) != [] && !IsStrWhiteSpace((sg + u)[0])
    ensures ParseSigned(sg + u) == ParsePrefixed(sg == "-", u)
  {
    if sg != "" {
      assert (sg + u)[1..] == u;
    } else {
      assert sg + u == u;
    }
  }

  lemma DecimalRunThen(negative: bool, d: string, rest: string)
    requires |d| >= 1 && AllRadixDigits(d, 10)
    requires rest == [] || !IsDigit(rest[0])
    requires !(d == "0" && rest != [] && (rest[0] == 'x' || rest[0] == 'X'))
    ensures ParsePrefixed(negative, d + rest) == Integer(negative, RadixValue(d, 10))
  {
    var u := d + rest;
    if |d| >= 2 {
      assert u[1] == d[1] && DigitValue(d[1], 10) >= 0;
    } else if rest != [] {
      assert u[1] == rest[0];
    }
    assert DigitValue(d[0], 10) >= 0;
    DigitPrefixOfDigitsThen(d, rest);
    assert u[..|d|] == d;
  }

  /** Leading white space is skipped up to the first character that is not white space. */
  lemma {:induction false} TrimStartOfBlanks(w: string, x: string)
    requires forall k :: 0 <= k < |w| ==> IsStrWhiteSpace(w[k])
    requires x != [] && !IsStrWhiteSpace(x[0])
    ensures TrimStart(w + x) == x
    decreases |w|
  {
    if w == [] {
      assert w + x == x;
    } else {
      var t := w[1..];
      assert (w + x)[0] == w[0] && IsStrWhiteSpace(w[0]);
      assert (w + x)[1..] == t + x;
      assert forall k :: 0 <= k < |t| ==> IsStrWhiteSpace(t[k]) by {
        forall k | 0 <= k < |t| ensures IsStrWhiteSpace(t[k]) {
          assert t[k] == w[k + 1];
        }
      }
      TrimStartOfBlanks(t, x);
    }
  }

  /** The digit run of digits followed by a non-digit is exactly those digits. */
  lemma {:induction false} DigitPrefixOfDigitsThen(d: string, rest: string)
    requires AllRadixDigits(d, 10)
    requires rest == [] || !IsDigit(rest[0])
    ensures DigitPrefixLength(d + rest, 10) == |d|
    decreases |d|
  {
    if d == [] {
      assert d + rest == rest;
      if rest != [] {
        assert DigitValue(rest[0], 10) < 0;
      }
    } else {
      assert (d + rest)[1..] == d[1..] + rest;
      assert DigitValue(d[0], 10) >= 0;
      DigitPrefixOfDigitsThen(d[1..], rest);
    }
  }

  /** A string whose first non-blank, unsigned character is not a decimal digit parses to NaN. */
  lemma ParseIntWithoutLeadingDigit(s: string)
    requires var t := TrimStart(s);
             var u := if t != [] && (t[0] == '+' || t[0] == '-') then t[1..] else t;
             u == [] || !IsDigit(u[0])
    ensures ParseInt(s) == NaN
  {
  }

  /** The 0x prefix switches to base 16. */
  lemma ParseIntHexPrefix()
    ensures ParseInt("0x1F") == Integer(false, 31)
  {
    HexUntrimmed();
    assert ParseSigned("0x1F") == ParsePrefixed(false, "0x1F");
    assert ParsePrefixed(false, "0x1F") == ParseDigits(false, "1F", 16);
    HexDigitRun();
  }

  lemma HexUntrimmed()
    ensures TrimStart("0x1F") == "0x1F"
  {
    assert !IsStrWhiteSpace('0');
  }

  lemma HexDigitRun()
    ensures DigitPrefixLength("1F", 16) == 2 && RadixValue("1F", 16) == 31
  {
    assert ("1F")[..2] == "1F";
    assert ("1F")[..1] == "1";
  }

  /** Leading blanks and a sign are consumed, and reading stops at the first non-digit. */
  lemma ParseIntStopsAtNonDigit()
    ensures ParseInt("  -42px") == Integer(true, 42)
  {
    TrimTwoBlanks();
    assert ParseSigned("-42px") == ParsePrefixed(true, "42px");
    assert ParsePrefixed(true, "42px") == ParseDigits(true, "42px", 10);
    DecimalDigitRun();
  }

  lemma TrimTwoBlanks()
    ensures TrimStart("  -42px") == "-42px"
  {
    assert IsStrWhiteSpace(' ') && !IsStrWhiteSpace('-');
    assert ("  -42px")[1..] == " -42px";
    assert (" -42px")[1..] == "-42px";
  }

  lemma DecimalDigitRun()
    ensures DigitPrefixLength("42px", 10) == 2 && ("42px")[..2] == "42" && RadixValue("42", 10) == 42
  {
    assert ("42px")[..2] == "42";
    assert ("42")[..1] == "4";
  }
}
