/**
 * The price inputs of the product form: the `formatter` that shows a number
 * with a comma before every group of three digits, and the `parser` that
 * turns the shown text back into a number. Both the price and the old-price
 * inputs use this same pair.
 */
module PriceFormat {
  import opened Wrappers

  predicate IsDigit(c: char) {
    '0' <= c <= '9'
  }

  predicate AllDigits(s: string) {
    forall i :: 0 <= i < |s| ==> IsDigit(s[i])
  }

  function DigitChar(d: nat): (c: char)
    requires d < 10
    ensures IsDigit(c)
  {
    ('0' as int + d) as char
  }

  function DigitValue(c: char): (d: nat)
    requires IsDigit(c)
    ensures d < 10 && DigitChar(d) == c
  {
    c as int - '0' as int
  }

  /** `${value}` for a natural number: its decimal digits, no leading zero. */
  function Decimal(n: nat): (s: string)
    ensures |s| >= 1 && AllDigits(s)
    ensures |s| > 1 ==> s[0] != '0'
  {
    if n < 10 then [DigitChar(n)] else Decimal(n / 10) + [DigitChar(n % 10)]
  }

  /** The number a digit string denotes. */
  function Value(s: string): nat
    requires AllDigits(s)
  {
    if s == [] then 0 else Value(s[..|s| - 1]) * 10 + DigitValue(s[|s| - 1])
  }

  /** Reading the decimal digits of n gives back n. */
  lemma {:induction false} ValueOfDecimal(n: nat)
    ensures Value(Decimal(n)) == n
  {
    if n >= 10 {
      var s := Decimal(n);
      assert s[..|s| - 1] == Decimal(n / 10);
      ValueOfDecimal(n / 10);
    }
  }

  /**
   * The regular expression `\B(?=(\d{3})+(?!\d))` on a digit string matches
   * at the inner positions followed by a positive multiple of three digits.
   * `Commas(t)` writes out the tail `t` of the string (every character after
   * the first), putting a comma in front of each character that starts a
   * remainder whose length is a multiple of three.
   */
  function Commas(t: string): (r: string)
    ensures |r| == |t| + |t| / 3
  {
    if t == [] then [] else (if |t| % 3 == 0 then [','] else []) + [t[0]] + Commas(t[1..])
  }

  /** formatter: `${value}`.replace(/\B(?=(\d{3})+(?!\d))/g, ','), on a digit string. */
  function Format(s: string): (r: string)
    ensures s == [] ==> r == []
    ensures s != [] ==> |r| == |s| + (|s| - 1) / 3 && r[0] == s[0]
  {
    if s == [] then [] else [s[0]] + Commas(s[1..])
  }

  /**
   * The formatter applied to a natural number, as the price input shows it:
   * the digits grouped by three from the right, and nothing but the digits
   * once the commas are deleted.
   */
  function FormatPrice(n: nat): (r: string)
    ensures r == Grouped(Decimal(n))
    ensures RemoveCommas(r) == Decimal(n)
  {
    FormatIsGrouped(Decimal(n));
    RemoveCommasOfFormat(Decimal(n));
    Format(Decimal(n))
  }

  /**
   * Independent reading of the same formatter: group the digits by three
   * from the right and join the groups with commas.
   */
  function Grouped(s: string): string {
    if |s| <= 3 then s else Grouped(s[..|s| - 3]) + [','] + s[|s| - 3..]
  }

  lemma {:induction false} CommasAppend(a: string, b: string)
    requires |b| % 3 == 0
    ensures Commas(a + b) == Commas(a) + Commas(b)
  {
    if a == [] {
      assert a + b == b;
    } else {
      var ab := a + b;
      assert ab[0] == a[0];
      assert ab[1..] == a[1..] + b;
      assert |ab| % 3 == |a| % 3;
      CommasAppend(a[1..], b);
      calc {
        Commas(ab);
        (if |ab| % 3 == 0 then [','] else []) + [ab[0]] + Commas(ab[1..]);
        (if |a| % 3 == 0 then [','] else []) + [a[0]] + (Commas(a[1..]) + Commas(b));
        ((if |a| % 3 == 0 then [','] else []) + [a[0]] + Commas(a[1..])) + Commas(b);
        Commas(a) + Commas(b);
      }
    }
  }

  lemma CommasShort(t: string)
    requires |t| < 3
    ensures Commas(t) == t
  {
    if |t| > 0 {
      assert Commas(t[1..]) == t[1..] by { CommasShort(t[1..]); }
    }
  }

  lemma CommasOfGroup(y: string)
    requires |y| == 3
    ensures Commas(y) == [','] + y
  {
    CommasShort(y[1..]);
    assert [y[0]] + y[1..] == y;
  }

  /**
   * The formatter puts a comma before each group of three digits counted
   * from the right, and never at the front.
   */
  lemma {:induction false} FormatIsGrouped(s: string)
    ensures Format(s) == Grouped(s)
  {
    if |s| <= 3 {
      if s != [] {
        CommasShort(s[1..]);
        assert [s[0]] + s[1..] == s;
      }
    } else {
      var x, y := s[..|s| - 3], s[|s| - 3..];
      assert s[0] == x[0];
      assert s[1..] == x[1..] + y;
      CommasAppend(x[1..], y);
      CommasOfGroup(y);
      FormatIsGrouped(x);
      calc {
        Format(s);
        [s[0]] + Commas(s[1..]);
        [x[0]] + (Commas(x[1..]) + ([','] + y));
        ([x[0]] + Commas(x[1..])) + [','] + y;
        Format(x) + [','] + y;
      }
    }
  }

  /** Deleting every comma. */
  function RemoveCommas(s: string): (r: string)
    ensures forall i :: 0 <= i < |r| ==> r[i] != ','
  {
    if s == [] then [] else (if s[0] == ',' then [] else [s[0]]) + RemoveCommas(s[1..])
  }

  lemma {:induction false} RemoveCommasAppend(a: string, b: string)
    ensures RemoveCommas(a + b) == RemoveCommas(a) + RemoveCommas(b)
  {
    if a == [] {
      assert a + b == b;
    } else {
      assert (a + b)[0] == a[0];
      assert (a + b)[1..] == a[1..] + b;
      RemoveCommasAppend(a[1..], b);
    }
  }

  lemma {:induction false} RemoveCommasOfDigits(s: string)
    requires AllDigits(s)
    ensures RemoveCommas(s) == s
  {
    if s != [] {
      RemoveCommasOfDigits(s[1..]);
    }
  }

  /** Deleting the commas from the formatter's output gives back the digit string. */
  lemma {:induction false} RemoveCommasOfFormat(s: string)
    requires AllDigits(s)
    ensures RemoveCommas(Format(s)) == s
  {
    FormatIsGrouped(s);
    GroupedRemoveCommas(s);
  }

  lemma {:induction false} GroupedRemoveCommas(s: string)
    requires AllDigits(s)
    ensures RemoveCommas(Grouped(s)) == s
  {
    if |s| <= 3 {
      RemoveCommasOfDigits(s);
    } else {
      var x, y := s[..|s| - 3], s[|s| - 3..];
      GroupedRemoveCommas(x);
      RemoveCommasAppend(Grouped(x) + [','], y);
      RemoveCommasAppend(Grouped(x), [',']);
      RemoveCommasOfDigits(y);
      assert RemoveCommas([',']) == [];
      assert x + y == s;
    }
  }

  /**
   * `\s` of a JavaScript regular expression and the white space `parseInt`
   * skips, restricted to the ASCII and Latin-1 characters and the byte order mark.
   */
  predicate IsSpace(c: char) {
    c == ' ' || c == '\t' || c == '\n' || c == '\r' || c == '\U{000B}' || c == '\U{000C}'
    || c == '\U{00A0}' || c == '\U{FEFF}'
  }

  /**
   * `value.replace(/\$\s?|(,*)/g, '')`: every `$` together with one white-space
   * character right after it, and every comma, is deleted.
   */
  function StripCurrency(s: string): (r: string)
    ensures |r| <= |s|
    ensures forall i :: 0 <= i < |r| ==> r[i] != ',' && r[i] != '$'
  {
    if s == [] then []
    else if s[0] == '$' then
      if |s| > 1 && IsSpace(s[1]) then StripCurrency(s[2..]) else StripCurrency(s[1..])
    else if s[0] == ',' then StripCurrency(s[1..])
    else [s[0]] + StripCurrency(s[1..])
  }

  /** The single matches of the pattern: a comma, a `$` alone, a `$` with the white space after it. */
  lemma StripCurrencyTokens(c: char, w: char)
    ensures c != '$' && c != ',' ==> StripCurrency([c]) == [c]
    ensures StripCurrency([',']) == [] && StripCurrency(['$']) == []
    ensures IsSpace(w) ==> StripCurrency(['$', w]) == []
    ensures !IsSpace(w) && w != '$' && w != ',' ==> StripCurrency(['$', w]) == [w]
  {
  }

  /** A `$` not followed by white space is deleted alone: the next character is matched on its own. */
  lemma StripDollarNoSpace(w: char, t: string)
    requires !IsSpace(w)
    ensures StripCurrency(['$', w] + t) == StripCurrency([w] + t)
  {
    var s := ['$', w] + t;
    assert s[0] == '$' && s[1] == w;
    assert s[1..] == [w] + t;
  }

  /**
   * The replacement works match by match: text that does not end in a `$`
   * (which could swallow the white space after it) is stripped on its own.
   */
  lemma {:induction false} StripCurrencyAppend(a: string, b: string)
    requires a == [] || a[|a| - 1] != '$'
    ensures StripCurrency(a + b) == StripCurrency(a) + StripCurrency(b)
  {
    if a == [] {
      assert a + b == b;
    } else {
      var ab := a + b;
      assert ab[0] == a[0];
      if a[0] == '$' {
        assert |a| > 1 && ab[1] == a[1];
        if IsSpace(a[1]) {
          assert ab[2..] == a[2..] + b;
          StripCurrencyAppend(a[2..], b);
        } else {
          assert ab[1..] == a[1..] + b;
          StripCurrencyAppend(a[1..], b);
        }
      } else {
        assert ab[1..] == a[1..] + b;
        StripCurrencyAppend(a[1..], b);
      }
    }
  }

  /** On text without `$`, the replacement only deletes the commas. */
  lemma {:induction false} StripWithoutDollar(s: string)
    requires forall i :: 0 <= i < |s| ==> s[i] != '$'
    ensures StripCurrency(s) == RemoveCommas(s)
  {
    if s != [] {
      StripWithoutDollar(s[1..]);
    }
  }

  /** The leading white space skipped by `parseInt`. */
  function TrimStart(s: string): (r: string)
    ensures |r| <= |s| && s[|s| - |r|..] == r
    ensures forall i :: 0 <= i < |s| - |r| ==> IsSpace(s[i])
    ensures r != [] ==> !IsSpace(r[0])
  {
    if s != [] && IsSpace(s[0]) then TrimStart(s[1..]) else s
  }

  /** The longest prefix of `s` made of characters satisfying `isDigit`. */
  function DigitPrefix(s: string): (r: string)
    ensures |r| <= |s| && r == s[..|r|] && AllDigits(r)
    ensures |r| < |s| ==> !IsDigit(s[|r|])
    ensures AllDigits(s) ==> r == s
  {
    if s != [] && IsDigit(s[0]) then [s[0]] + DigitPrefix(s[1..]) else []
  }

  predicate IsHexDigit(c: char) {
    IsDigit(c) || 'a' <= c <= 'f' || 'A' <= c <= 'F'
  }

  function HexDigitValue(c: char): (d: nat)
    requires IsHexDigit(c)
    ensures d < 16
  {
    if IsDigit(c) then DigitValue(c)
    else if 'a' <= c <= 'f' then c as int - 'a' as int + 10
    else c as int - 'A' as int + 10
  }

  function HexPrefix(s: string): (r: string)
    ensures |r| <= |s| && r == s[..|r|]
    ensures forall i :: 0 <= i < |r| ==> IsHexDigit(r[i])
  {
    if s != [] && IsHexDigit(s[0]) then [s[0]] + HexPrefix(s[1..]) else []
  }

  function HexValue(s: string): nat
    requires forall i :: 0 <= i < |s| ==> IsHexDigit(s[i])
  {
    if s == [] then 0 else HexValue(s[..|s| - 1]) * 16 + HexDigitValue(s[|s| - 1])
  }

  /**
   * The unsigned part of `parseInt`: a `0x`/`0X` prefix selects base 16,
   * otherwise the longest run of decimal digits is read. None stands for
   * NaN (no digit at all).
   */
  function ParseUnsigned(u: string): (r: Option<int>)
    ensures r.Some? ==> r.value >= 0
    ensures u == [] || !IsDigit(u[0]) ==> r == None
    ensures AllDigits(u) && u != [] ==> r == Some(Value(u))
  {
    if |u| >= 2 && u[0] == '0' && (u[1] == 'x' || u[1] == 'X') then
      var h := HexPrefix(u[2..]);
      if h == [] then None else Some(HexValue(h))
    else
      var d := DigitPrefix(u);
      if d == [] then None else Some(Value(d))
  }

  /**
   * `parseInt(s)` without a radix: leading white space is skipped and one
   * sign is read before the unsigned part.
   */
  function ParseInt(s: string): (r: Option<int>)
    ensures TrimStart(s) == [] ==> r == None
    ensures AllDigits(s) && s != [] ==> r == Some(Value(s))
    ensures |s| > 1 && s[0] == '-' && AllDigits(s[1..]) ==> r == Some(-(Value(s[1..]) as int))
  {
    var t := TrimStart(s);
    if t != [] && t[0] == '-' then
      match ParseUnsigned(t[1..])
      case Some(m) => Some(-m)
      case None => None
    else if t != [] && t[0] == '+' then ParseUnsigned(t[1..])
    else ParseUnsigned(t)
  }

  /** `parseInt` on a decimal numeral reads its value. */
  lemma ParseIntOfDecimal(n: nat)
    ensures ParseInt(Decimal(n)) == Some(n)
  {
    ValueOfDecimal(n);
  }

  /** parser: `value ? parseInt(value.replace(/\$\s?|(,*)/g, '')) : 0`. */
  function Parse(value: string): (r: Option<int>)
    ensures value == "" ==> r == Some(0)
    ensures value != "" ==> r == ParseInt(StripCurrency(value))
  {
    if value == "" then Some(0) else ParseInt(StripCurrency(value))
  }

  /** The parser reads back every price the formatter shows: parser(formatter(n)) == n. */
  lemma ParseFormatRoundTrip(n: nat)
    ensures Parse(FormatPrice(n)) == Some(n)
  {
    var s := Decimal(n);
    var shown := Format(s);
    FormatIsGrouped(s);
    GroupedHasNoDollar(s);
    StripWithoutDollar(shown);
    RemoveCommasOfFormat(s);
    ParseIntOfDecimal(n);
  }

  lemma {:induction false} GroupedHasNoDollar(s: string)
    requires AllDigits(s)
    ensures forall i :: 0 <= i < |Grouped(s)| ==> Grouped(s)[i] != '$'
  {
    if |s| > 3 {
      GroupedHasNoDollar(s[..|s| - 3]);
    }
  }
}
