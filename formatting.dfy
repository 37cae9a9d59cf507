/**
  Text rendering used by the `to_dict` views and the quote options:
  prices are written as `$` followed by the decimal digits of the amount,
  grouped in threes with commas (Python's `f'${n:,}'`), and two-digit
  zero-padded fields build `HH:MM` times.
  Every renderer here comes with a reader or a shape predicate and a lemma
  that ties the two together.
 */
module Formatting {
  import opened Common

  predicate IsDigit(c: char) {
    '0' <= c <= '9'
  }

  predicate AllDigits(s: string) {
    forall i :: 0 <= i < |s| ==> IsDigit(s[i])
  }

  predicate CommaFree(s: string) {
    forall i :: 0 <= i < |s| ==> s[i] != ','
  }

  function DigitValue(c: char): (d: nat)
    requires IsDigit(c)
    ensures d < 10
  {
    (c as int) - ('0' as int)
  }

  function DigitChar(d: nat): (c: char)
    requires d < 10
    ensures IsDigit(c) && DigitValue(c) == d
  {
    (('0' as int) + d) as char
  }

  /** The number a string of decimal digits denotes (most significant digit first). */
  function ValueOf(s: string): nat
    requires AllDigits(s)
  {
    if s == [] then 0 else ValueOf(s[..|s| - 1]) * 10 + DigitValue(s[|s| - 1])
  }

  /** The decimal digits of `n`, without leading zeros (`0` is written "0"). */
  function DecimalDigits(n: nat): (s: string)
    ensures |s| >= 1 && AllDigits(s)
    ensures |s| > 1 ==> s[0] != '0'
    decreases n
  {
    if n < 10 then [DigitChar(n)] else DecimalDigits(n / 10) + [DigitChar(n % 10)]
  }

  lemma {:induction false} DecimalDigitsRoundTrip(n: nat)
    ensures ValueOf(DecimalDigits(n)) == n
    decreases n
  {
    if n >= 10 {
      var s := DecimalDigits(n);
      assert s[..|s| - 1] == DecimalDigits(n / 10);
      DecimalDigitsRoundTrip(n / 10);
    }
  }

  /** Commas between groups of three digits, counted from the right. */
  function GroupThousands(ds: string): string
    decreases |ds|
  {
    if |ds| <= 3 then ds else GroupThousands(ds[..|ds| - 3]) + "," + ds[|ds| - 3..]
  }

  /** Drops every comma, keeping the other characters in order. */
  function RemoveCommas(s: string): string {
    if s == [] then [] else (if s[0] == ',' then [] else [s[0]]) + RemoveCommas(s[1..])
  }

  lemma {:induction false} RemoveCommasAppend(a: string, b: string)
    ensures RemoveCommas(a + b) == RemoveCommas(a) + RemoveCommas(b)
    decreases |a|
  {
    if a != [] {
      assert (a + b)[1..] == a[1..] + b;
      RemoveCommasAppend(a[1..], b);
    } else {
      assert a + b == b;
    }
  }

  lemma {:induction false} RemoveCommasOfCommaFree(s: string)
    requires CommaFree(s)
    ensures RemoveCommas(s) == s
    decreases |s|
  {
    if s != [] {
      RemoveCommasOfCommaFree(s[1..]);
    }
  }

  /** Removing the separators gives back exactly the digits that were grouped. */
  lemma {:induction false} GroupThousandsKeepsDigits(ds: string)
    requires CommaFree(ds)
    ensures RemoveCommas(GroupThousands(ds)) == ds
    decreases |ds|
  {
    if |ds| <= 3 {
      RemoveCommasOfCommaFree(ds);
    } else {
      var pre, last := ds[..|ds| - 3], ds[|ds| - 3..];
      GroupThousandsKeepsDigits(pre);
      RemoveCommasAppend(GroupThousands(pre) + ",", last);
      RemoveCommasAppend(GroupThousands(pre), ",");
      RemoveCommasOfCommaFree(last);
      assert RemoveCommas(",") == [];
      assert pre + last == ds;
    }
  }

  /**
    The shape of a grouped number: it starts with the first digit, it has one
    comma per completed group of three, and a position holds a comma exactly
    when its distance from the end is a multiple of four.
   */
  lemma {:induction false} GroupThousandsShape(ds: string)
    requires CommaFree(ds) && |ds| >= 1
    ensures var s := GroupThousands(ds);
      && |s| == |ds| + (|ds| - 1) / 3
      && s[0] == ds[0]
      && forall i :: 0 <= i < |s| ==> (s[i] == ',' <==> (|s| - i) % 4 == 0)
    decreases |ds|
  {
    var s := GroupThousands(ds);
    if |ds| > 3 {
      var pre, last := ds[..|ds| - 3], ds[|ds| - 3..];
      GroupThousandsShape(pre);
      var g := GroupThousands(pre);
      assert s == g + "," + last;
      assert |s| == |g| + 4;
      assert (|ds| - 1) / 3 == (|pre| - 1) / 3 + 1 by {
        assert |ds| - 1 == (|pre| - 1) + 3;
      }
      forall i | 0 <= i < |s|
        ensures s[i] == ',' <==> (|s| - i) % 4 == 0
      {
        if i < |g| {
          assert s[i] == g[i];
          ShiftByFour(|g| - i);
        } else if i == |g| {
          assert |s| - i == 4;
        } else {
          assert s[i] == last[i - |g| - 1];
        }
      }
    }
  }

  lemma ShiftByFour(x: int)
    ensures (x + 4) % 4 == x % 4
  {
  }

  /** `f'${price:,}'`: a dollar sign, a minus sign for negative amounts, then the grouped digits. */
  function FormatPrice(price: int): string {
    "$" + (if price < 0 then "-" else "") + GroupThousands(DecimalDigits(if price < 0 then -price else price))
  }

  /** Reads back a rendered price: `$`, an optional `-`, then digits with any commas ignored. */
  function ParsePrice(s: string): Option<int> {
    if |s| == 0 || s[0] != '$' then None
    else
      var body := s[1..];
      var negative := |body| > 0 && body[0] == '-';
      var digits := RemoveCommas(if negative then body[1..] else body);
      if |digits| == 0 || !AllDigits(digits) then None
      else
        var magnitude: int := ValueOf(digits);
        Some(if negative then -magnitude else magnitude)
  }

  lemma AllDigitsCommaFree(s: string)
    requires AllDigits(s)
    ensures CommaFree(s)
  {
  }

  /** A rendered price reads back as the amount it was rendered from. */
  lemma PriceRoundTrip(price: int)
    ensures ParsePrice(FormatPrice(price)) == Some(price)
  {
    var mag := if price < 0 then -price else price;
    var ds := DecimalDigits(mag);
    AllDigitsCommaFree(ds);
    GroupThousandsKeepsDigits(ds);
    GroupThousandsShape(ds);
    DecimalDigitsRoundTrip(mag);
    var s := FormatPrice(price);
    var g := GroupThousands(ds);
    if price < 0 {
      assert s == "$" + "-" + g;
      assert s[1..] == "-" + g;
      assert s[1..][1..] == g;
    } else {
      assert s == "$" + g;
      assert s[1..] == g;
      assert g[0] == ds[0];
    }
  }

  /** Two zero-padded decimal digits, as `%H` and `%M` write them. */
  function TwoDigits(n: nat): (s: string)
    requires n < 100
    ensures |s| == 2 && AllDigits(s) && ValueOf(s) == n
  {
    var s := [DigitChar(n / 10), DigitChar(n % 10)];
    assert s[..1] == [s[0]] && s[..1][..0] == [];
    assert ValueOf(s[..1]) == n / 10;
    assert ValueOf(s) == (n / 10) * 10 + n % 10;
    s
  }
}
