/**
 * Reading the reference data's display strings as numbers: a price such as
 * "69,000원" and a data allowance such as "150GB" or "무제한" (unlimited).
 */
module Pricing {
  import opened Text

  // ---------------------------------------------------------------------------
  // `parsePriceNumber`
  // ---------------------------------------------------------------------------

  /**
   * `parsePriceNumber`: every non-digit is dropped and the remaining digits are
   * read in base ten; a price without digits reads as 0 (`parseInt("")` is NaN,
   * which `|| 0` turns into 0).
   */
  function ParsePriceNumber(price: string): nat {
    DecimalValue(Digits(price))
  }

  /** A price without any digit reads as 0. */
  lemma PriceWithoutDigits(price: string)
    requires forall i :: 0 <= i < |price| ==> !IsDigit(price[i])
    ensures ParsePriceNumber(price) == 0
  {
    NoDigitsNoDigitString(price);
  }

  lemma {:induction false} NoDigitsNoDigitString(s: string)
    requires forall i :: 0 <= i < |s| ==> !IsDigit(s[i])
    ensures Digits(s) == []
    decreases |s|
  {
    if |s| > 0 {
      NoDigitsNoDigitString(s[1..]);
    }
  }

  /** Separators and currency signs do not matter: dropping a non-digit keeps the value. */
  lemma PriceIgnoresNonDigit(a: string, c: char, b: string)
    requires !IsDigit(c)
    ensures ParsePriceNumber(a + [c] + b) == ParsePriceNumber(a + b)
  {
    assert [c][1..] == [];
    assert Digits([c]) == [];
    DigitsAppend(a + [c], b);
    DigitsAppend(a, [c]);
    DigitsAppend(a, b);
    assert Digits(a + [c]) == Digits(a);
  }

  /** Rendering n in decimal and appending a unit without digits reads back as n. */
  lemma PriceRoundTrip(n: nat, unit: string)
    requires forall i :: 0 <= i < |unit| ==> !IsDigit(unit[i])
    ensures ParsePriceNumber(DecimalString(n) + unit) == n
  {
    DigitsAppend(DecimalString(n), unit);
    NoDigitsNoDigitString(unit);
    assert Digits(DecimalString(n) + unit) == DecimalString(n);
    DecimalRoundTrip(n);
  }

  /** Appending "000" multiplies a decimal value by a thousand. */
  lemma DecimalTimesThousand(ds: string)
    requires AllDigits(ds)
    ensures AllDigits(ds + "000") && DecimalValue(ds + "000") == DecimalValue(ds) * 1000
  {
    var a, b, c := ds + "0", ds + "00", ds + "000";
    assert c[..|c| - 1] == b && c[|c| - 1] == '0';
    assert b[..|b| - 1] == a && b[|b| - 1] == '0';
    assert a[..|a| - 1] == ds && a[|a| - 1] == '0';
    assert DecimalValue(a) == DecimalValue(ds) * 10;
    assert DecimalValue(b) == DecimalValue(a) * 10;
  }

  /** A price written as a number of thousands, ",000" and a unit, such as "79,000원". */
  lemma ThousandsPrice(k: nat, unit: string)
    requires forall i :: 0 <= i < |unit| ==> !IsDigit(unit[i])
    ensures ParsePriceNumber(DecimalString(k) + ",000" + unit) == k * 1000
  {
    var d := DecimalString(k);
    assert d + ",000" + unit == d + [','] + ("000" + unit);
    PriceIgnoresNonDigit(d, ',', "000" + unit);
    assert d + ("000" + unit) == (d + "000") + unit;
    DecimalTimesThousand(d);
    DigitsAppend(d + "000", unit);
    NoDigitsNoDigitString(unit);
    assert Digits(d + "000" + unit) == d + "000";
    DecimalRoundTrip(k);
  }

  // ---------------------------------------------------------------------------
  // `parseDataGB`
  // ---------------------------------------------------------------------------

  /** A data allowance in GB, where `Infinity` is `Unlimited`. */
  datatype DataAmount = Finite(gb: nat) | Unlimited

  /** `a > b` on numbers extended with `Infinity`. */
  predicate DataGreater(a: DataAmount, b: DataAmount) {
    match (a, b)
    case (Unlimited, Finite(_)) => true
    case (Finite(x), Finite(y)) => x > y
    case _ => false
  }

  /** `>` on GB amounts is a strict total order. */
  lemma DataGreaterIsStrictTotalOrder(a: DataAmount, b: DataAmount, c: DataAmount)
    ensures !DataGreater(a, a)
    ensures DataGreater(a, b) ==> !DataGreater(b, a)
    ensures DataGreater(a, b) && DataGreater(b, c) ==> DataGreater(a, c)
    ensures a == b || DataGreater(a, b) || DataGreater(b, a)
  {
  }

  /** s has digits from position i to the end of r, none before i, and r ends the run. */
  predicate RunAt(s: string, i: nat, r: string) {
    && i + |r| <= |s| && s[i..i + |r|] == r
    && (forall k :: 0 <= k < i ==> !IsDigit(s[k]))
    && (i + |r| == |s| || !IsDigit(s[i + |r|]))
  }

  /** The longest prefix of s made of digits. */
  function DigitPrefix(s: string): (r: string)
    ensures AllDigits(r) && |r| <= |s| && r == s[..|r|]
    ensures |r| == |s| || !IsDigit(s[|r|])
    decreases |s|
  {
    if |s| > 0 && IsDigit(s[0]) then [s[0]] + DigitPrefix(s[1..]) else []
  }

  /** `s.match(/(\d+)/)?.[1]`, with `""` for no match: the first maximal run of digits. */
  function FirstDigitRun(s: string): (r: string)
    ensures AllDigits(r)
    ensures r == [] <==> forall k :: 0 <= k < |s| ==> !IsDigit(s[k])
    decreases |s|
  {
    if |s| == 0 then []
    else if IsDigit(s[0]) then DigitPrefix(s)
    else
      var r := FirstDigitRun(s[1..]);
      assert forall k :: 1 <= k < |s| ==> s[k] == s[1..][k - 1];
      r
  }

  lemma {:induction false} FirstDigitRunAt(s: string)
    requires FirstDigitRun(s) != []
    ensures exists i: nat :: RunAt(s, i, FirstDigitRun(s))
    decreases |s|
  {
    var r := FirstDigitRun(s);
    if IsDigit(s[0]) {
      assert RunAt(s, 0, r);
    } else {
      FirstDigitRunAt(s[1..]);
      var i: nat :| RunAt(s[1..], i, r);
      assert s[1..][i..i + |r|] == s[i + 1..i + 1 + |r|];
      assert forall k :: 1 <= k < i + 1 ==> s[k] == s[1..][k - 1];
      assert RunAt(s, i + 1, r);
    }
  }

  /**
   * `parseDataGB`: exactly the string "무제한" is unlimited; otherwise the first
   * run of digits read in base ten, and 0 when there is none. The unit is not
   * read, so "500MB" counts as 500.
   */
  function ParseDataGB(data: string): (d: DataAmount)
    ensures d == Unlimited <==> data == "무제한"
    ensures data != "무제한" && (forall k :: 0 <= k < |data| ==> !IsDigit(data[k])) ==> d == Finite(0)
    ensures data != "무제한" && (exists k :: 0 <= k < |data| && IsDigit(data[k])) ==>
      exists i: nat, r: string :: r != [] && AllDigits(r) && RunAt(data, i, r) && d == Finite(DecimalValue(r))
  {
    if data == "무제한" then Unlimited
    else
      var run := FirstDigitRun(data);
      if run == [] then Finite(0)
      else
        FirstDigitRunAt(data);
        Finite(DecimalValue(run))
  }
}
