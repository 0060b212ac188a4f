/**
 * IPv6 addresses from the numbers up: every group and octet is spelt digit by digit
 * from a table, and every text form of section 2.2 of RFC 4291 made of such spellings
 * parses to the numbers it was made of.
 */
module Ipv6Spelling {
  import opened Prelude
  import opened JsText
  import opened Ipv6Text
  import opened Ipv6Forms

  const LOWER: string := "0123456789abcdef"
  const UPPER: string := "0123456789ABCDEF"
  const DECIMAL: string := "0123456789"

  /** One letter for each digit: whether it is an upper-case one. */
  function HexText(n: nat, upper: seq<bool>): string {
    if upper == [] then ""
    else
      var k := |upper| - 1;
      HexText(n / 16, upper[..k]) + [if upper[k] then UPPER[n % 16] else LOWER[n % 16]]
  }

  function DecimalText(n: nat, digits: nat): string {
    if digits == 0 then "" else DecimalText(n / 10, digits - 1) + [DECIMAL[n % 10]]
  }

  /** How many numbers `digits` digits can tell apart. */
  function Power(base: nat, digits: nat): nat {
    if digits == 0 then 1 else base * Power(base, digits - 1)
  }

  lemma {:induction false} TableDigits(d: nat)
    requires d < 16
    ensures IsHex(LOWER[d]) && Digit(LOWER[d]) == d
    ensures IsHex(UPPER[d]) && Digit(UPPER[d]) == d
    ensures d < 10 ==> IsDigit(DECIMAL[d]) && Digit(DECIMAL[d]) == d
  {
    assert d in [0, 1, 2, 3, 4, 5, 6, 7, 8, 9, 10, 11, 12, 13, 14, 15];
  }

  lemma {:induction false} QuotientIsSmaller(n: nat, base: nat, power: nat)
    requires base > 0 && n < base * power
    ensures n / base < power
  {
  }

  /** A number is the value of its digits. */
  lemma {:induction false} HexTextIsWorthIt(n: nat, upper: seq<bool>)
    requires n < Power(16, |upper|)
    ensures |HexText(n, upper)| == |upper| && AllHex(HexText(n, upper)) && Value(HexText(n, upper), 16) == n
  {
    if upper != [] {
      var k := |upper| - 1;
      QuotientIsSmaller(n, 16, Power(16, k));
      HexTextIsWorthIt(n / 16, upper[..k]);
      TableDigits(n % 16);
      var text := HexText(n, upper);
      assert text[..k] == HexText(n / 16, upper[..k]);
      assert n == n / 16 * 16 + n % 16;
    }
  }

  lemma {:induction false} DecimalTextIsWorthIt(n: nat, digits: nat)
    requires n < Power(10, digits)
    ensures |DecimalText(n, digits)| == digits && AllHex(DecimalText(n, digits)) && AllDigits(DecimalText(n, digits))
    ensures Value(DecimalText(n, digits), 10) == n
  {
    if digits > 0 {
      QuotientIsSmaller(n, 10, Power(10, digits - 1));
      DecimalTextIsWorthIt(n / 10, digits - 1);
      TableDigits(n % 10);
      var text := DecimalText(n, digits);
      assert text[..digits - 1] == DecimalText(n / 10, digits - 1);
      assert n == n / 10 * 10 + n % 10;
    }
  }

  lemma {:induction false} DigitIsInTheTables(c: char)
    requires IsHex(c)
    ensures Digit(c) < 16 && c == (if 'A' <= c <= 'F' then UPPER[Digit(c)] else LOWER[Digit(c)])
    ensures IsDigit(c) ==> Digit(c) < 10 && c == DECIMAL[Digit(c)]
  {
    assert Digit(c) in [0, 1, 2, 3, 4, 5, 6, 7, 8, 9, 10, 11, 12, 13, 14, 15];
  }

  lemma {:induction false} SpellHex(s: string) returns (n: nat, upper: seq<bool>)
    requires AllHex(s)
    ensures n < Power(16, |upper|) && HexText(n, upper) == s
  {
    n, upper := 0, [];
    if s != "" {
      var k := |s| - 1;
      var m, before := SpellHex(s[..k]);
      DigitIsInTheTables(s[k]);
      n, upper := 16 * m + Digit(s[k]), before + ['A' <= s[k] <= 'F'];
      assert upper[..|before|] == before && n / 16 == m && n % 16 == Digit(s[k]);
      assert s == s[..k] + [s[k]];
    }
  }

  lemma {:induction false} SpellDecimal(s: string) returns (n: nat)
    requires AllDigits(s)
    ensures n < Power(10, |s|) && DecimalText(n, |s|) == s
  {
    n := 0;
    if s != "" {
      var k := |s| - 1;
      var m := SpellDecimal(s[..k]);
      DigitIsInTheTables(s[k]);
      n := 10 * m + Digit(s[k]);
      assert n / 10 == m && n % 10 == Digit(s[k]);
      assert s == s[..k] + [s[k]];
    }
  }

  /** The digits of a group are those of the tables, and no others. */
  lemma {:induction false} HexTextsAreSpelt(s: string)
    ensures AllHex(s) <==> exists n: nat, upper :: n < Power(16, |upper|) && HexText(n, upper) == s
  {
    hide AllHex;
    hide HexText;
    hide Power;
    if AllHex(s) {
      var n, upper := SpellHex(s);
    }
    forall n: nat, upper | n < Power(16, |upper|) && HexText(n, upper) == s
      ensures AllHex(s)
    {
      HexTextIsWorthIt(n, upper);
    }
  }

  /** What the pattern takes for an octet is a number of one to three decimal digits. */
  lemma {:induction false} OctetTextsAreSpelt(s: string)
    ensures IsOctetText(s) <==>
      exists n: nat, digits: nat :: 1 <= digits <= 3 && n < Power(10, digits) && DecimalText(n, digits) == s
  {
    hide AllHex;
    hide AllDigits;
    hide DecimalText;
    hide Power;
    if IsOctetText(s) {
      var n := SpellDecimal(s);
      assert n < Power(10, |s|) && DecimalText(n, |s|) == s;
    }
    forall n: nat, digits: nat | 1 <= digits <= 3 && n < Power(10, digits) && DecimalText(n, digits) == s
      ensures IsOctetText(s)
    {
      DecimalTextIsWorthIt(n, digits);
    }
  }

  /** A group and how it is spelt: with one to four digits, leading noughts or not, in either case. */
  datatype Group = Group(number: nat, upper: seq<bool>)

  predicate IsGroup(g: Group) {
    1 <= |g.upper| <= 4 && g.number < Power(16, |g.upper|)
  }

  predicate AllGroups(gs: seq<Group>) {
    forall i :: 0 <= i < |gs| ==> IsGroup(gs[i])
  }

  /** An octet and how many digits it is spelt with. */
  datatype Octet = Octet(number: nat, digits: nat)

  predicate AllSpeltOctets(os: seq<Octet>) {
    |os| == 4 && forall i :: 0 <= i < 4 ==>
      1 <= os[i].digits <= 3 && os[i].number <= 255 && os[i].number < Power(10, os[i].digits)
  }

  function Texts(gs: seq<Group>): seq<string> {
    seq(|gs|, i requires 0 <= i < |gs| => HexText(gs[i].number, gs[i].upper))
  }

  function OctetTexts(os: seq<Octet>): seq<string> {
    seq(|os|, i requires 0 <= i < |os| => DecimalText(os[i].number, os[i].digits))
  }

  function Numbers(gs: seq<Group>): seq<int> {
    seq(|gs|, i requires 0 <= i < |gs| => gs[i].number)
  }

  lemma {:induction false} TextsAreSpellings(gs: seq<Group>)
    requires AllGroups(gs)
    ensures AllSpellings(Texts(gs)) && Values(Texts(gs)) == Numbers(gs)
  {
    hide HexText;
    forall i | 0 <= i < |gs|
      ensures IsSpelling(Texts(gs)[i]) && Value(Texts(gs)[i], 16) == gs[i].number
    {
      assert IsGroup(gs[i]);
      HexTextIsWorthIt(gs[i].number, gs[i].upper);
    }
    hide Value;
  }

  lemma {:induction false} OctetTextsAreOctets(os: seq<Octet>)
    requires AllSpeltOctets(os)
    ensures AllOctets(OctetTexts(os))
    ensures Octets(OctetTexts(os)) == [os[0].number, os[1].number, os[2].number, os[3].number]
  {
    hide DecimalText;
    hide Power;
    forall i | 0 <= i < 4
      ensures IsOctet(OctetTexts(os)[i]) && Value(OctetTexts(os)[i], 10) == os[i].number
    {
      DecimalTextIsWorthIt(os[i].number, os[i].digits);
    }
    hide Value;
  }

  lemma {:induction false} TextsLength(gs: seq<Group>)
    ensures |Texts(gs)| == |gs|
  {
  }

  lemma {:induction false} NoughtsAreNoughts(n: nat)
    ensures NoughtGroups(n) == seq(n, _ => 0)
  {
  }

  /** Eight groups. */
  lemma {:induction false} FullAddressReads(gs: seq<Group>)
    requires |gs| == 8 && AllGroups(gs)
    ensures ParseIPv6(Join(Texts(gs), ":")) == Some(Numbers(gs))
  {
    hide ParseIPv6;
    hide Join;
    hide Texts;
    hide OctetTexts;
    hide Numbers;
    hide Values;
    hide NoughtGroups;
    hide Octets;
    hide AllSpellings;
    hide AllOctets;
    hide AllGroups;
    hide Power;
    TextsAreSpellings(gs);
    TextsLength(gs);
    RoundTrip(Full(Texts(gs)));
  }

  /** Groups on both sides of `::`, which stands for as many noughts as are missing. */
  lemma {:induction false} CompressedAddressReads(left: seq<Group>, right: seq<Group>)
    requires |left| + |right| <= 7 && AllGroups(left) && AllGroups(right)
    ensures ParseIPv6(Join(Texts(left), ":") + "::" + Join(Texts(right), ":"))
         == Some(Numbers(left) + seq(8 - |left| - |right|, _ => 0) + Numbers(right))
  {
    hide ParseIPv6;
    hide Join;
    hide Texts;
    hide OctetTexts;
    hide Numbers;
    hide Values;
    hide NoughtGroups;
    hide Octets;
    hide AllSpellings;
    hide AllOctets;
    hide AllGroups;
    hide Power;
    TextsAreSpellings(left);
    TextsAreSpellings(right);
    TextsLength(left);
    TextsLength(right);
    RoundTrip(Compressed(Texts(left), Texts(right)));
    NoughtsAreNoughts(8 - |left| - |right|);
  }

  /** Six groups and a dotted quad. */
  lemma {:induction false} QuadAddressReads(gs: seq<Group>, os: seq<Octet>)
    requires |gs| == 6 && AllGroups(gs) && AllSpeltOctets(os)
    ensures ParseIPv6(Join(Texts(gs), ":") + ":" + Join(OctetTexts(os), "."))
         == Some(Numbers(gs) + [256 * os[0].number + os[1].number, 256 * os[2].number + os[3].number])
  {
    hide ParseIPv6;
    hide Join;
    hide Texts;
    hide OctetTexts;
    hide Numbers;
    hide Values;
    hide NoughtGroups;
    hide Octets;
    hide AllSpellings;
    hide AllOctets;
    hide AllGroups;
    hide Power;
    TextsAreSpellings(gs);
    TextsLength(gs);
    OctetTextsAreOctets(os);
    RoundTrip(FullQuad(Texts(gs), OctetTexts(os)));
  }

  /** Groups around a `::` and a dotted quad. */
  lemma {:induction false} CompressedQuadAddressReads(left: seq<Group>, right: seq<Group>, os: seq<Octet>)
    requires |left| + |right| <= 5 && AllGroups(left) && AllGroups(right) && AllSpeltOctets(os)
    ensures ParseIPv6(
        Join(Texts(left), ":") + "::" + (if right == [] then "" else Join(Texts(right), ":") + ":")
        + Join(OctetTexts(os), "."))
      == Some(Numbers(left) + seq(6 - |left| - |right|, _ => 0) + Numbers(right)
              + [256 * os[0].number + os[1].number, 256 * os[2].number + os[3].number])
  {
    hide ParseIPv6;
    hide Join;
    hide Texts;
    hide OctetTexts;
    hide Numbers;
    hide Values;
    hide NoughtGroups;
    hide Octets;
    hide AllSpellings;
    hide AllOctets;
    hide AllGroups;
    hide Power;
    TextsAreSpellings(left);
    TextsAreSpellings(right);
    TextsLength(left);
    TextsLength(right);
    OctetTextsAreOctets(os);
    RoundTrip(CompressedQuad(Texts(left), Texts(right), OctetTexts(os)));
    NoughtsAreNoughts(6 - |left| - |right|);
  }
}
