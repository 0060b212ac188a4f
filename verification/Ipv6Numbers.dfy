/** What `parseInt(s, 16)` reads, spelt out. */
module Ipv6Numbers {
  import opened Prelude
  import opened JsText
  import opened Ipv6Text

  lemma {:induction false} HexPrefixStops(g: string, rest: string)
    requires AllHex(g) && (rest == "" || !IsHex(rest[0]))
    ensures HexPrefix(g + rest) == g
  {
    if g != "" {
      assert (g + rest)[1..] == g[1..] + rest;
      HexPrefixStops(g[1..], rest);
      assert g == [g[0]] + g[1..];
    } else {
      assert g + rest == rest;
    }
  }

  datatype Sign = NoSign | Plus | Minus

  /** `0x`, in either spelling. */
  datatype Prefix = NoPrefix | LowerX | UpperX

  /** A text as `parseInt` takes it apart. */
  datatype Number = Number(blanks: string, sign: Sign, prefix: Prefix, digits: string, rest: string)

  function SignText(sign: Sign): string {
    match sign
    case NoSign => ""
    case Plus => "+"
    case Minus => "-"
  }

  function PrefixText(prefix: Prefix): string {
    match prefix
    case NoPrefix => ""
    case LowerX => "0x"
    case UpperX => "0X"
  }

  /**
   * The blanks, the sign and the prefix may be missing, the digits not; the rest is
   * anything that does not go on with a digit, nor makes a prefix of a lone nought.
   */
  predicate IsNumber(n: Number) {
    AllSpace(n.blanks) && AreDigits(n.prefix, n.digits, n.rest)
  }

  predicate AreDigits(prefix: Prefix, digits: string, rest: string) {
    && digits != "" && AllHex(digits) && (rest != "" ==> !IsHex(rest[0]))
    && (prefix.NoPrefix? && digits == "0" && rest != "" ==> rest[0] != 'x' && rest[0] != 'X')
  }

  function Unsigned(prefix: Prefix, digits: string, rest: string): string {
    PrefixText(prefix) + (digits + rest)
  }

  function NumberText(n: Number): string {
    n.blanks + (SignText(n.sign) + Unsigned(n.prefix, n.digits, n.rest))
  }

  function NumberValue(n: Number): int
    requires IsNumber(n)
  {
    if n.sign.Minus? then -(Value(n.digits, 16) as int) else Value(n.digits, 16)
  }

  lemma {:induction false} BlanksAreTrimmed(blanks: string, rest: string)
    requires AllSpace(blanks) && (rest != "" ==> !IsSpace(rest[0]))
    ensures TrimStart(blanks + rest) == rest
  {
    if blanks == "" {
      assert blanks + rest == rest;
    } else {
      assert (blanks + rest)[1..] == blanks[1..] + rest;
      BlanksAreTrimmed(blanks[1..], rest);
    }
  }

  lemma {:induction false} HexPrefixEnds(s: string)
    ensures var d := HexPrefix(s); |d| <= |s| && (s[|d|..] != "" ==> !IsHex(s[|d|]))
  {
    if s != "" && IsHex(s[0]) {
      HexPrefixEnds(s[1..]);
    }
  }

  /** `parseInt` after the sign. */
  function ParseUnsigned(u: string): Option<nat> {
    var v := if |u| >= 2 && u[0] == '0' && (u[1] == 'x' || u[1] == 'X') then u[2..] else u;
    var digits := HexPrefix(v);
    if digits == "" then None else Some(Value(digits, 16))
  }

  lemma {:induction false} PlainDigitsRead(digits: string, rest: string)
    requires AreDigits(NoPrefix, digits, rest)
    ensures ParseUnsigned(digits + rest) == Some(Value(digits, 16))
  {
    var u := digits + rest;
    HexPrefixStops(digits, rest);
    assert u[0] == digits[0];
    if |digits| >= 2 {
      assert IsHex(digits[1]) && u[1] == digits[1];
    } else if rest != "" {
      assert u[1] == rest[0];
      assert digits[0] == '0' ==> digits == "0";
    }
    hide HexPrefix;
    hide Value;
  }

  lemma {:induction false} PrefixedDigitsRead(prefix: Prefix, digits: string, rest: string)
    requires AreDigits(prefix, digits, rest) && !prefix.NoPrefix?
    ensures ParseUnsigned(Unsigned(prefix, digits, rest)) == Some(Value(digits, 16))
  {
    var u := Unsigned(prefix, digits, rest);
    assert u[2..] == digits + rest;
    HexPrefixStops(digits, rest);
    hide HexPrefix;
    hide Value;
  }

  lemma {:induction false} UnsignedReads(prefix: Prefix, digits: string, rest: string)
    requires AreDigits(prefix, digits, rest)
    ensures ParseUnsigned(Unsigned(prefix, digits, rest)) == Some(Value(digits, 16))
    ensures Unsigned(prefix, digits, rest) != "" && IsHex(Unsigned(prefix, digits, rest)[0])
  {
    hide ParseUnsigned;
    hide Value;
    if prefix.NoPrefix? {
      assert Unsigned(prefix, digits, rest) == digits + rest;
      PlainDigitsRead(digits, rest);
    } else {
      PrefixedDigitsRead(prefix, digits, rest);
    }
  }

  lemma {:induction false} SignedReads(t: string)
    ensures ParseHex(t)
         == var s := TrimStart(t);
            var u := ParseUnsigned(if s != "" && (s[0] == '-' || s[0] == '+') then s[1..] else s);
            if u.None? then None else Some(if s != "" && s[0] == '-' then -(u.value as int) else u.value)
  {
    hide TrimStart;
    hide HexPrefix;
    hide Value;
  }

  lemma {:induction false} AfterSign(sign: Sign, u: string)
    requires u != "" && IsHex(u[0])
    ensures var s := SignText(sign) + u;
      && s != "" && !IsSpace(s[0]) && (s[0] == '-' <==> sign.Minus?) && (s[0] == '+' <==> sign.Plus?)
      && (if sign.NoSign? then s else s[1..]) == u
  {
    var s := SignText(sign) + u;
    assert sign.NoSign? ==> s == u;
  }

  /** Every such text is read as its number. */
  lemma {:induction false} NumberReads(n: Number)
    requires IsNumber(n)
    ensures ParseHex(NumberText(n)) == Some(NumberValue(n))
  {
    hide ParseHex;
    hide ParseUnsigned;
    hide TrimStart;
    hide Value;
    hide Unsigned;
    hide SignText;
    hide AllHex;
    var u := Unsigned(n.prefix, n.digits, n.rest);
    UnsignedReads(n.prefix, n.digits, n.rest);
    AfterSign(n.sign, u);
    BlanksAreTrimmed(n.blanks, SignText(n.sign) + u);
    SignedReads(NumberText(n));
  }

  function PrefixOf(u: string): Prefix {
    if |u| >= 2 && u[0] == '0' && u[1] == 'x' then LowerX
    else if |u| >= 2 && u[0] == '0' && u[1] == 'X' then UpperX
    else NoPrefix
  }

  lemma {:induction false} PrefixComesFirst(u: string)
    ensures var p := PrefixText(PrefixOf(u)); |p| <= |u| && u == p + u[|p|..]
  {
    var p := PrefixText(PrefixOf(u));
    if p != "" {
      assert u[..2] == p;
    }
  }

  lemma {:induction false} UnsignedParts(u: string) returns (prefix: Prefix, digits: string, rest: string)
    requires ParseUnsigned(u).Some?
    ensures u == Unsigned(prefix, digits, rest) && AreDigits(prefix, digits, rest)
  {
    hide HexPrefix;
    hide Value;
    prefix := PrefixOf(u);
    PrefixComesFirst(u);
    var v := u[|PrefixText(prefix)|..];
    digits := HexPrefix(v);
    HexPrefixEnds(v);
    rest := v[|digits|..];
    assert v == digits + rest;
    if prefix.NoPrefix? && digits == "0" && rest != "" {
      assert u == v && u[1] == rest[0];
    }
  }

  function SignOf(s: string): Sign {
    if s == "" then NoSign else if s[0] == '-' then Minus else if s[0] == '+' then Plus else NoSign
  }

  lemma {:induction false} SignComesFirst(s: string)
    ensures var sign := SignText(SignOf(s)); |sign| <= |s| && s == sign + s[|sign|..]
  {
    if s != "" {
      assert s == [s[0]] + s[1..];
    }
  }

  /** And nothing else is read. */
  lemma {:induction false} ReadIsANumber(g: string) returns (n: Number)
    requires ParseHex(g).Some?
    ensures IsNumber(n) && NumberText(n) == g
  {
    hide ParseHex;
    hide TrimStart;
    hide ParseUnsigned;
    hide Unsigned;
    hide AreDigits;
    SignedReads(g);
    TrimStartCuts(g);
    var s := TrimStart(g);
    var blanks := g[..|g| - |s|];
    assert g == blanks + s;
    SignComesFirst(s);
    var sign := SignOf(s);
    var u := s[|SignText(sign)|..];
    assert sign.NoSign? ==> u == s;
    var prefix, digits, rest := UnsignedParts(u);
    n := Number(blanks, sign, prefix, digits, rest);
  }

  /** `parseInt(s, 16)` makes a number of exactly the texts that are one. */
  lemma {:induction false} ParseHexIff(s: string, value: int)
    ensures ParseHex(s) == Some(value) <==> exists n :: IsNumber(n) && NumberText(n) == s && NumberValue(n) == value
  {
    hide ParseHex;
    hide IsNumber;
    hide NumberText;
    hide NumberValue;
    if ParseHex(s) == Some(value) {
      var n := ReadIsANumber(s);
      NumberReads(n);
    }
    forall n | IsNumber(n) && NumberText(n) == s && NumberValue(n) == value
      ensures ParseHex(s) == Some(value)
    {
      NumberReads(n);
    }
  }
}
