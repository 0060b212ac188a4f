/** The IPv6 text parser. */
module Ipv6Text {
  import opened Prelude
  import opened JsText

  // ----- numbers ------------------------------------------------------------------------

  predicate IsDigit(c: char) {
    '0' <= c <= '9'
  }

  predicate IsHex(c: char) {
    IsDigit(c) || 'a' <= c <= 'f' || 'A' <= c <= 'F'
  }

  function Digit(c: char): nat
    requires IsHex(c)
  {
    if IsDigit(c) then c as nat - '0' as nat
    else if 'a' <= c <= 'f' then c as nat - 'a' as nat + 10
    else c as nat - 'A' as nat + 10
  }

  predicate AllHex(s: string) {
    forall i :: 0 <= i < |s| ==> IsHex(s[i])
  }

  predicate AllDigits(s: string) {
    forall i :: 0 <= i < |s| ==> IsDigit(s[i])
  }

  /** The number the digits stand for. */
  function Value(s: string, base: nat): nat
    requires AllHex(s)
  {
    if s == "" then 0 else Value(s[..|s| - 1], base) * base + Digit(s[|s| - 1])
  }

  /** The longest beginning made of hexadecimal digits. */
  function HexPrefix(s: string): (r: string)
    ensures AllHex(r) && r <= s
  {
    if s != "" && IsHex(s[0]) then
      var r := [s[0]] + HexPrefix(s[1..]);
      assert s == [s[0]] + s[1..];
      r
    else ""
  }

  /** `parseInt(s, 16)`: blanks, a sign and `0x` may come first; the rest of the text is ignored. */
  function ParseHex(s: string): Option<int> {
    var t := TrimStart(s);
    var negative := t != "" && t[0] == '-';
    var u := if t != "" && (t[0] == '-' || t[0] == '+') then t[1..] else t;
    var v := if |u| >= 2 && u[0] == '0' && (u[1] == 'x' || u[1] == 'X') then u[2..] else u;
    var digits := HexPrefix(v);
    var n: int := Value(digits, 16);
    if digits == "" then None else Some(if negative then -n else n)
  }

  const MAX_GROUP := 0xffff

  function ParseHeadGroup(part: string): (r: Option<int>)
    ensures r.Some? ==> 0 <= r.value <= MAX_GROUP
  {
    var parsed := ParseHex(part);
    if parsed.Some? && 0 <= parsed.value <= MAX_GROUP then parsed else None
  }

  function ParseGroup(part: string): (r: Option<int>)
    ensures r.Some? ==> 0 <= r.value <= MAX_GROUP
  {
    if part == "" then Some(0) else ParseHeadGroup(part)
  }

  // ----- the parser ------------------------------------------------------------------------

  /** All the groups, or nothing if one of them is not a number. */
  function ParseAll(parts: seq<string>, head: bool): (r: Option<seq<int>>)
    ensures r.Some? ==> |r.value| == |parts| && forall i :: 0 <= i < |parts| ==> 0 <= r.value[i] <= MAX_GROUP
  {
    if parts == [] then Some([])
    else
      var first := if head then ParseHeadGroup(parts[0]) else ParseGroup(parts[0]);
      var rest := ParseAll(parts[1..], head);
      if first.Some? && rest.Some? then Some([first.value] + rest.value) else None
  }

  function Zeros(n: nat): (r: seq<string>)
    ensures |r| == n
  {
    if n == 0 then [] else ["0"] + Zeros(n - 1)
  }

  function PartsOf(s: string): seq<string> {
    if s == "" then [] else Split(s, ":")
  }

  /** Groups on both sides of `::`, filled up to `total`; `::` stands for at least one. */
  function Filled(left: seq<string>, right: seq<string>, total: nat): Option<seq<string>> {
    if total - |left| - |right| < 1 then None else Some(left + Zeros(total - |left| - |right|) + right)
  }

  /** Six groups from what is left of the head: with a `::` in it, or filled up with zeros. */
  function ParseSixGroups(head: string): (r: Option<seq<int>>)
    ensures r.Some? ==> |r.value| == 6 && forall i :: 0 <= i < 6 ==> 0 <= r.value[i] <= MAX_GROUP
  {
    var parts := Split(head, "::");
    if |parts| > 2 then None
    else if |parts| == 2 then
      var filled := Filled(PartsOf(parts[0]), PartsOf(parts[1]), 6);
      if filled.None? then None else ParseAll(filled.value, true)
    else
      var left := PartsOf(head);
      if |left| > 6 then None else ParseAll(left + Zeros(6 - |left|), true)
  }

  predicate EndsInColon(s: string) {
    s != "" && s[|s| - 1] == ':'
  }

  /** The first six groups of an address that ends in a dotted quad; one colon at its end is taken off. */
  function ParseIPv6Head(head: string): (r: Option<seq<int>>)
    ensures r.Some? ==> |r.value| == 6 && forall i :: 0 <= i < 6 ==> 0 <= r.value[i] <= MAX_GROUP
  {
    ParseSixGroups(if EndsInColon(head) then head[..|head| - 1] else head)
  }

  predicate IsOctetText(s: string) {
    1 <= |s| <= 3 && AllDigits(s)
  }

  /** The tail the pattern looks for: four runs of one to three digits. */
  predicate IsQuad(s: string) {
    |Split(s, ".")| == 4 && forall i :: 0 <= i < 4 ==> IsOctetText(Split(s, ".")[i])
  }

  /** Four octets, each at most 255. */
  function ParseQuad(s: string): (r: Option<seq<int>>)
    requires IsQuad(s)
    ensures r.Some? ==> |r.value| == 4 && forall i :: 0 <= i < 4 ==> 0 <= r.value[i] <= 255
  {
    var parts := Split(s, ".");
    var octets := [Value(parts[0], 10), Value(parts[1], 10), Value(parts[2], 10), Value(parts[3], 10)];
    if forall i :: 0 <= i < 4 ==> octets[i] <= 255 then Some(octets) else None
  }

  /** The quad as two groups. */
  function QuadGroups(o: seq<int>): seq<int>
    requires |o| == 4
  {
    [o[0] * 256 + o[1], o[2] * 256 + o[3]]
  }

  /** The position of the last colon. */
  function LastColon(s: string): (r: Option<nat>)
    ensures r.Some? ==> r.value < |s|
  {
    if s == "" then None else if s[|s| - 1] == ':' then Some(|s| - 1) else LastColon(s[..|s| - 1])
  }

  predicate OneLine(s: string) {
    forall i :: 0 <= i < |s| ==> s[i] != '\n' && s[i] != '\r' && s[i] != '\U{2028}' && s[i] != '\U{2029}'
  }

  /** Where the text splits into a head and a dotted quad, if it does. */
  function QuadAt(s: string): (r: Option<nat>)
    ensures r.Some? ==> r.value < |s| && IsQuad(s[r.value + 1..])
  {
    var colon := LastColon(s);
    if colon.Some? && colon.value > 0 && OneLine(s[..colon.value]) && IsQuad(s[colon.value + 1..])
    then colon else None
  }

  predicate IsAddress(groups: seq<int>) {
    |groups| == 8 && forall i :: 0 <= i < 8 ==> 0 <= groups[i] <= MAX_GROUP
  }

  function ParseQuadded(head: string, tail: string): (r: Option<seq<int>>)
    requires IsQuad(tail)
    ensures r.Some? ==> IsAddress(r.value)
  {
    var octets, groups := ParseQuad(tail), ParseIPv6Head(head);
    if octets.None? || groups.None? then None else Some(groups.value + QuadGroups(octets.value))
  }

  function ParsePlain(s: string): (r: Option<seq<int>>)
    ensures r.Some? ==> IsAddress(r.value)
  {
    var parts := Split(s, "::");
    if |parts| > 2 then None
    else
      var all := if |parts| == 2 then Filled(PartsOf(parts[0]), PartsOf(parts[1]), 8) else Some(Split(s, ":"));
      if all.None? || |all.value| != 8 then None else ParseAll(all.value, false)
  }

  /** Whatever is read is eight groups of sixteen bits. */
  function ParseIPv6(s: string): (r: Option<seq<int>>)
    ensures r.Some? ==> IsAddress(r.value)
  {
    var quad := QuadAt(s);
    if quad.Some? then ParseQuadded(s[..quad.value], s[quad.value + 1..]) else ParsePlain(s)
  }
}
