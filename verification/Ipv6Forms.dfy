/**
 * What the IPv6 parser reads. The text forms of section 2.2 of RFC 4291 (eight
 * groups, groups compressed by `::`, either with a dotted quad in place of the
 * last two groups) are all read, and as the address they stand for. The parser is
 * looser than that; the loose forms here are exactly the texts it accepts.
 */
module Ipv6Forms {
  import opened Prelude
  import opened JsText
  import opened Ipv6Text
  import opened Ipv6Numbers

  function Colons(parts: seq<string>): string {
    Join(parts, ":")
  }

  function Dots(octets: seq<string>): string {
    Join(octets, ".")
  }

  // ----- the text forms ---------------------------------------------------------------------

  /** A group as written: one to four hexadecimal digits. */
  predicate IsSpelling(g: string) {
    1 <= |g| <= 4 && AllHex(g)
  }

  predicate AllSpellings(parts: seq<string>) {
    forall i :: 0 <= i < |parts| ==> IsSpelling(parts[i])
  }

  predicate IsOctet(o: string) {
    IsOctetText(o) && Value(o, 10) <= 255
  }

  predicate AllOctets(octets: seq<string>) {
    |octets| == 4 && forall i :: 0 <= i < 4 ==> IsOctet(octets[i])
  }

  datatype Form =
    | Full(groups: seq<string>)
    | Compressed(left: seq<string>, right: seq<string>)
    | FullQuad(groups: seq<string>, octets: seq<string>)
    | CompressedQuad(left: seq<string>, right: seq<string>, octets: seq<string>)

  predicate IsForm(f: Form) {
    match f
    case Full(groups) => |groups| == 8 && AllSpellings(groups)
    case Compressed(left, right) => |left| + |right| <= 7 && AllSpellings(left) && AllSpellings(right)
    case FullQuad(groups, octets) => |groups| == 6 && AllSpellings(groups) && AllOctets(octets)
    case CompressedQuad(left, right, octets) =>
      |left| + |right| <= 5 && AllSpellings(left) && AllSpellings(right) && AllOctets(octets)
  }

  function Text(f: Form): string {
    match f
    case Full(groups) => Colons(groups)
    case Compressed(left, right) => Colons(left) + "::" + Colons(right)
    case FullQuad(groups, octets) => Colons(groups) + ":" + Dots(octets)
    case CompressedQuad(left, right, octets) =>
      Colons(left) + "::" + (if right == [] then "" else Colons(right) + ":") + Dots(octets)
  }

  function Values(parts: seq<string>): seq<int>
    requires AllSpellings(parts)
  {
    seq(|parts|, i requires 0 <= i < |parts| => Value(parts[i], 16))
  }

  function NoughtGroups(n: nat): seq<int> {
    seq(n, _ => 0)
  }

  function Octets(octets: seq<string>): seq<int>
    requires AllOctets(octets)
  {
    [Value(octets[0], 10), Value(octets[1], 10), Value(octets[2], 10), Value(octets[3], 10)]
  }

  /** The address a form stands for. */
  function Groups(f: Form): seq<int>
    requires IsForm(f)
  {
    match f
    case Full(groups) => Values(groups)
    case Compressed(left, right) => Values(left) + NoughtGroups(8 - |left| - |right|) + Values(right)
    case FullQuad(groups, octets) => Values(groups) + QuadGroups(Octets(octets))
    case CompressedQuad(left, right, octets) =>
      Values(left) + NoughtGroups(6 - |left| - |right|) + Values(right) + QuadGroups(Octets(octets))
  }

  // ----- the loose forms ----------------------------------------------------------------------

  /** A group the parser makes a number of; in front of a dotted quad it may not be empty. */
  predicate Reads(g: string) {
    ParseHeadGroup(g).Some?
  }

  predicate ReadsOrEmpty(g: string) {
    ParseGroup(g).Some?
  }

  predicate AllRead(gs: seq<string>) {
    forall i :: 0 <= i < |gs| ==> Reads(gs[i])
  }

  predicate AllReadOrEmpty(gs: seq<string>) {
    forall i :: 0 <= i < |gs| ==> ReadsOrEmpty(gs[i])
  }

  predicate ColonFree(gs: seq<string>) {
    forall i :: 0 <= i < |gs| ==> Avoids(gs[i], ':')
  }

  /** Empty groups only at the ends: between two others they would make a `::`. */
  predicate InnerFull(gs: seq<string>) {
    forall i :: 0 < i < |gs| - 1 ==> gs[i] != ""
  }

  /** Groups that can stand between colons; no groups and one empty group look the same. */
  predicate GroupList(gs: seq<string>) {
    ColonFree(gs) && InnerFull(gs) && gs != [""]
  }

  /** What may stand before a dotted quad: a run of groups, or groups around one `::`. */
  datatype Head = Run(groups: seq<string>) | Gap(left: seq<string>, right: seq<string>)

  predicate IsHead(h: Head) {
    match h
    case Run(gs) => |gs| <= 6 && ColonFree(gs) && AllRead(gs)
    case Gap(left, right) =>
      |left| + |right| <= 5 && ColonFree(left) && ColonFree(right) && AllRead(left) && AllRead(right)
  }

  function HeadText(h: Head): string {
    match h
    case Run(gs) => Colons(gs)
    case Gap(left, right) => Colons(left) + "::" + Colons(right)
  }

  /** A dotted quad follows its head after one colon, or after two. */
  datatype Loose =
    | LooseFull(groups: seq<string>)
    | LooseCompressed(left: seq<string>, right: seq<string>)
    | LooseQuad(head: Head, twoColons: bool, octets: seq<string>)

  function LooseText(f: Loose): string {
    match f
    case LooseFull(gs) => Colons(gs)
    case LooseCompressed(left, right) => Colons(left) + "::" + Colons(right)
    case LooseQuad(h, two, octets) => (if two then HeadText(h) + ":" else HeadText(h)) + ":" + Dots(octets)
  }

  predicate IsLoose(f: Loose) {
    match f
    case LooseFull(gs) => |gs| == 8 && GroupList(gs) && AllReadOrEmpty(gs) && QuadAt(LooseText(f)).None?
    case LooseCompressed(left, right) =>
      && |left| + |right| <= 7 && GroupList(left) && GroupList(right) && AllReadOrEmpty(left) && AllReadOrEmpty(right)
      && (left != [] ==> left[|left| - 1] != "") && QuadAt(LooseText(f)).None?
    case LooseQuad(h, two, octets) =>
      && IsHead(h) && AllOctets(octets) && OneLine(HeadText(h))
      && (two || (HeadText(h) != "" && !EndsInColon(HeadText(h))))
  }

  /** The group's number; an empty group is nought. */
  function GroupValue(g: string): int {
    if ParseGroup(g).Some? then ParseGroup(g).value else 0
  }

  function GroupValues(gs: seq<string>): seq<int> {
    seq(|gs|, i requires 0 <= i < |gs| => GroupValue(gs[i]))
  }

  function HeadGroups(h: Head): seq<int>
    requires IsHead(h)
  {
    match h
    case Run(gs) => GroupValues(gs) + NoughtGroups(6 - |gs|)
    case Gap(left, right) => GroupValues(left) + NoughtGroups(6 - |left| - |right|) + GroupValues(right)
  }

  function LooseGroups(f: Loose): seq<int>
    requires IsLoose(f)
  {
    match f
    case LooseFull(gs) => GroupValues(gs)
    case LooseCompressed(left, right) => GroupValues(left) + NoughtGroups(8 - |left| - |right|) + GroupValues(right)
    case LooseQuad(h, _, octets) => HeadGroups(h) + QuadGroups(Octets(octets))
  }

  // ----- reading groups -------------------------------------------------------------------------

  lemma {:induction false} NothingIsNoGroup()
    ensures !Reads("")
  {
  }

  lemma {:induction false} ReadGroupsAreFull(gs: seq<string>)
    requires AllRead(gs) && ColonFree(gs)
    ensures forall i :: 0 <= i < |gs| ==> gs[i] != ""
    ensures GroupList(gs) && AllReadOrEmpty(gs)
  {
    NothingIsNoGroup();
    hide ParseHeadGroup;
    forall i | 0 <= i < |gs|
      ensures gs[i] != "" && ReadsOrEmpty(gs[i])
    {
      assert Reads(gs[i]);
    }
    assert gs == [] || gs[0] != "";
  }

  predicate PartReads(g: string, head: bool) {
    if head then Reads(g) else ReadsOrEmpty(g)
  }

  predicate AllParts(gs: seq<string>, head: bool) {
    forall i :: 0 <= i < |gs| ==> PartReads(gs[i], head)
  }

  lemma {:induction false} PartsAreGroups(gs: seq<string>)
    ensures AllParts(gs, true) <==> AllRead(gs)
    ensures AllParts(gs, false) <==> AllReadOrEmpty(gs)
  {
    hide ParseHeadGroup;
    hide ParseGroup;
    assert forall i :: 0 <= i < |gs| ==> (PartReads(gs[i], true) <==> Reads(gs[i]));
    assert forall i :: 0 <= i < |gs| ==> (PartReads(gs[i], false) <==> ReadsOrEmpty(gs[i]));
  }

  lemma {:induction false} ReadIsItsValue(g: string, head: bool)
    requires PartReads(g, head)
    ensures (if head then ParseHeadGroup(g) else ParseGroup(g)) == Some(GroupValue(g))
  {
    NothingIsNoGroup();
    hide ParseHeadGroup;
  }

  lemma {:induction false} ParseAllIff(parts: seq<string>, head: bool)
    ensures ParseAll(parts, head).Some? <==> AllParts(parts, head)
    ensures ParseAll(parts, head).Some? ==> ParseAll(parts, head).value == GroupValues(parts)
  {
    if parts == [] {
      assert GroupValues(parts) == [];
    } else {
      ParseAllIff(parts[1..], head);
      hide ParseHeadGroup;
      hide ParseGroup;
      hide GroupValue;
      assert forall i :: 1 <= i < |parts| ==> parts[i] == parts[1..][i - 1];
      assert forall i :: 0 <= i < |parts| - 1 ==> parts[1..][i] == parts[i + 1];
      if PartReads(parts[0], head) {
        ReadIsItsValue(parts[0], head);
      }
      assert GroupValues(parts) == [GroupValue(parts[0])] + GroupValues(parts[1..]);
    }
  }

  lemma {:induction false} ZeroReads()
    ensures Reads("0") && GroupValue("0") == 0
  {
    assert HexPrefix("0") == "0";
    assert Value("0", 16) == 0;
  }

  lemma {:induction false} ZerosAreZeros(n: nat)
    ensures forall i :: 0 <= i < n ==> Zeros(n)[i] == "0"
  {
    if n > 0 {
      ZerosAreZeros(n - 1);
    }
  }

  /** Filling up with zeros reads if the groups do, and reads as the groups around noughts. */
  lemma {:induction false} FilledReads(left: seq<string>, n: nat, right: seq<string>, head: bool)
    ensures var all := left + Zeros(n) + right;
      && (ParseAll(all, head).Some? <==> AllParts(left, head) && AllParts(right, head))
      && (ParseAll(all, head).Some? ==>
            ParseAll(all, head).value == GroupValues(left) + NoughtGroups(n) + GroupValues(right))
  {
    var all := left + Zeros(n) + right;
    ParseAllIff(all, head);
    ZerosAreZeros(n);
    ZeroReads();
    hide ParseHeadGroup;
    hide ParseGroup;
    hide GroupValue;
    hide ParseAll;
    hide Zeros;
    FilledParts(left, Zeros(n), right, head);
    FilledValues(left, Zeros(n), right);
  }

  lemma {:induction false} FilledParts(left: seq<string>, zeros: seq<string>, right: seq<string>, head: bool)
    requires forall i :: 0 <= i < |zeros| ==> zeros[i] == "0"
    requires Reads("0")
    ensures var all := left + zeros + right;
      AllParts(all, head) <==> AllParts(left, head) && AllParts(right, head)
  {
    hide ParseHeadGroup;
    assert PartReads("0", head);
    hide PartReads;
    var all := left + zeros + right;
    assert forall i :: 0 <= i < |left| ==> left[i] == all[i];
    assert forall i :: 0 <= i < |right| ==> right[i] == all[|left| + |zeros| + i];
    forall i | 0 <= i < |all|
      ensures all[i] == (if i < |left| then left[i] else if i < |left| + |zeros| then "0" else right[i - |left| - |zeros|])
    {
    }
  }

  lemma {:induction false} FilledValues(left: seq<string>, zeros: seq<string>, right: seq<string>)
    requires forall i :: 0 <= i < |zeros| ==> zeros[i] == "0"
    requires GroupValue("0") == 0
    ensures GroupValues(left + zeros + right) == GroupValues(left) + NoughtGroups(|zeros|) + GroupValues(right)
  {
    hide GroupValue;
  }

  // ----- reading colons ---------------------------------------------------------------------------

  /** No two colons meet. */
  predicate NoDouble(s: string) {
    forall i :: 0 <= i < |s| - 1 ==> !(s[i] == ':' && s[i + 1] == ':')
  }

  lemma {:induction false} TwoColonsAt(s: string, k: nat)
    requires k <= |s|
    ensures "::" <= s[k..] <==> k + 1 < |s| && s[k] == ':' && s[k + 1] == ':'
  {
  }

  lemma {:induction false} WholeIfNoDouble(s: string)
    requires NoDouble(s)
    ensures Split(s, "::") == [s]
  {
    forall k | 0 <= k <= |s|
      ensures !("::" <= s[k..])
    {
      TwoColonsAt(s, k);
    }
    NoOccurrence(s, "::");
  }

  lemma {:induction false} NoDoubleBefore(s: string, n: nat)
    requires n <= |s| && forall k :: 0 <= k < n ==> !("::" <= s[k..])
    ensures forall k :: 0 <= k < n && k + 1 < |s| ==> !(s[k] == ':' && s[k + 1] == ':')
  {
    forall k | 0 <= k < n && k + 1 < |s|
      ensures !(s[k] == ':' && s[k + 1] == ':')
    {
      TwoColonsAt(s, k);
    }
  }

  /** Splitting at `::` finds the first one. */
  lemma {:induction false} SplitTwo(left: string, right: string)
    requires NoDouble(left) && !EndsInColon(left) && NoDouble(right)
    ensures Split(left + "::" + right, "::") == [left, right]
  {
    var s := left + "::" + right;
    TwoColonsAt(s, |left|);
    forall k | 0 <= k < |left|
      ensures !("::" <= s[k..])
    {
      TwoColonsAt(s, k);
      assert s[k] == left[k];
      if k + 1 < |left| {
        assert s[k + 1] == left[k + 1];
      }
    }
    FirstOccurrence(s, "::", |left|);
    assert s[..|left|] == left && s[|left| + 2..] == right;
    WholeIfNoDouble(right);
  }

  lemma {:induction false} OnePartHasNoDouble(s: string)
    requires |Split(s, "::")| == 1
    ensures NoDouble(s)
  {
    IndexOfFinds(s, "::");
    NoDoubleBefore(s, |s|);
  }

  lemma {:induction false} TwoPartsBack(s: string)
    requires |Split(s, "::")| == 2
    ensures var parts := Split(s, "::");
      && s == parts[0] + "::" + parts[1]
      && NoDouble(parts[0]) && !EndsInColon(parts[0]) && NoDouble(parts[1])
  {
    IndexOfFinds(s, "::");
    var i := IndexOf(s, "::").value;
    var left, right := s[..i], s[i + 2..];
    TwoColonsAt(s, i);
    assert s == left + "::" + right;
    NoDoubleBefore(s, i);
    OnePartHasNoDouble(right);
  }

  /** A text without `::` is the text of its own groups, and of no others. */
  lemma {:induction false} TextIsItsGroups(t: string)
    requires NoDouble(t)
    ensures GroupList(PartsOf(t)) && Colons(PartsOf(t)) == t
  {
    if t != "" {
      JoinUndoesSplit(t, ':');
      var gs := Split(t, ":");
      forall i | 0 < i < |gs| - 1
        ensures gs[i] != ""
      {
        if gs[i] == "" {
          InnerEmptyDoubles(gs, i);
          assert false;
        }
      }
    }
  }

  lemma {:induction false} InnerEmptyDoubles(gs: seq<string>, i: nat)
    requires 0 < i < |gs| - 1 && gs[i] == ""
    ensures !NoDouble(Colons(gs))
    decreases i
  {
    var rest := Colons(gs[1..]);
    var s := gs[0] + ":" + rest;
    assert Colons(gs) == s;
    if i == 1 {
      assert gs[1..][0] == "" && rest == "" + ":" + Colons(gs[1..][1..]);
      assert s[|gs[0]|] == ':' && s[|gs[0]| + 1] == ':';
    } else {
      InnerEmptyDoubles(gs[1..], i - 1);
      var k :| 0 <= k < |rest| - 1 && rest[k] == ':' && rest[k + 1] == ':';
      assert s[|gs[0]| + 1 + k] == rest[k] && s[|gs[0]| + 2 + k] == rest[k + 1];
    }
  }

  /** The text of a list of groups: no `::`, and a colon at an end only for an empty group there. */
  lemma {:induction false} ListText(gs: seq<string>)
    requires ColonFree(gs) && InnerFull(gs) && gs != []
    ensures var t := Colons(gs);
      && NoDouble(t) && (t == "" <==> gs == [""])
      && (EndsInColon(t) <==> |gs| >= 2 && gs[|gs| - 1] == "")
      && (t != "" && t[0] == ':' <==> |gs| >= 2 && gs[0] == "")
  {
    assert Avoids(gs[0], ':');
    if |gs| >= 2 {
      var rest := gs[1..];
      assert forall i :: 0 < i < |rest| - 1 ==> rest[i] == gs[i + 1];
      ListText(rest);
      GluedText(gs[0], Colons(rest));
      assert Colons(gs) == gs[0] + ":" + Colons(rest);
      assert rest[0] == gs[1] && rest[|rest| - 1] == gs[|gs| - 1];
    }
  }

  lemma {:induction false} GluedText(g: string, rest: string)
    requires Avoids(g, ':') && NoDouble(rest) && (rest != "" ==> rest[0] != ':')
    ensures var t := g + ":" + rest;
      && NoDouble(t) && (EndsInColon(t) <==> rest == "" || EndsInColon(rest)) && (t[0] == ':' <==> g == "")
  {
    var t := g + ":" + rest;
    forall i | 0 <= i < |t|
      ensures t[i] == if i < |g| then g[i] else if i == |g| then ':' else rest[i - |g| - 1]
    {
    }
  }

  lemma {:induction false} GroupsComeBack(gs: seq<string>)
    requires GroupList(gs)
    ensures PartsOf(Colons(gs)) == gs && NoDouble(Colons(gs))
    ensures gs != [] ==> Split(Colons(gs), ":") == gs && Colons(gs) != ""
    ensures EndsInColon(Colons(gs)) <==> gs != [] && gs[|gs| - 1] == ""
  {
    if gs != [] {
      ListText(gs);
      SplitUndoesJoin(gs, ':');
    }
  }

  // ----- reading the tail --------------------------------------------------------------------------

  lemma {:induction false} LastColonIs(head: string, tail: string)
    requires Avoids(tail, ':')
    ensures LastColon(head + ":" + tail) == Some(|head|)
  {
    var s := head + ":" + tail;
    if tail != "" {
      var shorter := tail[..|tail| - 1];
      assert s[..|s| - 1] == head + ":" + shorter;
      assert s[|s| - 1] == tail[|tail| - 1];
      LastColonIs(head, shorter);
    }
  }

  lemma {:induction false} LastColonSplits(s: string)
    requires LastColon(s).Some?
    ensures var i := LastColon(s).value; s[i] == ':' && s == s[..i] + ":" + s[i + 1..]
  {
    if s[|s| - 1] != ':' {
      LastColonSplits(s[..|s| - 1]);
    }
  }

  lemma {:induction false} JoinedAvoids(parts: seq<string>, separator: string, c: char)
    requires Avoids(separator, c) && forall i :: 0 <= i < |parts| ==> Avoids(parts[i], c)
    ensures Avoids(Join(parts, separator), c)
  {
    if |parts| >= 2 {
      JoinedAvoids(parts[1..], separator, c);
    }
  }

  lemma {:induction false} DigitsAvoid(o: string, c: char)
    requires AllDigits(o) && !IsDigit(c)
    ensures Avoids(o, c)
  {
  }

  lemma {:induction false} QuadReads(octets: seq<string>)
    requires AllOctets(octets)
    ensures Avoids(Dots(octets), ':') && IsQuad(Dots(octets))
    ensures ParseQuad(Dots(octets)) == Some(Octets(octets))
  {
    forall i | 0 <= i < 4
      ensures Avoids(octets[i], '.') && Avoids(octets[i], ':')
    {
      assert IsOctet(octets[i]);
      DigitsAvoid(octets[i], '.');
      DigitsAvoid(octets[i], ':');
    }
    SplitUndoesJoin(octets, '.');
    JoinedAvoids(octets, ".", ':');
    assert forall i :: 0 <= i < 4 ==> IsOctet(octets[i]);
  }

  /** A quad that is read is four octets, dotted. */
  lemma {:induction false} QuadBack(tail: string)
    requires IsQuad(tail) && ParseQuad(tail).Some?
    ensures AllOctets(Split(tail, ".")) && Dots(Split(tail, ".")) == tail
  {
    JoinUndoesSplit(tail, '.');
    var parts := Split(tail, ".");
    var octets := [Value(parts[0], 10), Value(parts[1], 10), Value(parts[2], 10), Value(parts[3], 10)];
    assert ParseQuad(tail) == Some(octets);
    assert octets[0] <= 255 && octets[1] <= 255 && octets[2] <= 255 && octets[3] <= 255;
  }

  lemma {:induction false} QuadIsFound(head: string, octets: seq<string>)
    requires head != "" && OneLine(head) && AllOctets(octets)
    ensures QuadAt(head + ":" + Dots(octets)) == Some(|head|)
    ensures ParseIPv6(head + ":" + Dots(octets)) == ParseQuadded(head, Dots(octets))
  {
    var tail := Dots(octets);
    var s := head + ":" + tail;
    QuadReads(octets);
    LastColonIs(head, tail);
    assert s[..|head|] == head && s[|head| + 1..] == tail;
    hide ParseQuadded;
    hide IsQuad;
    hide Join;
  }

  // ----- heads ---------------------------------------------------------------------------------------

  /** The parser on a head without `::`. */
  lemma {:induction false} SixInARun(t: string)
    requires |Split(t, "::")| == 1
    ensures var gs := PartsOf(t);
      ParseSixGroups(t) == if |gs| > 6 then None else ParseAll(gs + Zeros(6 - |gs|), true)
  {
    hide Split;
    hide ParseAll;
    hide PartsOf;
    hide Zeros;
  }

  /** The parser on a head with one `::`. */
  lemma {:induction false} SixAroundAGap(t: string)
    requires |Split(t, "::")| == 2
    ensures var left, right := PartsOf(Split(t, "::")[0]), PartsOf(Split(t, "::")[1]);
      var n := 6 - |left| - |right|;
      ParseSixGroups(t) == if n < 1 then None else ParseAll(left + Zeros(n) + right, true)
  {
    hide Split;
    hide ParseAll;
    hide PartsOf;
    hide Zeros;
  }

  /** The parser on a text with one `::` and no dotted quad. */
  lemma {:induction false} EightAroundAGap(t: string)
    requires |Split(t, "::")| == 2
    ensures var left, right := PartsOf(Split(t, "::")[0]), PartsOf(Split(t, "::")[1]);
      var n := 8 - |left| - |right|;
      ParsePlain(t) == if n < 1 then None else ParseAll(left + Zeros(n) + right, false)
  {
    hide Split;
    hide ParseAll;
    hide PartsOf;
    hide Zeros;
  }

  lemma {:induction false} PaddedReads(gs: seq<string>, n: nat, head: bool)
    ensures ParseAll(gs + Zeros(n), head).Some? <==> AllParts(gs, head)
    ensures ParseAll(gs + Zeros(n), head).Some? ==>
      ParseAll(gs + Zeros(n), head).value == GroupValues(gs) + NoughtGroups(n)
  {
    FilledReads(gs, n, [], head);
    hide ParseAll;
    hide PartReads;
    assert gs + Zeros(n) + [] == gs + Zeros(n);
    assert GroupValues([]) == [];
    hide GroupValues;
    hide NoughtGroups;
    assert GroupValues(gs) + NoughtGroups(n) + [] == GroupValues(gs) + NoughtGroups(n);
  }

  lemma {:induction false} RunReads(gs: seq<string>)
    requires |gs| <= 6 && ColonFree(gs) && AllRead(gs)
    ensures ParseSixGroups(Colons(gs)) == Some(GroupValues(gs) + NoughtGroups(6 - |gs|))
  {
    hide *;
    ReadGroupsAreFull(gs);
    GroupsComeBack(gs);
    WholeIfNoDouble(Colons(gs));
    SixInARun(Colons(gs));
    PartsAreGroups(gs);
    PaddedReads(gs, 6 - |gs|, true);
  }

  lemma {:induction false} LastIsNotEmpty(gs: seq<string>)
    requires forall i :: 0 <= i < |gs| ==> gs[i] != ""
    ensures gs != [] ==> gs[|gs| - 1] != ""
  {
  }

  lemma {:induction false} GapReads(left: seq<string>, right: seq<string>)
    requires |left| + |right| <= 5 && ColonFree(left) && ColonFree(right) && AllRead(left) && AllRead(right)
    ensures ParseSixGroups(Colons(left) + "::" + Colons(right))
      == Some(GroupValues(left) + NoughtGroups(6 - |left| - |right|) + GroupValues(right))
  {
    hide *;
    ReadGroupsAreFull(left);
    ReadGroupsAreFull(right);
    LastIsNotEmpty(left);
    GroupsComeBack(left);
    GroupsComeBack(right);
    SplitTwo(Colons(left), Colons(right));
    SixAroundAGap(Colons(left) + "::" + Colons(right));
    PartsAreGroups(left);
    PartsAreGroups(right);
    FilledReads(left, 6 - |left| - |right|, right, true);
  }

  lemma {:induction false} HeadReads(h: Head)
    requires IsHead(h)
    ensures ParseSixGroups(HeadText(h)) == Some(HeadGroups(h))
  {
    hide ParseSixGroups;
    hide AllRead;
    hide ColonFree;
    hide Colons;
    hide GroupValues;
    hide NoughtGroups;
    match h
    case Run(gs) => RunReads(gs);
    case Gap(left, right) => GapReads(left, right);
  }

  /** Whatever reads before a quad is a head. */
  lemma {:induction false} RunBack(t: string)
    requires ParseSixGroups(t).Some? && |Split(t, "::")| == 1
    ensures var gs := PartsOf(t); |gs| <= 6 && ColonFree(gs) && AllRead(gs) && Colons(gs) == t
  {
    hide *;
    OnePartHasNoDouble(t);
    TextIsItsGroups(t);
    var gs := PartsOf(t);
    SixInARun(t);
    PaddedReads(gs, 6 - |gs|, true);
    PartsAreGroups(gs);
    ListIsColonFree(gs);
  }

  lemma {:induction false} ListIsColonFree(gs: seq<string>)
    requires GroupList(gs)
    ensures ColonFree(gs)
  {
  }

  lemma {:induction false} GapBack(t: string)
    requires ParseSixGroups(t).Some? && |Split(t, "::")| == 2
    ensures var left, right := PartsOf(Split(t, "::")[0]), PartsOf(Split(t, "::")[1]);
      && |left| + |right| <= 5 && ColonFree(left) && ColonFree(right) && AllRead(left) && AllRead(right)
      && Colons(left) + "::" + Colons(right) == t
  {
    hide *;
    TwoPartsBack(t);
    TextIsItsGroups(Split(t, "::")[0]);
    TextIsItsGroups(Split(t, "::")[1]);
    var left, right := PartsOf(Split(t, "::")[0]), PartsOf(Split(t, "::")[1]);
    SixAroundAGap(t);
    FilledReads(left, 6 - |left| - |right|, right, true);
    PartsAreGroups(left);
    PartsAreGroups(right);
    ListIsColonFree(left);
    ListIsColonFree(right);
  }

  lemma {:induction false} HeadBack(t: string) returns (h: Head)
    requires ParseSixGroups(t).Some?
    ensures IsHead(h) && HeadText(h) == t
  {
    hide Split;
    hide PartsOf;
    hide AllRead;
    hide ColonFree;
    hide Colons;
    var parts := Split(t, "::");
    if |parts| == 1 {
      RunBack(t);
      h := Run(PartsOf(t));
    } else {
      GapBack(t);
      h := Gap(PartsOf(parts[0]), PartsOf(parts[1]));
    }
  }

  // ----- exactly the loose forms are read -----------------------------------------------------------

  lemma {:induction false} FullReads(gs: seq<string>)
    requires |gs| == 8 && GroupList(gs) && AllReadOrEmpty(gs)
    ensures ParsePlain(Colons(gs)) == Some(GroupValues(gs))
  {
    hide GroupList;
    hide AllReadOrEmpty;
    hide Join;
    hide Split;
    hide ParseAll;
    hide GroupValues;
    hide AllParts;
    GroupsComeBack(gs);
    WholeIfNoDouble(Colons(gs));
    PartsAreGroups(gs);
    ParseAllIff(gs, false);
  }

  lemma {:induction false} CompressedReads(left: seq<string>, right: seq<string>)
    requires |left| + |right| <= 7 && GroupList(left) && GroupList(right)
    requires AllReadOrEmpty(left) && AllReadOrEmpty(right) && (left != [] ==> left[|left| - 1] != "")
    ensures ParsePlain(Colons(left) + "::" + Colons(right))
      == Some(GroupValues(left) + NoughtGroups(8 - |left| - |right|) + GroupValues(right))
  {
    hide *;
    GroupsComeBack(left);
    GroupsComeBack(right);
    SplitTwo(Colons(left), Colons(right));
    EightAroundAGap(Colons(left) + "::" + Colons(right));
    PartsAreGroups(left);
    PartsAreGroups(right);
    FilledReads(left, 8 - |left| - |right|, right, false);
  }

  lemma {:induction false} StrippedHead(h: Head, two: bool)
    requires two || !EndsInColon(HeadText(h))
    ensures var t := if two then HeadText(h) + ":" else HeadText(h);
      ParseIPv6Head(t) == ParseSixGroups(HeadText(h))
  {
    hide ParseSixGroups;
    var t := HeadText(h);
    assert (t + ":")[..|t|] == t;
  }

  lemma {:induction false} QuaddedReads(h: Head, two: bool, octets: seq<string>)
    requires IsHead(h) && AllOctets(octets) && OneLine(HeadText(h))
    requires two || (HeadText(h) != "" && !EndsInColon(HeadText(h)))
    ensures ParseIPv6(LooseText(LooseQuad(h, two, octets))) == Some(HeadGroups(h) + QuadGroups(Octets(octets)))
  {
    hide ParseIPv6;
    hide ParseIPv6Head;
    hide ParseSixGroups;
    hide ParseQuad;
    hide HeadGroups;
    hide HeadText;
    hide IsHead;
    hide AllOctets;
    hide Octets;
    hide IsQuad;
    hide Dots;
    var t := if two then HeadText(h) + ":" else HeadText(h);
    StrippedHead(h, two);
    HeadReads(h);
    QuadReads(octets);
    assert OneLine(t);
    QuadIsFound(t, octets);
  }

  lemma {:induction false} PlainText(s: string)
    requires QuadAt(s).None?
    ensures ParseIPv6(s) == ParsePlain(s)
  {
  }

  /** Every loose form is read, as the address its groups make. */
  lemma {:induction false} LooseReads(f: Loose)
    requires IsLoose(f)
    ensures ParseIPv6(LooseText(f)) == Some(LooseGroups(f))
  {
    hide ParseIPv6;
    hide ParsePlain;
    hide QuadAt;
    hide GroupList;
    hide AllReadOrEmpty;
    hide IsHead;
    hide AllOctets;
    hide OneLine;
    hide HeadText;
    hide Join;
    hide GroupValues;
    hide NoughtGroups;
    match f
    case LooseFull(gs) =>
      PlainText(Colons(gs));
      FullReads(gs);
    case LooseCompressed(left, right) =>
      PlainText(Colons(left) + "::" + Colons(right));
      CompressedReads(left, right);
    case LooseQuad(h, two, octets) => QuaddedReads(h, two, octets);
  }

  lemma {:induction false} FullBack(s: string)
    requires ParsePlain(s).Some? && |Split(s, "::")| == 1
    ensures var gs := Split(s, ":"); |gs| == 8 && GroupList(gs) && AllReadOrEmpty(gs) && Colons(gs) == s
  {
    OnePartHasNoDouble(s);
    TextIsItsGroups(s);
    EmptyIsOneGroup();
    var gs := Split(s, ":");
    assert PartsOf(s) == gs;
    ParseAllIff(gs, false);
    PartsAreGroups(gs);
    hide Split;
    hide Join;
    hide GroupList;
    hide AllParts;
    hide AllReadOrEmpty;
  }

  lemma {:induction false} EmptyIsOneGroup()
    ensures Split("", ":") == [""]
  {
    NotCut("", ':');
  }

  lemma {:induction false} CompressedBack(s: string)
    requires ParsePlain(s).Some? && |Split(s, "::")| == 2
    ensures var left, right := PartsOf(Split(s, "::")[0]), PartsOf(Split(s, "::")[1]);
      && |left| + |right| <= 7 && GroupList(left) && GroupList(right)
      && AllReadOrEmpty(left) && AllReadOrEmpty(right) && (left != [] ==> left[|left| - 1] != "")
      && Colons(left) + "::" + Colons(right) == s
  {
    hide *;
    TwoPartsBack(s);
    TextIsItsGroups(Split(s, "::")[0]);
    TextIsItsGroups(Split(s, "::")[1]);
    var left, right := PartsOf(Split(s, "::")[0]), PartsOf(Split(s, "::")[1]);
    GroupsComeBack(left);
    EightAroundAGap(s);
    FilledReads(left, 8 - |left| - |right|, right, false);
    PartsAreGroups(left);
    PartsAreGroups(right);
  }

  lemma {:induction false} QuadParts(s: string, i: nat)
    requires QuadAt(s) == Some(i) && ParseIPv6(s).Some?
    ensures i > 0 && s == s[..i] + ":" + s[i + 1..] && OneLine(s[..i])
    ensures IsQuad(s[i + 1..]) && ParseQuad(s[i + 1..]).Some? && ParseIPv6Head(s[..i]).Some?
  {
    hide IsQuad;
    hide ParseQuad;
    hide ParseIPv6Head;
    LastColonSplits(s);
  }

  lemma {:induction false} HeadWithColon(head: string) returns (h: Head, two: bool)
    requires head != "" && OneLine(head) && ParseIPv6Head(head).Some?
    ensures IsHead(h) && OneLine(HeadText(h)) && head == (if two then HeadText(h) + ":" else HeadText(h))
    ensures two || (HeadText(h) != "" && !EndsInColon(HeadText(h)))
  {
    hide ParseSixGroups;
    hide HeadText;
    hide IsHead;
    two := EndsInColon(head);
    var t := if two then head[..|head| - 1] else head;
    h := HeadBack(t);
  }

  lemma {:induction false} QuaddedBack(s: string, i: nat) returns (f: Loose)
    requires QuadAt(s) == Some(i) && ParseIPv6(s).Some?
    ensures IsLoose(f) && LooseText(f) == s
  {
    hide QuadAt;
    hide ParseIPv6;
    hide ParseIPv6Head;
    hide ParseQuad;
    hide IsQuad;
    hide HeadText;
    hide IsHead;
    hide OneLine;
    hide AllOctets;
    hide Split;
    hide Dots;
    QuadParts(s, i);
    QuadBack(s[i + 1..]);
    var h, two := HeadWithColon(s[..i]);
    f := LooseQuad(h, two, Split(s[i + 1..], "."));
  }

  lemma {:induction false} PlainPartsAreFew(s: string)
    requires ParsePlain(s).Some?
    ensures 1 <= |Split(s, "::")| <= 2
  {
    hide Split;
  }

  /** Whatever is read is a loose form. */
  lemma {:induction false} AcceptedIsLoose(s: string) returns (f: Loose)
    requires ParseIPv6(s).Some?
    ensures IsLoose(f) && LooseText(f) == s
  {
    hide QuadAt;
    hide ParseIPv6;
    hide ParsePlain;
    hide PartsOf;
    hide Split;
    hide GroupList;
    hide AllReadOrEmpty;
    hide Join;
    var quad := QuadAt(s);
    if quad.Some? {
      f := QuaddedBack(s, quad.value);
    } else {
      PlainText(s);
      PlainPartsAreFew(s);
      var parts := Split(s, "::");
      if |parts| == 1 {
        FullBack(s);
        f := LooseFull(Split(s, ":"));
      } else {
        CompressedBack(s);
        f := LooseCompressed(PartsOf(parts[0]), PartsOf(parts[1]));
      }
    }
  }

  // ----- what is loose about them ---------------------------------------------------------------------

  /**
   * Nothing is relaxed: every group is one to four digits, and a dotted quad comes
   * after six groups and a colon, or after a `::` that stands for at least one
   * group, or after groups that follow such a `::`.
   */
  predicate Strict(f: Loose) {
    match f
    case LooseFull(gs) => AllSpellings(gs)
    case LooseCompressed(left, right) => AllSpellings(left) && AllSpellings(right)
    case LooseQuad(Run(gs), two, _) => AllSpellings(gs) && if two then |gs| <= 5 else |gs| == 6
    case LooseQuad(Gap(left, right), two, _) => AllSpellings(left) && AllSpellings(right) && !two && right != []
  }

  function FormOf(f: Loose): Form
    requires Strict(f)
  {
    match f
    case LooseFull(gs) => Full(gs)
    case LooseCompressed(left, right) => Compressed(left, right)
    case LooseQuad(Run(gs), two, octets) => if two then CompressedQuad(gs, [], octets) else FullQuad(gs, octets)
    case LooseQuad(Gap(left, right), _, octets) => CompressedQuad(left, right, octets)
  }

  function LooseOf(f: Form): Loose {
    match f
    case Full(gs) => LooseFull(gs)
    case Compressed(left, right) => LooseCompressed(left, right)
    case FullQuad(gs, octets) => LooseQuad(Run(gs), false, octets)
    case CompressedQuad(left, right, octets) =>
      if right == [] then LooseQuad(Run(left), true, octets) else LooseQuad(Gap(left, right), false, octets)
  }

  lemma {:induction false} StrictIsForm(f: Loose)
    requires IsLoose(f) && Strict(f)
    ensures IsForm(FormOf(f)) && Text(FormOf(f)) == LooseText(f)
  {
    hide QuadAt;
    hide Join;
    hide GroupList;
    hide AllRead;
    match f
    case LooseFull(_) =>
    case LooseCompressed(_, _) =>
    case LooseQuad(Run(gs), two, octets) =>
      var g, tail := Colons(gs), Dots(octets);
      assert g + ":" + ":" + tail == g + "::" + "" + tail;
    case LooseQuad(Gap(left, right), two, octets) =>
      var l, r, tail := Colons(left), Colons(right), Dots(octets);
      assert l + "::" + r + ":" + tail == l + "::" + (r + ":") + tail;
  }

  // ----- forms are loose forms -------------------------------------------------------------------------

  lemma {:induction false} HexPrefixIsAll(s: string)
    requires AllHex(s)
    ensures HexPrefix(s) == s
  {
    if s != "" {
      HexPrefixIsAll(s[1..]);
      assert s == [s[0]] + s[1..];
    }
  }

  function Power16(n: nat): nat {
    if n == 0 then 1 else 16 * Power16(n - 1)
  }

  lemma {:induction false} ValueBound(s: string)
    requires AllHex(s)
    ensures Value(s, 16) < Power16(|s|)
  {
    if s != "" {
      ValueBound(s[..|s| - 1]);
      assert IsHex(s[|s| - 1]);
    }
  }

  lemma {:induction false} FourDigits(g: string)
    requires IsSpelling(g)
    ensures Value(g, 16) <= MAX_GROUP
  {
    ValueBound(g);
    assert Power16(1) == 16 && Power16(2) == 256 && Power16(3) == 4096 && Power16(4) == 65536;
  }

  /** Text that starts with a digit other than `0x` is read up to its last digit. */
  lemma {:induction false} DigitsFirst(s: string)
    requires s != "" && IsHex(s[0]) && !(|s| >= 2 && s[0] == '0' && (s[1] == 'x' || s[1] == 'X'))
    ensures ParseHex(s) == Some(Value(HexPrefix(s), 16))
  {
    assert TrimStart(s) == s;
    assert HexPrefix(s) != "";
    hide Value;
  }

  lemma {:induction false} SpellingReads(g: string)
    requires IsSpelling(g)
    ensures Reads(g) && ReadsOrEmpty(g) && GroupValue(g) == Value(g, 16)
  {
    assert IsHex(g[0]) && (|g| >= 2 ==> IsHex(g[1]));
    DigitsFirst(g);
    HexPrefixIsAll(g);
    FourDigits(g);
    hide ParseHex;
    hide Value;
  }

  lemma {:induction false} SpellingsRead(gs: seq<string>)
    requires AllSpellings(gs)
    ensures AllRead(gs) && ColonFree(gs) && GroupValues(gs) == Values(gs)
  {
    forall i | 0 <= i < |gs|
      ensures Reads(gs[i]) && GroupValue(gs[i]) == Value(gs[i], 16) && Avoids(gs[i], ':')
    {
      assert IsSpelling(gs[i]);
      SpellingReads(gs[i]);
    }
    hide Reads;
    hide GroupValue;
  }

  /** Neither a dot nor a line break: only digits and colons. */
  predicate Plain(s: string) {
    forall i :: 0 <= i < |s| ==> IsHex(s[i]) || s[i] == ':'
  }

  lemma {:induction false} SpellingsArePlain(gs: seq<string>)
    requires AllSpellings(gs)
    ensures Plain(Colons(gs))
  {
    if |gs| > 0 {
      assert IsSpelling(gs[0]);
    }
    if |gs| >= 2 {
      SpellingsArePlain(gs[1..]);
    }
  }

  lemma {:induction false} PlainIsOneLine(s: string)
    requires Plain(s)
    ensures OneLine(s)
  {
    forall i | 0 <= i < |s|
      ensures s[i] != '\n' && s[i] != '\r' && s[i] != '\U{2028}' && s[i] != '\U{2029}'
    {
      assert IsHex(s[i]) || s[i] == ':';
    }
  }

  /** Without a dot there is no dotted quad. */
  lemma {:induction false} PlainHasNoQuad(s: string)
    requires Plain(s)
    ensures QuadAt(s) == None
  {
    var colon := LastColon(s);
    if colon.Some? {
      var tail := s[colon.value + 1..];
      assert Avoids(tail, '.');
      NotCut(tail, '.');
    }
  }

  lemma {:induction false} GroupsAreLoose(gs: seq<string>)
    requires AllSpellings(gs)
    ensures GroupList(gs) && AllRead(gs) && AllReadOrEmpty(gs) && ColonFree(gs)
    ensures Plain(Colons(gs)) && GroupValues(gs) == Values(gs)
    ensures (Colons(gs) == "" <==> gs == []) && !EndsInColon(Colons(gs)) && (gs != [] ==> gs[|gs| - 1] != "")
  {
    SpellingsRead(gs);
    ReadGroupsAreFull(gs);
    SpellingsArePlain(gs);
    GroupsComeBack(gs);
  }

  lemma {:induction false} FormIsLoose(f: Form)
    requires IsForm(f)
    ensures IsLoose(LooseOf(f)) && Strict(LooseOf(f))
    ensures LooseText(LooseOf(f)) == Text(f) && LooseGroups(LooseOf(f)) == Groups(f)
  {
    match f
    case Full(gs) =>
      GroupsAreLoose(gs);
      PlainHasNoQuad(Colons(gs));
    case Compressed(left, right) => CompressedIsLoose(left, right);
    case FullQuad(gs, octets) =>
      GroupsAreLoose(gs);
      PlainIsOneLine(Colons(gs));
      assert GroupValues(gs) + NoughtGroups(0) == GroupValues(gs);
    case CompressedQuad(left, right, octets) => QuadIsLoose(left, right, octets);
  }

  lemma {:induction false} PlainAroundGap(l: string, r: string)
    requires Plain(l) && Plain(r)
    ensures Plain(l + "::" + r)
  {
  }

  lemma {:induction false} CompressedIsLoose(left: seq<string>, right: seq<string>)
    requires IsForm(Compressed(left, right))
    ensures IsLoose(LooseCompressed(left, right))
    ensures LooseGroups(LooseCompressed(left, right)) == Groups(Compressed(left, right))
  {
    hide Colons;
    hide Dots;
    hide Values;
    hide GroupValues;
    hide NoughtGroups;
    hide Octets;
    hide GroupList;
    hide AllRead;
    hide AllReadOrEmpty;
    hide ColonFree;
    hide Plain;
    hide OneLine;
    hide QuadAt;
    hide AllSpellings;
    hide AllOctets;
    hide EndsInColon;
    GroupsAreLoose(left);
    GroupsAreLoose(right);
    PlainAroundGap(Colons(left), Colons(right));
    PlainHasNoQuad(Colons(left) + "::" + Colons(right));
  }

  /** A dotted quad right after `::`. */
  lemma {:induction false} ShortQuadIsLoose(left: seq<string>, octets: seq<string>)
    requires |left| <= 5 && AllSpellings(left) && AllOctets(octets)
    ensures var f := LooseQuad(Run(left), true, octets);
      && IsLoose(f) && LooseText(f) == Colons(left) + "::" + "" + Dots(octets)
      && LooseGroups(f) == Values(left) + NoughtGroups(6 - |left|) + QuadGroups(Octets(octets))
  {
    hide Colons;
    hide Dots;
    hide Values;
    hide GroupValues;
    hide NoughtGroups;
    hide Octets;
    hide GroupList;
    hide AllRead;
    hide AllReadOrEmpty;
    hide ColonFree;
    hide Plain;
    hide OneLine;
    hide QuadAt;
    hide AllSpellings;
    hide AllOctets;
    GroupsAreLoose(left);
    PlainIsOneLine(Colons(left));
    var l, tail := Colons(left), Dots(octets);
    assert l + ":" + ":" + tail == l + "::" + "" + tail;
  }

  lemma {:induction false} AroundGap(l: string, r: string)
    requires Plain(l) && Plain(r) && r != "" && !EndsInColon(r)
    ensures var t := l + "::" + r; OneLine(t) && t != "" && !EndsInColon(t)
  {
    var t := l + "::" + r;
    assert Plain(t);
    PlainIsOneLine(t);
    assert t[|t| - 1] == r[|r| - 1];
  }

  lemma {:induction false} LongQuadIsLoose(left: seq<string>, right: seq<string>, octets: seq<string>)
    requires |left| + |right| <= 5 && right != [] && AllSpellings(left) && AllSpellings(right) && AllOctets(octets)
    ensures var f := LooseQuad(Gap(left, right), false, octets);
      && IsLoose(f) && LooseText(f) == Colons(left) + "::" + (Colons(right) + ":") + Dots(octets)
      && LooseGroups(f)
         == Values(left) + NoughtGroups(6 - |left| - |right|) + Values(right) + QuadGroups(Octets(octets))
  {
    hide Colons;
    hide Dots;
    hide Values;
    hide GroupValues;
    hide NoughtGroups;
    hide Octets;
    hide GroupList;
    hide AllRead;
    hide AllReadOrEmpty;
    hide ColonFree;
    hide Plain;
    hide OneLine;
    hide QuadAt;
    hide AllSpellings;
    hide AllOctets;
    hide EndsInColon;
    GroupsAreLoose(left);
    GroupsAreLoose(right);
    var l, r, tail := Colons(left), Colons(right), Dots(octets);
    AroundGap(l, r);
    assert l + "::" + (r + ":") + tail == l + "::" + r + ":" + tail;
  }

  lemma {:induction false} QuadIsLoose(left: seq<string>, right: seq<string>, octets: seq<string>)
    requires IsForm(CompressedQuad(left, right, octets))
    ensures var f := CompressedQuad(left, right, octets);
      && IsLoose(LooseOf(f)) && Strict(LooseOf(f))
      && LooseText(LooseOf(f)) == Text(f) && LooseGroups(LooseOf(f)) == Groups(f)
  {
    hide IsLoose;
    hide LooseText;
    hide LooseGroups;
    hide Colons;
    hide Dots;
    hide NoughtGroups;
    hide Octets;
    hide AllSpellings;
    hide AllOctets;
    if right == [] {
      ShortQuadIsLoose(left, octets);
      assert Values(right) == [];
      assert Values(left) + NoughtGroups(6 - |left|) + [] == Values(left) + NoughtGroups(6 - |left|);
    } else {
      LongQuadIsLoose(left, right, octets);
    }
  }

  /** Every text form of section 2.2 of RFC 4291 reads back as exactly the address it stands for. */
  lemma {:induction false} RoundTrip(f: Form)
    requires IsForm(f)
    ensures ParseIPv6(Text(f)) == Some(Groups(f))
  {
    hide *;
    FormIsLoose(f);
    LooseReads(LooseOf(f));
  }

  /**
   * The converse: a text is accepted exactly when it is one of those forms, or a
   * loose form with something relaxed about it.
   */
  lemma {:induction false} AcceptedIff(s: string)
    ensures ParseIPv6(s).Some? <==>
      || (exists f: Form :: IsForm(f) && Text(f) == s)
      || (exists f: Loose :: IsLoose(f) && !Strict(f) && LooseText(f) == s)
  {
    hide *;
    if ParseIPv6(s).Some? {
      var f := AcceptedIsLoose(s);
      if Strict(f) {
        StrictIsForm(f);
      }
    } else {
      forall f: Form | IsForm(f)
        ensures Text(f) != s
      {
        RoundTrip(f);
      }
      forall f: Loose | IsLoose(f)
        ensures LooseText(f) != s
      {
        LooseReads(f);
      }
    }
  }

  // ----- invalid texts that are read -------------------------------------------------------------------

  /**
   * A dotted quad after fewer than six groups is read even without `::`, as if
   * `::` stood before the quad.
   */
  lemma {:induction false} QuadNeedsNoCompression(left: seq<string>, octets: seq<string>)
    requires 1 <= |left| <= 5 && AllSpellings(left) && AllOctets(octets)
    ensures ParseIPv6(Colons(left) + ":" + Dots(octets))
         == ParseIPv6(Colons(left) + "::" + Dots(octets))
         == Some(Values(left) + NoughtGroups(6 - |left|) + QuadGroups(Octets(octets)))
  {
    hide ParseIPv6;
    hide IsLoose;
    var l, tail := Colons(left), Dots(octets);
    ShortQuadIsLoose(left, octets);
    OpenQuadIsLoose(left, octets);
    LooseReads(LooseQuad(Run(left), true, octets));
    LooseReads(LooseQuad(Run(left), false, octets));
    hide Colons;
    hide Dots;
    hide LooseGroups;
    assert l + "::" + "" + tail == l + "::" + tail;
  }

  lemma {:induction false} OpenQuadIsLoose(left: seq<string>, octets: seq<string>)
    requires 1 <= |left| <= 5 && AllSpellings(left) && AllOctets(octets)
    ensures var f := LooseQuad(Run(left), false, octets);
      && IsLoose(f) && !Strict(f) && LooseText(f) == Colons(left) + ":" + Dots(octets)
      && LooseGroups(f) == Values(left) + NoughtGroups(6 - |left|) + QuadGroups(Octets(octets))
  {
    hide Colons;
    hide Dots;
    hide Values;
    hide GroupValues;
    hide NoughtGroups;
    hide Octets;
    hide GroupList;
    hide AllRead;
    hide AllReadOrEmpty;
    hide ColonFree;
    hide Plain;
    hide OneLine;
    hide QuadAt;
    hide AllSpellings;
    hide AllOctets;
    GroupsAreLoose(left);
    PlainIsOneLine(Colons(left));
  }

  /** A form that starts with a colon starts with two. */
  lemma {:induction false} FormsStartWell(f: Form)
    requires IsForm(f) && Text(f) != "" && Text(f)[0] == ':'
    ensures |Text(f)| >= 2 && Text(f)[1] == ':'
  {
    match f
    case Full(gs) => GroupsStartWell(gs);
    case FullQuad(gs, octets) => GroupsStartWell(gs);
    case Compressed(left, right) => GroupsStartWell(left);
    case CompressedQuad(left, right, octets) => GroupsStartWell(left);
  }

  lemma {:induction false} GroupsStartWell(gs: seq<string>)
    requires AllSpellings(gs)
    ensures gs != [] ==> Colons(gs) != "" && Colons(gs)[0] != ':'
    ensures gs == [] ==> Colons(gs) == ""
  {
    if gs != [] {
      assert IsSpelling(gs[0]);
    }
  }

  /** One colon in front of seven groups is no text form at all, and is read as an eighth group, nought. */
  lemma {:induction false} LeadingColonIsRead(gs: seq<string>)
    requires |gs| == 7 && AllSpellings(gs)
    ensures ParseIPv6(":" + Colons(gs)) == Some([0] + Values(gs))
    ensures !exists f: Form :: IsForm(f) && Text(f) == ":" + Colons(gs)
  {
    var s := ":" + Colons(gs);
    LedGroupsAreLoose(gs);
    LooseReads(LooseFull([""] + gs));
    GroupsStartWell(gs);
    hide ParseIPv6;
    hide Colons;
    forall f: Form | IsForm(f)
      ensures Text(f) != s
    {
      if Text(f) == s {
        FormsStartWell(f);
        assert false;
      }
    }
  }

  lemma {:induction false} LedText(gs: seq<string>)
    requires gs != [] && AllSpellings(gs)
    ensures Colons([""] + gs) == ":" + Colons(gs) && QuadAt(":" + Colons(gs)).None?
  {
    assert ([""] + gs)[1..] == gs;
    SpellingsArePlain(gs);
    assert Plain(":" + Colons(gs));
    PlainHasNoQuad(":" + Colons(gs));
  }

  lemma {:induction false} LedGroupList(gs: seq<string>)
    requires gs != [] && AllSpellings(gs)
    ensures var all := [""] + gs; GroupList(all) && AllReadOrEmpty(all) && GroupValues(all) == [0] + Values(gs)
  {
    var all := [""] + gs;
    GroupsAreLoose(gs);
    hide ParseHeadGroup;
    forall i | 0 <= i < |all|
      ensures Avoids(all[i], ':') && ReadsOrEmpty(all[i]) && (i > 0 ==> all[i] != "")
    {
      if i > 0 {
        assert all[i] == gs[i - 1] && IsSpelling(gs[i - 1]);
      }
    }
    assert |all| >= 2;
    assert GroupValues(all) == [0] + GroupValues(gs);
  }

  lemma {:induction false} LedGroupsAreLoose(gs: seq<string>)
    requires |gs| == 7 && AllSpellings(gs)
    ensures var all := [""] + gs;
      && IsLoose(LooseFull(all)) && LooseText(LooseFull(all)) == ":" + Colons(gs)
      && LooseGroups(LooseFull(all)) == [0] + Values(gs)
  {
    var all := [""] + gs;
    LedGroupList(gs);
    hide GroupList;
    hide AllReadOrEmpty;
    hide QuadAt;
    hide GroupValues;
    hide Values;
    hide Join;
    LedText(gs);
  }

  /**
   * A group is read exactly when it is blanks, a sign and `0x`, each or none, digits
   * and any rest, and the digits make at most sixteen bits, or nought after a minus.
   */
  lemma {:induction false} GroupReadsIff(g: string)
    ensures Reads(g) <==> exists n :: IsNumber(n) && NumberText(n) == g && 0 <= NumberValue(n) <= MAX_GROUP
  {
    hide ParseHex;
    hide IsNumber;
    hide NumberText;
    hide NumberValue;
    if ParseHex(g).Some? {
      ParseHexIff(g, ParseHex(g).value);
    }
    forall n | IsNumber(n) && NumberText(n) == g && 0 <= NumberValue(n) <= MAX_GROUP
      ensures Reads(g)
    {
      ParseHexIff(g, NumberValue(n));
    }
  }

  /** A group is read up to its first character that is no digit, whatever follows. */
  lemma {:induction false} TextAfterAGroupIsIgnored(g: string, rest: string)
    requires IsSpelling(g) && rest != "" && !IsHex(rest[0])
    requires !(g == "0" && (rest[0] == 'x' || rest[0] == 'X'))
    ensures ReadsOrEmpty(g + rest) && GroupValue(g + rest) == Value(g, 16)
  {
    var s := g + rest;
    assert IsHex(g[0]) && s[0] == g[0] && s[1] == if |g| >= 2 then g[1] else rest[0];
    assert |g| >= 2 ==> IsHex(g[1]);
    DigitsFirst(s);
    HexPrefixStops(g, rest);
    FourDigits(g);
    hide ParseHex;
    hide Value;
  }

  /** So a full address with any text after one of its groups is read as the address without it. */
  lemma {:induction false} FullAddressIgnoresText(gs: seq<string>, k: nat, rest: string)
    requires |gs| == 8 && AllSpellings(gs) && k < 8
    requires rest != "" && !IsHex(rest[0]) && Avoids(rest, ':')
    requires !(gs[k] == "0" && (rest[0] == 'x' || rest[0] == 'X'))
    requires QuadAt(Colons(gs[k := gs[k] + rest])).None?
    ensures ParseIPv6(Colons(gs[k := gs[k] + rest])) == Some(Values(gs))
  {
    var all := gs[k := gs[k] + rest];
    GroupsAreLoose(gs);
    assert IsSpelling(gs[k]);
    TextAfterAGroupIsIgnored(gs[k], rest);
    hide QuadAt;
    hide Join;
    hide ParseIPv6;
    hide ParseGroup;
    assert Avoids(gs[k], ':');
    assert ColonFree(all) && AllReadOrEmpty(all);
    assert all != [""] && InnerFull(all) by {
      assert forall i :: 0 <= i < 8 ==> IsSpelling(gs[i]);
    }
    assert GroupValues(all) == Values(gs) by {
      assert forall i :: 0 <= i < 8 ==> GroupValues(gs)[i] == Values(gs)[i];
      hide Value;
    }
    LooseReads(LooseFull(all));
  }
}
