/** The string operations of JavaScript the models use. */
module JsText {
  import opened Prelude

  /** White space and line terminators, as `String.prototype.trim` strips them. */
  predicate IsSpace(c: char) {
    || '\t' <= c <= '\r' || c == ' ' || c == '\U{00A0}' || c == '\U{1680}'
    || '\U{2000}' <= c <= '\U{200A}' || c == '\U{2028}' || c == '\U{2029}' || c == '\U{202F}'
    || c == '\U{205F}' || c == '\U{3000}' || c == '\U{FEFF}'
  }

  /** The white space and line terminators of sections 12.2 and 12.3 of ECMA-262. */
  const BLANKS: string :=
    "\t\n\U{000B}\U{000C}\r \U{00A0}\U{1680}\U{2000}\U{2001}\U{2002}\U{2003}\U{2004}\U{2005}\U{2006}\U{2007}"
    + "\U{2008}\U{2009}\U{200A}\U{2028}\U{2029}\U{202F}\U{205F}\U{3000}\U{FEFF}"

  lemma {:induction false} BlanksAreExact(c: char)
    ensures IsSpace(c) <==> c in BLANKS
  {
  }

  function TrimStart(s: string): string {
    if s != "" && IsSpace(s[0]) then TrimStart(s[1..]) else s
  }

  function TrimEnd(s: string): string {
    if s != "" && IsSpace(s[|s| - 1]) then TrimEnd(s[..|s| - 1]) else s
  }

  function Trim(s: string): string {
    TrimEnd(TrimStart(s))
  }

  /** `parts.join(separator)`. */
  function Join(parts: seq<string>, separator: string): string {
    if parts == [] then ""
    else if |parts| == 1 then parts[0]
    else parts[0] + separator + Join(parts[1..], separator)
  }

  /** Where the separator first occurs. */
  function IndexOf(s: string, separator: string): (r: Option<nat>)
    ensures r.Some? ==> r.value + |separator| <= |s|
  {
    if separator <= s then Some(0)
    else if s == "" then None
    else
      var later := IndexOf(s[1..], separator);
      if later.None? then None else Some(later.value + 1)
  }

  /** `s.split(separator)`. */
  function Split(s: string, separator: string): (r: seq<string>)
    requires separator != ""
    ensures r != []
    decreases |s|
  {
    var i := IndexOf(s, separator);
    if i.None? then [s] else [s[..i.value]] + Split(s[i.value + |separator|..], separator)
  }

  /** The separator occurs at `i` and nowhere before it. */
  lemma {:induction false} FirstOccurrence(s: string, separator: string, i: nat)
    requires i + |separator| <= |s| && separator <= s[i..]
    requires forall k :: 0 <= k < i ==> !(separator <= s[k..])
    ensures IndexOf(s, separator) == Some(i)
  {
    assert s[0..] == s;
    if i > 0 {
      assert !(separator <= s[0..]);
      assert s[1..][i - 1..] == s[i..];
      forall k | 0 <= k < i - 1
        ensures !(separator <= s[1..][k..])
      {
        assert s[1..][k..] == s[k + 1..];
      }
      FirstOccurrence(s[1..], separator, i - 1);
    }
  }

  lemma {:induction false} NoOccurrence(s: string, separator: string)
    requires forall k :: 0 <= k <= |s| ==> !(separator <= s[k..])
    ensures IndexOf(s, separator) == None
  {
    assert s[0..] == s;
    assert !(separator <= s[0..]);
    if s != "" {
      forall k | 0 <= k <= |s[1..]|
        ensures !(separator <= s[1..][k..])
      {
        assert s[1..][k..] == s[k + 1..];
      }
      NoOccurrence(s[1..], separator);
    }
  }

  predicate Avoids(s: string, c: char) {
    forall i :: 0 <= i < |s| ==> s[i] != c
  }

  lemma {:induction false} OneCharAt(s: string, c: char, k: nat)
    requires k <= |s|
    ensures [c] <= s[k..] <==> k < |s| && s[k] == c
  {
  }

  lemma {:induction false} NotCut(s: string, c: char)
    requires Avoids(s, c)
    ensures IndexOf(s, [c]) == None && Split(s, [c]) == [s]
  {
    forall k | 0 <= k <= |s|
      ensures !([c] <= s[k..])
    {
      OneCharAt(s, c, k);
    }
    NoOccurrence(s, [c]);
  }

  lemma {:induction false} CutAt(a: string, c: char, b: string)
    requires Avoids(a, c)
    ensures Split(a + [c] + b, [c]) == [a] + Split(b, [c])
  {
    var s := a + [c] + b;
    OneCharAt(s, c, |a|);
    forall k | 0 <= k < |a|
      ensures !([c] <= s[k..])
    {
      OneCharAt(s, c, k);
      assert s[k] == a[k];
    }
    FirstOccurrence(s, [c], |a|);
    assert s[..|a|] == a && s[|a| + 1..] == b;
  }

  /** Splitting undoes joining, if no part holds the separator. */
  lemma {:induction false} SplitUndoesJoin(parts: seq<string>, c: char)
    requires parts != [] && forall i :: 0 <= i < |parts| ==> Avoids(parts[i], c)
    ensures Split(Join(parts, [c]), [c]) == parts
  {
    if |parts| == 1 {
      NotCut(parts[0], c);
      assert Split(Join(parts, [c]), [c]) == [parts[0]];
    } else {
      SplitUndoesJoin(parts[1..], c);
      CutAt(parts[0], c, Join(parts[1..], [c]));
      assert [parts[0]] + parts[1..] == parts;
    }
  }

  /** What is found is the first occurrence; nothing is found only if there is none. */
  lemma {:induction false} IndexOfFinds(s: string, separator: string)
    ensures var i := IndexOf(s, separator);
      && (i.Some? ==> separator <= s[i.value..] && forall k :: 0 <= k < i.value ==> !(separator <= s[k..]))
      && (i.None? ==> forall k :: 0 <= k <= |s| ==> !(separator <= s[k..]))
  {
    assert s[0..] == s;
    if !(separator <= s) && s != "" {
      IndexOfFinds(s[1..], separator);
      assert forall k :: 1 <= k <= |s| ==> s[1..][k - 1..] == s[k..];
    }
  }

  /** Joining undoes splitting, and no part holds the separator. */
  lemma {:induction false} JoinUndoesSplit(s: string, c: char)
    ensures Join(Split(s, [c]), [c]) == s
    ensures forall i :: 0 <= i < |Split(s, [c])| ==> Avoids(Split(s, [c])[i], c)
    decreases |s|
  {
    var parts := Split(s, [c]);
    IndexOfFinds(s, [c]);
    var i := IndexOf(s, [c]);
    if i.None? {
      NeverThere(s, c, |s|);
      assert s[..|s|] == s;
    } else {
      NeverThere(s, c, i.value);
      var rest := s[i.value + 1..];
      JoinUndoesSplit(rest, c);
      OneCharAt(s, c, i.value);
      assert parts == [s[..i.value]] + Split(rest, [c]);
      assert parts[1..] == Split(rest, [c]);
      assert s == s[..i.value] + [c] + rest;
    }
  }

  lemma {:induction false} NeverThere(s: string, c: char, n: nat)
    requires n <= |s| && forall k :: 0 <= k < n ==> !([c] <= s[k..])
    ensures Avoids(s[..n], c)
  {
    forall k | 0 <= k < n
      ensures s[k] != c
    {
      OneCharAt(s, c, k);
    }
  }

  predicate AllSpace(s: string) {
    forall i :: 0 <= i < |s| ==> IsSpace(s[i])
  }

  lemma {:induction false} TrimStartCuts(s: string)
    ensures |TrimStart(s)| <= |s|
    ensures var n := |s| - |TrimStart(s)|;
      s[n..] == TrimStart(s) && AllSpace(s[..n]) && (TrimStart(s) != "" ==> !IsSpace(TrimStart(s)[0]))
  {
    if s != "" && IsSpace(s[0]) {
      TrimStartCuts(s[1..]);
      var n := |s| - |TrimStart(s)|;
      assert s[1..][n - 1..] == s[n..];
      assert s[..n] == [s[0]] + s[1..][..n - 1];
    }
  }

  lemma {:induction false} TrimEndCuts(s: string)
    ensures var n := |TrimEnd(s)|;
      && n <= |s| && s[..n] == TrimEnd(s) && AllSpace(s[n..])
      && (TrimEnd(s) != "" ==> !IsSpace(TrimEnd(s)[n - 1]))
  {
    if s != "" && IsSpace(s[|s| - 1]) {
      var front := s[..|s| - 1];
      TrimEndCuts(front);
      var n := |TrimEnd(s)|;
      assert front[..n] == s[..n];
      assert s[n..] == front[n..] + [s[|s| - 1]];
    }
  }

  /** `trim` takes the blanks off both ends, and no more. */
  lemma {:induction false} TrimIsExact(s: string) returns (before: string, after: string)
    ensures s == before + Trim(s) + after && AllSpace(before) && AllSpace(after)
    ensures var t := Trim(s); t != "" ==> !IsSpace(t[0]) && !IsSpace(t[|t| - 1])
  {
    TrimStartCuts(s);
    var start := TrimStart(s);
    TrimEndCuts(start);
    before, after := s[..|s| - |start|], start[|Trim(s)|..];
    assert start == Trim(s) + after;
  }
}
