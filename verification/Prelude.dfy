/** Small vocabulary shared by every model. */
module Prelude {

  datatype Option<+T> = None | Some(value: T)

  /** JavaScript truthiness of an optional string: present and not empty. */
  predicate Given(s: Option<string>) {
    s.Some? && s.value != ""
  }

  /** No value occurs twice. */
  ghost predicate Distinct<T(!new)>(s: seq<T>) {
    forall i, j :: 0 <= i < j < |s| ==> s[i] != s[j]
  }

  /** `s` without its entries equal to `x`, order kept. */
  function Without<T(==,!new)>(s: seq<T>, x: T): (r: seq<T>)
    ensures forall y :: y in r <==> y in s && y != x
    ensures |r| <= |s|
  {
    if s == [] then []
    else if s[0] == x then Without(s[1..], x)
    else [s[0]] + Without(s[1..], x)
  }

  lemma {:induction false} WithoutKeepsDistinct<T(!new)>(s: seq<T>, x: T)
    requires Distinct(s)
    ensures Distinct(Without(s, x))
    ensures x in s ==> |Without(s, x)| == |s| - 1
    ensures x !in s ==> Without(s, x) == s
  {
    if s != [] {
      assert s == [s[0]] + s[1..];
      WithoutKeepsDistinct(s[1..], x);
      assert s[0] !in s[1..];
      assert s[0] !in Without(s[1..], x);
    }
  }

  /** The two sets have as many elements when one is the other plus one new element. */
  lemma {:induction false} CardPlusOne<T>(small: set<T>, big: set<T>, x: T)
    requires x !in small
    requires big == small + {x}
    ensures |big| == |small| + 1
  {
  }

  lemma {:induction false} CardSubset<T>(small: set<T>, big: set<T>)
    requires small <= big
    ensures |small| <= |big|
    ensures |small| == |big| ==> small == big
  {
    assert big == small + (big - small);
    if |small| == |big| {
      assert big - small == {};
    }
  }

  /** A sequence without repetitions is as long as the set of its values. */
  lemma {:induction false} DistinctLength<T(!new)>(s: seq<T>, values: set<T>)
    requires Distinct(s)
    requires forall x :: x in s <==> x in values
    ensures |s| == |values|
  {
    if s == [] {
      assert values == {};
    } else {
      var rest := s[1..];
      assert s == [s[0]] + rest;
      DistinctLength(rest, values - {s[0]});
    }
  }
}
