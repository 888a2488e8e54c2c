/** The string operations the background manager relies on: `sep.join(xs)` and slicing `s[:n]`. */
module Strings {

  /** Python's `sep.join(xs)`: the strings of `xs` with `sep` between neighbours. */
  function Join(sep: string, xs: seq<string>): (r: string)
    ensures |xs| == 0 ==> r == ""
    ensures |xs| == 1 ==> r == xs[0]
    ensures |xs| > 0 ==> xs[0] <= r
    decreases |xs|
  {
    if |xs| == 0 then ""
    else if |xs| == 1 then xs[0]
    else xs[0] + sep + Join(sep, xs[1..])
  }

  /**
   * Python's `s.split(c)` for a one-character separator: the pieces between
   * consecutive occurrences of `c`; always at least one piece. It is the
   * inverse of `Join` used to show that a joined list can be read back.
   */
  function Split(s: string, c: char): (r: seq<string>)
    ensures |r| >= 1
    decreases |s|
  {
    if |s| == 0 then [""]
    else if s[0] == c then [""] + Split(s[1..], c)
    else
      var rest := Split(s[1..], c);
      [[s[0]] + rest[0]] + rest[1..]
  }

  /** A string without the separator splits into itself alone. */
  lemma {:induction false} SplitWithoutSeparator(x: string, c: char)
    requires c !in x
    ensures Split(x, c) == [x]
    decreases |x|
  {
    if |x| > 0 {
      assert x[0] != c;
      SplitWithoutSeparator(x[1..], c);
      assert [x[0]] + x[1..] == x;
    }
  }

  /** The first piece ends at the first separator; the rest is split on. */
  lemma {:induction false} SplitAtSeparator(x: string, t: string, c: char)
    requires c !in x
    ensures Split(x + [c] + t, c) == [x] + Split(t, c)
    decreases |x|
  {
    var s := x + [c] + t;
    if |x| == 0 {
      assert s[0] == c && s[1..] == t;
    } else {
      assert s[0] == x[0] && x[0] != c;
      assert s[1..] == x[1..] + [c] + t;
      SplitAtSeparator(x[1..], t, c);
      assert [x[0]] + x[1..] == x;
    }
  }

  /**
   * Splitting a non-empty list joined by `c` gives the list back, provided no
   * element contains `c`. (The empty list joins to "", which splits to [""].)
   */
  lemma {:induction false} SplitJoin(xs: seq<string>, c: char)
    requires |xs| > 0
    requires forall i :: 0 <= i < |xs| ==> c !in xs[i]
    ensures Split(Join([c], xs), c) == xs
    decreases |xs|
  {
    if |xs| == 1 {
      SplitWithoutSeparator(xs[0], c);
    } else {
      SplitJoin(xs[1..], c);
      SplitAtSeparator(xs[0], Join([c], xs[1..]), c);
      assert [xs[0]] + xs[1..] == xs;
    }
  }

  /** `x` occurs in `s` starting at offset `k`. */
  predicate OccursAt(x: string, s: string, k: int) {
    0 <= k && k + |x| <= |s| && s[k..k + |x|] == x
  }

  /** Every element of the list occurs in the joined string, at offset `k`. */
  lemma {:induction false} JoinContains(sep: string, xs: seq<string>, i: nat) returns (k: nat)
    requires i < |xs|
    ensures OccursAt(xs[i], Join(sep, xs), k)
    decreases |xs|
  {
    var j := Join(sep, xs);
    if |xs| == 1 || i == 0 {
      k := 0;
      assert j[..|xs[0]|] == xs[0];
    } else {
      var rest := Join(sep, xs[1..]);
      var k' := JoinContains(sep, xs[1..], i - 1);
      k := |xs[0]| + |sep| + k';
      assert j == xs[0] + sep + rest;
      assert j[k..k + |xs[i]|] == rest[k'..k' + |xs[i]|];
    }
  }

  /** Python's slice `s[:n]` for a non-negative `n`. */
  function Truncate(s: string, n: nat): (r: string)
    ensures |r| == if |s| <= n then |s| else n
    ensures r == s[..|r|]
    ensures |s| <= n ==> r == s
  {
    if |s| <= n then s else s[..n]
  }
}
