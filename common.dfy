/** Small value types shared by the whole model. */
module Common {

  /** A value that may be absent: an optional field, `Array.find` finding nothing, `prompt` returning null. */
  datatype Option<T> = None | Some(value: T)

  /** How a browser `fetch` call ended, as the calling page observes it. */
  datatype FetchOutcome =
    | ResponseOk      // the promise resolved and `response.ok` held
    | ResponseNotOk   // the promise resolved with an error status
    | Thrown          // the promise rejected (network failure)

  /** `Math.abs` on an integer. */
  function Abs(x: int): (r: nat)
    ensures r == x || r == -x
  {
    if x < 0 then -x else x
  }

  /** `Math.max(0, n)`. */
  function ClampAtZero(n: int): (r: nat)
    ensures r >= n && (r == n || r == 0)
  {
    if n < 0 then 0 else n
  }
}

/**
 * Sequences as the source's list code uses them: `Array.filter`, `new Set(...)` de-duplication
 * and `Array.filter(...).length` counts. Everything recurses on the LAST element so that a list
 * built by appending unfolds in one step.
 */
module Lists {
  import opened Common

  /** `a` can be obtained from `b` by deleting elements, keeping the order of the rest. */
  ghost predicate IsSubsequence<T>(a: seq<T>, b: seq<T>)
    decreases |b|
  {
    a == [] ||
    (b != [] &&
     ((a[|a| - 1] == b[|b| - 1] && IsSubsequence(a[..|a| - 1], b[..|b| - 1])) ||
      IsSubsequence(a, b[..|b| - 1])))
  }

  /** `s.filter(p)`: the elements satisfying `p`, in their original order. */
  function Filter<T>(s: seq<T>, p: T -> bool): (r: seq<T>)
    ensures |r| <= |s|
    ensures forall i :: 0 <= i < |r| ==> p(r[i])
    ensures forall i :: 0 <= i < |r| ==> r[i] in s
    ensures forall i :: 0 <= i < |s| && p(s[i]) ==> s[i] in r
    ensures IsSubsequence(r, s)
  {
    if s == [] then []
    else
      var init := Filter(s[..|s| - 1], p);
      var last := s[|s| - 1];
      assert s == s[..|s| - 1] + [last];
      if p(last) then
        assert (init + [last])[..|init|] == init;
        init + [last]
      else init
  }

  /** `s.find(p)`: the first element satisfying `p`, if there is one. */
  function Find<T>(s: seq<T>, p: T -> bool): (r: Option<T>)
    ensures r.None? <==> forall i :: 0 <= i < |s| ==> !p(s[i])
    ensures r.Some? ==> p(r.value) && exists k :: 0 <= k < |s| && s[k] == r.value && forall j :: 0 <= j < k ==> !p(s[j])
  {
    if s == [] then None
    else if p(s[0]) then Some(s[0])
    else
      var r := Find(s[1..], p);
      assert forall i :: 0 < i < |s| ==> s[i] == s[1..][i - 1];
      r
  }

  /** `s.filter(p).length` */
  function Count<T>(s: seq<T>, p: T -> bool): (n: nat)
    ensures n <= |s|
  {
    |Filter(s, p)|
  }

  /** Filtering by a predicate every element satisfies returns the list itself. */
  lemma {:induction false} FilterKeepsAll<T>(s: seq<T>, p: T -> bool)
    requires forall i :: 0 <= i < |s| ==> p(s[i])
    ensures Filter(s, p) == s
  {
    if s != [] {
      FilterKeepsAll(s[..|s| - 1], p);
      assert s == s[..|s| - 1] + [s[|s| - 1]];
    }
  }

  /** Filtering `s + [x]` is filtering `s` and then looking at `x`. */
  lemma FilterAppend<T>(s: seq<T>, x: T, p: T -> bool)
    ensures Filter(s + [x], p) == Filter(s, p) + (if p(x) then [x] else [])
  {
    assert (s + [x])[..|s|] == s;
  }

  /** When every element satisfies exactly one of `p`, `q`, `r`, the three counts add up to the length. */
  lemma {:induction false} CountPartition3<T>(s: seq<T>, p: T -> bool, q: T -> bool, r: T -> bool)
    requires forall i :: 0 <= i < |s| ==>
               (p(s[i]) && !q(s[i]) && !r(s[i])) ||
               (!p(s[i]) && q(s[i]) && !r(s[i])) ||
               (!p(s[i]) && !q(s[i]) && r(s[i]))
    ensures Count(s, p) + Count(s, q) + Count(s, r) == |s|
  {
    if s != [] {
      var init := s[..|s| - 1];
      CountPartition3(init, p, q, r);
      assert s == init + [s[|s| - 1]];
      FilterAppend(init, s[|s| - 1], p);
      FilterAppend(init, s[|s| - 1], q);
      FilterAppend(init, s[|s| - 1], r);
    }
  }

  /**
   * When the elements satisfying `whole` are exactly those satisfying one of `left` and `right`,
   * and none satisfies both, the two counts add up to the count of `whole`.
   */
  lemma {:induction false} CountSplit<T>(s: seq<T>, whole: T -> bool, left: T -> bool, right: T -> bool)
    requires forall i :: 0 <= i < |s| ==> (whole(s[i]) <==> left(s[i]) || right(s[i]))
    requires forall i :: 0 <= i < |s| ==> !(left(s[i]) && right(s[i]))
    ensures Count(s, left) + Count(s, right) == Count(s, whole)
  {
    if s != [] {
      var init := s[..|s| - 1];
      assert forall i :: 0 <= i < |init| ==> init[i] == s[i];
      CountSplit(init, whole, left, right);
      assert s == init + [s[|s| - 1]];
      FilterAppend(init, s[|s| - 1], whole);
      FilterAppend(init, s[|s| - 1], left);
      FilterAppend(init, s[|s| - 1], right);
    }
  }

  /** No element occurs twice. */
  predicate NoDuplicates<T(==)>(s: seq<T>) {
    forall i, j :: 0 <= i < j < |s| ==> s[i] != s[j]
  }

  /** The first index at which `x` occurs in `s`. */
  function FirstIndex<T(==)>(s: seq<T>, x: T): (k: nat)
    requires x in s
    ensures k < |s| && s[k] == x && x !in s[..k]
  {
    if s[0] == x then 0 else
      var k := FirstIndex(s[1..], x);
      assert s[..k + 1] == [s[0]] + s[1..][..k];
      k + 1
  }

  /** An element of a prefix is first found inside that prefix, at the same place. */
  lemma {:induction false} FirstIndexInPrefix<T>(s: seq<T>, n: nat, x: T)
    requires n <= |s| && x in s[..n]
    ensures FirstIndex(s, x) == FirstIndex(s[..n], x) < n
  {
    if s[0] != x {
      assert s[..n][1..] == s[1..][..n - 1];
      FirstIndexInPrefix(s[1..], n - 1, x);
    }
  }

  /**
   * `Array.from(new Set(s))`: every distinct element once (a JavaScript `Set` ignores repeated
   * insertions and iterates in insertion order; `DistinctKeepsFirstOccurrenceOrder` states the order).
   */
  function Distinct<T(==)>(s: seq<T>): (r: seq<T>)
    ensures forall i :: 0 <= i < |r| ==> r[i] in s
    ensures forall i :: 0 <= i < |s| ==> s[i] in r
    ensures NoDuplicates(r)
  {
    if s == [] then []
    else
      var init := Distinct(s[..|s| - 1]);
      var last := s[|s| - 1];
      assert s == s[..|s| - 1] + [last];
      if last in init then init else init + [last]
  }

  /** The elements of `Distinct(s)` come in the order in which they first occur in `s`. */
  lemma {:induction false} DistinctKeepsFirstOccurrenceOrder<T>(s: seq<T>)
    ensures forall i, j :: 0 <= i < j < |Distinct(s)| ==> FirstIndex(s, Distinct(s)[i]) < FirstIndex(s, Distinct(s)[j])
  {
    if s != [] {
      var prefix := s[..|s| - 1];
      var init := Distinct(prefix);
      var last := s[|s| - 1];
      assert s == prefix + [last];
      DistinctKeepsFirstOccurrenceOrder(prefix);
      forall x | x in prefix
        ensures FirstIndex(s, x) == FirstIndex(prefix, x) < |s| - 1
      {
        FirstIndexInPrefix(s, |s| - 1, x);
      }
      if last !in init {
        assert last !in prefix;
        assert FirstIndex(s, last) == |s| - 1;
      }
    }
  }
}

/**
 * Text helpers for the pages' search boxes, over ASCII: `toLowerCase` maps only 'A'..'Z', and
 * `includes` is substring search.
 */
module Text {
  import opened Common

  function LowerChar(c: char): (d: char)
    ensures 'A' <= c <= 'Z' ==> 'a' <= d <= 'z' && d as int == c as int + 32
    ensures !('A' <= c <= 'Z') ==> d == c
  {
    if 'A' <= c <= 'Z' then (c as int + 32) as char else c
  }

  function UpperChar(c: char): (d: char)
    ensures 'a' <= c <= 'z' ==> 'A' <= d <= 'Z' && d as int == c as int - 32
    ensures !('a' <= c <= 'z') ==> d == c
  {
    if 'a' <= c <= 'z' then (c as int - 32) as char else c
  }

  /** `s.toLowerCase()` restricted to ASCII letters. */
  function Lower(s: string): (r: string)
    ensures |r| == |s|
    ensures forall i :: 0 <= i < |s| ==> r[i] == LowerChar(s[i])
  {
    seq(|s|, i requires 0 <= i < |s| => LowerChar(s[i]))
  }

  /** `s.includes(part)` */
  predicate Contains(s: string, part: string) {
    exists i | 0 <= i <= |s| - |part| :: part <= s[i..]
  }

  /** The pages' case-insensitive search test: `field.toLowerCase().includes(term.toLowerCase())`. */
  predicate MatchesSearch(field: string, term: string) {
    Contains(Lower(field), Lower(term))
  }

  /** The same test on an optional field (`field?.toLowerCase().includes(...)`): a missing field never matches. */
  predicate MatchesOptional(field: Option<string>, term: string) {
    field.Some? && MatchesSearch(field.value, term)
  }

  /** The empty search term matches every field. */
  lemma EmptyTermMatches(field: string)
    ensures MatchesSearch(field, "")
  {
    assert "" <= Lower(field)[0..];
  }
}
