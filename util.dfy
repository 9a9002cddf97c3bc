/** Small value-level helpers shared by the lead pipeline model: an optional
    value, order-preserving filtering, substring and case helpers, first-
    occurrence de-duplication and the sum of a counting map. */
module Util {

  datatype Option<+T> = None | Some(value: T)

  /** `r` can be obtained from `s` by deleting elements (order preserved). */
  predicate IsSubsequence<T(==)>(r: seq<T>, s: seq<T>)
    decreases |s|
  {
    if r == [] then true
    else if s == [] then false
    else (r[0] == s[0] && IsSubsequence(r[1..], s[1..])) || IsSubsequence(r, s[1..])
  }

  /** Every sequence is a subsequence of itself. */
  lemma {:induction false} SubsequenceReflexive<T>(s: seq<T>)
    ensures IsSubsequence(s, s)
  {
    if s != [] {
      SubsequenceReflexive(s[1..]);
    }
  }

  /** A subsequence stays one when the same element is put in front of both
      sides, or in front of the larger side only. */
  lemma SubsequenceCons<T>(x: T, r: seq<T>, s: seq<T>)
    requires IsSubsequence(r, s)
    ensures IsSubsequence([x] + r, [x] + s)
    ensures IsSubsequence(r, [x] + s)
  {
    assert ([x] + r)[1..] == r;
    assert ([x] + s)[1..] == s;
  }

  /** JavaScript's `Array.prototype.filter`: the elements satisfying `p`, in order. */
  function Filter<T(==,!new)>(s: seq<T>, p: T -> bool): (r: seq<T>)
    ensures |r| <= |s|
    ensures forall i :: 0 <= i < |r| ==> p(r[i])
  {
    if s == [] then []
    else if p(s[0]) then
      var rest := Filter(s[1..], p);
      assert s == [s[0]] + s[1..];
      [s[0]] + rest
    else
      var rest := Filter(s[1..], p);
      assert s == [s[0]] + s[1..];
      rest
  }

  /** Exactly the elements of `s` satisfying `p` survive filtering. */
  lemma {:induction false} FilterMembers<T(!new)>(s: seq<T>, p: T -> bool)
    ensures forall x :: x in Filter(s, p) <==> x in s && p(x)
  {
    if s != [] {
      FilterMembers(s[1..], p);
      assert s == [s[0]] + s[1..];
    }
  }

  /** Filtering only deletes: the kept elements keep their order and their
      multiplicities never grow. */
  lemma {:induction false} FilterSubsequence<T(!new)>(s: seq<T>, p: T -> bool)
    ensures IsSubsequence(Filter(s, p), s)
    ensures multiset(Filter(s, p)) <= multiset(s)
  {
    if s != [] {
      FilterSubsequence(s[1..], p);
      assert s == [s[0]] + s[1..];
      SubsequenceCons(s[0], Filter(s[1..], p), s[1..]);
    }
  }

  /** Each value keeps all its occurrences when it satisfies `p` and loses
      them all when it does not. */
  lemma {:induction false} FilterMultiset<T(!new)>(s: seq<T>, p: T -> bool)
    ensures forall y :: multiset(Filter(s, p))[y] == if p(y) then multiset(s)[y] else 0
  {
    if s != [] {
      FilterMultiset(s[1..], p);
      assert s == [s[0]] + s[1..];
    }
  }

  /** Filtering twice is filtering once by both predicates. */
  lemma {:induction false} FilterFilter<T(!new)>(s: seq<T>, p: T -> bool, q: T -> bool)
    ensures Filter(Filter(s, p), q) == Filter(s, x => p(x) && q(x))
  {
    if s != [] {
      FilterFilter(s[1..], p, q);
      if p(s[0]) {
        assert Filter(s, p)[1..] == Filter(s[1..], p);
      }
    }
  }

  /** What two filters in a row keep: the elements passing both, in order,
      each with all its occurrences. */
  lemma FilterFilterKeeps<T(!new)>(s: seq<T>, p: T -> bool, q: T -> bool)
    ensures IsSubsequence(Filter(Filter(s, p), q), s)
    ensures forall x :: x in Filter(Filter(s, p), q) <==> x in s && p(x) && q(x)
    ensures forall y :: multiset(Filter(Filter(s, p), q))[y] == (if p(y) && q(y) then multiset(s)[y] else 0)
  {
    var both := x => p(x) && q(x);
    FilterFilter(s, p, q);
    FilterSubsequence(s, both);
    FilterMembers(s, both);
    FilterMultiset(s, both);
  }

  /** Filtering distributes over concatenation. */
  lemma {:induction false} FilterAppend<T(!new)>(s: seq<T>, t: seq<T>, p: T -> bool)
    ensures Filter(s + t, p) == Filter(s, p) + Filter(t, p)
  {
    if s == [] {
      assert s + t == t;
    } else {
      assert (s + t)[1..] == s[1..] + t;
      FilterAppend(s[1..], t, p);
    }
  }

  /** Filtering with a predicate that holds everywhere is the identity. */
  lemma {:induction false} FilterAll<T(!new)>(s: seq<T>, p: T -> bool)
    requires forall x :: x in s ==> p(x)
    ensures Filter(s, p) == s
  {
    if s != [] {
      FilterAll(s[1..], p);
    }
  }

  /** Filtering with two predicates that agree on `s` gives the same result. */
  lemma {:induction false} FilterCongruent<T(!new)>(s: seq<T>, p: T -> bool, q: T -> bool)
    requires forall x :: x in s ==> (p(x) <==> q(x))
    ensures Filter(s, p) == Filter(s, q)
  {
    if s != [] {
      FilterCongruent(s[1..], p, q);
    }
  }

  /** `filter(p).length`. */
  function Count<T(==,!new)>(s: seq<T>, p: T -> bool): (n: nat)
    ensures n <= |s|
    ensures n == 0 <==> forall x :: x in s ==> !p(x)
  {
    var r := Filter(s, p);
    FilterMembers(s, p);
    assert r != [] ==> r[0] in r;
    |r|
  }

  /** Counting peels off the first element. */
  lemma CountCons<T(!new)>(s: seq<T>, p: T -> bool)
    requires s != []
    ensures Count(s, p) == Count(s[1..], p) + (if p(s[0]) then 1 else 0)
  {
  }

  /** The elements of `s` in reverse order (`Array.prototype.reverse`). */
  function Reverse<T>(s: seq<T>): (r: seq<T>)
    ensures |r| == |s|
    ensures forall i :: 0 <= i < |s| ==> r[i] == s[|s| - 1 - i]
  {
    if s == [] then [] else Reverse(s[1..]) + [s[0]]
  }

  /** `s.includes(sub)`: `sub` occurs contiguously somewhere in `s`. */
  predicate IsSubstring(sub: string, s: string)
  {
    exists i :: 0 <= i <= |s| - |sub| && sub <= s[i..]
  }

  /** The empty string occurs in every string, and every string in itself. */
  lemma SubstringTrivial(s: string)
    ensures IsSubstring("", s) && IsSubstring(s, s)
  {
    assert "" <= s[0..];
    assert s <= s[0..];
  }

  /** `toLowerCase()` on one character (letters A-Z only). */
  function LowerChar(c: char): (d: char)
    ensures 'A' <= c <= 'Z' ==> 'a' <= d <= 'z'
    ensures !('A' <= c <= 'Z') ==> d == c
  {
    if 'A' <= c <= 'Z' then (c as int - 'A' as int + 'a' as int) as char else c
  }

  /** `toLowerCase()` on a string, character by character. */
  function Lower(s: string): (r: string)
    ensures |r| == |s|
    ensures forall i :: 0 <= i < |s| ==> r[i] == LowerChar(s[i])
  {
    if s == [] then [] else [LowerChar(s[0])] + Lower(s[1..])
  }

  /** Lower-casing distributes over concatenation. */
  lemma {:induction false} LowerAppend(s: string, t: string)
    ensures Lower(s + t) == Lower(s) + Lower(t)
  {
    if s != [] {
      assert (s + t)[1..] == s[1..] + t;
      LowerAppend(s[1..], t);
    } else {
      assert s + t == t;
    }
  }

  /** Lower-casing twice is lower-casing once. */
  lemma LowerIdempotent(s: string)
    ensures Lower(Lower(s)) == Lower(s)
  {
  }

  /** `parts.join(sep)`. */
  function Join(parts: seq<string>, sep: string): (r: string)
    ensures forall i :: 0 <= i < |parts| ==> IsSubstring(parts[i], r)
  {
    if parts == [] then ""
    else if |parts| == 1 then
      assert parts[0] <= parts[0][0..];
      parts[0]
    else
      var rest := Join(parts[1..], sep);
      var r := parts[0] + sep + rest;
      assert parts[0] <= r[0..];
      forall i | 1 <= i < |parts|
        ensures IsSubstring(parts[i], r)
      {
        assert parts[1..][i - 1] == parts[i];
        var k :| 0 <= k <= |rest| - |parts[i]| && parts[i] <= rest[k..];
        assert r[|parts[0]| + |sep| + k..] == rest[k..];
      }
      r
  }

  /** No value occurs twice. */
  predicate NoDuplicates<T(==)>(s: seq<T>)
  {
    forall i, j :: 0 <= i < j < |s| ==> s[i] != s[j]
  }

  /** `[...new Set(s)]` starting from an already-seen set: the first occurrence
      of every value of `s` that is not in `seen`, in order of first occurrence. */
  function DistinctFrom<T(==,!new)>(s: seq<T>, seen: set<T>): (r: seq<T>)
    ensures NoDuplicates(r)
    ensures forall x :: x in r <==> x in s && x !in seen
    ensures IsSubsequence(r, s)
  {
    if s == [] then []
    else if s[0] in seen then
      var rest := DistinctFrom(s[1..], seen);
      assert rest != [] ==> rest[0] != s[0];
      rest
    else
      var rest := DistinctFrom(s[1..], seen + {s[0]});
      [s[0]] + rest
  }

  /** The position of the first occurrence of `x` in `s` (`indexOf`). */
  function FirstIndex<T(==)>(s: seq<T>, x: T): (i: nat)
    requires x in s
    ensures i < |s| && s[i] == x
    ensures forall j :: 0 <= j < i ==> s[j] != x
  {
    if s[0] == x then 0 else 1 + FirstIndex(s[1..], x)
  }

  /** The values of `r` appear in the order of their first occurrences in `s`. */
  predicate InFirstOccurrenceOrder<T(==)>(r: seq<T>, s: seq<T>) {
    forall i, j :: 0 <= i < j < |r| ==>
      r[i] in s && r[j] in s && FirstIndex(s, r[i]) < FirstIndex(s, r[j])
  }

  /** A value other than the head first occurs one step later in `s` than in
      its tail. */
  lemma FirstIndexTail<T>(s: seq<T>, x: T)
    requires x in s && x != s[0]
    ensures x in s[1..] && FirstIndex(s, x) == 1 + FirstIndex(s[1..], x)
  {
    assert s == [s[0]] + s[1..];
  }

  /** An order by first occurrence in the tail of `s`, of values other than
      its head, is one in `s` too, also with the head put in front. */
  lemma FirstOccurrenceCons<T>(r: seq<T>, s: seq<T>)
    requires s != [] && InFirstOccurrenceOrder(r, s[1..])
    requires forall x :: x in r ==> x in s[1..] && x != s[0]
    ensures InFirstOccurrenceOrder(r, s)
    ensures InFirstOccurrenceOrder([s[0]] + r, s)
  {
    forall x | x in r
      ensures FirstIndex(s, x) == 1 + FirstIndex(s[1..], x)
    {
      FirstIndexTail(s, x);
    }
    var r' := [s[0]] + r;
    forall i, j | 0 <= i < j < |r'|
      ensures r'[i] in s && r'[j] in s && FirstIndex(s, r'[i]) < FirstIndex(s, r'[j])
    {
      assert r'[j] == r[j - 1];
      if i > 0 {
        assert r'[i] == r[i - 1];
      }
    }
  }

  /** De-duplication lists the values by their first occurrence in `s`. */
  lemma {:induction false} DistinctFromFirstOccurrence<T(!new)>(s: seq<T>, seen: set<T>)
    ensures InFirstOccurrenceOrder(DistinctFrom(s, seen), s)
  {
    if s != [] {
      var seen' := if s[0] in seen then seen else seen + {s[0]};
      DistinctFromFirstOccurrence(s[1..], seen');
      FirstOccurrenceCons(DistinctFrom(s[1..], seen'), s);
    }
  }

  /** `[...new Set(s)]`: every value of `s` exactly once, by first occurrence. */
  function Distinct<T(==,!new)>(s: seq<T>): (r: seq<T>)
    ensures NoDuplicates(r)
    ensures forall x :: x in r <==> x in s
    ensures IsSubsequence(r, s)
  {
    DistinctFrom(s, {})
  }

  /** `[...new Set(s)]` lists the values in the order they first occur in `s`. */
  lemma DistinctFirstOccurrence<T(!new)>(s: seq<T>)
    ensures InFirstOccurrenceOrder(Distinct(s), s)
  {
    DistinctFromFirstOccurrence(s, {});
  }

  /** The concatenation of all the sequences in `ss` (`flatMap`). */
  function Flatten<T>(ss: seq<seq<T>>): (r: seq<T>)
    ensures forall i, x :: 0 <= i < |ss| && x in ss[i] ==> x in r
    ensures forall x :: x in r ==> exists i :: 0 <= i < |ss| && x in ss[i]
  {
    if ss == [] then []
    else
      var rest := Flatten(ss[1..]);
      assert forall i :: 1 <= i < |ss| ==> ss[1..][i - 1] == ss[i];
      ss[0] + rest
  }

  /** The sum of the counts held in a counting dictionary. */
  ghost function MapSum<K>(m: map<K, nat>): nat
  {
    if m == map[] then 0
    else
      var k :| k in m;
      m[k] + MapSum(m - {k})
  }

  /** The sum can be split at any key, not only the one the definition picks. */
  lemma {:induction false} MapSumRemove<K>(m: map<K, nat>, k: K)
    requires k in m
    ensures MapSum(m) == m[k] + MapSum(m - {k})
    decreases |m|
  {
    var j :| j in m && MapSum(m) == m[j] + MapSum(m - {j});
    if j != k {
      var mj, mk := m - {j}, m - {k};
      assert |mj| < |m| by { assert mj.Keys < m.Keys; }
      MapSumRemove(mj, k);
      assert |mk| < |m| by { assert mk.Keys < m.Keys; }
      MapSumRemove(mk, j);
      assert mj - {k} == mk - {j};
    }
  }

  /** `m[k] = (m[k] || 0) + 1`: one more occurrence of `k`. */
  function Bump<K>(m: map<K, nat>, k: K): (r: map<K, nat>)
    ensures r.Keys == m.Keys + {k}
    ensures r[k] == (if k in m then m[k] else 0) + 1
    ensures forall j :: j in m && j != k ==> r[j] == m[j]
  {
    m[k := if k in m then m[k] + 1 else 1]
  }

  /** Adding one to the count of `k` (creating it at 1 when absent) adds one
      to the sum. */
  lemma MapSumIncrement<K>(m: map<K, nat>, k: K)
    ensures MapSum(Bump(m, k)) == MapSum(m) + 1
  {
    var m' := Bump(m, k);
    MapSumRemove(m', k);
    assert m' - {k} == m - {k};
    if k in m {
      MapSumRemove(m, k);
    } else {
      assert m - {k} == m;
    }
  }
}
