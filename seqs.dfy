/**
 * The array operations the store's reducers are made of: `findIndex`, `find`, `filter`,
 * `slice(0, n)`, and the find-then-assign update of a record by its id.
 */
module Seqs {
  import opened Types

  function Min(a: int, b: int): int { if a <= b then a else b }

  /** `s.slice(0, n)`: the first `min(n, |s|)` elements. */
  function Take<T>(s: seq<T>, n: nat): (r: seq<T>)
    ensures |r| == Min(n, |s|)
    ensures r == s[..|r|]
  {
    if n <= |s| then s[..n] else s
  }

  /** p is an initial run of s. */
  predicate IsPrefix<T(==)>(p: seq<T>, s: seq<T>) {
    p == [] || (s != [] && p[0] == s[0] && IsPrefix(p[1..], s[1..]))
  }

  lemma {:induction false} IsPrefixIff<T>(p: seq<T>, s: seq<T>)
    ensures IsPrefix(p, s) <==> |p| <= |s| && s[..|p|] == p
  {
    if p != [] && s != [] {
      IsPrefixIff(p[1..], s[1..]);
      if |p| <= |s| && s[..|p|] == p {
        assert s[1..][..|p| - 1] == s[..|p|][1..];
      }
      if IsPrefix(p, s) {
        assert s[..|p|] == [s[0]] + s[1..][..|p| - 1];
        assert p == [p[0]] + p[1..];
      }
    }
  }

  lemma {:induction false} PrefixRefl<T>(s: seq<T>)
    ensures IsPrefix(s, s)
  {
    if s != [] {
      PrefixRefl(s[1..]);
    }
  }

  /** Appending to a sequence keeps its prefixes. */
  lemma {:induction false} PrefixExtend<T>(p: seq<T>, s: seq<T>, x: T)
    requires IsPrefix(p, s)
    ensures IsPrefix(p, s + [x])
  {
    if p != [] {
      assert (s + [x])[1..] == s[1..] + [x];
      PrefixExtend(p[1..], s[1..], x);
    }
  }

  /** `s.findIndex(e => key(e) === id)`: the first position holding `id`, or -1. */
  function FirstIndex<T>(s: seq<T>, key: T -> string, id: string): (i: int)
    ensures -1 <= i < |s|
    ensures i >= 0 ==> key(s[i]) == id
    ensures forall j :: 0 <= j < |s| && (i == -1 || j < i) ==> key(s[j]) != id
  {
    if s == [] then -1
    else if key(s[0]) == id then 0
    else
      var k := FirstIndex(s[1..], key, id);
      if k == -1 then -1 else k + 1
  }

  /** `s.find(e => key(e) === id)`. */
  function Find<T(==)>(s: seq<T>, key: T -> string, id: string): (r: Option<T>)
    ensures r.None? <==> forall j :: 0 <= j < |s| ==> key(s[j]) != id
    ensures r.Some? ==> r.value in s && key(r.value) == id
    ensures r.Some? ==> 0 <= FirstIndex(s, key, id) && r.value == s[FirstIndex(s, key, id)]
  {
    var i := FirstIndex(s, key, id);
    if i == -1 then None else Some(s[i])
  }

  /** The `update*` reducers: find the index of `x`'s id and, when found, assign `x` there. */
  function UpdateFirst<T>(s: seq<T>, key: T -> string, x: T): (r: seq<T>)
    ensures |r| == |s|
    ensures r == s || x in r
  {
    var i := FirstIndex(s, key, key(x));
    if i == -1 then s else s[i := x]
  }

  /**
   * When the id is present, exactly the first record carrying it is replaced and
   * every other position and the length stay as they were; when absent, nothing changes.
   */
  lemma UpdateFirstSpec<T>(s: seq<T>, key: T -> string, x: T)
    ensures var r, i := UpdateFirst(s, key, x), FirstIndex(s, key, key(x));
      && |r| == |s|
      && (i == -1 <==> forall j :: 0 <= j < |s| ==> key(s[j]) != key(x))
      && (i == -1 ==> r == s)
      && (i != -1 ==> r[i] == x && forall j :: 0 <= j < |s| && j != i ==> r[j] == s[j])
  {
  }

  /** Positions before the first occurrence are untouched by a replacement at or after it. */
  lemma {:induction false} FirstIndexAfterReplace<T>(s: seq<T>, key: T -> string, i: nat, x: T)
    requires i < |s| && FirstIndex(s, key, key(x)) == i
    ensures FirstIndex(s[i := x], key, key(x)) == i
  {
    if i > 0 {
      assert key(s[0]) != key(x);
      assert s[i := x][1..] == s[1..][i - 1 := x];
      FirstIndexAfterReplace(s[1..], key, i - 1, x);
    }
  }

  /** Applying the same update twice is the same as applying it once. */
  lemma UpdateFirstIdempotent<T>(s: seq<T>, key: T -> string, x: T)
    ensures UpdateFirst(UpdateFirst(s, key, x), key, x) == UpdateFirst(s, key, x)
  {
    var i := FirstIndex(s, key, key(x));
    if i != -1 {
      FirstIndexAfterReplace(s, key, i, x);
    }
  }

  /** `s.filter(p)`. */
  function Filter<T>(s: seq<T>, p: T -> bool): (r: seq<T>)
    ensures |r| <= |s|
    ensures forall k :: 0 <= k < |r| ==> p(r[k])
  {
    if s == [] then []
    else if p(s[0]) then [s[0]] + Filter(s[1..], p)
    else Filter(s[1..], p)
  }

  /** `ks` lists increasing positions of `s` at which the elements of `r` sit, in order. */
  ghost predicate Embeds<T>(r: seq<T>, s: seq<T>, ks: seq<int>) {
    && |ks| == |r|
    && (forall k :: 0 <= k < |ks| ==> 0 <= ks[k] < |s| && r[k] == s[ks[k]])
    && (forall k, l :: 0 <= k < l < |ks| ==> ks[k] < ks[l])
  }

  /** Every position moved one place on. */
  function Shift(ks: seq<int>): (r: seq<int>)
    ensures |r| == |ks| && forall k :: 0 <= k < |ks| ==> r[k] == ks[k] + 1
  {
    seq(|ks|, k requires 0 <= k < |ks| => ks[k] + 1)
  }

  /** The positions of `s` whose elements `Filter(s, p)` keeps. */
  ghost function KeptPositions<T>(s: seq<T>, p: T -> bool): seq<int> {
    if s == [] then []
    else if p(s[0]) then [0] + Shift(KeptPositions(s[1..], p))
    else Shift(KeptPositions(s[1..], p))
  }

  /** Positions in the tail of `s` are positions in `s`, one further on. */
  lemma ShiftEmbeds<T>(r: seq<T>, s: seq<T>, ks: seq<int>)
    requires s != [] && Embeds(r, s[1..], ks)
    ensures Embeds(r, s, Shift(ks))
    ensures forall k :: 0 <= k < |ks| ==> 0 < Shift(ks)[k]
  {
  }

  /**
   * Filtering keeps order: the survivors sit at increasing positions of the input, and every
   * position whose element satisfies `p` is one of them.
   */
  lemma {:induction false} FilterKeepsOrder<T>(s: seq<T>, p: T -> bool)
    ensures Embeds(Filter(s, p), s, KeptPositions(s, p))
    ensures forall i :: 0 <= i < |s| && p(s[i]) ==> i in KeptPositions(s, p)
  {
    if s != [] {
      FilterKeepsOrder(s[1..], p);
      var rest := KeptPositions(s[1..], p);
      ShiftEmbeds(Filter(s[1..], p), s, rest);
      forall i | 0 < i < |s| && p(s[i]) ensures i in Shift(rest) {
        assert s[1..][i - 1] == s[i];
        var j :| 0 <= j < |rest| && rest[j] == i - 1;
        assert Shift(rest)[j] == i;
      }
      if p(s[0]) {
        PrependZero(Filter(s[1..], p), s, Shift(rest));
      }
    }
  }

  /** The head of `s` placed in front of an embedding of positions past it. */
  lemma PrependZero<T>(r: seq<T>, s: seq<T>, ks: seq<int>)
    requires s != [] && Embeds(r, s, ks)
    requires forall k :: 0 <= k < |ks| ==> 0 < ks[k]
    ensures Embeds([s[0]] + r, s, [0] + ks)
  {
  }

  /** Filtering a concatenation filters each part in turn: the kept elements keep their order. */
  lemma {:induction false} FilterAppend<T>(a: seq<T>, b: seq<T>, p: T -> bool)
    ensures Filter(a + b, p) == Filter(a, p) + Filter(b, p)
  {
    if a != [] {
      assert (a + b)[0] == a[0];
      assert (a + b)[1..] == a[1..] + b;
      FilterAppend(a[1..], b, p);
      assert a + b != [];
      if p(a[0]) {
        calc {
          Filter(a + b, p);
          [a[0]] + Filter(a[1..] + b, p);
          [a[0]] + (Filter(a[1..], p) + Filter(b, p));
          ([a[0]] + Filter(a[1..], p)) + Filter(b, p);
        }
      } else {
        assert Filter(a + b, p) == Filter(a[1..] + b, p);
      }
    } else {
      assert a + b == b;
    }
  }

  /** Every element satisfying `p` is kept as often as it occurs; every other element is dropped. */
  lemma {:induction false} FilterMultiset<T>(s: seq<T>, p: T -> bool)
    ensures forall x :: multiset(Filter(s, p))[x] == if p(x) then multiset(s)[x] else 0
  {
    if s != [] {
      FilterMultiset(s[1..], p);
      assert s == [s[0]] + s[1..];
    }
  }

  /** Membership in the filtered sequence. */
  lemma FilterMembership<T>(s: seq<T>, p: T -> bool, x: T)
    ensures x in Filter(s, p) <==> x in s && p(x)
  {
    FilterMultiset(s, p);
    assert x in Filter(s, p) <==> multiset(Filter(s, p))[x] > 0;
    assert x in s <==> multiset(s)[x] > 0;
  }

  /** Filtering changes nothing exactly when every element already satisfies `p`. */
  lemma {:induction false} FilterUnchangedIff<T>(s: seq<T>, p: T -> bool)
    ensures Filter(s, p) == s <==> forall k :: 0 <= k < |s| ==> p(s[k])
  {
    if s != [] {
      FilterUnchangedIff(s[1..], p);
      if !p(s[0]) {
        assert |Filter(s, p)| < |s| by {
          assert Filter(s, p) == Filter(s[1..], p);
        }
      } else {
        assert (forall k :: 0 <= k < |s| ==> p(s[k])) <==> (forall k :: 0 <= k < |s[1..]| ==> p(s[1..][k]));
      }
    }
  }

  /** Filtering twice by the same predicate is filtering once. */
  lemma FilterIdempotent<T>(s: seq<T>, p: T -> bool)
    ensures Filter(Filter(s, p), p) == Filter(s, p)
  {
    FilterUnchangedIff(Filter(s, p), p);
  }

  /** `s.filter(e => key(e) !== id)`: the `remove*` reducers. */
  function RemoveById<T>(s: seq<T>, key: T -> string, id: string): (r: seq<T>)
    ensures |r| <= |s|
    ensures forall k :: 0 <= k < |r| ==> key(r[k]) != id
  {
    Filter(s, (e: T) => key(e) != id)
  }

  /** Removal drops every record carrying `id`, keeps every other one as often as it occurs, and keeps their order. */
  lemma RemoveByIdSpec<T>(s: seq<T>, key: T -> string, id: string)
    ensures var r := RemoveById(s, key, id);
      && (forall k :: 0 <= k < |r| ==> key(r[k]) != id)
      && (forall x :: key(x) != id ==> multiset(r)[x] == multiset(s)[x])
      && (r == s <==> forall k :: 0 <= k < |s| ==> key(s[k]) != id)
      && Embeds(r, s, KeptPositions(s, (e: T) => key(e) != id))
      && (forall i :: 0 <= i < |s| && key(s[i]) != id ==> i in KeptPositions(s, (e: T) => key(e) != id))
  {
    FilterMultiset(s, (e: T) => key(e) != id);
    FilterKeepsOrder(s, (e: T) => key(e) != id);
    FilterUnchangedIff(s, (e: T) => key(e) != id);
  }

  /** `(a + b).filter(...)` for removal: order is kept block by block. */
  lemma RemoveByIdAppend<T>(a: seq<T>, b: seq<T>, key: T -> string, id: string)
    ensures RemoveById(a + b, key, id) == RemoveById(a, key, id) + RemoveById(b, key, id)
  {
    FilterAppend(a, b, (e: T) => key(e) != id);
  }
}
