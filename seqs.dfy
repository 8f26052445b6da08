/** Sequence operations the sources perform with `Array.prototype.filter`,
    `new Set(...)` and `slice`, each defined once and proved once. */
module Seqs {

  /** `s.filter(keep)`: the elements of `s` that satisfy `keep`, in order. */
  function Filter<T(!new)>(s: seq<T>, keep: T -> bool): (r: seq<T>)
    ensures |r| <= |s|
    ensures forall x :: x in r <==> x in s && keep(x)
  {
    if s == [] then []
    else (if keep(s[0]) then [s[0]] else []) + Filter(s[1..], keep)
  }

  /** Filtering keeps every occurrence of a kept element and none of the
      others: it drops no duplicate. */
  lemma {:induction false} FilterMultiset<T(!new)>(s: seq<T>, keep: T -> bool)
    ensures forall x :: multiset(Filter(s, keep))[x] == if keep(x) then multiset(s)[x] else 0
  {
    if s != [] {
      FilterMultiset(s[1..], keep);
      var head := if keep(s[0]) then [s[0]] else [];
      assert s == [s[0]] + s[1..];
      assert multiset(s) == multiset([s[0]]) + multiset(s[1..]);
      assert multiset(Filter(s, keep)) == multiset(head) + multiset(Filter(s[1..], keep));
    }
  }

  /** `a` can be obtained from `b` by deleting elements: the order of what
      remains is the order of `b`. */
  ghost predicate IsSubsequence<T>(a: seq<T>, b: seq<T>)
    decreases |b|
  {
    if a == [] then true
    else if b == [] then false
    else (a[0] == b[0] && IsSubsequence(a[1..], b[1..])) || IsSubsequence(a, b[1..])
  }

  /** Every sequence is a subsequence of itself. */
  lemma {:induction false} SubsequenceReflexive<T>(s: seq<T>)
    ensures IsSubsequence(s, s)
  {
    if s != [] {
      SubsequenceReflexive(s[1..]);
    }
  }

  /** Filtering only deletes elements: it never adds or reorders any. */
  lemma {:induction false} FilterIsSubsequence<T(!new)>(s: seq<T>, keep: T -> bool)
    ensures IsSubsequence(Filter(s, keep), s)
  {
    if s != [] {
      FilterIsSubsequence(s[1..], keep);
      var rest := Filter(s[1..], keep);
      if keep(s[0]) {
        assert Filter(s, keep) == [s[0]] + rest;
        assert ([s[0]] + rest)[1..] == rest;
      } else {
        assert Filter(s, keep) == rest;
        if rest != [] {
          assert IsSubsequence(rest, s[1..]);
        }
      }
    }
  }

  /** Filtering keeps everything when everything passes. */
  lemma {:induction false} FilterAllKept<T(!new)>(s: seq<T>, keep: T -> bool)
    requires forall i :: 0 <= i < |s| ==> keep(s[i])
    ensures Filter(s, keep) == s
  {
    if s != [] {
      FilterAllKept(s[1..], keep);
      assert [s[0]] + s[1..] == s;
    }
  }

  /** Filtering keeps nothing when nothing passes. */
  lemma {:induction false} FilterNoneKept<T(!new)>(s: seq<T>, keep: T -> bool)
    requires forall i :: 0 <= i < |s| ==> !keep(s[i])
    ensures Filter(s, keep) == []
  {
    if s != [] {
      FilterNoneKept(s[1..], keep);
    }
  }

  /** Filtering distributes over concatenation. */
  lemma {:induction false} FilterConcat<T(!new)>(a: seq<T>, b: seq<T>, keep: T -> bool)
    ensures Filter(a + b, keep) == Filter(a, keep) + Filter(b, keep)
  {
    if a == [] {
      assert a + b == b;
    } else {
      var head := if keep(a[0]) then [a[0]] else [];
      FilterConcat(a[1..], b, keep);
      assert (a + b)[0] == a[0];
      assert (a + b)[1..] == a[1..] + b;
      calc {
        Filter(a + b, keep);
        head + Filter(a[1..] + b, keep);
        head + (Filter(a[1..], keep) + Filter(b, keep));
        (head + Filter(a[1..], keep)) + Filter(b, keep);
        Filter(a, keep) + Filter(b, keep);
      }
    }
  }

  /** Filtering twice with the same test is filtering once. */
  lemma {:induction false} FilterIdempotent<T(!new)>(s: seq<T>, keep: T -> bool)
    ensures Filter(Filter(s, keep), keep) == Filter(s, keep)
  {
    var r := Filter(s, keep);
    forall i | 0 <= i < |r| ensures keep(r[i]) {
      assert r[i] in r;
    }
    FilterAllKept(r, keep);
  }

  /** `[...new Set(s)]`: the distinct elements of `s` in order of first occurrence. */
  function Dedupe<T(==,!new)>(s: seq<T>): (r: seq<T>)
    ensures forall x :: x in r <==> x in s
    ensures Distinct(r)
    ensures |r| <= |s|
  {
    var r := DedupeFrom(s, []);
    assert [] + r == r;
    r
  }

  /** Continues a deduplication that has already kept `seen`. */
  function DedupeFrom<T(==,!new)>(s: seq<T>, seen: seq<T>): (r: seq<T>)
    requires Distinct(seen)
    ensures forall x :: x in r <==> x in s && x !in seen
    ensures Distinct(seen + r)
    ensures |r| <= |s|
  {
    if s == [] then []
    else if s[0] in seen then DedupeFrom(s[1..], seen)
    else
      var rest := DedupeFrom(s[1..], seen + [s[0]]);
      assert seen + [s[0]] + rest == seen + ([s[0]] + rest);
      [s[0]] + rest
  }

  /** Deduplication only deletes elements: it never adds or reorders any. */
  lemma {:induction false} DedupeFromIsSubsequence<T(!new)>(s: seq<T>, seen: seq<T>)
    requires Distinct(seen)
    ensures IsSubsequence(DedupeFrom(s, seen), s)
    decreases |s|
  {
    if s != [] {
      if s[0] in seen {
        DedupeFromIsSubsequence(s[1..], seen);
        var r := DedupeFrom(s[1..], seen);
        if r != [] {
          assert IsSubsequence(r, s[1..]);
        }
      } else {
        var rest := DedupeFrom(s[1..], seen + [s[0]]);
        DedupeFromIsSubsequence(s[1..], seen + [s[0]]);
        assert DedupeFrom(s, seen) == [s[0]] + rest;
        assert ([s[0]] + rest)[1..] == rest;
      }
    }
  }

  /** An element appended to `s` is kept, at the end, exactly when it has
      not occurred before; so every element is kept at its first occurrence. */
  lemma {:induction false} DedupeFromSnoc<T(!new)>(s: seq<T>, seen: seq<T>, x: T)
    requires Distinct(seen)
    ensures DedupeFrom(s + [x], seen) == if x in s || x in seen then DedupeFrom(s, seen) else DedupeFrom(s, seen) + [x]
    decreases |s|
  {
    if s == [] {
      assert s + [x] == [x];
      assert [x][1..] == [];
    } else {
      assert (s + [x])[0] == s[0];
      assert (s + [x])[1..] == s[1..] + [x];
      assert x in s <==> x == s[0] || x in s[1..] by {
        assert s == [s[0]] + s[1..];
      }
      if s[0] in seen {
        DedupeFromSnoc(s[1..], seen, x);
      } else {
        DedupeFromSnoc(s[1..], seen + [s[0]], x);
      }
    }
  }

  /** `[...new Set(s + [x])]` is `[...new Set(s)]`, followed by `x` exactly
      when `x` is new: together with `Dedupe([]) == []` this fixes the
      result as the first occurrences, in order. */
  lemma DedupeSnoc<T(!new)>(s: seq<T>, x: T)
    ensures Dedupe(s + [x]) == if x in s then Dedupe(s) else Dedupe(s) + [x]
  {
    DedupeFromSnoc(s, [], x);
  }

  /** A sequence without repetitions is its own deduplication. */
  lemma {:induction false} DedupeFromDistinct<T(!new)>(s: seq<T>, seen: seq<T>)
    requires Distinct(seen) && Distinct(seen + s)
    ensures DedupeFrom(s, seen) == s
    decreases |s|
  {
    if s != [] {
      assert (seen + s)[|seen|] == s[0];
      forall k | 0 <= k < |seen| ensures seen[k] != s[0] {
        assert (seen + s)[k] == seen[k];
      }
      assert s[0] !in seen;
      assert seen + [s[0]] + s[1..] == seen + s;
      DedupeFromDistinct(s[1..], seen + [s[0]]);
      assert [s[0]] + s[1..] == s;
    }
  }

  /** A prefix of a subsequence of `b` is a subsequence of `b`. */
  lemma {:induction false} PrefixOfSubsequence<T>(a: seq<T>, b: seq<T>, n: nat)
    requires n <= |a| && IsSubsequence(a, b)
    ensures IsSubsequence(a[..n], b)
    decreases |b|
  {
    if n > 0 {
      assert a != [] && b != [];
      if a[0] == b[0] && IsSubsequence(a[1..], b[1..]) {
        PrefixOfSubsequence(a[1..], b[1..], n - 1);
        assert a[..n][0] == b[0];
        assert a[..n][1..] == a[1..][..n - 1];
      } else {
        PrefixOfSubsequence(a, b[1..], n);
      }
    }
  }

  /** No element occurs twice. */
  predicate Distinct<T(==)>(s: seq<T>) {
    forall i, j :: 0 <= i < j < |s| ==> s[i] != s[j]
  }

  /** `s.slice(0, n)`. */
  function Take<T>(s: seq<T>, n: nat): (r: seq<T>)
    ensures |r| == if n < |s| then n else |s|
    ensures r == s[..|r|]
  {
    if n < |s| then s[..n] else s
  }
}
