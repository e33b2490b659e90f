/** Sequence notions used by the search pipeline: subsequences (what `filter`
    keeps), first occurrences and duplicate removal (what `[...new Set(xs)]`
    computes) and `slice(0, n)`. */
module Seqs {

  /** `a` is obtained from `b` by deleting elements, keeping the order. */
  predicate IsSubsequence<T(==)>(a: seq<T>, b: seq<T>) {
    a == [] || (b != [] && ((a[0] == b[0] && IsSubsequence(a[1..], b[1..])) || IsSubsequence(a, b[1..])))
  }

  lemma {:induction false} SubsequenceRefl<T>(a: seq<T>)
    ensures IsSubsequence(a, a)
  {
    if a != [] {
      SubsequenceRefl(a[1..]);
    }
  }

  /** Everything in a subsequence is in the sequence. */
  lemma {:induction false} SubsequenceMembers<T>(a: seq<T>, b: seq<T>)
    requires IsSubsequence(a, b)
    ensures forall x :: x in a ==> x in b
  {
    if a != [] {
      if a[0] == b[0] && IsSubsequence(a[1..], b[1..]) {
        SubsequenceMembers(a[1..], b[1..]);
        assert a == [a[0]] + a[1..];
      } else {
        SubsequenceMembers(a, b[1..]);
      }
    }
  }

  /** A subsequence is no longer than the sequence. */
  lemma {:induction false} SubsequenceLength<T>(a: seq<T>, b: seq<T>)
    requires IsSubsequence(a, b)
    ensures |a| <= |b|
  {
    if a != [] {
      if a[0] == b[0] && IsSubsequence(a[1..], b[1..]) {
        SubsequenceLength(a[1..], b[1..]);
      } else {
        SubsequenceLength(a, b[1..]);
      }
    }
  }

  /** No element occurs twice. */
  predicate NoDuplicates<T(==)>(s: seq<T>) {
    forall i, j :: 0 <= i < j < |s| ==> s[i] != s[j]
  }

  /** The index of the first occurrence of `x` in `s`. */
  function FirstIndex<T(==)>(s: seq<T>, x: T): (i: nat)
    requires x in s
    ensures i < |s| && s[i] == x && x !in s[..i]
  {
    if s[0] == x then 0 else 1 + FirstIndex(s[1..], x)
  }

  /** `[...new Set(s)]` started with the elements of `seen` already in the set. */
  function DedupeFrom<T(==)>(s: seq<T>, seen: set<T>): seq<T> {
    if s == [] then []
    else if s[0] in seen then DedupeFrom(s[1..], seen)
    else [s[0]] + DedupeFrom(s[1..], seen + {s[0]})
  }

  /** What `DedupeFrom` keeps: exactly the elements of `s` not in `seen`, each once. */
  lemma {:induction false} DedupeFromMembers<T>(s: seq<T>, seen: set<T>)
    ensures var r := DedupeFrom(s, seen);
      && NoDuplicates(r)
      && (forall i :: 0 <= i < |r| ==> r[i] in s && r[i] !in seen)
      && (forall i :: 0 <= i < |s| && s[i] !in seen ==> s[i] in r)
  {
    if s != [] {
      if s[0] in seen {
        DedupeFromMembers(s[1..], seen);
      } else {
        var rest := DedupeFrom(s[1..], seen + {s[0]});
        DedupeFromMembers(s[1..], seen + {s[0]});
        var r := [s[0]] + rest;
        assert r[1..] == rest;
        forall i | 0 <= i < |s| && s[i] !in seen ensures s[i] in r {
          if i > 0 && s[i] != s[0] {
            assert s[i] == s[1..][i - 1];
          }
        }
      }
    }
  }

  /** `DedupeFrom` keeps the order of `s`. */
  lemma {:induction false} DedupeFromSubsequence<T>(s: seq<T>, seen: set<T>)
    ensures IsSubsequence(DedupeFrom(s, seen), s)
  {
    if s != [] {
      if s[0] in seen {
        DedupeFromSubsequence(s[1..], seen);
      } else {
        var rest := DedupeFrom(s[1..], seen + {s[0]});
        DedupeFromSubsequence(s[1..], seen + {s[0]});
        assert ([s[0]] + rest)[1..] == rest;
      }
    }
  }

  /** Past the head, first occurrences move up by one. */
  lemma FirstIndexTail<T>(s: seq<T>, x: T)
    requires x in s && x != s[0]
    ensures x in s[1..] && FirstIndex(s, x) == 1 + FirstIndex(s[1..], x)
  {
  }

  /** Ordered by first occurrence in `s`. */
  predicate InFirstOccurrenceOrder<T(==)>(r: seq<T>, s: seq<T>)
    requires forall i :: 0 <= i < |r| ==> r[i] in s
  {
    forall i, j :: 0 <= i < j < |r| ==> FirstIndex(s, r[i]) < FirstIndex(s, r[j])
  }

  /** Prefixing the head of `s` to a list ordered in its tail keeps the order in `s`. */
  lemma OrderCons<T>(s: seq<T>, r: seq<T>, keepHead: bool)
    requires s != []
    requires forall i :: 0 <= i < |r| ==> r[i] in s[1..] && r[i] != s[0]
    requires InFirstOccurrenceOrder(r, s[1..])
    ensures var r' := if keepHead then [s[0]] + r else r;
      (forall i :: 0 <= i < |r'| ==> r'[i] in s) && InFirstOccurrenceOrder(r', s)
  {
    forall i | 0 <= i < |r| ensures FirstIndex(s, r[i]) == 1 + FirstIndex(s[1..], r[i]) {
      FirstIndexTail(s, r[i]);
    }
    if keepHead {
      var r' := [s[0]] + r;
      forall i, j | 0 <= i < j < |r'| ensures FirstIndex(s, r'[i]) < FirstIndex(s, r'[j]) {
        assert r'[j] == r[j - 1];
        if i > 0 {
          assert r'[i] == r[i - 1];
        }
      }
    }
  }

  /** `DedupeFrom` lists the elements in the order of their first occurrence in `s`. */
  lemma {:induction false} DedupeFromOrder<T>(s: seq<T>, seen: set<T>)
    ensures var r := DedupeFrom(s, seen);
      (forall i :: 0 <= i < |r| ==> r[i] in s) && InFirstOccurrenceOrder(r, s)
  {
    if s != [] {
      var seen' := if s[0] in seen then seen else seen + {s[0]};
      DedupeFromOrder(s[1..], seen');
      DedupeFromMembers(s[1..], seen');
      OrderCons(s, DedupeFrom(s[1..], seen'), s[0] !in seen);
    }
  }

  /** `[...new Set(s)]`: every element of `s` once, in the order of first occurrence. */
  function Dedupe<T(==)>(s: seq<T>): (r: seq<T>)
    ensures NoDuplicates(r)
    ensures forall i :: 0 <= i < |r| ==> r[i] in s
    ensures forall i :: 0 <= i < |s| ==> s[i] in r
    ensures IsSubsequence(r, s)
    ensures InFirstOccurrenceOrder(r, s)
  {
    DedupeFromMembers(s, {});
    DedupeFromSubsequence(s, {});
    DedupeFromOrder(s, {});
    DedupeFrom(s, {})
  }

  /** `s.slice(0, n)`. */
  function Take<T>(s: seq<T>, n: nat): (r: seq<T>)
    ensures |r| <= n && r <= s
    ensures |s| <= n ==> r == s
    ensures n <= |s| ==> |r| == n
  {
    if |s| <= n then s else s[..n]
  }

  /** The first `n` distinct elements of `s`: distinct, from `s`, in order of first
      occurrence, all of them when fewer than `n` are kept, none only when `s` is empty
      or `n` is zero, and each kept one occurring first before every dropped one. */
  lemma TakeOfDedupe<T>(s: seq<T>, n: nat)
    ensures var r := Take(Dedupe(s), n);
      && NoDuplicates(r)
      && (forall k :: 0 <= k < |r| ==> r[k] in s)
      && InFirstOccurrenceOrder(r, s)
      && (|r| < n ==> forall x :: x in s ==> x in r)
      && (0 < n ==> (r == [] <==> s == []))
      && (forall k, x :: 0 <= k < |r| && x in s && x !in r ==> FirstIndex(s, r[k]) < FirstIndex(s, x))
  {
    var distinct := Dedupe(s);
    var r := Take(distinct, n);
    assert forall k :: 0 <= k < |r| ==> r[k] == distinct[k];
    assert s != [] ==> s[0] in distinct;
    forall k, x | 0 <= k < |r| && x in s && x !in r ensures FirstIndex(s, r[k]) < FirstIndex(s, x) {
      assert s[FirstIndex(s, x)] == x;
      var j :| 0 <= j < |distinct| && distinct[j] == x;
      assert j >= |r|;
    }
  }
}
