/**
 * Sequence idioms of the core. The deduplication used by the workspace
 * lists in three places,
 *   all.filter((w, index, self) => index === self.findIndex(t => t.id === w.id))
 * keeps an element exactly when it is the first one carrying its key; and
 * `Array.prototype.filter`, which keeps the elements that pass, in order.
 */
module Seqs {

  /** `self.findIndex(t => key(t) === k)`, with |s| standing for "none" (-1). */
  function FindIndex<T, K(==)>(s: seq<T>, key: T -> K, k: K): (i: nat)
    ensures i <= |s|
    ensures i < |s| ==> key(s[i]) == k
    ensures forall j :: 0 <= j < i ==> key(s[j]) != k
  {
    if s == [] then 0
    else if key(s[0]) == k then 0
    else 1 + FindIndex(s[1..], key, k)
  }

  /** Whether some element of `s` carries key `k`. */
  predicate HasKey<T, K(==)>(s: seq<T>, key: T -> K, k: K) {
    FindIndex(s, key, k) < |s|
  }

  predicate UniqueKeys<T, K(==)>(r: seq<T>, key: T -> K) {
    forall a, b :: 0 <= a < b < |r| ==> key(r[a]) != key(r[b])
  }

  /** The filter above applied to the first `n` elements of `s`. */
  function DedupePrefix<T, K(==)>(s: seq<T>, key: T -> K, n: nat): seq<T>
    requires n <= |s|
  {
    if n == 0 then []
    else if FindIndex(s, key, key(s[n - 1])) == n - 1 then DedupePrefix(s, key, n - 1) + [s[n - 1]]
    else DedupePrefix(s, key, n - 1)
  }

  /** The whole filter: `s` without the repeated keys. */
  function Dedupe<T, K(==)>(s: seq<T>, key: T -> K): seq<T>
  {
    DedupePrefix(s, key, |s|)
  }

  /** Every kept element is the first occurrence of its key, and lies in the prefix. */
  lemma {:induction false} KeptAreFirst<T, K>(s: seq<T>, key: T -> K, n: nat)
    requires n <= |s|
    ensures forall y :: y in DedupePrefix(s, key, n) ==>
              FindIndex(s, key, key(y)) < n && y == s[FindIndex(s, key, key(y))]
  {
    if n > 0 { KeptAreFirst(s, key, n - 1); }
  }

  /** No key is kept twice. */
  lemma {:induction false} KeptUnique<T, K>(s: seq<T>, key: T -> K, n: nat)
    requires n <= |s|
    ensures UniqueKeys(DedupePrefix(s, key, n), key)
  {
    if n > 0 {
      KeptUnique(s, key, n - 1);
      KeptAreFirst(s, key, n - 1);
      var r := DedupePrefix(s, key, n - 1);
      var x := s[n - 1];
      if FindIndex(s, key, key(x)) == n - 1 {
        forall a | 0 <= a < |r| ensures key(r[a]) != key(x) {
          assert r[a] in r;
          var i := FindIndex(s, key, key(r[a]));
          assert key(s[i]) == key(r[a]);
        }
      }
    }
  }

  /** Kept elements stay in the order of their first occurrences. */
  lemma {:induction false} KeptInOrder<T, K>(s: seq<T>, key: T -> K, n: nat)
    requires n <= |s|
    ensures forall a, b :: 0 <= a < b < |DedupePrefix(s, key, n)| ==>
              FindIndex(s, key, key(DedupePrefix(s, key, n)[a])) < FindIndex(s, key, key(DedupePrefix(s, key, n)[b]))
  {
    if n > 0 {
      KeptInOrder(s, key, n - 1);
      KeptAreFirst(s, key, n - 1);
      var r := DedupePrefix(s, key, n - 1);
      forall a | 0 <= a < |r| ensures FindIndex(s, key, key(r[a])) < n - 1 {
        assert r[a] in r;
      }
    }
  }

  /** Every key of the prefix is represented by its first element. */
  lemma {:induction false} EveryKeyKept<T, K>(s: seq<T>, key: T -> K, n: nat)
    requires n <= |s|
    ensures forall j :: 0 <= j < n ==> s[FindIndex(s, key, key(s[j]))] in DedupePrefix(s, key, n)
  {
    if n > 0 {
      EveryKeyKept(s, key, n - 1);
      forall j | 0 <= j < n ensures s[FindIndex(s, key, key(s[j]))] in DedupePrefix(s, key, n) {
        if j == n - 1 {
          var f := FindIndex(s, key, key(s[j]));
          if f < n - 1 {
            assert FindIndex(s, key, key(s[f])) == f by {
              FindIndexOfFound(s, key, key(s[j]));
            }
          }
        }
      }
    }
  }

  lemma FindIndexOfFound<T, K>(s: seq<T>, key: T -> K, k: K)
    requires HasKey(s, key, k)
    ensures FindIndex(s, key, key(s[FindIndex(s, key, k)])) == FindIndex(s, key, k)
  {
  }

  lemma {:induction false} DedupeShorter<T, K>(s: seq<T>, key: T -> K, n: nat)
    requires n <= |s|
    ensures |DedupePrefix(s, key, n)| <= n
  {
    if n > 0 { DedupeShorter(s, key, n - 1); }
  }

  /**
   * Deduplication keeps one element per key present, the first one, in the
   * order of first occurrence, and never grows the list.
   */
  lemma DedupeSpec<T, K>(s: seq<T>, key: T -> K)
    ensures UniqueKeys(Dedupe(s, key), key)
    ensures forall y :: y in Dedupe(s, key) ==> y in s && y == s[FindIndex(s, key, key(y))]
    ensures forall x :: x in s ==> HasKey(Dedupe(s, key), key, key(x))
    ensures forall a, b :: 0 <= a < b < |Dedupe(s, key)| ==>
              FindIndex(s, key, key(Dedupe(s, key)[a])) < FindIndex(s, key, key(Dedupe(s, key)[b]))
    ensures |Dedupe(s, key)| <= |s|
  {
    var r := Dedupe(s, key);
    KeptUnique(s, key, |s|);
    KeptAreFirst(s, key, |s|);
    KeptInOrder(s, key, |s|);
    EveryKeyKept(s, key, |s|);
    DedupeShorter(s, key, |s|);
    forall x | x in s ensures HasKey(r, key, key(x)) {
      var j :| 0 <= j < |s| && s[j] == x;
      var y := s[FindIndex(s, key, key(x))];
      assert y in r;
      var t :| 0 <= t < |r| && r[t] == y;
      assert FindIndex(r, key, key(x)) <= t;
    }
  }

  lemma {:induction false} FindIndexAppend<T, K>(a: seq<T>, b: seq<T>, key: T -> K, k: K)
    ensures FindIndex(a + b, key, k) ==
            if HasKey(a, key, k) then FindIndex(a, key, k) else |a| + FindIndex(b, key, k)
  {
    if a != [] {
      assert (a + b)[1..] == a[1..] + b;
      if key(a[0]) != k { FindIndexAppend(a[1..], b, key, k); }
    } else {
      assert a + b == b;
    }
  }

  /**
   * Deduplicating `a + b` puts every key that occurs in `a` first, each
   * represented by its first element of `a`; the keys found only in `b` follow.
   */
  lemma FirstPartWins<T, K>(a: seq<T>, b: seq<T>, key: T -> K)
    ensures forall i :: 0 <= i < |Dedupe(a + b, key)| && HasKey(a, key, key(Dedupe(a + b, key)[i])) ==>
              Dedupe(a + b, key)[i] in a
    ensures forall i, j :: 0 <= i < j < |Dedupe(a + b, key)| && HasKey(a, key, key(Dedupe(a + b, key)[j])) ==>
              HasKey(a, key, key(Dedupe(a + b, key)[i]))
  {
    var s := a + b;
    var r := Dedupe(s, key);
    KeptAreFirst(s, key, |s|);
    KeptInOrder(s, key, |s|);
    forall i | 0 <= i < |r| && HasKey(a, key, key(r[i])) ensures r[i] in a {
      assert r[i] in r;
      FindIndexAppend(a, b, key, key(r[i]));
      var f := FindIndex(s, key, key(r[i]));
      assert r[i] == s[f] && f < |a|;
      assert s[f] == a[f];
    }
    forall i, j | 0 <= i < j < |r| && HasKey(a, key, key(r[j])) ensures HasKey(a, key, key(r[i])) {
      FindIndexAppend(a, b, key, key(r[i]));
      FindIndexAppend(a, b, key, key(r[j]));
    }
  }

  // ------------------------------------------------------------ filter

  /** `s.filter(p)`. */
  function Filter<T>(s: seq<T>, p: T -> bool): (r: seq<T>)
    ensures |r| <= |s|
    ensures forall x :: x in r ==> x in s && p(x)
    ensures forall x :: x in s && p(x) ==> x in r
  {
    if s == [] then []
    else if p(s[0]) then [s[0]] + Filter(s[1..], p)
    else Filter(s[1..], p)
  }

  /** Filtering works piece by piece, so the survivors keep their relative order. */
  lemma {:induction false} FilterDistributes<T>(a: seq<T>, b: seq<T>, p: T -> bool)
    ensures Filter(a + b, p) == Filter(a, p) + Filter(b, p)
    decreases |a|
  {
    if a == [] {
      assert a + b == b;
    } else {
      assert (a + b)[1..] == a[1..] + b;
      FilterDistributes(a[1..], b, p);
    }
  }

  /** A sequence whose every element passes is its own filter. */
  lemma {:induction false} FilterAllPass<T>(s: seq<T>, p: T -> bool)
    requires forall i :: 0 <= i < |s| ==> p(s[i])
    ensures Filter(s, p) == s
    decreases |s|
  {
    if s != [] {
      FilterAllPass(s[1..], p);
    }
  }

  /** A sequence none of whose elements pass filters to nothing. */
  lemma {:induction false} FilterNonePass<T>(s: seq<T>, p: T -> bool)
    requires forall i :: 0 <= i < |s| ==> !p(s[i])
    ensures Filter(s, p) == []
    decreases |s|
  {
    if s != [] {
      FilterNonePass(s[1..], p);
    }
  }

  /** Filtering twice by the same test filters nothing more. */
  lemma FilterIdempotent<T>(s: seq<T>, p: T -> bool)
    ensures Filter(Filter(s, p), p) == Filter(s, p)
  {
    var r := Filter(s, p);
    forall i | 0 <= i < |r| ensures p(r[i]) {
      assert r[i] in r;
    }
    FilterAllPass(r, p);
  }
}
