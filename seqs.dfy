/** Sequence facts shared by the carts and the menu: order-preserving
    subsequences (what every `filter` produces) and lines keyed by an id. */
module Seqs {

  /** `a` is `b` with some elements dropped and the rest kept in order. */
  ghost predicate IsSubsequence<T>(a: seq<T>, b: seq<T>)
    decreases |b|
  {
    a == [] || (b != [] && ((a[0] == b[0] && IsSubsequence(a[1..], b[1..])) || IsSubsequence(a, b[1..])))
  }

  /** A subsequence is never longer than the whole. */
  lemma {:induction false} SubsequenceLength<T>(a: seq<T>, b: seq<T>)
    requires IsSubsequence(a, b)
    ensures |a| <= |b|
    decreases |b|
  {
    if a != [] {
      if a[0] == b[0] && IsSubsequence(a[1..], b[1..]) {
        SubsequenceLength(a[1..], b[1..]);
      } else {
        SubsequenceLength(a, b[1..]);
      }
    }
  }

  /** A prefix is a subsequence (what `slice(0, n)` produces). */
  lemma {:induction false} PrefixIsSubsequence<T>(s: seq<T>, n: nat)
    requires n <= |s|
    ensures IsSubsequence(s[..n], s)
    decreases |s|
  {
    if n > 0 {
      assert s[..n][1..] == s[1..][..n - 1];
      PrefixIsSubsequence(s[1..], n - 1);
    }
  }

  // ---------------------------------------------------------------------
  // Sequences keyed by an id

  /** Some element has key `id` (what `find(x => x.id === id)` finds). */
  predicate HasKey<T>(s: seq<T>, key: T -> string, id: string) {
    exists i :: 0 <= i < |s| && key(s[i]) == id
  }

  /** No two elements share a key. */
  predicate UniqueKeys<T>(s: seq<T>, key: T -> string) {
    forall i, j :: 0 <= i < j < |s| ==> key(s[i]) != key(s[j])
  }

  /** `s.filter(x => x.id !== id)` */
  function WithoutKey<T>(s: seq<T>, key: T -> string, id: string): seq<T> {
    if s == [] then []
    else if key(s[0]) != id then [s[0]] + WithoutKey(s[1..], key, id)
    else WithoutKey(s[1..], key, id)
  }

  lemma NoKeyInTail<T>(s: seq<T>, key: T -> string, id: string)
    requires s != [] && !HasKey(s, key, id)
    ensures !HasKey(s[1..], key, id)
  {
    forall i | 0 <= i < |s[1..]| ensures key(s[1..][i]) != id {
      assert s[1..][i] == s[i + 1];
    }
  }

  /** The filter keeps the other elements in order, drops every element with
      the key, and changes nothing when the key is absent. When elements
      repeat, these clauses alone do not fix how many copies are kept; for
      lines with unique keys `WithoutKeyAt` gives the result exactly. */
  lemma {:induction false} WithoutKeySpec<T>(s: seq<T>, key: T -> string, id: string)
    ensures IsSubsequence(WithoutKey(s, key, id), s)
    ensures forall x :: x in WithoutKey(s, key, id) <==> x in s && key(x) != id
    ensures !HasKey(WithoutKey(s, key, id), key, id)
    ensures !HasKey(s, key, id) ==> WithoutKey(s, key, id) == s
    ensures |WithoutKey(s, key, id)| <= |s|
    decreases |s|
  {
    if s != [] {
      WithoutKeySpec(s[1..], key, id);
      var r := WithoutKey(s, key, id);
      if key(s[0]) != id {
        assert r[1..] == WithoutKey(s[1..], key, id);
      }
      if !HasKey(s, key, id) {
        NoKeyInTail(s, key, id);
        assert s == [s[0]] + s[1..];
      }
      forall x ensures x in r <==> x in s && key(x) != id {
        assert x in s <==> x == s[0] || x in s[1..];
      }
    }
    SubsequenceLength(WithoutKey(s, key, id), s);
  }

  lemma WithoutKeyMember<T>(s: seq<T>, key: T -> string, id: string, x: T)
    requires x in WithoutKey(s, key, id)
    ensures x in s
  {
    WithoutKeySpec(s, key, id);
  }

  /** With unique keys, removing the key of element `k` removes exactly that element. */
  lemma {:induction false} WithoutKeyAt<T>(s: seq<T>, key: T -> string, k: int)
    requires UniqueKeys(s, key) && 0 <= k < |s|
    ensures WithoutKey(s, key, key(s[k])) == s[..k] + s[k + 1..]
    decreases |s|
  {
    var id := key(s[k]);
    if k == 0 {
      WithoutKeySpec(s[1..], key, id);
      assert !HasKey(s[1..], key, id) by {
        forall i | 0 <= i < |s[1..]| ensures key(s[1..][i]) != id {
          assert s[1..][i] == s[i + 1];
        }
      }
    } else {
      WithoutKeyAt(s[1..], key, k - 1);
      assert s[1..][k - 1] == s[k];
      assert s[1..][..k - 1] + s[1..][k..] == s[1..k] + s[k + 1..];
      assert s[..k] == [s[0]] + s[1..k];
    }
  }

  /** Filtering a key out keeps the keys unique. */
  lemma {:induction false} WithoutKeyKeepsUnique<T>(s: seq<T>, key: T -> string, id: string)
    requires UniqueKeys(s, key)
    ensures UniqueKeys(WithoutKey(s, key, id), key)
    decreases |s|
  {
    if s != [] {
      WithoutKeyKeepsUnique(s[1..], key, id);
      WithoutKeySpec(s[1..], key, id);
      var rest := WithoutKey(s[1..], key, id);
      if key(s[0]) != id {
        var r := [s[0]] + rest;
        forall j | 0 < j < |r| ensures key(r[0]) != key(r[j]) {
          assert r[j] == rest[j - 1];
          WithoutKeyMember(s[1..], key, id, r[j]);
          var m :| 0 <= m < |s[1..]| && s[1..][m] == r[j];
          assert s[m + 1] == r[j];
        }
      }
    }
  }
}
