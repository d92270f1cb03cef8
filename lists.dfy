/** The list transforms the application applies to its entity arrays:
    findIndex by id, map-by-id, filter, and the merge-by-id (upsert) of the
    data hook. Every entity kind reaches its id through a key function. */
module Lists {

  /** The keys of the elements of s are pairwise distinct. */
  ghost predicate DistinctKeys<T, K>(s: seq<T>, key: T -> K) {
    forall i, j :: 0 <= i < j < |s| ==> key(s[i]) != key(s[j])
  }

  /** Some element of s has key k. */
  ghost predicate HasKey<T, K>(s: seq<T>, key: T -> K, k: K) {
    exists i :: 0 <= i < |s| && key(s[i]) == k
  }

  /** r can be obtained from s by deleting elements: r keeps s's order. */
  ghost predicate IsSubsequence<T>(r: seq<T>, s: seq<T>)
    decreases |s|
  {
    r == [] || (s != [] && ((r[0] == s[0] && IsSubsequence(r[1..], s[1..])) || IsSubsequence(r, s[1..])))
  }

  /** Array.prototype.findIndex on the key: the first position holding key k, or -1. */
  function FindIndex<T, K(==)>(s: seq<T>, key: T -> K, k: K): (r: int)
    ensures -1 <= r < |s|
    ensures r == -1 <==> !HasKey(s, key, k)
    ensures 0 <= r ==> key(s[r]) == k && forall i :: 0 <= i < r ==> key(s[i]) != k
  {
    if s == [] then -1
    else if key(s[0]) == k then 0
    else
      var j := FindIndex(s[1..], key, k);
      if j < 0 then
        assert forall i :: 1 <= i < |s| ==> key(s[i]) == key(s[1..][i - 1]);
        -1
      else j + 1
  }

  /** Array.prototype.map replacing the elements whose key is k by f of them. */
  function MapWhere<T, K(==)>(s: seq<T>, key: T -> K, k: K, f: T -> T): (r: seq<T>)
    ensures |r| == |s|
    ensures forall i :: 0 <= i < |s| ==> r[i] == if key(s[i]) == k then f(s[i]) else s[i]
  {
    if s == [] then [] else [if key(s[0]) == k then f(s[0]) else s[0]] + MapWhere(s[1..], key, k, f)
  }

  /** Array.prototype.filter. */
  function Filter<T>(s: seq<T>, p: T -> bool): (r: seq<T>)
    ensures |r| <= |s|
    ensures forall i :: 0 <= i < |r| ==> p(r[i]) && r[i] in s
    ensures forall i :: 0 <= i < |s| && p(s[i]) ==> s[i] in r
    ensures forall i :: 0 <= i < |s| && p(s[i]) ==> multiset(r)[s[i]] == multiset(s)[s[i]]
    ensures IsSubsequence(r, s)
  {
    if s == [] then []
    else
      var rest := Filter(s[1..], p);
      assert s == [s[0]] + s[1..];
      if p(s[0]) then
        assert ([s[0]] + rest)[1..] == rest;
        [s[0]] + rest
      else rest
  }

  /** Drops every element whose key is k (the filter on `id !== k` used by every delete). */
  function RemoveKey<T, K(==)>(s: seq<T>, key: T -> K, k: K): (r: seq<T>)
    ensures !HasKey(r, key, k)
    ensures forall i :: 0 <= i < |s| && key(s[i]) != k ==> s[i] in r
    ensures forall i :: 0 <= i < |s| && key(s[i]) != k ==> multiset(r)[s[i]] == multiset(s)[s[i]]
    ensures forall i :: 0 <= i < |r| ==> r[i] in s
    ensures IsSubsequence(r, s)
  {
    Filter(s, x => key(x) != k)
  }

  /** Merge by id: when some element already has x's key, every such element
      is replaced by x; otherwise x is appended. */
  function Upsert<T, K(==)>(s: seq<T>, key: T -> K, x: T): (r: seq<T>)
    ensures HasKey(s, key, key(x)) ==>
      |r| == |s| && forall i :: 0 <= i < |s| ==> r[i] == if key(s[i]) == key(x) then x else s[i]
    ensures !HasKey(s, key, key(x)) ==> r == s + [x]
  {
    if FindIndex(s, key, key(x)) >= 0 then MapWhere(s, key, key(x), _ => x) else s + [x]
  }

  // ---------------------------------------------------------------------
  // Lemmas

  lemma {:induction false} FilterConcat<T>(a: seq<T>, b: seq<T>, p: T -> bool)
    ensures Filter(a + b, p) == Filter(a, p) + Filter(b, p)
  {
    if a == [] {
      assert a + b == b;
    } else {
      assert (a + b)[1..] == a[1..] + b;
      FilterConcat(a[1..], b, p);
    }
  }

  lemma {:induction false} FilterKeepsAll<T>(s: seq<T>, p: T -> bool)
    requires forall i :: 0 <= i < |s| ==> p(s[i])
    ensures Filter(s, p) == s
  {
    if s != [] {
      FilterKeepsAll(s[1..], p);
    }
  }

  lemma {:induction false} FilterRejectsAll<T>(s: seq<T>, p: T -> bool)
    requires forall i :: 0 <= i < |s| ==> !p(s[i])
    ensures Filter(s, p) == []
  {
    if s != [] {
      FilterRejectsAll(s[1..], p);
    }
  }

  /** An element the predicate rejects makes the filtered list strictly shorter. */
  lemma {:induction false} FilterDropsRejected<T>(s: seq<T>, p: T -> bool, i: nat)
    requires i < |s| && !p(s[i])
    ensures |Filter(s, p)| < |s|
  {
    var rest := Filter(s[1..], p);
    assert |Filter(s, p)| <= |rest| + 1;
    if i > 0 {
      assert s[1..][i - 1] == s[i];
      FilterDropsRejected(s[1..], p, i - 1);
    } else {
      assert Filter(s, p) == rest;
    }
  }

  lemma {:induction false} SubsequenceKeepsDistinct<T, K>(r: seq<T>, s: seq<T>, key: T -> K)
    requires IsSubsequence(r, s) && DistinctKeys(s, key)
    ensures DistinctKeys(r, key)
    decreases |s|
  {
    if r != [] {
      if r[0] == s[0] && IsSubsequence(r[1..], s[1..]) {
        SubsequenceKeepsDistinct(r[1..], s[1..], key);
        SubsequenceMembers(r[1..], s[1..]);
        forall j | 0 < j < |r| ensures key(r[0]) != key(r[j]) {
          assert r[j] == r[1..][j - 1];
          var m :| 0 <= m < |s[1..]| && s[1..][m] == r[j];
          assert s[m + 1] == r[j];
        }
      } else {
        SubsequenceKeepsDistinct(r, s[1..], key);
      }
    }
  }

  lemma {:induction false} SubsequenceMembers<T>(r: seq<T>, s: seq<T>)
    requires IsSubsequence(r, s)
    ensures forall i :: 0 <= i < |r| ==> r[i] in s
    decreases |s|
  {
    if r != [] {
      if r[0] == s[0] && IsSubsequence(r[1..], s[1..]) {
        SubsequenceMembers(r[1..], s[1..]);
        assert r == [r[0]] + r[1..];
      } else {
        SubsequenceMembers(r, s[1..]);
      }
    }
  }

  /** Deleting a key that is absent changes nothing. */
  lemma RemoveKeyAbsent<T, K>(s: seq<T>, key: T -> K, k: K)
    requires !HasKey(s, key, k)
    ensures RemoveKey(s, key, k) == s
  {
    FilterKeepsAll(s, x => key(x) != k);
  }

  /** Deleting a key every element carries empties the list. */
  lemma RemoveKeyAllMatching<T, K>(s: seq<T>, key: T -> K, k: K)
    requires forall i :: 0 <= i < |s| ==> key(s[i]) == k
    ensures RemoveKey(s, key, k) == []
  {
    FilterRejectsAll(s, x => key(x) != k);
  }

  /** Deleting removes exactly the one element carrying the key when keys are distinct. */
  lemma RemoveKeyDistinct<T, K>(s: seq<T>, key: T -> K, i: nat)
    requires DistinctKeys(s, key) && i < |s|
    ensures RemoveKey(s, key, key(s[i])) == s[..i] + s[i + 1..]
  {
    var k := key(s[i]);
    var before, after := s[..i], s[i + 1..];
    assert s == before + ([s[i]] + after);
    assert !HasKey(before, key, k) by {
      forall j | 0 <= j < |before| ensures key(before[j]) != k {
        assert before[j] == s[j];
      }
    }
    assert !HasKey(after, key, k) by {
      forall j | 0 <= j < |after| ensures key(after[j]) != k {
        assert after[j] == s[i + 1 + j];
      }
    }
    RemoveKeyAbsent(before, key, k);
    RemoveKeyAbsent(after, key, k);
    RemoveKeyAllMatching([s[i]], key, k);
    FilterConcat(before, [s[i]] + after, x => key(x) != k);
    FilterConcat([s[i]], after, x => key(x) != k);
  }

  /** With distinct keys, deleting the key of the element between a and b leaves a + b. */
  lemma RemoveKeyBetween<T, K>(a: seq<T>, x: T, b: seq<T>, key: T -> K)
    requires DistinctKeys(a + [x] + b, key)
    ensures RemoveKey(a + [x] + b, key, key(x)) == a + b
  {
    var q := a + [x] + b;
    assert q[|a|] == x;
    RemoveKeyDistinct(q, key, |a|);
    assert q[..|a|] == a && q[|a| + 1..] == b;
  }

  /** Merging keeps the keys distinct, and afterwards x is the one element with its key. */
  lemma UpsertKeepsDistinct<T, K>(s: seq<T>, key: T -> K, x: T)
    requires DistinctKeys(s, key)
    ensures DistinctKeys(Upsert(s, key, x), key)
    ensures x in Upsert(s, key, x)
    ensures forall i :: 0 <= i < |Upsert(s, key, x)| && key(Upsert(s, key, x)[i]) == key(x) ==> Upsert(s, key, x)[i] == x
  {
    var r := Upsert(s, key, x);
    if HasKey(s, key, key(x)) {
      var i :| 0 <= i < |s| && key(s[i]) == key(x);
      assert r[i] == x;
    } else {
      assert r[|s|] == x;
    }
  }

  /** Merging leaves every element with another key where it was: with x's key
      filtered out, the list is the same before and after. */
  lemma UpsertKeepsOthers<T, K>(s: seq<T>, key: T -> K, x: T)
    ensures RemoveKey(Upsert(s, key, x), key, key(x)) == RemoveKey(s, key, key(x))
  {
    var k := key(x);
    if HasKey(s, key, k) {
      OthersUnderPointwiseReplace(s, Upsert(s, key, x), key, k);
    } else {
      FilterConcat(s, [x], y => key(y) != k);
      assert Filter([x], y => key(y) != k) == [];
    }
  }

  lemma {:induction false} OthersUnderPointwiseReplace<T, K>(s: seq<T>, r: seq<T>, key: T -> K, k: K)
    requires |r| == |s|
    requires forall i :: 0 <= i < |s| ==> if key(s[i]) == k then key(r[i]) == k else r[i] == s[i]
    ensures RemoveKey(r, key, k) == RemoveKey(s, key, k)
  {
    if s != [] {
      OthersUnderPointwiseReplace(s[1..], r[1..], key, k);
    }
  }

  /** Saving the same value twice is the same as saving it once. */
  lemma UpsertIdempotent<T, K>(s: seq<T>, key: T -> K, x: T)
    ensures Upsert(Upsert(s, key, x), key, x) == Upsert(s, key, x)
  {
    UpsertLastWriteWins(s, key, x, x);
  }

  /** Last write wins: a second save under the same key fully replaces the first. */
  lemma UpsertLastWriteWins<T, K>(s: seq<T>, key: T -> K, x: T, y: T)
    requires key(x) == key(y)
    ensures Upsert(Upsert(s, key, x), key, y) == Upsert(s, key, y)
  {
    var r := Upsert(s, key, x);
    if HasKey(s, key, key(x)) {
      var i :| 0 <= i < |s| && key(s[i]) == key(x);
      assert key(r[i]) == key(x);
    } else {
      assert key(r[|s|]) == key(x);
      assert Upsert(r, key, y) == s + [y];
    }
  }
}
