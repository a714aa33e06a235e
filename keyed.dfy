/** Lists of records identified by a numeric `id`, as the favorites list and
    the watch list keep them. `key` reads the identifying field. */
module Keyed {

  /** `s.some((item) => item.id === k)`. */
  predicate HasKey<T>(s: seq<T>, k: int, key: T -> int) {
    exists i :: 0 <= i < |s| && key(s[i]) == k
  }

  /** No two entries share an id. */
  predicate DistinctKeys<T>(s: seq<T>, key: T -> int) {
    forall i, j :: 0 <= i < j < |s| ==> key(s[i]) != key(s[j])
  }

  /** `new Set(s.map((item) => item.id))`. */
  function KeySet<T>(s: seq<T>, key: T -> int): (r: set<int>)
    ensures forall k :: k in r <==> HasKey(s, k, key)
  {
    if s == [] then {} else
      var rest := KeySet(s[1..], key);
      assert forall k :: HasKey(s, k, key) <==> key(s[0]) == k || HasKey(s[1..], k, key) by {
        forall k ensures HasKey(s, k, key) ==> key(s[0]) == k || HasKey(s[1..], k, key) {
          if HasKey(s, k, key) {
            var i :| 0 <= i < |s| && key(s[i]) == k;
            if i > 0 { assert key(s[1..][i - 1]) == k; }
          }
        }
      }
      {key(s[0])} + rest
  }

  /** `s.filter((item) => item.id !== k)`: every entry with id `k` is dropped,
      and every other entry is kept as often as it occurs. */
  function WithoutKey<T(!new)>(s: seq<T>, k: int, key: T -> int): (r: seq<T>)
    ensures |r| <= |s|
    ensures forall i :: 0 <= i < |r| ==> r[i] in s && key(r[i]) != k
  {
    if s == [] then []
    else
      assert s == [s[0]] + s[1..];
      if key(s[0]) == k then WithoutKey(s[1..], k, key)
      else [s[0]] + WithoutKey(s[1..], k, key)
  }

  /** The filter keeps the relative order of what it keeps: it distributes
      over concatenation. */
  lemma {:induction false} WithoutKeyAppend<T(!new)>(a: seq<T>, b: seq<T>, k: int, key: T -> int)
    ensures WithoutKey(a + b, k, key) == WithoutKey(a, k, key) + WithoutKey(b, k, key)
  {
    if a == [] {
      assert a + b == b;
    } else {
      var c := a + b;
      assert c[0] == a[0] && c[1..] == a[1..] + b;
      WithoutKeyAppend(a[1..], b, k, key);
      if key(a[0]) == k {
        assert WithoutKey(c, k, key) == WithoutKey(c[1..], k, key);
      } else {
        assert WithoutKey(c, k, key) == [a[0]] + WithoutKey(c[1..], k, key);
        assert WithoutKey(a, k, key) == [a[0]] + WithoutKey(a[1..], k, key);
      }
    }
  }

  /** Every entry with id `k` is dropped and every other entry is kept exactly
      as often as it occurs. */
  lemma {:induction false} WithoutKeyCount<T(!new)>(s: seq<T>, k: int, key: T -> int, x: T)
    ensures multiset(WithoutKey(s, k, key))[x] == if key(x) == k then 0 else multiset(s)[x]
  {
    if s != [] {
      assert s == [s[0]] + s[1..];
      WithoutKeyCount(s[1..], k, key, x);
    }
  }

  /** An entry survives the filter exactly when it was there and has another id. */
  lemma WithoutKeyMembers<T(!new)>(s: seq<T>, k: int, key: T -> int, x: T)
    ensures x in WithoutKey(s, k, key) <==> x in s && key(x) != k
  {
    WithoutKeyCount(s, k, key, x);
  }

  /** Removing an id that is not there changes nothing. */
  lemma {:induction false} WithoutAbsentKey<T(!new)>(s: seq<T>, k: int, key: T -> int)
    requires !HasKey(s, k, key)
    ensures WithoutKey(s, k, key) == s
  {
    if s != [] {
      assert key(s[0]) != k;
      assert !HasKey(s[1..], k, key) by {
        forall i | 0 <= i < |s[1..]| ensures key(s[1..][i]) != k {
          assert s[1..][i] == s[i + 1];
        }
      }
      WithoutAbsentKey(s[1..], k, key);
    }
  }

  /** Removing the same id twice is removing it once. */
  lemma WithoutKeyIdempotent<T(!new)>(s: seq<T>, k: int, key: T -> int)
    ensures WithoutKey(WithoutKey(s, k, key), k, key) == WithoutKey(s, k, key)
  {
    WithoutAbsentKey(WithoutKey(s, k, key), k, key);
  }

  /** Removing entries cannot create a duplicate id. */
  lemma {:induction false} WithoutKeyDistinct<T(!new)>(s: seq<T>, k: int, key: T -> int)
    requires DistinctKeys(s, key)
    ensures DistinctKeys(WithoutKey(s, k, key), key)
  {
    if s != [] {
      var rest := WithoutKey(s[1..], k, key);
      assert DistinctKeys(s[1..], key) by {
        forall i, j | 0 <= i < j < |s[1..]| ensures key(s[1..][i]) != key(s[1..][j]) {
          assert s[1..][i] == s[i + 1] && s[1..][j] == s[j + 1];
        }
      }
      WithoutKeyDistinct(s[1..], k, key);
      if key(s[0]) != k {
        assert !HasKey(rest, key(s[0]), key) by {
          forall i | 0 <= i < |rest| ensures key(rest[i]) != key(s[0]) {
            assert rest[i] in s[1..];
            var j :| 0 <= j < |s[1..]| && s[1..][j] == rest[i];
            assert s[j + 1] == rest[i];
          }
        }
        var r := [s[0]] + rest;
        forall i, j | 0 <= i < j < |r| ensures key(r[i]) != key(r[j]) {
          if i == 0 { assert r[j] == rest[j - 1]; } else { assert r[i] == rest[i - 1] && r[j] == rest[j - 1]; }
        }
      }
    }
  }
}
