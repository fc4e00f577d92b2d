/**
 * Reading a keyed store out as a sequence, and ordering a sequence by a key.
 * These stand for the store's `find()` and `$sort` stages.
 */
module Listing {

  /** The values of `m` whose keys lie below `bound`, in ascending key order. */
  function Below<T(!new)>(m: map<nat, T>, bound: nat): (r: seq<T>)
    ensures forall x :: x in r <==> exists k :: k in m && k < bound && m[k] == x
  {
    if bound == 0 then []
    else if bound - 1 in m then Below(m, bound - 1) + [m[bound - 1]]
    else Below(m, bound - 1)
  }

  /** The keys of `m` below `bound`. */
  ghost function KeysBelow<T>(m: map<nat, T>, bound: nat): set<nat> {
    set k | k in m && k < bound
  }

  /** `Below` holds one entry per key below `bound`: nothing is listed twice or dropped. */
  lemma {:induction false} BelowLength<T(!new)>(m: map<nat, T>, bound: nat)
    ensures |Below(m, bound)| == |KeysBelow(m, bound)|
  {
    if bound > 0 {
      BelowLength(m, bound - 1);
      if bound - 1 in m {
        assert KeysBelow(m, bound) == KeysBelow(m, bound - 1) + {bound - 1};
      } else {
        assert KeysBelow(m, bound) == KeysBelow(m, bound - 1);
      }
    }
  }

  /** When every key lies below `bound`, `Below` lists every entry of `m` exactly once. */
  lemma ListsWholeStore<T(!new)>(m: map<nat, T>, bound: nat)
    requires forall k :: k in m ==> k < bound
    ensures |Below(m, bound)| == |m|
    ensures forall x :: x in Below(m, bound) <==> x in m.Values
  {
    BelowLength(m, bound);
    assert KeysBelow(m, bound) == m.Keys;
  }

  /** When each stored record carries its own key, `Below` lists them by strictly ascending key. */
  lemma {:induction false} BelowAscending<T(!new)>(m: map<nat, T>, bound: nat, key: T -> nat)
    requires forall k :: k in m ==> key(m[k]) == k
    ensures forall x :: x in Below(m, bound) ==> key(x) < bound
    ensures forall i, j :: 0 <= i < j < |Below(m, bound)| ==> key(Below(m, bound)[i]) < key(Below(m, bound)[j])
  {
    if bound > 0 {
      BelowAscending(m, bound - 1, key);
    }
  }

  /** `s` is ordered by non-increasing `key`. */
  predicate NonIncreasing<T>(s: seq<T>, key: T -> int) {
    forall i, j :: 0 <= i < j < |s| ==> key(s[i]) >= key(s[j])
  }

  /** Places `x` in front of the first element whose key does not exceed its own. */
  function Insert<T>(x: T, s: seq<T>, key: T -> int): (r: seq<T>)
    ensures multiset(r) == multiset(s) + multiset{x}
  {
    if s == [] || key(x) >= key(s[0]) then [x] + s
    else
      assert s == [s[0]] + s[1..];
      [s[0]] + Insert(x, s[1..], key)
  }

  /** Inserting into an ordered sequence keeps it ordered. */
  lemma {:induction false} InsertKeepsOrder<T>(x: T, s: seq<T>, key: T -> int)
    requires NonIncreasing(s, key)
    ensures NonIncreasing(Insert(x, s, key), key)
  {
    if s != [] && key(x) < key(s[0]) {
      var tail := s[1..];
      TailKeepsOrder(s, key);
      InsertKeepsOrder(x, tail, key);
      InsertBelowHead(x, s, key);
      ConsKeepsOrder(s[0], Insert(x, tail, key), key);
    }
  }

  /** The tail of an ordered sequence is ordered. */
  lemma TailKeepsOrder<T>(s: seq<T>, key: T -> int)
    requires NonIncreasing(s, key) && s != []
    ensures NonIncreasing(s[1..], key)
  {
    forall i, j | 0 <= i < j < |s[1..]| ensures key(s[1..][i]) >= key(s[1..][j]) {
      assert s[1..][i] == s[i + 1] && s[1..][j] == s[j + 1];
    }
  }

  /** Inserting a smaller element into the tail of an ordered sequence stays below its head. */
  lemma InsertBelowHead<T>(x: T, s: seq<T>, key: T -> int)
    requires NonIncreasing(s, key) && s != [] && key(x) < key(s[0])
    ensures forall y :: y in Insert(x, s[1..], key) ==> key(s[0]) >= key(y)
  {
    var t := Insert(x, s[1..], key);
    forall y | y in t ensures key(s[0]) >= key(y) {
      assert y in multiset(t);
      if y != x {
        assert y in multiset(s[1..]);
        var k :| 0 <= k < |s[1..]| && s[1..][k] == y;
        assert s[k + 1] == y;
      }
    }
  }

  /** An element at least as large as every element of an ordered sequence can go in front. */
  lemma ConsKeepsOrder<T>(h: T, t: seq<T>, key: T -> int)
    requires NonIncreasing(t, key) && forall y :: y in t ==> key(h) >= key(y)
    ensures NonIncreasing([h] + t, key)
  {
    var r := [h] + t;
    forall i, j | 0 <= i < j < |r| ensures key(r[i]) >= key(r[j]) {
      if i == 0 {
        assert r[j] == t[j - 1] && t[j - 1] in t;
      } else {
        assert r[i] == t[i - 1] && r[j] == t[j - 1];
      }
    }
  }

  /** `s` reordered by non-increasing `key` (insertion sort; the order of ties is unspecified). */
  function SortDesc<T>(s: seq<T>, key: T -> int): (r: seq<T>)
    ensures multiset(r) == multiset(s)
    ensures NonIncreasing(r, key)
  {
    if s == [] then []
    else
      assert s == [s[0]] + s[1..];
      var t := SortDesc(s[1..], key);
      InsertKeepsOrder(s[0], t, key);
      Insert(s[0], t, key)
  }
}
