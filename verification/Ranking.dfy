/** The stable sort that Python's `sort` and `sorted` perform, shared by the queue, the compressor and the
    selector. `key` is ascending; a descending sort (`reverse=True` keeps equal elements in their
    original order) is the ascending one on the negated score. */
module Ranking {

  /** Places x behind every element whose key is not greater than its own. */
  function Insert<T>(s: seq<T>, x: T, key: T -> real): (r: seq<T>)
    ensures |r| == |s| + 1
  {
    if s != [] && key(x) < key(s[|s| - 1]) then
      Insert(s[..|s| - 1], x, key) + [s[|s| - 1]]
    else
      s + [x]
  }

  function StableSort<T>(s: seq<T>, key: T -> real): (r: seq<T>)
    ensures |r| == |s|
  {
    if s == [] then [] else Insert(StableSort(s[..|s| - 1], key), s[|s| - 1], key)
  }

  ghost predicate Ascending<T>(s: seq<T>, key: T -> real) {
    forall i, j :: 0 <= i < j < |s| ==> key(s[i]) <= key(s[j])
  }

  /** How many of the first n elements come before element i: a smaller key, or an equal key and an
      earlier position. */
  ghost function Before<T>(s: seq<T>, key: T -> real, i: nat, n: nat): (r: nat)
    requires i < |s| && n <= |s|
    ensures r <= n
  {
    if n == 0 then 0
    else
      var j := n - 1;
      Before(s, key, i, j) + if key(s[j]) < key(s[i]) || (key(s[j]) == key(s[i]) && j < i) then 1 else 0
  }

  /** The position of element i in the stable order, counted without sorting anything. */
  ghost function Rank<T>(s: seq<T>, key: T -> real, i: nat): (r: nat)
    requires i < |s|
  {
    Before(s, key, i, |s|)
  }

  lemma {:induction false} InsertKeeps<T>(s: seq<T>, x: T, key: T -> real)
    ensures multiset(Insert(s, x, key)) == multiset(s) + multiset{x}
  {
    if s != [] && key(x) < key(s[|s| - 1]) {
      InsertKeeps(s[..|s| - 1], x, key);
      assert s == s[..|s| - 1] + [s[|s| - 1]];
    }
  }

  lemma {:induction false} InsertAscending<T>(s: seq<T>, x: T, key: T -> real)
    requires Ascending(s, key)
    ensures Ascending(Insert(s, x, key), key)
    ensures forall i :: 0 <= i <= |s| ==> Insert(s, x, key)[i] == x || Insert(s, x, key)[i] in s
  {
    if s != [] && key(x) < key(s[|s| - 1]) {
      var front, last := s[..|s| - 1], s[|s| - 1];
      InsertAscending(front, x, key);
      var r := Insert(front, x, key);
      forall i | 0 <= i < |r| ensures key(r[i]) <= key(last) {
        if r[i] != x {
          var k :| 0 <= k < |front| && front[k] == r[i];
          assert s[k] == r[i];
        }
      }
    }
  }

  /** Sorting keeps every element and orders the keys. */
  lemma {:induction false} StableSortAscending<T>(s: seq<T>, key: T -> real)
    ensures Ascending(StableSort(s, key), key)
    ensures multiset(StableSort(s, key)) == multiset(s)
  {
    if s != [] {
      StableSortAscending(s[..|s| - 1], key);
      InsertAscending(StableSort(s[..|s| - 1], key), s[|s| - 1], key);
      InsertKeeps(StableSort(s[..|s| - 1], key), s[|s| - 1], key);
      assert s == s[..|s| - 1] + [s[|s| - 1]];
    }
  }

  /** Where Insert puts things: elements not above x stay, x follows them, the others move up by one. */
  lemma {:induction false} InsertAt<T>(s: seq<T>, x: T, key: T -> real, i: nat)
    requires Ascending(s, key) && i < |s|
    ensures key(s[i]) <= key(x) ==> Insert(s, x, key)[i] == s[i]
    ensures key(x) < key(s[i]) ==> Insert(s, x, key)[i + 1] == s[i]
  {
    if key(x) < key(s[|s| - 1]) && i < |s| - 1 {
      InsertAt(s[..|s| - 1], x, key, i);
    }
  }

  /** x itself lands on index k when exactly the first k elements are not above it. */
  lemma {:induction false} InsertHere<T>(s: seq<T>, x: T, key: T -> real, k: nat)
    requires k <= |s|
    requires forall i :: 0 <= i < |s| ==> (key(s[i]) <= key(x) <==> i < k)
    ensures Insert(s, x, key) == s[..k] + [x] + s[k..]
  {
    if k < |s| {
      assert key(x) < key(s[|s| - 1]);
      InsertHere(s[..|s| - 1], x, key, k);
      assert s[..|s| - 1][..k] == s[..k];
      assert s[k..] == s[..|s| - 1][k..] + [s[|s| - 1]];
    }
  }

  /** How many elements have a key of at most v. */
  ghost function AtMost<T>(s: seq<T>, key: T -> real, v: real): (r: nat)
    ensures r <= |s|
  {
    if s == [] then 0 else AtMost(s[..|s| - 1], key, v) + if key(s[|s| - 1]) <= v then 1 else 0
  }

  lemma {:induction false} AtMostInsert<T>(s: seq<T>, x: T, key: T -> real, v: real)
    ensures AtMost(Insert(s, x, key), key, v) == AtMost(s + [x], key, v)
  {
    assert (s + [x])[..|s|] == s;
    if s != [] && key(x) < key(s[|s| - 1]) {
      var front := s[..|s| - 1];
      AtMostInsert(front, x, key, v);
      assert (front + [x])[..|front|] == front;
      assert Insert(s, x, key)[..|s|] == Insert(front, x, key);
    }
  }

  lemma {:induction false} AtMostSorted<T>(s: seq<T>, key: T -> real, v: real)
    ensures AtMost(StableSort(s, key), key, v) == AtMost(s, key, v)
  {
    if s != [] {
      var front := StableSort(s[..|s| - 1], key);
      AtMostSorted(s[..|s| - 1], key, v);
      AtMostInsert(front, s[|s| - 1], key, v);
      assert (front + [s[|s| - 1]])[..|front|] == front;
    }
  }

  /** In an ordered sequence the elements of at most v are the leading ones. */
  lemma {:induction false} AtMostLeads<T>(s: seq<T>, key: T -> real, v: real)
    requires Ascending(s, key)
    ensures forall i :: 0 <= i < |s| ==> (key(s[i]) <= v <==> i < AtMost(s, key, v))
  {
    if s != [] {
      AtMostLeads(s[..|s| - 1], key, v);
      var front := s[..|s| - 1];
      if key(s[|s| - 1]) <= v {
        forall i | 0 <= i < |front| ensures key(front[i]) <= v { assert front[i] == s[i]; }
        if |front| > 0 { assert key(front[|front| - 1]) <= v; }
      }
      forall i | 0 <= i < |s| ensures key(s[i]) <= v <==> i < AtMost(s, key, v) {
        if i < |front| { assert front[i] == s[i]; }
      }
    }
  }

  lemma {:induction false} BeforeFrame<T>(s: seq<T>, t: seq<T>, key: T -> real, i: nat, n: nat)
    requires n <= |s| <= |t| && s == t[..|s|] && i < |s|
    ensures Before(s, key, i, n) == Before(t, key, i, n)
  {
    if n > 0 { BeforeFrame(s, t, key, i, n - 1); }
  }

  lemma {:induction false} BeforeLast<T>(s: seq<T>, key: T -> real, n: nat)
    requires n < |s|
    ensures Before(s, key, |s| - 1, n) == AtMost(s[..n], key, key(s[|s| - 1]))
  {
    if n > 0 {
      BeforeLast(s, key, n - 1);
      assert s[..n][..n - 1] == s[..n - 1];
    }
  }

  lemma {:induction false} EarlierRank<T>(s: seq<T>, key: T -> real, i: nat)
    requires i < |s| - 1
    ensures Rank(s, key, i) == Rank(s[..|s| - 1], key, i) + if key(s[|s| - 1]) < key(s[i]) then 1 else 0
  {
    BeforeFrame(s[..|s| - 1], s, key, i, |s| - 1);
  }

  lemma {:induction false} LastRank<T>(s: seq<T>, key: T -> real)
    requires s != []
    ensures Rank(s, key, |s| - 1) == AtMost(s[..|s| - 1], key, key(s[|s| - 1]))
  {
    BeforeLast(s, key, |s| - 1);
  }

  /** The sort puts every element at its rank: this fixes the whole result, ties included. */
  lemma {:induction false} SortedByRank<T>(s: seq<T>, key: T -> real, i: nat)
    requires i < |s|
    ensures Rank(s, key, i) < |s| && StableSort(s, key)[Rank(s, key, i)] == s[i]
  {
    var front, x := s[..|s| - 1], s[|s| - 1];
    var r := StableSort(front, key);
    StableSortAscending(front, key);
    if i < |front| {
      SortedByRank(front, key, i);
      EarlierRank(s, key, i);
      var k := Rank(front, key, i);
      assert r[k] == s[i];
      InsertAt(r, x, key, k);
    } else {
      var k := AtMost(front, key, key(x));
      AtMostSorted(front, key, key(x));
      AtMostLeads(r, key, key(x));
      InsertHere(r, x, key, k);
      LastRank(s, key);
    }
  }

  /** One more element, which takes place k, moves those above it up by one. */
  lemma RankShifts<T>(s: seq<T>, key: T -> real, k: nat, q: nat, i: nat)
    requires s != [] && i < |s| - 1 && q < |s| - 1 && k <= |s| - 1
    requires var r := StableSort(s[..|s| - 1], key);
             r[q] == s[i] && forall j :: 0 <= j < |r| ==> (key(r[j]) <= key(s[|s| - 1]) <==> j < k)
    requires Rank(s[..|s| - 1], key, i) == q
    ensures var p := if q < k then q else q + 1; Rank(s, key, i) == p && StableSort(s, key)[p] == s[i]
  {
    EarlierRank(s, key, i);
    InsertHere(StableSort(s[..|s| - 1], key), s[|s| - 1], key, k);
  }

  /** And every place is the rank of some element. */
  lemma {:induction false} RankTaken<T>(s: seq<T>, key: T -> real, p: nat) returns (i: nat)
    requires p < |s|
    ensures i < |s| && Rank(s, key, i) == p && StableSort(s, key)[p] == s[i]
  {
    var front, x := s[..|s| - 1], s[|s| - 1];
    var k := AtMost(front, key, key(x));
    StableSortAscending(front, key);
    AtMostSorted(front, key, key(x));
    AtMostLeads(StableSort(front, key), key, key(x));
    if p == k {
      i := |front|;
      LastRank(s, key);
      InsertHere(StableSort(front, key), x, key, k);
    } else {
      var q := if p < k then p else p - 1;
      i := RankTaken(front, key, q);
      RankShifts(s, key, k, q, i);
    }
  }

  lemma {:induction false} BeforeMonotone<T>(s: seq<T>, key: T -> real, i: nat, j: nat, n: nat)
    requires i < |s| && j < |s| && n <= |s|
    requires key(s[i]) < key(s[j]) || (key(s[i]) == key(s[j]) && i < j)
    ensures Before(s, key, i, n) + (if i < n then 1 else 0) <= Before(s, key, j, n)
  {
    if n > 0 { BeforeMonotone(s, key, i, j, n - 1); }
  }

  /** Ranks are a strict order, so different elements get different positions. */
  lemma RankStrict<T>(s: seq<T>, key: T -> real, i: nat, j: nat)
    requires i < |s| && j < |s|
    ensures Rank(s, key, i) < Rank(s, key, j) <==>
            key(s[i]) < key(s[j]) || (key(s[i]) == key(s[j]) && i < j)
  {
    if key(s[i]) < key(s[j]) || (key(s[i]) == key(s[j]) && i < j) {
      BeforeMonotone(s, key, i, j, |s|);
    } else if i != j {
      BeforeMonotone(s, key, j, i, |s|);
    }
  }
}
