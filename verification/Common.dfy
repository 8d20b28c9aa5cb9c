/** What several modules share. */
module Common {

  datatype Option<+T> = None | Some(value: T)

  /** The first n elements, or all of them; none for a negative n. */
  function Take<T>(s: seq<T>, n: int): (r: seq<T>) {
    if n <= 0 then [] else if |s| <= n then s else s[..n]
  }

  lemma Associative<T>(a: seq<T>, b: seq<T>, c: seq<T>)
    ensures a + (b + c) == (a + b) + c
  {
  }

  ghost function KeySet<T>(s: seq<T>, key: T -> string): (r: set<string>) {
    set i | 0 <= i < |s| :: key(s[i])
  }

  lemma KeySetOneMore<T>(s: seq<T>, x: T, key: T -> string)
    ensures KeySet(s + [x], key) == KeySet(s, key) + {key(x)}
  {
    var all := s + [x];
    forall k | k in KeySet(s, key) + {key(x)} ensures k in KeySet(all, key) {
      if k == key(x) {
        assert key(all[|s|]) == k;
      } else {
        var i :| 0 <= i < |s| && key(s[i]) == k;
        assert key(all[i]) == k;
      }
    }
  }

  ghost predicate DistinctKeys<T>(s: seq<T>, key: T -> string) {
    forall i, j :: 0 <= i < j < |s| ==> key(s[i]) != key(s[j])
  }

  // ---------- What a filtering loop collects ----------

  /** How many of the first n elements contribute. */
  ghost function HowMany<T, U>(all: seq<T>, given: T -> Option<U>, n: nat): (r: nat)
    requires n <= |all|
    ensures r <= n
  {
    if n == 0 then 0 else HowMany(all, given, n - 1) + if given(all[n - 1]).Some? then 1 else 0
  }

  /** The part holds what the elements contribute, each at the place that counts the contributions before it. */
  ghost predicate Collects<T, U>(part: seq<U>, all: seq<T>, given: T -> Option<U>) {
    && |part| == HowMany(all, given, |all|)
    && forall i :: 0 <= i < |all| && given(all[i]).Some? ==>
         HowMany(all, given, i) < |part| && part[HowMany(all, given, i)] == given(all[i]).value
  }

  lemma {:induction false} HowManyPrefix<T, U>(all: seq<T>, more: seq<T>, given: T -> Option<U>, n: nat)
    requires n <= |all|
    ensures HowMany(all + more, given, n) == HowMany(all, given, n)
  {
    if n > 0 { HowManyPrefix(all, more, given, n - 1); }
  }

  lemma {:induction false} HowManyGrows<T, U>(all: seq<T>, given: T -> Option<U>, i: nat, n: nat)
    requires i <= n <= |all|
    ensures HowMany(all, given, i) <= HowMany(all, given, n)
    ensures i < n && given(all[i]).Some? ==> HowMany(all, given, i) < HowMany(all, given, n)
  {
    if i < n { HowManyGrows(all, given, i, n - 1); }
  }

  lemma CollectsOneMore<T, U>(part: seq<U>, all: seq<T>, x: T, given: T -> Option<U>)
    requires Collects(part, all, given)
    ensures Collects(if given(x).Some? then part + [given(x).value] else part, all + [x], given)
  {
    HowManyPrefix(all, [x], given, |all|);
    forall i | 0 <= i < |all| ensures HowMany(all + [x], given, i) == HowMany(all, given, i) {
      HowManyPrefix(all, [x], given, i);
    }
  }

  lemma CollectsNext<T, U>(part: seq<U>, all: seq<T>, given: T -> Option<U>, next: seq<U>)
    requires all != [] && Collects(part, all[..|all| - 1], given)
    requires next == if given(all[|all| - 1]).Some? then part + [given(all[|all| - 1]).value] else part
    ensures Collects(next, all, given)
  {
    CollectsOneMore(part, all[..|all| - 1], all[|all| - 1], given);
    assert all[..|all| - 1] + [all[|all| - 1]] == all;
  }

  /** Which element makes contribution number k. */
  lemma {:induction false} Contributor<T, U>(all: seq<T>, given: T -> Option<U>, n: nat, k: nat) returns (i: nat)
    requires n <= |all| && k < HowMany(all, given, n)
    ensures i < n && HowMany(all, given, i) == k && given(all[i]).Some?
  {
    if HowMany(all, given, n - 1) == k { i := n - 1; } else { i := Contributor(all, given, n - 1, k); }
  }

  /** So the contributions determine the collection. */
  lemma CollectsOnly<T, U>(a: seq<U>, b: seq<U>, all: seq<T>, given: T -> Option<U>)
    requires Collects(a, all, given) && Collects(b, all, given)
    ensures a == b
  {
    forall k | 0 <= k < |a| ensures a[k] == b[k] {
      var i := Contributor(all, given, |all|, k);
    }
  }
}
