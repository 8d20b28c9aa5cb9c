/** The worker's `asyncio.PriorityQueue`: a bounded binary heap in a list, with the count of
    unfinished tasks behind `task_done` and `join`. */
module JobQueue {

  datatype Job = Job(id: string, reason: string, queuedAt: real, priority: nat, sequence: nat)

  /** The order of `queue_key` tuples: priority, then sequence, then queueing time. */
  predicate KeyLess(a: Job, b: Job) {
    a.priority < b.priority ||
    (a.priority == b.priority &&
     (a.sequence < b.sequence || (a.sequence == b.sequence && a.queuedAt < b.queuedAt)))
  }

  predicate KeyAtMost(a: Job, b: Job) { !KeyLess(b, a) }

  function Parent(i: nat): (p: nat)
    requires 0 < i
    ensures p < i
  {
    (i - 1) / 2
  }

  /** Every entry whose parent is at index `from` or beyond is no smaller than that parent. */
  ghost predicate HeapFrom(s: seq<Job>, from: nat) {
    forall j :: 0 < j < |s| && from <= Parent(j) ==> KeyAtMost(s[Parent(j)], s[j])
  }

  ghost predicate IsHeap(s: seq<Job>) { HeapFrom(s, 0) }

  /** Index i lies in the subtree rooted at `root`. */
  ghost predicate Under(root: nat, i: nat) {
    i == root || (root < i && Under(root, Parent(i)))
  }

  /** HeapFrom except for the entry at `hole` and its children, whose grandparent order is kept. */
  ghost predicate HeapButHole(s: seq<Job>, from: nat, hole: nat) {
    forall j :: 0 < j < |s| && from <= Parent(j) ==>
      (j != hole && Parent(j) != hole ==> KeyAtMost(s[Parent(j)], s[j])) &&
      (Parent(j) == hole && 0 < hole && from <= Parent(hole) ==> KeyAtMost(s[Parent(hole)], s[j]))
  }

  /** HeapFrom except that the entry at `low` may be smaller than its parent. */
  ghost predicate HeapButLow(s: seq<Job>, from: nat, low: nat) {
    HeapButHole(s, from, low) &&
    forall j :: 0 < j < |s| && Parent(j) == low ==> KeyAtMost(s[low], s[j])
  }

  lemma {:induction false} RootIsLeast(s: seq<Job>, i: nat)
    requires IsHeap(s) && i < |s|
    ensures KeyAtMost(s[0], s[i])
  {
    if i > 0 { RootIsLeast(s, Parent(i)); }
  }

  lemma {:induction false} UnderZero(i: nat)
    ensures Under(0, i)
  {
    if i > 0 { UnderZero(Parent(i)); }
  }

  function Swap(s: seq<Job>, i: nat, j: nat): (r: seq<Job>)
    requires i < |s| && j < |s|
    ensures |r| == |s| && multiset(r) == multiset(s)
    ensures r[i] == s[j] && r[j] == s[i]
    ensures forall k :: 0 <= k < |s| && k != i && k != j ==> r[k] == s[k]
  {
    s[i := s[j]][j := s[i]]
  }

  /** Moving the smaller child up into the hole moves the hole down to that child. */
  lemma SinkStep(s: seq<Job>, from: nat, hole: nat, child: nat)
    requires hole < |s| && child < |s| && 0 < child && Parent(child) == hole && from <= hole
    requires HeapButHole(s, from, hole)
    requires forall j :: 0 < j < |s| && Parent(j) == hole ==> KeyAtMost(s[child], s[j])
    ensures HeapButHole(Swap(s, hole, child), from, child)
  {
  }

  /** Exchanging an entry with its larger parent moves the possible disorder up to the parent's place. */
  lemma RiseStep(s: seq<Job>, from: nat, low: nat)
    requires 0 < low < |s| && from <= Parent(low)
    requires HeapButLow(s, from, low) && KeyLess(s[low], s[Parent(low)])
    ensures HeapButLow(Swap(s, low, Parent(low)), from, Parent(low))
  {
  }

  class PriorityQueue {
    const maxSize: nat
    var items: seq<Job>
    var unfinished: nat

    ghost predicate Valid()
      reads this
    {
      0 < maxSize && |items| <= maxSize && IsHeap(items)
    }

    constructor (queueSize: int)
      ensures Valid() && items == [] && unfinished == 0
      ensures maxSize == if queueSize < 1 then 1 else queueSize
    {
      maxSize := if queueSize < 1 then 1 else queueSize;
      items, unfinished := [], 0;
    }

    /** heapq's `_siftdown`: moves the entry at `start` towards the root of its subtree. */
    method BubbleUp(from: nat, start: nat)
      requires start < |items| && Under(from, start) && HeapButLow(items, from, start)
      modifies this`items
      ensures HeapFrom(items, from) && |items| == |old(items)| && multiset(items) == multiset(old(items))
    {
      var pos := start;
      while from < pos && KeyLess(items[pos], items[Parent(pos)])
        invariant 0 <= pos < |items| == |old(items)| && Under(from, pos) && HeapButLow(items, from, pos)
        invariant multiset(items) == multiset(old(items))
      {
        RiseStep(items, from, pos);
        items := Swap(items, pos, Parent(pos));
        pos := Parent(pos);
      }
    }

    /** heapq's `_siftup`: moves the smaller child up until the entry from `start` is a leaf, then
        lets that entry rise to its place. */
    method Settle(start: nat)
      requires start < |items| && HeapFrom(items, start + 1)
      modifies this`items
      ensures HeapFrom(items, start) && |items| == |old(items)| && multiset(items) == multiset(old(items))
    {
      var pos := start;
      while 2 * pos + 1 < |items|
        invariant 0 <= pos < |items| == |old(items)| && Under(start, pos) && HeapButHole(items, start, pos)
        invariant multiset(items) == multiset(old(items))
        decreases |items| - pos
      {
        var child := 2 * pos + 1;
        if child + 1 < |items| && !KeyLess(items[child], items[child + 1]) {
          child := child + 1;
        }
        assert Parent(child) == pos;
        SinkStep(items, start, pos, child);
        items := Swap(items, pos, child);
        pos := child;
      }
      BubbleUp(start, pos);
    }

    method Heapify()
      modifies this`items
      ensures IsHeap(items) && |items| == |old(items)| && multiset(items) == multiset(old(items))
    {
      var i := |items| / 2;
      while 0 < i
        invariant 0 <= i <= |items| / 2 && |items| == |old(items)| && HeapFrom(items, i)
        invariant multiset(items) == multiset(old(items))
      {
        i := i - 1;
        Settle(i);
      }
    }

    /** `put_nowait` on a queue that is not full. */
    method Put(job: Job)
      requires Valid() && |items| < maxSize
      modifies this
      ensures Valid() && unfinished == old(unfinished) + 1
      ensures multiset(items) == multiset(old(items)) + multiset{job}
    {
      items := items + [job];
      UnderZero(|items| - 1);
      BubbleUp(0, |items| - 1);
      unfinished := unfinished + 1;
    }

    /** `get_nowait` on a queue that is not empty. */
    method Get() returns (job: Job)
      requires Valid() && items != []
      modifies this`items
      ensures Valid() && multiset(items) + multiset{job} == multiset(old(items))
      ensures job in old(items) && forall other :: other in old(items) ==> KeyAtMost(job, other)
    {
      forall i | 0 <= i < |items| ensures KeyAtMost(items[0], items[i]) { RootIsLeast(items, i); }
      var last := items[|items| - 1];
      assert items == items[..|items| - 1] + [last];
      items := items[..|items| - 1];
      job := last;
      if items != [] {
        job := items[0];
        assert items == [job] + items[1..];
        items := items[0 := last];
        assert items == [last] + items[1..];
        Settle(0);
      }
    }

    /** False where `task_done` raises ValueError. */
    method TaskDone() returns (ok: bool)
      modifies this`unfinished
      ensures ok == (0 < old(unfinished))
      ensures unfinished == if ok then old(unfinished) - 1 else 0
    {
      ok := 0 < unfinished;
      if ok { unfinished := unfinished - 1; }
    }
  }
}
