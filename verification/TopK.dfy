/** Over a whole sequence of requests: the bounded queue is a top-k selection exactly when no request overtakes. */
module TopK {
  import opened Ranking
  import opened JobQueue
  import opened WorkerMachine

  /** The jobs at first pending and the requests, in order of arrival. */
  function Arrivals(s: State, ts: seq<Ticket>): (r: seq<Ticket>)
    ensures |r| == |s.pending| + |ts|
  {
    Views(s.pending) + ts
  }

  /** Every arrival has an id of its own, as generated ids have. */
  ghost predicate OwnIds(ts: seq<Ticket>) {
    forall i, j :: 0 <= i < j < |ts| ==> ts[i].id != ts[j].id
  }

  ghost predicate OwnJobIds(jobs: seq<Job>) {
    forall i, j :: 0 <= i < j < |jobs| ==> jobs[i].id != jobs[j].id
  }

  ghost predicate Knows(ts: seq<Ticket>, id: string) { exists p :: 0 <= p < |ts| && ts[p].id == id }

  lemma {:induction false} InsertIds(jobs: seq<Job>, x: Job, id: string)
    ensures (exists j :: j in Insert(jobs, x, ByPriority) && j.id == id) <==> x.id == id || exists j :: j in jobs && j.id == id
  {
    InsertKeeps(jobs, x, ByPriority);
    var r := Insert(jobs, x, ByPriority);
    assert forall j :: j in r <==> j in multiset(r);
    assert forall j :: j in jobs <==> j in multiset(jobs);
  }

  lemma {:induction false} InsertOwnIds(jobs: seq<Job>, x: Job)
    requires OwnJobIds(jobs) && forall j :: j in jobs ==> j.id != x.id
    ensures OwnJobIds(Insert(jobs, x, ByPriority))
  {
    if jobs != [] && ByPriority(x) < ByPriority(jobs[|jobs| - 1]) {
      var front, last := jobs[..|jobs| - 1], jobs[|jobs| - 1];
      InsertOwnIds(front, x);
      var r := Insert(front, x, ByPriority);
      forall i | 0 <= i < |r| ensures r[i].id != last.id {
        InsertIds(front, x, r[i].id);
        assert r[i] in r;
      }
    }
  }

  /** What is pending has ids of its own, all of them arrivals'. */
  lemma {:induction false} PendingIds(s: State, ts: seq<Ticket>)
    requires OwnIds(Arrivals(s, ts))
    ensures OwnJobIds(EnqueueAll(s, ts).pending)
    ensures forall j :: j in EnqueueAll(s, ts).pending ==> Knows(Arrivals(s, ts), j.id)
  {
    var all := Arrivals(s, ts);
    if ts == [] {
      forall i, j | 0 <= i < j < |s.pending| ensures s.pending[i].id != s.pending[j].id {
        assert all[i].id == s.pending[i].id && all[j].id == s.pending[j].id;
      }
      forall j | j in s.pending ensures Knows(all, j.id) {
        var i :| 0 <= i < |s.pending| && s.pending[i] == j;
        assert all[i].id == j.id;
      }
    } else {
      var front, t := ts[..|ts| - 1], ts[|ts| - 1];
      assert Arrivals(s, front) == all[..|all| - 1];
      PendingIds(s, front);
      StepIds(EnqueueAll(s, front), t, all);
    }
  }

  lemma StepIds(s: State, t: Ticket, all: seq<Ticket>)
    requires all != [] && all[|all| - 1] == t && OwnIds(all)
    requires OwnJobIds(s.pending) && forall j :: j in s.pending ==> Knows(all[..|all| - 1], j.id)
    ensures OwnJobIds(EnqueueStep(s, t).pending)
    ensures forall j :: j in EnqueueStep(s, t).pending ==> Knows(all, j.id)
  {
    forall j | j in s.pending ensures Knows(all, j.id) && j.id != t.id {
      var p :| 0 <= p < |all| - 1 && all[..|all| - 1][p].id == j.id;
      assert all[p].id == j.id;
    }
    if !Coalesces(s, t.priority) {
      var e, job := EvictWorst(s).pending, Job(t.id, t.reason, t.at, Clamp(t.priority), s.sequence + 1);
      InsertOwnIds(e, job);
      forall j | j in Insert(e, job, ByPriority) ensures Knows(all, j.id) {
        InsertIds(e, job, j.id);
        assert all[|all| - 1].id == t.id;
      }
    }
  }

  // ---------- After an overtaking ----------

  /** The best are as many as fit and all of priority 0, and arrival p is among them but no longer pending. */
  ghost predicate Broken(s: State, ts: seq<Ticket>, p: nat) {
    && p < |Arrivals(s, ts)|
    && |Best(s, ts)| == s.capacity > 0 && Best(s, ts)[s.capacity - 1].priority == 0
    && (exists b :: 0 <= b < s.capacity && Best(s, ts)[b].id == Arrivals(s, ts)[p].id)
    && forall j :: j in EnqueueAll(s, ts).pending ==> j.id != Arrivals(s, ts)[p].id
  }

  /** Once the best all have priority 0, later requests do not change them. */
  lemma BestFrozen(s: State, ts: seq<Ticket>)
    requires ts != [] && 0 < s.capacity == |Best(s, ts[..|ts| - 1])|
    requires Best(s, ts[..|ts| - 1])[s.capacity - 1].priority == 0
    ensures Best(s, ts) == Best(s, ts[..|ts| - 1])
  {
    var front, t := ts[..|ts| - 1], ts[|ts| - 1];
    var sofar := StableSort(Views(s.pending) + ClampedAll(front), ByTicket);
    StableSortAscending(Views(s.pending) + ClampedAll(front), ByTicket);
    BestOfOneMore(s, ts);
    InsertThenTake(sofar, Clamped(t), ByTicket, s.capacity);
    assert sofar[s.capacity - 1].priority == 0;
  }

  lemma StaysOut(e: State, t: Ticket, id: string)
    requires t.id != id && forall j :: j in e.pending ==> j.id != id
    ensures forall j :: j in EnqueueStep(e, t).pending ==> j.id != id
  {
    if !Coalesces(e, t.priority) {
      InsertIds(EvictWorst(e).pending, Job(t.id, t.reason, t.at, Clamp(t.priority), e.sequence + 1), id);
    }
  }

  lemma EvictedIsOut(e: State, t: Ticket)
    requires OwnJobIds(e.pending) && Overtakes(e, t) && t.id != e.pending[|e.pending| - 1].id
    ensures forall j :: j in EnqueueStep(e, t).pending ==> j.id != e.pending[|e.pending| - 1].id
  {
    var kept, id := EvictWorst(e).pending, e.pending[|e.pending| - 1].id;
    assert forall j :: j in kept ==> j.id != id;
    InsertIds(kept, Job(t.id, t.reason, t.at, Clamp(t.priority), e.sequence + 1), id);
  }

  lemma BrokenStays(s: State, ts: seq<Ticket>, p: nat)
    requires ts != [] && OwnIds(Arrivals(s, ts)) && Broken(s, ts[..|ts| - 1], p)
    ensures Broken(s, ts, p)
  {
    var front, t := ts[..|ts| - 1], ts[|ts| - 1];
    var all := Arrivals(s, ts);
    assert Arrivals(s, front) == all[..|all| - 1];
    assert all[p].id != all[|all| - 1].id;
    BestFrozen(s, ts);
    StaysOut(EnqueueAll(s, front), t, all[p].id);
  }

  lemma LastOfBest(e: State, t: Ticket, best: seq<Ticket>)
    requires Inv(e) && Overtakes(e, t) && Views(e.pending) == best
    ensures |best| == |e.pending| == e.capacity > 0
    ensures best[e.capacity - 1].id == e.pending[e.capacity - 1].id && best[e.capacity - 1].priority == 0
    ensures e.pending[e.capacity - 1] in e.pending
  {
    assert best[e.capacity - 1] == View(e.pending[e.capacity - 1]);
  }

  /** Where an arrival is in the order, told for one request more. */
  lemma ArrivedBefore(all: seq<Ticket>, id: string) returns (p: nat)
    requires all != [] && OwnIds(all) && Knows(all[..|all| - 1], id)
    ensures p < |all| - 1 && all[p].id == id && all[|all| - 1].id != id
  {
    p :| 0 <= p < |all| - 1 && all[..|all| - 1][p].id == id;
  }

  /** An overtaking throws out the last of the best for good. */
  lemma OvertakingBreaks(s: State, ts: seq<Ticket>, front: seq<Ticket>, e: State, t: Ticket) returns (p: nat)
    requires ts == front + [t] && e == EnqueueAll(s, front) && Inv(e) && e.capacity == s.capacity
    requires OwnIds(Arrivals(s, ts)) && Views(e.pending) == Best(s, front) && Overtakes(e, t)
    ensures Broken(s, ts, p)
  {
    var all := Arrivals(s, ts);
    assert ts[..|ts| - 1] == front && Arrivals(s, front) == all[..|all| - 1] && all[|all| - 1] == t;
    LastOfBest(e, t, Best(s, front));
    BestFrozen(s, ts);
    PendingIds(s, front);
    p := ArrivedBefore(all, e.pending[e.capacity - 1].id);
    EvictedIsOut(e, t);
    LostArrival(s, ts, p, e.pending[e.capacity - 1].id);
  }

  lemma LostArrival(s: State, ts: seq<Ticket>, p: nat, id: string)
    requires p < |Arrivals(s, ts)| && Arrivals(s, ts)[p].id == id
    requires |Best(s, ts)| == s.capacity > 0
    requires Best(s, ts)[s.capacity - 1].priority == 0 && Best(s, ts)[s.capacity - 1].id == id
    requires forall j :: j in EnqueueAll(s, ts).pending ==> j.id != id
    ensures Broken(s, ts, p)
  {
  }

  ghost predicate OvertakesAt(s: State, ts: seq<Ticket>, i: int) {
    0 <= i < |ts| && Overtakes(EnqueueAll(s, ts[..i]), ts[i])
  }

  lemma BestSoFar(s: State, ts: seq<Ticket>)
    requires Inv(s) && forall i :: !OvertakesAt(s, ts, i)
    ensures Views(EnqueueAll(s, ts).pending) == Best(s, ts)
    ensures Inv(EnqueueAll(s, ts)) && EnqueueAll(s, ts).capacity == s.capacity
  {
    forall i | 0 <= i < |ts| ensures !Overtakes(EnqueueAll(s, ts[..i]), ts[i]) {
      assert !OvertakesAt(s, ts, i);
    }
    KeepsBest(s, ts);
    EnqueueAllKeepsInv(s, ts);
  }

  lemma WithoutLast(s: State, ts: seq<Ticket>, i: nat)
    requires ts != [] && OwnIds(Arrivals(s, ts))
    ensures OwnIds(Arrivals(s, ts[..|ts| - 1]))
    ensures i < |ts| - 1 && OvertakesAt(s, ts, i) ==> OvertakesAt(s, ts[..|ts| - 1], i)
  {
    assert Arrivals(s, ts[..|ts| - 1]) == Arrivals(s, ts)[..|s.pending| + |ts| - 1];
    if i < |ts| - 1 {
      assert ts[..|ts| - 1][..i] == ts[..i];
    }
  }

  /** The only overtaking is by the last request. */
  lemma LastOvertakingBreaks(s: State, ts: seq<Ticket>, front: seq<Ticket>) returns (p: nat)
    requires Inv(s) && ts != [] && OwnIds(Arrivals(s, ts)) && OvertakesAt(s, ts, |ts| - 1)
    requires front == ts[..|ts| - 1] && forall m :: !OvertakesAt(s, front, m)
    ensures Broken(s, ts, p)
  {
    BestSoFar(s, front);
    p := OvertakingBreaks(s, ts, front, EnqueueAll(s, front), ts[|ts| - 1]);
  }

  lemma {:induction false} FirstOvertakingBreaks(s: State, ts: seq<Ticket>, i: nat) returns (p: nat)
    requires Inv(s) && OwnIds(Arrivals(s, ts)) && OvertakesAt(s, ts, i)
    ensures Broken(s, ts, p)
  {
    var front := ts[..|ts| - 1];
    WithoutLast(s, ts, i);
    if m :| OvertakesAt(s, front, m) {
      p := FirstOvertakingBreaks(s, front, m);
      BrokenStays(s, ts, p);
    } else {
      p := LastOvertakingBreaks(s, ts, front);
    }
  }

  lemma NotTheBest(jobs: seq<Job>, best: seq<Ticket>, b: nat)
    requires b < |best| && forall j :: j in jobs ==> j.id != best[b].id
    ensures Views(jobs) != best
  {
    if b < |jobs| {
      assert jobs[b] in jobs && Views(jobs)[b].id == jobs[b].id;
    }
  }

  /** The queue is a top-k selection over a sequence of requests if and only if none of them overtakes. */
  lemma TopKIff(s: State, ts: seq<Ticket>)
    requires Inv(s) && OwnIds(Arrivals(s, ts))
    ensures Views(EnqueueAll(s, ts).pending) == Best(s, ts) <==> forall i :: !OvertakesAt(s, ts, i)
  {
    if i :| OvertakesAt(s, ts, i) {
      var p := FirstOvertakingBreaks(s, ts, i);
      var b :| 0 <= b < s.capacity && Best(s, ts)[b].id == Arrivals(s, ts)[p].id;
      NotTheBest(EnqueueAll(s, ts).pending, Best(s, ts), b);
    } else {
      BestSoFar(s, ts);
    }
  }
}
