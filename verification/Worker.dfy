/** The precompute worker as the object it is: the heap it shares with the queue, the running job and
    the counters, each method tied to one step of the machine in WorkerMachine.dfy. */
module Worker {
  import opened JobQueue
  import opened WorkerMachine
  import opened Ranking

  lemma SameSize(items: seq<Job>, pending: seq<Job>)
    requires multiset(items) == multiset(pending)
    ensures |items| == |pending|
  {
    assert |multiset(items)| == |items| && |multiset(pending)| == |pending|;
  }

  /** The last pending job is the one heap entry that no other entry exceeds. */
  lemma LastIsWorst(pending: seq<Job>, items: seq<Job>, worst: Job)
    requires InOrder(pending) && multiset(items) == multiset(pending)
    requires worst in items && forall j :: j in items ==> KeyAtMost(j, worst)
    ensures pending != [] && worst == pending[|pending| - 1]
  {
    assert worst in multiset(pending);
    var k :| 0 <= k < |pending| && pending[k] == worst;
    assert pending[|pending| - 1] in multiset(items);
    assert pending[|pending| - 1] in items;
  }

  lemma FirstIsLeast(pending: seq<Job>, items: seq<Job>, least: Job)
    requires InOrder(pending) && multiset(items) == multiset(pending)
    requires least in items && forall j :: j in items ==> KeyAtMost(least, j)
    ensures pending != [] && least == pending[0]
  {
    assert least in multiset(pending);
    var k :| 0 <= k < |pending| && pending[k] == least;
    assert pending[0] in multiset(items);
    assert pending[0] in items;
  }

  lemma RemoveAt(pending: seq<Job>, items: seq<Job>, i: nat)
    requires multiset(items) == multiset(pending) && i < |items|
    requires pending != [] && items[i] == pending[|pending| - 1]
    ensures multiset(items[..i] + items[i + 1..]) == multiset(pending[..|pending| - 1])
  {
    var front, rest := pending[..|pending| - 1], items[..i] + items[i + 1..];
    assert items == items[..i] + [items[i]] + items[i + 1..];
    assert multiset(items) == multiset(rest) + multiset{items[i]};
    assert pending == front + [items[i]];
    assert multiset(rest) == multiset(pending) - multiset{items[i]} == multiset(front);
  }

  lemma RemoveFirst(pending: seq<Job>, rest: seq<Job>)
    requires pending != [] && multiset(rest) + multiset{pending[0]} == multiset(pending)
    ensures multiset(rest) == multiset(pending[1..])
  {
    assert pending == [pending[0]] + pending[1..];
    assert multiset(pending[1..]) == multiset(pending) - multiset{pending[0]} == multiset(rest);
  }

  lemma Roomy(s: State, items: seq<Job>)
    requires 0 < s.capacity && |s.pending| <= s.capacity
    requires multiset(items) == multiset(EvictWorst(s).pending)
    ensures |items| < s.capacity
  {
    SameSize(items, EvictWorst(s).pending);
  }

  class PrecomputeWorker {
    const queue: PriorityQueue
    var current: Current
    var jobSequence: nat
    var dropped: nat
    var coalesced: nat
    ghost var state: State
    ghost var log: seq<Op>

    /** The fields hold what the machine state s holds. */
    ghost predicate Agrees(s: State)
      reads this, queue
    {
      && queue.Valid()
      && multiset(queue.items) == multiset(s.pending) && queue.unfinished == s.unfinished
      && current == s.current && jobSequence == s.sequence
      && dropped == |s.evicted| && coalesced == s.coalesced
    }

    /** The fields agree with the machine after the steps in the log, so everything proved of every run
        holds of the object. */
    ghost predicate Valid()
      reads this, queue
    {
      Agrees(state) && state == Run(Start(queue.maxSize), log)
    }

    constructor (queueSize: int)
      ensures Valid() && fresh(queue) && log == []
      ensures queue.maxSize == if queueSize < 1 then 1 else queueSize
    {
      queue := new PriorityQueue(queueSize);
      current, jobSequence, dropped, coalesced := Idle, 0, 0, 0;
      log := [];
      new;
      state := Start(queue.maxSize);
    }

    lemma Reachable()
      requires Valid()
      ensures Inv(state) && state.capacity == queue.maxSize && |queue.items| == |state.pending|
    {
      RunConserves(queue.maxSize, log);
      SameSize(queue.items, state.pending);
    }

    lemma Ordered()
      requires Valid()
      ensures InOrder(state.pending) && |queue.items| == |state.pending|
    {
      Reachable();
    }

    lemma Sized()
      requires Valid()
      ensures 0 < state.capacity == queue.maxSize
      ensures |queue.items| == |state.pending| <= state.capacity
    {
      Reachable();
    }

    ghost method Record(op: Op, next: State)
      requires state == Run(Start(queue.maxSize), log) && next == Step(state, op) && Agrees(next)
      modifies this`state, this`log
      ensures Valid() && log == old(log) + [op]
    {
      state := next;
      log := log + [op];
    }

    /** Index of the first entry that no other entry exceeds, as Python's `max` over the indices. */
    static method WorstIndex(entries: seq<Job>) returns (worst: nat)
      requires entries != []
      ensures worst < |entries|
      ensures forall j :: j in entries ==> KeyAtMost(j, entries[worst])
    {
      worst := 0;
      var i := 1;
      while i < |entries|
        invariant 0 <= worst < i <= |entries|
        invariant forall k :: 0 <= k < i ==> KeyAtMost(entries[k], entries[worst])
      {
        if KeyLess(entries[worst], entries[i]) { worst := i; }
        i := i + 1;
      }
    }

    /** Deletes the worst entry from the middle of the heap's list and restores heap order, unless even
        that entry is at least as good as the requested priority. */
    method MakeRoomFor(priority: int) returns (room: bool)
      requires Valid()
      modifies queue`items
      ensures queue.Valid() && (!room ==> queue.items == old(queue.items))
      ensures room == (state.pending == [] || priority < state.pending[|state.pending| - 1].priority)
      ensures multiset(queue.items) ==
              if room && state.pending != [] then multiset(state.pending[..|state.pending| - 1])
              else multiset(state.pending)
    {
      Ordered();
      var pending := queue.items;
      if pending == [] { return true; }
      var worst := WorstIndex(pending);
      LastIsWorst(state.pending, pending, pending[worst]);
      if pending[worst].priority <= priority { return false; }
      RemoveAt(state.pending, pending, worst);
      DropAt(worst);
      room := true;
    }

    /** Deletes one entry and heapifies what is left. */
    method DropAt(i: nat)
      requires queue.Valid() && i < |queue.items|
      modifies queue`items
      ensures queue.Valid()
      ensures multiset(queue.items) == multiset(old(queue.items)[..i] + old(queue.items)[i + 1..])
    {
      queue.items := queue.items[..i] + queue.items[i + 1..];
      queue.Heapify();
    }

    /** The second half of `enqueue`, once there is room: number the job, put it, and cancel a running job
        it beats. `kept` is the machine after any eviction. */
    method PutJob(t: Ticket, ghost kept: State, ghost next: State)
      requires Agrees(kept) && |queue.items| < queue.maxSize && next == Admit(kept, t)
      modifies this`current, this`jobSequence, queue
      ensures Agrees(next)
    {
      jobSequence := jobSequence + 1;
      var job := Job(t.id, t.reason, t.at, Clamp(t.priority), jobSequence);
      assert next.pending == Insert(kept.pending, job, ByPriority);
      InsertKeeps(kept.pending, job, ByPriority);
      queue.Put(job);
      if current.Running? && job.priority < current.job.priority && !current.phase.Ended? {
        current := current.(phase := Cancelling);
      }
      assert current == next.current;
    }

    /** The first half of `enqueue`: room in the queue, if need be by eviction. */
    method EnsureRoom(priority: int, ghost kept: State) returns (room: bool)
      requires Valid() && kept == EvictWorst(state)
      requires 0 < state.capacity == queue.maxSize && |queue.items| == |state.pending| <= state.capacity
      modifies this`dropped, queue`items
      ensures room == !Coalesces(state, priority)
      ensures Agrees(if room then kept else state)
      ensures !room ==> queue.items == old(queue.items)
    {
      room := true;
      if |queue.items| >= queue.maxSize {
        assert state.pending != [];
        room := MakeRoomFor(priority);
        assert room == !Coalesces(state, priority);
        if room { dropped := dropped + 1; }
      }
    }

    method EnqueueJob(t: Ticket) returns (accepted: bool)
      requires Valid()
      modifies this, queue
      ensures Valid() && log == old(log) + [Enqueue(t)]
      ensures accepted <==> |old(queue.items)| < queue.maxSize || exists j :: j in old(queue.items) && t.priority < j.priority
      ensures !accepted ==> queue.items == old(queue.items) && current == old(current)
    {
      Sized();
      AcceptsIff(t.priority);
      ghost var kept, next := EvictWorst(state), EnqueueStep(state, t);
      accepted := EnsureRoom(t.priority, kept);
      if accepted {
        Roomy(state, queue.items);
        PutJob(t, kept, next);
      } else {
        coalesced := coalesced + 1;
      }
      Record(Enqueue(t), next);
    }

    lemma AcceptsIff(priority: int)
      requires Valid()
      ensures Coalesces(state, priority) <==>
              queue.maxSize <= |queue.items| && forall j :: j in queue.items ==> j.priority <= priority
    {
      Reachable();
      RefusedIff(state, priority);
      forall j ensures j in queue.items <==> j in state.pending {
        assert j in queue.items <==> j in multiset(queue.items);
        assert j in state.pending <==> j in multiset(state.pending);
      }
    }

    /** One turn of the run_forever loop up to the await of the job's task. */
    method TakeNext()
      requires Valid()
      modifies this, queue
      ensures Valid() && log == old(log) + [Op.Get]
      ensures if old(current).Idle? && old(queue.items) != []
              then current.Running? && current.phase.Live? && current.job in old(queue.items)
                   && forall j :: j in old(queue.items) ==>
                        current.job.priority < j.priority ||
                        (current.job.priority == j.priority && current.job.sequence <= j.sequence)
              else current == old(current) && queue.items == old(queue.items)
    {
      Reachable();
      if current.Idle? && queue.items != [] {
        ghost var before := queue.items;
        var job := queue.Get();
        FirstIsLeast(state.pending, before, job);
        RemoveFirst(state.pending, queue.items);
        current := Running(job, Live);
      }
      Record(Op.Get, GetStep(state));
    }

    /** The job's task completes, fails, or acts on a cancellation. */
    method EndTask()
      requires Valid()
      modifies this
      ensures Valid() && log == old(log) + [TaskEnds]
      ensures current == if old(current).Running? then Running(old(current).job, Ended) else Idle
    {
      if current.Running? { current := current.(phase := Ended); }
      Record(TaskEnds, TaskEndsStep(state));
    }

    /** The loop resumes after the await; `raised` is the ValueError of an unbalanced task_done. */
    method ReapTask() returns (raised: bool)
      requires Valid()
      modifies this, queue`unfinished
      ensures Valid() && log == old(log) + [Reap]
      ensures current == if old(current).Running? && old(current).phase.Ended? then Idle else old(current)
      ensures queue.unfinished == old(queue.unfinished) - if current == old(current) then 0 else 1
      ensures !raised
    {
      Reachable();
      raised := false;
      if current.Running? && current.phase.Ended? {
        current := Idle;
        var ok := queue.TaskDone();
        raised := !ok;
      }
      Record(Reap, ReapStep(state));
    }

    /** `unbalanced` counts the ValueErrors the source catches and logs: there are none. */
    method DrainQueue() returns (drained: int, unbalanced: int)
      requires Valid()
      modifies queue
      ensures queue.Valid() && queue.items == []
      ensures drained == |state.pending| && unbalanced == 0
      ensures queue.unfinished + drained == state.unfinished
    {
      Reachable();
      drained, unbalanced := 0, 0;
      while queue.items != []
        invariant queue.Valid() && unbalanced == 0
        invariant drained + |queue.items| == |state.pending|
        invariant queue.unfinished + drained == state.unfinished
        decreases |queue.items|
      {
        ghost var before := queue.items;
        var job := queue.Get();
        SameSize(before, queue.items + [job]);
        var ok := queue.TaskDone();
        drained := drained + 1;
        unbalanced := if ok then unbalanced else unbalanced + 1;
      }
    }

    method HandleWorkerControl(action: string, jobId: string, drain: bool)
      requires Valid()
      modifies this, queue
      ensures Valid() && log == old(log) + [Control(action, jobId, drain)]
      ensures var known := action == "cancel_active" || action == "pause" || action == "pause_all";
              && queue.items == (if known && drain then [] else old(queue.items))
              && queue.unfinished == old(queue.unfinished) - (if known && drain then |old(queue.items)| else 0)
              && current == (if known && old(current).Running? && !old(current).phase.Ended?
                                && (jobId == "" || jobId == old(current).job.id)
                             then Running(old(current).job, Cancelling) else old(current))
    {
      Reachable();
      if action in {"cancel_active", "pause", "pause_all"} {
        var cancelCurrent := Cancels(current, jobId);
        if drain {
          var drained, unbalanced := DrainQueue();
        }
        if cancelCurrent { current := current.(phase := Cancelling); }
      }
      Record(Control(action, jobId, drain), ControlStep(state, action, jobId, drain));
    }
  }
}
