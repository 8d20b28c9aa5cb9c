/** The precompute worker as a state machine. Its pending jobs are listed in the order in which the queue
    would hand them out; the class in Worker.dfy implements the same steps over the binary heap. */
module WorkerMachine {
  import opened Common
  import opened JobQueue
  import opened Ranking

  datatype Phase = Live | Cancelling | Ended
  datatype Current = Idle | Running(job: Job, phase: Phase)

  datatype State = State(
    capacity: nat, pending: seq<Job>, current: Current, sequence: nat, unfinished: nat,
    calls: nat, coalesced: nat,
    accepted: seq<Job>, finished: seq<Job>, evicted: seq<Job>, drained: seq<Job>)

  /** What a caller asks for; a job is a ticket with a clamped priority and a sequence number. */
  datatype Ticket = Ticket(id: string, reason: string, at: real, priority: int)

  datatype Op =
    | Enqueue(ticket: Ticket)
    | Get            // run_forever takes the next job and starts its task
    | TaskEnds       // the task completes, fails or is cancelled
    | Reap           // run_forever resumes and calls task_done
    | Control(action: string, jobId: string, drain: bool)

  const ByPriority: Job -> real := (j: Job) => j.priority as real
  const ByTicket: Ticket -> real := (t: Ticket) => t.priority as real

  function Clamp(p: int): (r: nat) { if p < 0 then 0 else p }

  function Start(capacity: nat): State {
    State(capacity, [], Idle, 0, 0, 0, 0, [], [], [], [])
  }

  /** Full, and even the worst pending job is at least as good as the requested priority. */
  predicate Coalesces(s: State, priority: int) {
    |s.pending| >= s.capacity && s.pending != [] && s.pending[|s.pending| - 1].priority <= priority
  }

  function Preempt(c: Current, priority: nat): Current {
    if c.Running? && priority < c.job.priority && !c.phase.Ended? then c.(phase := Cancelling) else c
  }

  function Admit(s: State, t: Ticket): State {
    var job := Job(t.id, t.reason, t.at, Clamp(t.priority), s.sequence + 1);
    s.(pending := Insert(s.pending, job, ByPriority), accepted := s.accepted + [job],
       sequence := s.sequence + 1, unfinished := s.unfinished + 1, calls := s.calls + 1,
       current := Preempt(s.current, job.priority))
  }

  function EvictWorst(s: State): State {
    if |s.pending| < s.capacity || s.pending == [] then s
    else s.(pending := s.pending[..|s.pending| - 1], evicted := s.evicted + [s.pending[|s.pending| - 1]])
  }

  function EnqueueStep(s: State, t: Ticket): State {
    if Coalesces(s, t.priority) then s.(calls := s.calls + 1, coalesced := s.coalesced + 1)
    else Admit(EvictWorst(s), t)
  }

  function GetStep(s: State): State {
    if s.current.Idle? && s.pending != [] then
      s.(current := Running(s.pending[0], Live), pending := s.pending[1..])
    else s
  }

  function TaskEndsStep(s: State): State {
    if s.current.Running? then s.(current := s.current.(phase := Ended)) else s
  }

  function ReapStep(s: State): State {
    if s.current.Running? && s.current.phase.Ended? && 0 < s.unfinished then
      s.(current := Idle, finished := s.finished + [s.current.job], unfinished := s.unfinished - 1)
    else s
  }

  function DrainStep(s: State): State {
    s.(pending := [], drained := s.drained + s.pending,
       unfinished := if |s.pending| <= s.unfinished then s.unfinished - |s.pending| else 0)
  }

  predicate Cancels(c: Current, jobId: string) {
    c.Running? && !c.phase.Ended? && (jobId == "" || jobId == c.job.id)
  }

  predicate KnownAction(action: string) { action in {"cancel_active", "pause", "pause_all"} }

  function ControlStep(s: State, action: string, jobId: string, drain: bool): State {
    if !KnownAction(action) then s
    else
      var s := if drain then DrainStep(s) else s;
      if Cancels(s.current, jobId) then s.(current := s.current.(phase := Cancelling)) else s
  }

  function Step(s: State, op: Op): State {
    match op
    case Enqueue(t) => EnqueueStep(s, t)
    case Get => GetStep(s)
    case TaskEnds => TaskEndsStep(s)
    case Reap => ReapStep(s)
    case Control(action, jobId, drain) => ControlStep(s, action, jobId, drain)
  }

  function Run(s: State, ops: seq<Op>): State {
    if ops == [] then s else Step(Run(s, ops[..|ops| - 1]), ops[|ops| - 1])
  }

  // ---------- What every run keeps ----------

  ghost predicate InOrder(s: seq<Job>) {
    forall i, j :: 0 <= i < j < |s| ==> KeyLess(s[i], s[j])
  }

  ghost function RunningJobs(c: Current): (r: multiset<Job>) {
    if c.Running? then multiset{c.job} else multiset{}
  }

  /** Every accepted job, wherever it is now. */
  ghost function Placed(s: State): (r: multiset<Job>) {
    multiset(s.pending) + RunningJobs(s.current) + multiset(s.finished) + multiset(s.evicted) + multiset(s.drained)
  }

  ghost predicate Numbered(jobs: seq<Job>) {
    forall i :: 0 <= i < |jobs| ==> jobs[i].sequence == i + 1
  }

  ghost predicate Balanced(s: State) {
    && |s.accepted| == s.sequence && Numbered(s.accepted)
    && multiset(s.accepted) == Placed(s)
    && s.unfinished == |s.pending| + |RunningJobs(s.current)| + |s.evicted|
  }

  ghost predicate Inv(s: State) {
    && 0 < s.capacity && |s.pending| <= s.capacity && InOrder(s.pending)
    && Balanced(s)
    && s.calls == s.coalesced + |s.accepted|
  }

  lemma AppendInOrder(s: seq<Job>, x: Job)
    requires InOrder(s) && forall j :: j in s ==> KeyLess(j, x)
    ensures InOrder(s + [x])
  {
    assert forall i :: 0 <= i < |s| ==> s[i] in s;
  }

  lemma BelowLast(s: seq<Job>, j: Job)
    requires s != [] && InOrder(s) && j in s[..|s| - 1]
    ensures KeyLess(j, s[|s| - 1])
  {
    var k :| 0 <= k < |s| - 1 && s[k] == j;
  }

  lemma {:induction false} InsertInOrder(s: seq<Job>, x: Job)
    requires InOrder(s) && forall j :: j in s ==> j.sequence < x.sequence
    ensures InOrder(Insert(s, x, ByPriority))
  {
    if s == [] {
      assert InOrder([x]);
    } else {
      var front, last := s[..|s| - 1], s[|s| - 1];
      assert s == front + [last] && last in s;
      if ByPriority(x) < ByPriority(last) {
        InsertInOrder(front, x);
        InsertKeeps(front, x, ByPriority);
        var r := Insert(front, x, ByPriority);
        forall j | j in r ensures KeyLess(j, last) {
          assert j in multiset(r) && (j == x || j in multiset(front));
          if j != x { BelowLast(s, j); }
        }
        AppendInOrder(r, last);
      } else {
        forall j | j in s ensures KeyLess(j, x) {
          if j != last { BelowLast(s, j); }
        }
        AppendInOrder(s, x);
      }
    }
  }

  lemma PendingAccepted(s: State, j: Job)
    requires Balanced(s) && j in s.pending
    ensures j in s.accepted && 1 <= j.sequence <= s.sequence
  {
    assert j in multiset(s.accepted);
  }

  lemma {:induction false} EvictKeeps(s: State)
    requires Balanced(s) && InOrder(s.pending) && 0 < s.capacity && |s.pending| <= s.capacity
    ensures Balanced(EvictWorst(s)) && InOrder(EvictWorst(s).pending)
    ensures |EvictWorst(s).pending| < s.capacity
  {
    if EvictWorst(s) != s {
      var front, worst := s.pending[..|s.pending| - 1], s.pending[|s.pending| - 1];
      assert s.pending == front + [worst];
      assert multiset(s.pending) == multiset(front) + multiset{worst};
      assert multiset(EvictWorst(s).evicted) == multiset(s.evicted) + multiset{worst};
      assert Placed(EvictWorst(s)) == Placed(s);
    }
  }

  lemma {:induction false} AdmitKeeps(s: State, t: Ticket)
    requires Balanced(s) && InOrder(s.pending) && |s.pending| < s.capacity
    requires s.calls == s.coalesced + |s.accepted|
    ensures Inv(Admit(s, t))
  {
    var job := Job(t.id, t.reason, t.at, Clamp(t.priority), s.sequence + 1);
    forall j | j in s.pending ensures j.sequence < job.sequence { PendingAccepted(s, j); }
    InsertInOrder(s.pending, job);
    InsertKeeps(s.pending, job, ByPriority);
    assert RunningJobs(Preempt(s.current, job.priority)) == RunningJobs(s.current);
    assert Placed(Admit(s, t)) == Placed(s) + multiset{job};
  }

  lemma {:induction false} EnqueueKeepsInv(s: State, t: Ticket)
    requires Inv(s)
    ensures Inv(EnqueueStep(s, t))
  {
    if !Coalesces(s, t.priority) {
      EvictKeeps(s);
      AdmitKeeps(EvictWorst(s), t);
    }
  }

  lemma GetKeepsInv(s: State)
    requires Inv(s)
    ensures Inv(GetStep(s))
  {
    if s.current.Idle? && s.pending != [] {
      var first, rest := s.pending[0], s.pending[1..];
      assert s.pending == [first] + rest;
      assert multiset(s.pending) == multiset{first} + multiset(rest);
      assert Placed(GetStep(s)) == Placed(s);
    }
  }

  lemma DrainKeepsInv(s: State)
    requires Inv(s)
    ensures Inv(DrainStep(s))
  {
    assert Placed(DrainStep(s)) == Placed(s);
  }

  lemma ControlKeepsInv(s: State, action: string, jobId: string, drain: bool)
    requires Inv(s)
    ensures Inv(ControlStep(s, action, jobId, drain))
  {
    DrainKeepsInv(s);
  }

  lemma {:induction false} StepKeepsInv(s: State, op: Op)
    requires Inv(s)
    ensures Inv(Step(s, op))
  {
    match op
    case Enqueue(t) => EnqueueKeepsInv(s, t);
    case Get => GetKeepsInv(s);
    case TaskEnds =>
    case Reap =>
    case Control(action, jobId, drain) => ControlKeepsInv(s, action, jobId, drain);
  }

  lemma StepKeepsCapacity(s: State, op: Op)
    ensures Step(s, op).capacity == s.capacity
  {
  }

  /** Conservation over every run: each call is accepted or coalesced; the accepted jobs, numbered
      1, 2, 3, ..., are exactly the pending, running, finished, evicted and drained ones, none twice;
      and the queue's unfinished count is off by exactly the evicted jobs. */
  lemma {:induction false} RunConserves(capacity: nat, ops: seq<Op>)
    requires 0 < capacity
    ensures var s := Run(Start(capacity), ops);
            && Inv(s) && s.capacity == capacity
            && s.calls == |s.accepted| + s.coalesced
            && |s.accepted| == |s.pending| + |RunningJobs(s.current)| + |s.finished| + |s.evicted| + |s.drained|
            && s.unfinished == |s.pending| + |RunningJobs(s.current)| + |s.evicted|
            && (forall j :: j in s.accepted ==> multiset(s.accepted)[j] == 1)
  {
    var s := Run(Start(capacity), ops);
    if ops != [] {
      RunConserves(capacity, ops[..|ops| - 1]);
      StepKeepsInv(Run(Start(capacity), ops[..|ops| - 1]), ops[|ops| - 1]);
      StepKeepsCapacity(Run(Start(capacity), ops[..|ops| - 1]), ops[|ops| - 1]);
    }
    assert |multiset(s.accepted)| == |s.accepted|;
    forall j | j in s.accepted ensures multiset(s.accepted)[j] == 1 { AcceptedOnce(s.accepted, j); }
  }

  lemma {:induction false} AcceptedOnce(jobs: seq<Job>, j: Job)
    requires Numbered(jobs)
    ensures multiset(jobs)[j] == if j in jobs then 1 else 0
  {
    if jobs != [] {
      var front, last := jobs[..|jobs| - 1], jobs[|jobs| - 1];
      assert jobs == front + [last];
      AcceptedOnce(front, j);
    }
  }

  lemma EvictedGrowStep(s: State, op: Op)
    ensures |s.evicted| <= |Step(s, op).evicted|
  {
  }

  lemma {:induction false} EvictedGrow(s: State, ops: seq<Op>)
    ensures |s.evicted| <= |Run(s, ops).evicted|
  {
    if ops != [] {
      EvictedGrow(s, ops[..|ops| - 1]);
      EvictedGrowStep(Run(s, ops[..|ops| - 1]), ops[|ops| - 1]);
    }
  }

  lemma {:induction false} RunKeepsInv(s: State, ops: seq<Op>)
    requires Inv(s)
    ensures Inv(Run(s, ops))
  {
    if ops != [] {
      RunKeepsInv(s, ops[..|ops| - 1]);
      StepKeepsInv(Run(s, ops[..|ops| - 1]), ops[|ops| - 1]);
    }
  }

  /** An eviction never calls task_done, so from the first one on the unfinished count cannot return to
      zero, whatever is finished or drained later; before it, it is zero exactly when nothing is left. */
  lemma EvictionLeaksUnfinished(s: State, ops: seq<Op>)
    requires Inv(s)
    ensures s.evicted != [] ==> 0 < Run(s, ops).unfinished
    ensures s.evicted == [] ==> (s.unfinished == 0 <==> s.pending == [] && s.current.Idle?)
  {
    RunKeepsInv(s, ops);
    EvictedGrow(s, ops);
  }

  /** The job taken is the least of the pending ones by (priority, sequence). */
  lemma GetTakesLeast(s: State, j: Job)
    requires Inv(s) && s.current.Idle? && j in s.pending
    ensures GetStep(s).current.Running?
    ensures var taken := GetStep(s).current.job;
            taken == j || taken.priority < j.priority || (taken.priority == j.priority && taken.sequence < j.sequence)
    ensures multiset(GetStep(s).pending) == multiset(s.pending) - multiset{GetStep(s).current.job}
  {
    var k :| 0 <= k < |s.pending| && s.pending[k] == j;
    assert s.pending == [s.pending[0]] + s.pending[1..];
    assert k > 0 ==> KeyLess(s.pending[0], s.pending[k]);
    if k > 0 {
      PendingAccepted(s, s.pending[0]);
      PendingAccepted(s, j);
      if s.pending[0].sequence == j.sequence { SameSequence(s, s.pending[0], j); }
    }
  }

  lemma SameSequence(s: State, a: Job, b: Job)
    requires Inv(s) && a in s.pending && b in s.pending && a.sequence == b.sequence
    ensures a == b
  {
    assert a in multiset(s.accepted) && b in multiset(s.accepted);
    var i :| 0 <= i < |s.accepted| && s.accepted[i] == a;
    var k :| 0 <= k < |s.accepted| && s.accepted[k] == b;
  }

  /** A live job is asked to stop only by an accepted request of strictly better priority or by a control
      message that names it or no job; a better request that finds the queue full of jobs at least as
      good as itself is coalesced and stops nothing. */
  lemma CancelledOnlyFor(s: State, op: Op)
    requires Inv(s) && s.current.Running? && s.current.phase.Live?
    ensures Step(s, op).current == s.current.(phase := Cancelling) <==>
            match op {
              case Enqueue(t) =>
                && t.priority < s.current.job.priority && 0 < s.current.job.priority
                && (|s.pending| == s.capacity ==> exists j :: j in s.pending && t.priority < j.priority)
              case Control(action, jobId, _) =>
                && (action == "cancel_active" || action == "pause" || action == "pause_all")
                && (jobId == "" || jobId == s.current.job.id)
              case _ => false
            }
  {
    if op.Enqueue? && |s.pending| == s.capacity {
      var worst := s.pending[|s.pending| - 1];
      forall k | 0 <= k < |s.pending| ensures s.pending[k].priority <= worst.priority {
        assert k < |s.pending| - 1 ==> KeyLess(s.pending[k], worst);
      }
      assert worst in s.pending;
    }
  }

  /** The whole effect of a control message. The three known actions empty the queue if and only if asked to drain,
      whatever they do to the running job; any other action changes nothing. */
  lemma ControlTells(s: State, action: string, jobId: string, drain: bool)
    requires Inv(s)
    ensures var t := Step(s, Control(action, jobId, drain));
            var known := action == "cancel_active" || action == "pause" || action == "pause_all";
            && (!known ==> t == s)
            && t.pending == (if known && drain then [] else s.pending)
            && t.drained == s.drained + (if known && drain then s.pending else [])
            && t.unfinished + |t.drained| == s.unfinished + |s.drained|
            && t.current == (if known && s.current.Running? && !s.current.phase.Ended?
                                && (jobId == "" || jobId == s.current.job.id)
                             then Running(s.current.job, Cancelling) else s.current)
            && (t.finished, t.evicted, t.accepted) == (s.finished, s.evicted, s.accepted)
            && (t.capacity, t.sequence, t.calls, t.coalesced) == (s.capacity, s.sequence, s.calls, s.coalesced)
  {
    assert s.drained + [] == s.drained;
  }

  /** A request is refused if and only if the queue is full of jobs at least as good as it asks to be; that only
      counts it. */
  lemma RequestRefused(s: State, r: Ticket)
    requires Inv(s)
    ensures Step(s, Enqueue(r)) == s.(calls := s.calls + 1, coalesced := s.coalesced + 1) <==>
            |s.pending| == s.capacity && forall j :: j in s.pending ==> j.priority <= r.priority
  {
    RefusedIff(s, r.priority);
  }

  /** Any other request becomes the job of the next number, its priority raised to 0. The last pending job, and no
      other, leaves a full queue for it, and a running job of worse priority is asked to stop. */
  lemma RequestTaken(s: State, r: Ticket, worse: Job, job: Job)
    requires Inv(s) && (|s.pending| == s.capacity ==> worse in s.pending && r.priority < worse.priority)
    requires job == Job(r.id, r.reason, r.at, if 0 <= r.priority then r.priority else 0, s.sequence + 1)
    ensures var t := Step(s, Enqueue(r));
            var n := if |s.pending| == s.capacity then s.capacity - 1 else |s.pending|;
            && (t.calls, t.coalesced, t.sequence) == (s.calls + 1, s.coalesced, s.sequence + 1)
            && (t.accepted, t.evicted) == (s.accepted + [job], s.evicted + s.pending[n..])
            && (t.finished, t.drained) == (s.finished, s.drained)
            && multiset(t.pending) == multiset(s.pending[..n]) + multiset{job}
            && t.current == if s.current.Running? && job.priority < s.current.job.priority && !s.current.phase.Ended?
                            then Running(s.current.job, Cancelling) else s.current
  {
    RefusedIff(s, r.priority);
    var e := EvictWorst(s);
    Evicts(s);
    Admits(e, r, job);
    assert Step(s, Enqueue(r)) == Admit(e, r);
  }

  lemma Evicts(s: State)
    requires 0 < s.capacity && |s.pending| <= s.capacity
    ensures var e := EvictWorst(s);
            var n := if |s.pending| == s.capacity then s.capacity - 1 else |s.pending|;
            && e.pending == s.pending[..n] && e.evicted == s.evicted + s.pending[n..]
            && (e.calls, e.coalesced, e.sequence) == (s.calls, s.coalesced, s.sequence)
            && (e.accepted, e.finished, e.drained, e.current) == (s.accepted, s.finished, s.drained, s.current)
  {
    assert s.pending[..|s.pending|] == s.pending && s.evicted + s.pending[|s.pending|..] == s.evicted;
  }

  lemma Admits(e: State, r: Ticket, job: Job)
    requires job == Job(r.id, r.reason, r.at, if 0 <= r.priority then r.priority else 0, e.sequence + 1)
    ensures var t := Admit(e, r);
            && (t.calls, t.coalesced, t.sequence) == (e.calls + 1, e.coalesced, e.sequence + 1)
            && (t.accepted, t.evicted) == (e.accepted + [job], e.evicted)
            && (t.finished, t.drained) == (e.finished, e.drained)
            && multiset(t.pending) == multiset(e.pending) + multiset{job}
            && t.current == if e.current.Running? && job.priority < e.current.job.priority && !e.current.phase.Ended?
                            then Running(e.current.job, Cancelling) else e.current
  {
    InsertKeeps(e.pending, job, ByPriority);
  }

  lemma RefusedIff(s: State, priority: int)
    requires Inv(s)
    ensures Coalesces(s, priority) <==>
            |s.pending| == s.capacity && forall j :: j in s.pending ==> j.priority <= priority
  {
    if s.pending != [] {
      var worst := s.pending[|s.pending| - 1];
      assert worst in s.pending;
      forall j | j in s.pending ensures j.priority <= worst.priority {
        var k :| 0 <= k < |s.pending| && s.pending[k] == j;
        assert k < |s.pending| - 1 ==> KeyLess(s.pending[k], worst);
      }
    }
  }

  /** The loop takes a job, its task ends, the loop resumes: n times over. */
  function Rounds(n: nat): seq<Op> { if n == 0 then [] else Rounds(n - 1) + [Op.Get, TaskEnds, Reap] }

  lemma RunOneMore(s: State, ops: seq<Op>, op: Op)
    ensures Run(s, ops + [op]) == Step(Run(s, ops), op)
  {
    assert (ops + [op])[..|ops|] == ops;
  }

  lemma RunRound(s: State, ops: seq<Op>)
    ensures Run(s, ops + [Op.Get, TaskEnds, Reap]) == ReapStep(TaskEndsStep(GetStep(Run(s, ops))))
  {
    RunOneMore(s, ops, Op.Get);
    RunOneMore(s, ops + [Op.Get], TaskEnds);
    RunOneMore(s, ops + [Op.Get] + [TaskEnds], Reap);
    assert ops + [Op.Get, TaskEnds, Reap] == ops + [Op.Get] + [TaskEnds] + [Reap];
  }

  lemma OneRound(t: State)
    requires t.current.Idle? && t.pending != [] && 0 < t.unfinished
    ensures ReapStep(TaskEndsStep(GetStep(t))) ==
            t.(pending := t.pending[1..], finished := t.finished + [t.pending[0]], unfinished := t.unfinished - 1)
  {
  }

  /** Left to itself the worker finishes its pending jobs one by one in their order, loses none, and ends idle. */
  lemma {:induction false} ServedInOrder(s: State, n: nat)
    requires Inv(s) && s.current.Idle? && n <= |s.pending|
    ensures Run(s, Rounds(n)) ==
            s.(pending := s.pending[n..], finished := s.finished + s.pending[..n], unfinished := |s.pending| - n + |s.evicted|)
  {
    if n == 0 {
      assert s.finished + s.pending[..0] == s.finished;
    } else {
      ServedInOrder(s, n - 1);
      var t := Run(s, Rounds(n - 1));
      RunRound(s, Rounds(n - 1));
      OneRound(t);
      assert t.pending[0] == s.pending[n - 1] && t.pending[1..] == s.pending[n..];
      assert s.finished + s.pending[..n] == t.finished + [s.pending[n - 1]];
    }
  }

  // ---------- The bounded queue keeps the best requests ----------

  function View(j: Job): Ticket { Ticket(j.id, j.reason, j.queuedAt, j.priority) }

  function Views(s: seq<Job>): (r: seq<Ticket>)
    ensures |r| == |s|
  {
    seq(|s|, i requires 0 <= i < |s| => View(s[i]))
  }

  function Clamped(t: Ticket): Ticket { t.(priority := Clamp(t.priority)) }

  function ClampedAll(ts: seq<Ticket>): (r: seq<Ticket>)
    ensures |r| == |ts|
  {
    seq(|ts|, i requires 0 <= i < |ts| => Clamped(ts[i]))
  }

  function EnqueueAll(s: State, ts: seq<Ticket>): State {
    if ts == [] then s else EnqueueStep(EnqueueAll(s, ts[..|ts| - 1]), ts[|ts| - 1])
  }

  /** A negative priority is stored as 0 but compared as it is, so it can push out a job that came
      earlier with priority 0. */
  predicate Overtakes(s: State, t: Ticket) {
    |s.pending| >= s.capacity && s.pending != [] && t.priority < 0 && s.pending[|s.pending| - 1].priority == 0
  }

  lemma {:induction false} EnqueueAllKeepsInv(s: State, ts: seq<Ticket>)
    requires Inv(s)
    ensures Inv(EnqueueAll(s, ts)) && EnqueueAll(s, ts).capacity == s.capacity
  {
    if ts != [] {
      EnqueueAllKeepsInv(s, ts[..|ts| - 1]);
      EnqueueKeepsInv(EnqueueAll(s, ts[..|ts| - 1]), ts[|ts| - 1]);
    }
  }

  lemma {:induction false} InsertView(s: seq<Job>, x: Job)
    ensures Views(Insert(s, x, ByPriority)) == Insert(Views(s), View(x), ByTicket)
  {
    if s != [] && ByPriority(x) < ByPriority(s[|s| - 1]) {
      InsertView(s[..|s| - 1], x);
      assert Views(s)[..|s| - 1] == Views(s[..|s| - 1]);
    }
  }

  lemma {:induction false} SortedAlready<T>(s: seq<T>, key: T -> real)
    requires Ascending(s, key)
    ensures StableSort(s, key) == s
  {
    if s != [] {
      SortedAlready(s[..|s| - 1], key);
      assert s == s[..|s| - 1] + [s[|s| - 1]];
    }
  }

  /** What is above x moves up behind it unchanged. */
  lemma {:induction false} InsertBelow<T>(s: seq<T>, x: T, key: T -> real, n: nat)
    requires n <= |s| && forall i :: n <= i < |s| ==> key(x) < key(s[i])
    ensures Insert(s, x, key) == Insert(s[..n], x, key) + s[n..]
  {
    if n == |s| {
      assert s[..n] == s;
    } else {
      InsertBelow(s[..|s| - 1], x, key, n);
      assert s[..|s| - 1][..n] == s[..n];
      assert s[n..] == s[..|s| - 1][n..] + [s[|s| - 1]];
    }
  }

  lemma {:induction false} TakeEarly<T>(s: seq<T>, x: T, key: T -> real, k: nat)
    requires Ascending(s, key) && 0 < k <= |s| && key(x) < key(s[k - 1])
    ensures Insert(s, x, key)[..k] == Insert(s[..k - 1], x, key)
  {
    InsertBelow(s, x, key, k - 1);
  }

  lemma {:induction false} TakeLate<T>(s: seq<T>, x: T, key: T -> real, k: nat)
    requires Ascending(s, key) && 0 < k <= |s| && key(s[k - 1]) <= key(x)
    ensures Insert(s, x, key)[..k] == s[..k]
  {
    var r := Insert(s, x, key);
    forall i | 0 <= i < k ensures r[i] == s[i] { InsertAt(s, x, key, i); }
  }

  /** Keeping the k best after one more arrival needs only the k best so far. */
  lemma {:induction false} InsertThenTake<T>(s: seq<T>, x: T, key: T -> real, k: nat)
    requires Ascending(s, key) && 0 < k
    ensures Take(Insert(s, x, key), k) ==
            if |s| < k then Insert(s, x, key)
            else if key(s[k - 1]) <= key(x) then s[..k]
            else Insert(s[..k - 1], x, key)
  {
    if |s| >= k && key(s[k - 1]) <= key(x) {
      TakeLate(s, x, key, k);
    } else if |s| >= k {
      TakeEarly(s, x, key, k);
    }
  }

  lemma ViewsPrefix(s: seq<Job>, n: nat)
    requires n <= |s|
    ensures Views(s[..n]) == Views(s)[..n]
  {
  }

  lemma {:induction false} OneArrival(s: State, t: Ticket, best: seq<Ticket>)
    requires Inv(s) && Ascending(best, ByTicket) && Views(s.pending) == Take(best, s.capacity)
    requires !Overtakes(s, t)
    ensures Views(EnqueueStep(s, t).pending) == Take(Insert(best, Clamped(t), ByTicket), s.capacity)
  {
    var k := s.capacity;
    InsertThenTake(best, Clamped(t), ByTicket, k);
    var e := EvictWorst(s);
    InsertView(e.pending, Job(t.id, t.reason, t.at, Clamp(t.priority), s.sequence + 1));
    if |s.pending| == k {
      assert View(s.pending[k - 1]) == Views(s.pending)[k - 1] == best[k - 1];
      ViewsPrefix(s.pending, k - 1);
      assert Views(s.pending)[..k - 1] == best[..k][..k - 1] == best[..k - 1];
    }
  }

  /** Bounded queue as a top-k selection: however many requests arrive, the pending ones are the first
      `capacity` of everything initially pending plus everything requested, ordered by priority and then
      by arrival. */
  lemma {:induction false} KeepsBest(s: State, ts: seq<Ticket>)
    requires Inv(s)
    requires forall i :: 0 <= i < |ts| ==> !Overtakes(EnqueueAll(s, ts[..i]), ts[i])
    ensures Views(EnqueueAll(s, ts).pending) == Best(s, ts)
  {
    if ts == [] {
      assert Views(s.pending) + ClampedAll(ts) == Views(s.pending);
      SortedAlready(Views(s.pending), ByTicket);
    } else {
      var front, t := ts[..|ts| - 1], ts[|ts| - 1];
      forall i | 0 <= i < |front| ensures !Overtakes(EnqueueAll(s, front[..i]), front[i]) {
        assert front[..i] == ts[..i] && front[i] == ts[i];
      }
      KeepsBest(s, front);
      EnqueueAllKeepsInv(s, front);
      StableSortAscending(Views(s.pending) + ClampedAll(front), ByTicket);
      OneArrival(EnqueueAll(s, front), t, StableSort(Views(s.pending) + ClampedAll(front), ByTicket));
      BestOfOneMore(s, ts);
    }
  }

  function Best(s: State, ts: seq<Ticket>): seq<Ticket> {
    Take(StableSort(Views(s.pending) + ClampedAll(ts), ByTicket), s.capacity)
  }

  lemma BestOfOneMore(s: State, ts: seq<Ticket>)
    requires ts != []
    ensures var sofar := StableSort(Views(s.pending) + ClampedAll(ts[..|ts| - 1]), ByTicket);
            Best(s, ts) == Take(Insert(sofar, Clamped(ts[|ts| - 1]), ByTicket), s.capacity)
  {
    var all := Views(s.pending) + ClampedAll(ts);
    assert all[..|all| - 1] == Views(s.pending) + ClampedAll(ts[..|ts| - 1]);
    assert all[|all| - 1] == Clamped(ts[|ts| - 1]);
  }

  /** The same for callers that ask for priorities of at least 0, as all callers do, read off per request:
      the request (or initial job) in arrival position i is pending afterwards, and at which place, exactly
      when its rank is below the capacity. */
  lemma {:induction false} SurvivorsByRank(s: State, ts: seq<Ticket>, i: nat)
    requires Inv(s) && forall t :: t in ts ==> 0 <= t.priority
    requires i < |s.pending| + |ts|
    ensures var all := Views(s.pending) + ts;
            var kept := Views(EnqueueAll(s, ts).pending);
            && |kept| == (if |all| <= s.capacity then |all| else s.capacity)
            && (Rank(all, ByTicket, i) < s.capacity ==>
                  Rank(all, ByTicket, i) < |kept| && kept[Rank(all, ByTicket, i)] == all[i])
  {
    var all := Views(s.pending) + ts;
    assert ClampedAll(ts) == ts;
    KeepsBest(s, ts);
    SortedByRank(all, ByTicket, i);
  }

  /** A single request breaks the top-k order exactly when it overtakes: the queue is full, the request is
      negative and the worst pending job has priority 0. */
  lemma TopKExactlyUnlessOvertaking(s: State, t: Ticket)
    requires Inv(s) && forall j :: j in s.pending ==> j.id != t.id
    ensures Views(EnqueueStep(s, t).pending) ==
            Take(StableSort(Views(s.pending) + [Clamped(t)], ByTicket), s.capacity)
            <==> !Overtakes(s, t)
  {
    var views := Views(s.pending);
    assert (views + [Clamped(t)])[..|views|] == views;
    SortedAlready(views, ByTicket);
    if !Overtakes(s, t) {
      OneArrival(s, t, views);
    } else {
      InsertThenTake(views, Clamped(t), ByTicket, s.capacity);
      var m := OvertakerGetsIn(s, t);
      assert s.pending[m] in s.pending && views[m].id == s.pending[m].id;
    }
  }

  /** The place of an overtaking request in the queue. */
  lemma OvertakerGetsIn(s: State, t: Ticket) returns (m: nat)
    requires Inv(s) && Overtakes(s, t)
    ensures m < |EnqueueStep(s, t).pending| == |s.pending| && EnqueueStep(s, t).pending[m].id == t.id
    ensures Views(EnqueueStep(s, t).pending)[m].id == t.id
  {
    var kept := s.pending[..|s.pending| - 1];
    var job := Job(t.id, t.reason, t.at, 0, s.sequence + 1);
    var after := EnqueueStep(s, t).pending;
    assert after == Insert(kept, job, ByPriority);
    InsertKeeps(kept, job, ByPriority);
    assert job in multiset(after);
    m :| 0 <= m < |after| && after[m] == job;
  }

  /** The overtaking does happen: a request of -1 removes the request of 0 that was there first. */
  lemma OvertakingHappens() returns (s: State, late: Ticket)
    ensures Inv(s) && Overtakes(s, late)
    ensures EnqueueStep(s, late).evicted == s.pending && s.pending != []
  {
    late := Ticket("b", "wake", 1.0, -1);
    var first := Ticket("a", "wake", 0.0, 0);
    AdmitKeeps(Start(1), first);
    s := Admit(Start(1), first);
    assert s.pending == [Job("a", "wake", 0.0, 0, 1)];
  }
}
