/** What every step of the dispatcher keeps, and what follows for every run. */
module ExplorationSafety {
  import opened Frontier
  import opened Exploration

  lemma Append(ts: seq<Task>, t: Task, sc: Scenario)
    ensures Tally(ts + [t], sc) == Tally(ts, sc) + if !t.phase.Finished? && t.scenario == sc then 1 else 0
    ensures CountInside(ts + [t]) == CountInside(ts) + if t.phase.Inside? then 1 else 0
  {
    assert (ts + [t])[..|ts|] == ts;
  }

  lemma {:induction false} CountUpdate(ts: seq<Task>, i: nat, p: Phase)
    requires i < |ts|
    ensures CountInside(ts[i := ts[i].(phase := p)]) ==
            CountInside(ts) - (if ts[i].phase.Inside? then 1 else 0) + (if p.Inside? then 1 else 0)
  {
    var front, us := ts[..|ts| - 1], ts[i := ts[i].(phase := p)];
    if i < |front| {
      CountUpdate(front, i, p);
      assert us[..|ts| - 1] == front[i := front[i].(phase := p)];
    } else {
      assert us[..|ts| - 1] == front;
    }
  }

  lemma {:induction false} TallyUpdate(ts: seq<Task>, i: nat, p: Phase, sc: Scenario)
    requires i < |ts| && !ts[i].phase.Finished?
    ensures Tally(ts, sc) == Tally(ts[i := ts[i].(phase := p)], sc) +
                             if p.Finished? && ts[i].scenario == sc then 1 else 0
  {
    var front, us := ts[..|ts| - 1], ts[i := ts[i].(phase := p)];
    if i < |front| {
      TallyUpdate(front, i, p, sc);
      assert us[..|ts| - 1] == front[i := front[i].(phase := p)];
    } else {
      assert us[..|ts| - 1] == front;
    }
  }

  lemma {:induction false} PruneKeeps(ts: seq<Task>, sc: Scenario)
    ensures CountInside(Unfinished(ts)) == CountInside(ts) && Tally(Unfinished(ts), sc) == Tally(ts, sc)
  {
    if ts != [] {
      var front, t := ts[..|ts| - 1], ts[|ts| - 1];
      PruneKeeps(front, sc);
      if !t.phase.Finished? { Append(Unfinished(front), t, sc); }
    }
  }

  lemma {:induction false} AllFinished(ts: seq<Task>, sc: Scenario)
    requires forall t :: t in ts ==> t.phase.Finished?
    ensures Tally(ts, sc) == 0
  {
    if ts != [] {
      assert ts[|ts| - 1] in ts;
      AllFinished(ts[..|ts| - 1], sc);
    }
  }

  lemma {:induction false} PushAllModest(c: Config, f: View, sc: Scenario, bs: seq<Branch>)
    requires WellFormed(f) && sc.bonus <= c.bonus
    requires forall id :: id in f.pending ==> f.pending[id].bonus <= c.bonus
    ensures var g := PushAll(c, f, sc, bs);
            && WellFormed(g) && g.maxDepth == f.maxDepth && g.explored == f.explored
            && forall id :: id in g.pending ==> g.pending[id].bonus <= c.bonus
  {
    if bs != [] {
      PushAllModest(c, f, sc, bs[..|bs| - 1]);
    }
  }

  lemma BoundedKeeps(c: Config, s: State, step: Step)
    requires Bounded(c, s) && Enabled(c, s, step)
    ensures Bounded(c, Next(c, s, step))
  {
    match step
    case Dispatch(id) => Append(s.inFlight, Task(s.frontier.pending[id], Queued), s.frontier.pending[id]);
    case Enter(i) => CountUpdate(s.inFlight, i, Inside);
    case Skip(i) => CountUpdate(s.inFlight, i, Finished);
    case Complete(i, _, _) => CountUpdate(s.inFlight, i, Finished);
    case Resume =>
      PruneKeeps(s.inFlight, Scenario("", 0.0, 0, 0));
      PruneDrops(s.inFlight);
    case _ =>
  }

  lemma AccountedKeeps(c: Config, s: State, step: Step, sc: Scenario)
    requires Accounted(s, sc) && Enabled(c, s, step)
    ensures Accounted(Next(c, s, step), sc)
  {
    match step
    case Dispatch(id) => Append(s.inFlight, Task(s.frontier.pending[id], Queued), sc);
    case Enter(i) => TallyUpdate(s.inFlight, i, Inside, sc);
    case Skip(i) => TallyUpdate(s.inFlight, i, Finished, sc);
    case Complete(i, _, _) => TallyUpdate(s.inFlight, i, Finished, sc);
    case Resume => PruneKeeps(s.inFlight, sc);
    case _ =>
  }

  lemma ModestKeeps(c: Config, s: State, step: Step)
    requires Modest(c, s) && Marked(s) && Enabled(c, s, step)
    ensures Modest(c, Next(c, s, step)) && Marked(Next(c, s, step))
  {
    match step
    case Complete(i, bs, _) =>
      assert s.inFlight[i] in s.inFlight;
      PushAllModest(c, s.frontier, s.inFlight[i].scenario, bs);
    case Enter(i) => assert s.inFlight[i] in s.inFlight;
    case Skip(i) => assert s.inFlight[i] in s.inFlight;
    case Resume => PruneDrops(s.inFlight);
    case _ =>
  }

  lemma {:induction false} NextKeepsInv(c: Config, s: State, step: Step)
    requires Inv(c, s) && Enabled(c, s, step)
    ensures Inv(c, Next(c, s, step))
  {
    BoundedKeeps(c, s, step);
    ModestKeeps(c, s, step);
    forall sc ensures Accounted(Next(c, s, step), sc) { AccountedKeeps(c, s, step, sc); }
  }

  lemma {:induction false} RunKeepsInv(c: Config, s: State, steps: seq<Step>)
    requires Inv(c, s) && CanRun(c, s, steps)
    ensures Inv(c, Run(c, s, steps))
    decreases |steps|
  {
    if steps != [] {
      NextKeepsInv(c, s, steps[0]);
      RunKeepsInv(c, Next(c, s, steps[0]), steps[1..]);
    }
  }

  /** The places of the tasks inside the semaphore. */
  ghost function InsideTasks(ts: seq<Task>): (r: set<int>) { set i | 0 <= i < |ts| && ts[i].phase.Inside? }

  lemma {:induction false} InsideAreCounted(ts: seq<Task>)
    ensures |InsideTasks(ts)| == CountInside(ts)
  {
    if ts != [] {
      var n := |ts| - 1;
      InsideAreCounted(ts[..n]);
      assert InsideTasks(ts) == InsideTasks(ts[..n]) + if ts[n].phase.Inside? then {n} else {};
    }
  }

  /** Dispatcher safety over every interleaving: fewer than max_inflight tasks are held whenever the loop
      turns, never more than the concurrency are inside the semaphore, and when the cycle has ended every
      popped scenario was either completed, and then marked explored, or skipped: none twice, none lost. */
  lemma DispatcherSafe(c: Config, s: State, steps: seq<Step>)
    requires Seeded(c, s) && CanRun(c, s, steps)
    ensures var e := Run(c, s, steps);
            && |InsideTasks(e.inFlight)| <= c.concurrency
            && |e.inFlight| <= 2 * c.concurrency
            && (e.mode.Looping? ==> |e.inFlight| < 2 * c.concurrency)
            && (e.mode.Waiting? ==> |e.inFlight| == 2 * c.concurrency)
            && (e.mode.Ended? ==> multiset(e.popped) == multiset(e.completed) + multiset(e.skipped))
            && (forall sc :: sc in e.completed ==> sc.id in e.frontier.explored && sc.id !in e.frontier.pending)
  {
    RunKeepsInv(c, s, steps);
    var e := Run(c, s, steps);
    InsideAreCounted(e.inFlight);
    if e.mode.Ended? { AllAccounted(c, e); }
  }

  /** When all tasks are done, every popped scenario was completed or skipped. */
  lemma AllAccounted(c: Config, s: State)
    requires Inv(c, s) && forall t :: t in s.inFlight ==> t.phase.Finished?
    ensures multiset(s.popped) == multiset(s.completed) + multiset(s.skipped)
  {
    forall sc ensures multiset(s.popped)[sc] == (multiset(s.completed) + multiset(s.skipped))[sc] {
      AllFinished(s.inFlight, sc);
      assert Accounted(s, sc);
    }
  }
}
