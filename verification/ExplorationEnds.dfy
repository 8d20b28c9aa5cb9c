/** Why every exploration cycle ends. */
module ExplorationEnds {
  import opened Frontier
  import opened Exploration
  import opened ExplorationSafety

  function DepthLimit(c: Config): nat { c.maxDepth + c.bonus }

  function MostChildren(c: Config): (r: nat) { Max(3, c.followOns) }

  /** Geometric in the depth still left: a scenario outweighs twice its children. */
  ghost function Weight(c: Config, depth: nat): (r: nat)
    ensures 1 <= r
    decreases DepthLimit(c) + 1 - depth
  {
    if depth > DepthLimit(c) then 1 else (2 * MostChildren(c) + 1) * Weight(c, depth + 1)
  }

  /** Total weight of the pending scenarios. */
  ghost function PendingWeight(c: Config, m: map<string, Scenario>): (r: nat)
    decreases m.Keys
  {
    if m == map[] then 0
    else
      var id :| id in m.Keys;
      Weight(c, m[id].depth) + PendingWeight(c, m - {id})
  }

  ghost function TaskLoad(c: Config, t: Task): (r: nat) {
    match t.phase
    case Queued => 3 * Weight(c, t.scenario.depth)
    case Inside => 2 * Weight(c, t.scenario.depth)
    case Finished => 1
  }

  ghost function Load(c: Config, ts: seq<Task>): (r: nat) {
    if ts == [] then 0 else Load(c, ts[..|ts| - 1]) + TaskLoad(c, ts[|ts| - 1])
  }

  ghost function ModeRank(m: Mode): (r: nat) {
    match m
    case Ended => 0
    case Draining => 1
    case _ => 2
  }

  ghost function Rank(c: Config, s: State): (r: nat) {
    4 * PendingWeight(c, s.frontier.pending) + Load(c, s.inFlight) + ModeRank(s.mode)
  }

  lemma {:induction false} PendingWithout(c: Config, m: map<string, Scenario>, id: string)
    requires id in m
    ensures PendingWeight(c, m) == Weight(c, m[id].depth) + PendingWeight(c, m - {id})
    decreases m.Keys
  {
    var k :| k in m.Keys && PendingWeight(c, m) == Weight(c, m[k].depth) + PendingWeight(c, m - {k});
    if k != id {
      PendingWithout(c, m - {k}, id);
      PendingWithout(c, m - {id}, k);
      assert m - {k} - {id} == m - {id} - {k};
    }
  }

  lemma PendingSet(c: Config, m: map<string, Scenario>, id: string, sc: Scenario)
    ensures PendingWeight(c, m[id := sc]) == Weight(c, sc.depth) + PendingWeight(c, m - {id})
    ensures PendingWeight(c, m) == (if id in m then Weight(c, m[id].depth) else 0) + PendingWeight(c, m - {id})
  {
    PendingWithout(c, m[id := sc], id);
    assert m[id := sc] - {id} == m - {id};
    if id in m { PendingWithout(c, m, id); } else { assert m - {id} == m; }
  }

  /** A push adds at most the new scenario's weight; past the depth limit it adds nothing, because only an
      upgrade can get in there. */
  lemma PushWeight(c: Config, f: View, sc: Scenario, effective: real, gates: bool)
    requires f.maxDepth <= c.maxDepth && sc.bonus <= c.bonus
    ensures var after := PendingWeight(c, Push(f, sc, effective, gates).pending);
            after <= PendingWeight(c, f.pending) + if sc.depth > DepthLimit(c) then 0 else Weight(c, sc.depth)
  {
    var stored := sc.(priority := effective,
                      bonus := if sc.id in f.pending then Max(f.pending[sc.id].bonus, sc.bonus) else sc.bonus);
    PendingSet(c, f.pending, sc.id, stored);
    assert Push(f, sc, effective, gates) == f || Push(f, sc, effective, gates).pending == f.pending[sc.id := stored];
  }

  lemma PushAllFixes(c: Config, f: View, sc: Scenario, bs: seq<Branch>)
    ensures PushAll(c, f, sc, bs).maxDepth == f.maxDepth
  {
  }

  ghost function ChildWeight(c: Config, sc: Scenario): (r: nat) {
    if sc.depth + 1 > DepthLimit(c) then 0 else Weight(c, sc.depth + 1)
  }

  ghost function Times(n: nat, w: nat): (r: nat) { if n == 0 then 0 else Times(n - 1, w) + w }

  lemma {:induction false} PushAllWeight(c: Config, f: View, sc: Scenario, bs: seq<Branch>)
    requires f.maxDepth <= c.maxDepth && sc.bonus <= c.bonus
    ensures PendingWeight(c, PushAll(c, f, sc, bs).pending) <=
            PendingWeight(c, f.pending) + Times(|bs|, ChildWeight(c, sc))
  {
    if bs != [] {
      var front, b := bs[..|bs| - 1], bs[|bs| - 1];
      PushAllWeight(c, f, sc, front);
      PushAllFixes(c, f, sc, front);
      PushWeight(c, PushAll(c, f, sc, front), Child(c, sc, b), b.effective, b.gates);
    }
  }

  lemma {:induction false} TimesAtMost(n: nat, k: nat, w: nat)
    requires n <= k
    ensures Times(n, w) <= k * w
  {
    if n > 0 {
      TimesAtMost(n - 1, k - 1, w);
      assert (k - 1) * w + w == k * w;
    }
  }

  lemma {:induction false} LoadUpdate(c: Config, ts: seq<Task>, i: nat, p: Phase)
    requires i < |ts|
    ensures Load(c, ts[i := ts[i].(phase := p)]) ==
            Load(c, ts) - TaskLoad(c, ts[i]) + TaskLoad(c, ts[i].(phase := p))
  {
    var front, us := ts[..|ts| - 1], ts[i := ts[i].(phase := p)];
    if i < |front| {
      LoadUpdate(c, front, i, p);
      assert us[..|ts| - 1] == front[i := front[i].(phase := p)];
    } else {
      assert us[..|ts| - 1] == front;
    }
  }

  lemma {:induction false} LoadPrune(c: Config, ts: seq<Task>)
    ensures Load(c, Unfinished(ts)) + (|ts| - |Unfinished(ts)|) == Load(c, ts)
  {
    if ts != [] {
      var front, t := ts[..|ts| - 1], ts[|ts| - 1];
      LoadPrune(c, front);
      if !t.phase.Finished? { assert (Unfinished(front) + [t])[..|Unfinished(front)|] == Unfinished(front); }
    }
  }

  /** A completion weighs more than everything it pushes. */
  lemma {:induction false} CompletionShrinks(c: Config, f: View, sc: Scenario, bs: seq<Branch>)
    requires f.maxDepth <= c.maxDepth && sc.bonus <= c.bonus && |bs| <= MaxFollowOn(c, sc)
    ensures 4 * PendingWeight(c, PushAll(c, f, sc, bs).pending) + 1 <
            4 * PendingWeight(c, f.pending) + 2 * Weight(c, sc.depth)
  {
    PushAllWeight(c, f, sc, bs);
    Geometric(c, sc, |bs|);
  }

  lemma Geometric(c: Config, sc: Scenario, n: nat)
    requires n <= MostChildren(c)
    ensures 4 * Times(n, ChildWeight(c, sc)) + 1 < 2 * Weight(c, sc.depth)
  {
    var k, w := MostChildren(c), ChildWeight(c, sc);
    TimesAtMost(n, k, w);
    if w == 0 {
      TimesNothing(n);
    } else {
      Distributes(k, w);
      assert Weight(c, sc.depth) == (2 * k + 1) * w;
    }
  }

  lemma {:induction false} TimesNothing(n: nat)
    ensures Times(n, 0) == 0
  {
    if n > 0 { TimesNothing(n - 1); }
  }

  lemma Distributes(k: nat, w: nat)
    ensures (2 * k + 1) * w == 2 * (k * w) + w
  {
  }

  lemma SpawnDecreases(c: Config, s: State, id: string)
    requires Enabled(c, s, Dispatch(id))
    ensures Rank(c, Next(c, s, Dispatch(id))) < Rank(c, s)
  {
    var t := Task(s.frontier.pending[id], Queued);
    PendingWithout(c, s.frontier.pending, id);
    assert (s.inFlight + [t])[..|s.inFlight|] == s.inFlight;
  }

  lemma CompleteDecreases(c: Config, s: State, i: nat, bs: seq<Branch>, raise: bool)
    requires Inv(c, s) && Enabled(c, s, Complete(i, bs, raise))
    ensures Rank(c, Next(c, s, Complete(i, bs, raise))) < Rank(c, s)
  {
    var sc := s.inFlight[i].scenario;
    assert s.inFlight[i] in s.inFlight;
    CompletionShrinks(c, s.frontier, sc, bs);
    LoadUpdate(c, s.inFlight, i, Finished);
    var g := PushAll(c, s.frontier, sc, bs);
    PendingSet(c, g.pending, sc.id, sc);
    assert Next(c, s, Complete(i, bs, raise)).frontier.pending == g.pending - {sc.id};
  }

  /** Every step of the dispatcher or of a task lowers the rank. */
  lemma NextDecreases(c: Config, s: State, step: Step)
    requires Inv(c, s) && Enabled(c, s, step)
    ensures Rank(c, Next(c, s, step)) < Rank(c, s)
  {
    match step
    case Dispatch(id) => SpawnDecreases(c, s, id);
    case Complete(i, bs, raise) => CompleteDecreases(c, s, i, bs, raise);
    case Enter(i) => LoadUpdate(c, s.inFlight, i, Inside);
    case Skip(i) => LoadUpdate(c, s.inFlight, i, Finished);
    case Resume =>
      LoadPrune(c, s.inFlight);
      PruneDrops(s.inFlight);
    case _ =>
  }

  /** No run from a state that meets the invariant has more steps than the rank it uses up. */
  lemma {:induction false} RunsAreShort(c: Config, s: State, steps: seq<Step>)
    requires Inv(c, s) && CanRun(c, s, steps)
    ensures |steps| + Rank(c, Run(c, s, steps)) <= Rank(c, s)
    decreases |steps|
  {
    if steps != [] {
      NextDecreases(c, s, steps[0]);
      NextKeepsInv(c, s, steps[0]);
      RunsAreShort(c, Next(c, s, steps[0]), steps[1..]);
    }
  }

  /** ... and it cannot get stuck before the end: some step is always possible, without relying on the governor to
      stop the loop, nor on the deadline unless it has cut a task short. */
  lemma Progress(c: Config, s: State) returns (step: Step)
    requires Inv(c, s) && !s.mode.Ended?
    ensures Enabled(c, s, step)
    ensures step.Leave? ==> step.reason.Empty? || (step.reason.Deadline? && s.skipped != [])
    ensures !step.Skip? && (step.Complete? ==> step.branches == [] && !step.raiseDepth)
  {
    if s.mode.Looping? {
      if s.frontier.pending == map[] {
        step := Leave(Empty);
      } else if !InTime(s) {
        step := Leave(Deadline);
      } else {
        step := Dispatch(BestOf(s.frontier.pending));
      }
    } else if i :| 0 <= i < |s.inFlight| && s.inFlight[i].phase.Inside? {
      step := Complete(i, [], false);
    } else if i :| 0 <= i < |s.inFlight| && s.inFlight[i].phase.Queued? {
      NobodyInside(s.inFlight);
      step := Enter(NextInLine(s.inFlight, i));
    } else {
      assert s.inFlight[0] in s.inFlight;
      step := if s.mode.Waiting? then Resume else EndDrain;
    }
  }

  ghost function NextInLine(ts: seq<Task>, i: nat): (k: nat)
    requires i < |ts| && ts[i].phase.Queued?
    ensures FirstQueued(ts, k) && k <= i
  {
    if j :| 0 <= j < i && ts[j].phase.Queued? then NextInLine(ts, j) else i
  }

  ghost function BestOf(m: map<string, Scenario>): (id: string)
    requires m != map[]
    ensures id in m && forall other :: other in m ==> m[other].priority <= m[id].priority
    decreases m.Keys
  {
    var x :| x in m.Keys;
    var rest := m - {x};
    if rest == map[] then
      assert forall other :: other in m && other != x ==> other in rest;
      x
    else
      var best := BestOf(rest);
      assert forall other :: other in m && other != x ==> other in rest;
      if m[best].priority <= m[x].priority then x else best
  }

  lemma {:induction false} NobodyInside(ts: seq<Task>)
    requires forall i :: 0 <= i < |ts| ==> !ts[i].phase.Inside?
    ensures CountInside(ts) == 0
  {
    if ts != [] { NobodyInside(ts[..|ts| - 1]); }
  }

  /** A freshly seeded cycle meets the invariant the theorems start from. */
  lemma SeededInv(c: Config, s: State)
    requires Seeded(c, s)
    ensures Inv(c, s)
  {
    forall sc ensures Accounted(s, sc) { }
  }

  lemma {:induction false} RunThen(c: Config, s: State, first: seq<Step>, rest: seq<Step>)
    requires CanRun(c, s, first) && CanRun(c, Run(c, s, first), rest)
    ensures CanRun(c, s, first + rest) && Run(c, s, first + rest) == Run(c, Run(c, s, first), rest)
    decreases |first|
  {
    if first == [] {
      assert first + rest == rest;
    } else {
      assert (first + rest)[0] == first[0] && (first + rest)[1..] == first[1..] + rest;
      RunThen(c, Next(c, s, first[0]), first[1..], rest);
    }
  }

  lemma OneStep(c: Config, s: State, step: Step, rest: seq<Step>)
    requires Enabled(c, s, step) && CanRun(c, Next(c, s, step), rest)
    ensures CanRun(c, s, [step] + rest) && Run(c, s, [step] + rest) == Run(c, Next(c, s, step), rest)
  {
    assert ([step] + rest)[1..] == rest;
  }

  /** From every reachable state the cycle can be brought to its end. */
  lemma CanFinish(c: Config, s: State) returns (steps: seq<Step>)
    requires Inv(c, s)
    ensures CanRun(c, s, steps) && Run(c, s, steps).mode.Ended?
    decreases Rank(c, s)
  {
    steps := [];
    if !s.mode.Ended? {
      var step := Progress(c, s);
      NextDecreases(c, s, step);
      NextKeepsInv(c, s, step);
      var rest := CanFinish(c, Next(c, s, step));
      OneStep(c, s, step, rest);
      steps := [step] + rest;
    }
  }

  /** From a seeded cycle no run, whatever is proposed and however the tasks interleave, has more steps than the
      rank of the seeded frontier. */
  lemma ExplorationTerminates(c: Config, s: State, steps: seq<Step>)
    requires Seeded(c, s) && CanRun(c, s, steps)
    ensures |steps| <= Rank(c, s)
  {
    SeededInv(c, s);
    RunsAreShort(c, s, steps);
  }
}
