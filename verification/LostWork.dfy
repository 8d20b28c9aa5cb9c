/** What a cycle leaves behind: follow-ons pushed after the loop has ended, and where the loop's own comment about
    them is wrong. */
module LostWork {
  import opened Frontier
  import opened Exploration
  import opened ExplorationSafety
  import opened ExplorationEnds

  /** Once the loop is left nothing is popped any more: what the drain pushes stays unexplored. */
  lemma {:induction false} DrainNeverDispatches(c: Config, s: State, steps: seq<Step>)
    requires CanRun(c, s, steps) && (s.mode.Draining? || s.mode.Ended?)
    ensures Run(c, s, steps).popped == s.popped
    decreases |steps|
  {
    if steps != [] { DrainNeverDispatches(c, Next(c, s, steps[0]), steps[1..]); }
  }

  // ---------- When follow-ons can be lost ----------

  predicate Runs(s: State, i: nat) { i < |s.inFlight| && !s.inFlight[i].phase.Finished? }

  /** A follow-on of the scenario passes the depth test under this cap. */
  predicate Branches(c: Config, cap: nat, sc: Scenario) {
    sc.depth + 1 <= cap + if c.drillThreshold <= sc.priority then Max(sc.bonus, c.bonus)
                          else if 0 < sc.bonus then sc.bonus - 1 else 0
  }

  /** Task i may still push a child that the present depth cap admits. */
  predicate BranchesNow(c: Config, s: State, i: nat) {
    Runs(s, i) && Branches(c, s.frontier.maxDepth, s.inFlight[i].scenario)
  }

  /** Task j can complete while task i has not: there is room for both, or i still waits for j's place. */
  predicate Outlasts(c: Config, s: State, i: nat, j: nat) {
    && Runs(s, i) && Runs(s, j) && i != j
    && (2 <= c.concurrency || (s.inFlight[i].phase.Queued? && (s.inFlight[j].phase.Inside? || j < i)))
  }

  /** Task i may push a child once the completion of task j has opened the full depth. */
  predicate BranchesLater(c: Config, s: State, i: nat, j: nat) {
    Outlasts(c, s, i, j) && Branches(c, c.maxDepth, s.inFlight[i].scenario)
  }

  /** Leaving the loop for emptiness and then taking these steps ends the cycle with work left over. */
  ghost predicate Loses(c: Config, s: State, steps: seq<Step>) {
    && CanRun(c, s, [Leave(Empty)] + steps)
    && Run(c, s, [Leave(Empty)] + steps).mode.Ended?
    && Run(c, s, [Leave(Empty)] + steps).frontier.pending != map[]
  }

  /** The loop's comment promises that follow-ons of tasks still in flight are picked up after the frontier runs
      empty. Instead the loop ends at once, and the cycle can end with admitted but unexplored follow-ons exactly
      when some task may branch under the present depth cap, or under the full one after another has opened it. */
  lemma EmptyExitLosesIff(c: Config, s: State)
    requires Inv(c, s) && s.mode.Looping? && s.frontier.pending == map[]
    ensures (exists steps :: Loses(c, s, steps)) <==>
            (exists i: nat :: BranchesNow(c, s, i)) || (exists i: nat, j: nat :: BranchesLater(c, s, i, j))
  {
    if i: nat :| BranchesNow(c, s, i) {
      var steps := LosingRun(c, s, i);
    } else if i: nat, j: nat :| BranchesLater(c, s, i, j) {
      var steps := LosingRunLater(c, s, i, j);
    } else {
      forall steps | CanRun(c, s, [Leave(Empty)] + steps) ensures !Loses(c, s, steps) {
        assert ([Leave(Empty)] + steps)[1..] == steps;
        NextKeepsInv(c, s, Leave(Empty));
        StuckAtOnce(c, s);
        StuckStays(c, Next(c, s, Leave(Empty)), steps);
      }
    }
  }

  // ---------- Otherwise nothing is lost ----------

  ghost predicate Stuck(c: Config, s: State) {
    && (s.mode.Draining? || s.mode.Ended?) && s.frontier.pending == map[]
    && (forall i: nat :: !BranchesNow(c, s, i))
    && (forall i: nat, j: nat :: !BranchesLater(c, s, i, j))
  }

  lemma StuckAtOnce(c: Config, s: State)
    requires Enabled(c, s, Leave(Empty))
    requires forall i: nat :: !BranchesNow(c, s, i)
    requires forall i: nat, j: nat :: !BranchesLater(c, s, i, j)
    ensures Stuck(c, Next(c, s, Leave(Empty)))
  {
    var next := Next(c, s, Leave(Empty));
    forall i: nat ensures !BranchesNow(c, next, i) { assert !BranchesNow(c, s, i); }
    forall i: nat, j: nat ensures !BranchesLater(c, next, i, j) { assert !BranchesLater(c, s, i, j); }
  }

  lemma {:induction false} NothingPushed(c: Config, f: View, sc: Scenario, bs: seq<Branch>)
    requires f.pending == map[] && !Branches(c, f.maxDepth, sc)
    ensures PushAll(c, f, sc, bs) == f
  {
    if bs != [] { NothingPushed(c, f, sc, bs[..|bs| - 1]); }
  }

  lemma {:induction false} InsideCounts(ts: seq<Task>, i: nat)
    requires i < |ts| && ts[i].phase.Inside?
    ensures CountInside(ts) >= 1
  {
    if i < |ts| - 1 { InsideCounts(ts[..|ts| - 1], i); }
  }

  lemma TwoInside(ts: seq<Task>, i: nat, j: nat)
    requires i < |ts| && j < |ts| && i != j && ts[i].phase.Inside? && ts[j].phase.Inside?
    ensures CountInside(ts) >= 2
  {
    CountUpdate(ts, i, Finished);
    InsideCounts(ts[i := ts[i].(phase := Finished)], j);
  }

  /** The completion of task k leaves nothing that could branch, even if it opens the full depth. */
  lemma StuckComplete(c: Config, s: State, k: nat, bs: seq<Branch>, raise: bool)
    requires Inv(c, s) && Stuck(c, s) && Enabled(c, s, Complete(k, bs, raise))
    ensures Stuck(c, Next(c, s, Complete(k, bs, raise)))
  {
    var next := Next(c, s, Complete(k, bs, raise));
    assert !BranchesNow(c, s, k);
    NothingPushed(c, s.frontier, s.inFlight[k].scenario, bs);
    forall i: nat ensures !BranchesNow(c, next, i) {
      assert !BranchesNow(c, s, i) && !BranchesLater(c, s, i, k);
      if i < |s.inFlight| && i != k && s.inFlight[i].phase.Inside? { TwoInside(s.inFlight, i, k); }
    }
    forall i: nat, j: nat ensures !BranchesLater(c, next, i, j) {
      assert !BranchesLater(c, s, i, j);
    }
  }

  lemma StuckStep(c: Config, s: State, step: Step)
    requires Inv(c, s) && Stuck(c, s) && Enabled(c, s, step)
    ensures Stuck(c, Next(c, s, step))
  {
    if step.Complete? {
      StuckComplete(c, s, step.task, step.branches, step.raiseDepth);
    } else {
      var next := Next(c, s, step);
      forall i: nat ensures !BranchesNow(c, next, i) {
        assert !BranchesNow(c, s, i);
      }
      forall i: nat, j: nat ensures !BranchesLater(c, next, i, j) {
        assert !BranchesLater(c, s, i, j);
      }
    }
  }

  lemma {:induction false} StuckStays(c: Config, s: State, steps: seq<Step>)
    requires Inv(c, s) && Stuck(c, s) && CanRun(c, s, steps)
    ensures Stuck(c, Run(c, s, steps))
    decreases |steps|
  {
    if steps != [] {
      StuckStep(c, s, steps[0]);
      NextKeepsInv(c, s, steps[0]);
      StuckStays(c, Next(c, s, steps[0]), steps[1..]);
    }
  }

  // ---------- Runs that lose work ----------

  /** A scenario id that no task in flight carries. */
  ghost predicate Foreign(s: State, id: string) {
    forall t :: t in s.inFlight ==> t.scenario.id != id
  }

  /** The drain can end without touching a foreign pending scenario. */
  lemma QuietDrain(c: Config, s: State, id: string) returns (steps: seq<Step>)
    requires Inv(c, s) && s.mode.Draining? && id in s.frontier.pending && Foreign(s, id)
    ensures CanRun(c, s, steps)
    ensures Run(c, s, steps).mode.Ended? && id in Run(c, s, steps).frontier.pending
    decreases Rank(c, s)
  {
    var step := Progress(c, s);
    var next := Next(c, s, step);
    NextDecreases(c, s, step);
    NextKeepsInv(c, s, step);
    var rest := [];
    if !step.EndDrain? {
      assert s.inFlight[step.task] in s.inFlight;
      rest := QuietDrain(c, next, id);
    }
    OneStep(c, s, step, rest);
    steps := [step] + rest;
  }

  /** The drain goes on with nothing pending and the same depth cap. */
  ghost predicate Drains(c: Config, s: State, cap: nat) {
    Inv(c, s) && s.mode.Draining? && s.frontier.pending == map[] && s.frontier.maxDepth == cap
  }

  /** The drain can bring an unfinished task inside the semaphore without pushing anything. */
  lemma LetIn(c: Config, s: State, i: nat, id: string) returns (steps: seq<Step>)
    requires Drains(c, s, s.frontier.maxDepth) && Runs(s, i) && Foreign(s, id) && id !in s.frontier.explored
    ensures CanRun(c, s, steps)
    ensures var r := Run(c, s, steps);
            && Drains(c, r, s.frontier.maxDepth)
            && i < |r.inFlight| && r.inFlight[i] == s.inFlight[i].(phase := Inside)
            && Foreign(r, id) && id !in r.frontier.explored
    decreases Rank(c, s)
  {
    steps := [];
    if s.inFlight[i].phase.Queued? {
      var step;
      if CountInside(s.inFlight) < c.concurrency {
        step := Enter(NextInLine(s.inFlight, i));
        assert s.inFlight[step.task] in s.inFlight;
      } else {
        var j := SomebodyInside(s.inFlight);
        step := Complete(j, [], false);
        assert s.inFlight[j] in s.inFlight;
      }
      NextDecreases(c, s, step);
      NextKeepsInv(c, s, step);
      var rest := LetIn(c, Next(c, s, step), i, id);
      OneStep(c, s, step, rest);
      steps := [step] + rest;
    }
  }

  lemma {:induction false} SomebodyInside(ts: seq<Task>) returns (j: nat)
    requires CountInside(ts) > 0
    ensures j < |ts| && ts[j].phase.Inside?
  {
    j := |ts| - 1;
    if !ts[j].phase.Inside? { j := SomebodyInside(ts[..|ts| - 1]); }
  }

  /** Somebody other than task i is inside. */
  lemma OtherInside(ts: seq<Task>, i: nat) returns (j: nat)
    requires i < |ts| && CountInside(ts) > if ts[i].phase.Inside? then 1 else 0
    ensures j < |ts| && j != i && ts[j].phase.Inside?
  {
    CountUpdate(ts, i, Finished);
    j := SomebodyInside(ts[i := ts[i].(phase := Finished)]);
  }

  /** The drain can bring task j inside the semaphore and spare task i. */
  lemma LetInFirst(c: Config, s: State, i: nat, j: nat) returns (steps: seq<Step>)
    requires Drains(c, s, s.frontier.maxDepth) && Outlasts(c, s, i, j)
    ensures CanRun(c, s, steps)
    ensures var r := Run(c, s, steps);
            && Drains(c, r, s.frontier.maxDepth) && Runs(r, i) && Runs(r, j)
            && r.inFlight[j].phase.Inside? && r.inFlight[i].scenario == s.inFlight[i].scenario
    decreases Rank(c, s)
  {
    steps := [];
    if s.inFlight[j].phase.Queued? {
      var step;
      if CountInside(s.inFlight) < c.concurrency {
        step := Enter(NextInLine(s.inFlight, j));
      } else {
        var k := OtherInside(s.inFlight, i);
        step := Complete(k, [], false);
      }
      NextDecreases(c, s, step);
      NextKeepsInv(c, s, step);
      var rest := LetInFirst(c, Next(c, s, step), i, j);
      OneStep(c, s, step, rest);
      steps := [step] + rest;
    }
  }

  ghost function LongestOf(ids: set<string>): (r: nat)
    ensures forall id :: id in ids ==> |id| <= r
  {
    if ids == {} then 0
    else
      var x :| x in ids;
      var rest := LongestOf(ids - {x});
      if |x| <= rest then rest else |x|
  }

  lemma UnusedId(ids: set<string>) returns (id: string)
    ensures id !in ids
  {
    id := seq(LongestOf(ids) + 1, _ => 'x');
  }

  /** A drain in which task i may branch can end with its child pending. */
  lemma LosingDrain(c: Config, s: State, i: nat) returns (steps: seq<Step>)
    requires Drains(c, s, s.frontier.maxDepth) && BranchesNow(c, s, i)
    ensures CanRun(c, s, steps)
    ensures Run(c, s, steps).mode.Ended? && Run(c, s, steps).frontier.pending != map[]
  {
    var id := UnusedId(s.frontier.explored + set t | t in s.inFlight :: t.scenario.id);
    assert Foreign(s, id);
    var enter := LetIn(c, s, i, id);
    var inside := Run(c, s, enter);
    var step := Complete(i, [Branch(id, 1.0, true)], false);
    var lost := AdmitsForeign(c, inside, i, id);
    NextKeepsInv(c, inside, step);
    var rest := QuietDrain(c, lost, id);
    OneStep(c, inside, step, rest);
    RunThen(c, s, enter, [step] + rest);
    steps := enter + ([step] + rest);
  }

  lemma AdmitsForeign(c: Config, s: State, i: nat, id: string) returns (next: State)
    requires s.mode.Draining? && s.frontier.pending == map[]
    requires i < |s.inFlight| && s.inFlight[i].phase.Inside? && BranchesNow(c, s, i)
    requires Foreign(s, id) && id !in s.frontier.explored
    ensures var step := Complete(i, [Branch(id, 1.0, true)], false);
            Enabled(c, s, step) && next == Next(c, s, step)
    ensures next.mode.Draining? && id in next.frontier.pending && Foreign(next, id)
  {
    var b, sc := Branch(id, 1.0, true), s.inFlight[i].scenario;
    assert s.inFlight[i] in s.inFlight;
    next := Next(c, s, Complete(i, [b], false));
    assert [b][..0] == [];
    assert PushAll(c, s.frontier, sc, []) == s.frontier;
    assert PushAll(c, s.frontier, sc, [b]) == Push(s.frontier, Child(c, sc, b), 1.0, true);
  }

  lemma LosingRun(c: Config, s: State, i: nat) returns (steps: seq<Step>)
    requires Inv(c, s) && s.mode.Looping? && s.frontier.pending == map[] && BranchesNow(c, s, i)
    ensures Loses(c, s, steps)
  {
    NextKeepsInv(c, s, Leave(Empty));
    steps := LosingDrain(c, Next(c, s, Leave(Empty)), i);
    OneStep(c, s, Leave(Empty), steps);
  }

  /** Another task opens the full depth first. */
  lemma LosingRunLater(c: Config, s: State, i: nat, j: nat) returns (steps: seq<Step>)
    requires Inv(c, s) && s.mode.Looping? && s.frontier.pending == map[] && BranchesLater(c, s, i, j)
    ensures Loses(c, s, steps)
  {
    var left := Next(c, s, Leave(Empty));
    NextKeepsInv(c, s, Leave(Empty));
    var first := LetInFirst(c, left, i, j);
    var ready := Run(c, left, first);
    var open := Complete(j, [], true);
    NextKeepsInv(c, ready, open);
    var rest := LosingDrain(c, Next(c, ready, open), i);
    OneStep(c, ready, open, rest);
    RunThen(c, left, first, [open] + rest);
    steps := first + ([open] + rest);
    OneStep(c, s, Leave(Empty), steps);
  }

  /** It happens, and in the breadth phase: one seed under depth cap 1 of 3 is dispatched, the frontier is empty, and
      what its task proposes is never explored. */
  lemma LossHappens() returns (c: Config, s: State, steps: seq<Step>)
    ensures Seeded(c, s) && s.frontier.maxDepth == 1 < c.maxDepth && c.concurrency == 1
    ensures CanRun(c, s, [Dispatch("x")] + ([Leave(Empty)] + steps))
    ensures var end := Run(c, s, [Dispatch("x")] + ([Leave(Empty)] + steps));
            end.mode.Ended? && end.frontier.pending != map[]
  {
    c := Config(1, 3, 2, 5, 2.0);
    var x := Scenario("x", 1.0, 0, 0);
    s := State(View(map["x" := x], {}, 1), [], Looping, [], [], []);
    SeededInv(c, s);
    assert s.frontier.pending["x"] == x && Enabled(c, s, Dispatch("x"));
    NextKeepsInv(c, s, Dispatch("x"));
    var empty := Next(c, s, Dispatch("x"));
    assert empty.inFlight == [Task(x, Queued)] && BranchesNow(c, empty, 0);
    steps := LosingRun(c, empty, 0);
    OneStep(c, s, Dispatch("x"), [Leave(Empty)] + steps);
  }
}
