/** When a cycle explores the same scenario twice. */
module Revisits {
  import opened Frontier
  import opened Exploration
  import opened ExplorationSafety
  import opened ExplorationEnds
  import opened LostWork

  ghost function Ids(scs: seq<Scenario>): (r: set<string>) {
    set sc | sc in scs :: sc.id
  }

  ghost predicate OwnIds(scs: seq<Scenario>) { forall i, j :: 0 <= i < j < |scs| ==> scs[i].id != scs[j].id }

  /** No id was popped twice, and no popped id is pending. */
  ghost predicate PoppedOnce(s: State) { OwnIds(s.popped) && s.frontier.pending.Keys !! Ids(s.popped) }

  /** The follow-on names a scenario that was popped before but is not marked explored, because its task is
      still in flight or was skipped, and nothing else keeps it out. */
  ghost predicate Readmits(c: Config, s: State, sc: Scenario, b: Branch) {
    && b.id in Ids(s.popped) && b.id != sc.id && b.id !in s.frontier.explored
    && Branches(c, s.frontier.maxDepth, sc) && b.gates
  }

  lemma {:induction false} PushAllKeys(c: Config, f: View, sc: Scenario, bs: seq<Branch>, id: string)
    requires id !in f.pending
    ensures PushAll(c, f, sc, bs).maxDepth == f.maxDepth && PushAll(c, f, sc, bs).explored == f.explored
    ensures id in PushAll(c, f, sc, bs).pending <==>
            exists b :: b in bs && b.id == id && b.gates && id !in f.explored && Branches(c, f.maxDepth, sc)
  {
    if bs != [] {
      var front, last := bs[..|bs| - 1], bs[|bs| - 1];
      PushAllKeys(c, f, sc, front, id);
      assert forall b :: b in bs <==> b in front || b == last;
    }
  }

  /** Of a completion: no popped id becomes pending again exactly when none is readmitted. */
  lemma ReadmissionIff(c: Config, s: State, i: nat, bs: seq<Branch>, raise: bool)
    requires PoppedOnce(s) && Enabled(c, s, Complete(i, bs, raise))
    ensures PoppedOnce(Next(c, s, Complete(i, bs, raise))) <==>
            forall b :: b in bs ==> !Readmits(c, s, s.inFlight[i].scenario, b)
  {
    var sc := s.inFlight[i].scenario;
    var g := PushAll(c, s.frontier, sc, bs);
    var next := Next(c, s, Complete(i, bs, raise));
    assert next.frontier.pending == g.pending - {sc.id};
    forall id | id in Ids(s.popped)
      ensures id in next.frontier.pending <==> exists b :: b in bs && b.id == id && Readmits(c, s, sc, b)
    {
      PushAllKeys(c, s.frontier, sc, bs, id);
    }
  }

  lemma PoppedFresh(popped: seq<Scenario>, sc: Scenario)
    requires OwnIds(popped) && sc.id !in Ids(popped)
    ensures OwnIds(popped + [sc]) && Ids(popped + [sc]) == Ids(popped) + {sc.id}
  {
    forall k | 0 <= k < |popped| ensures popped[k].id != sc.id { assert popped[k].id in Ids(popped); }
  }

  /** All other steps keep it. */
  lemma OthersPopOnce(c: Config, s: State, step: Step)
    requires PoppedOnce(s) && WellFormed(s.frontier) && Enabled(c, s, step) && !step.Complete?
    ensures PoppedOnce(Next(c, s, step))
  {
    if step.Dispatch? {
      var sc := s.frontier.pending[step.id];
      PoppedFresh(s.popped, sc);
    }
  }

  // ---------- Runs ----------

  /** A completion one of whose follow-ons is readmitted. */
  ghost predicate Readmitting(c: Config, s: State, step: Step)
    requires Enabled(c, s, step)
  {
    step.Complete? && exists b :: b in step.branches && Readmits(c, s, s.inFlight[step.task].scenario, b)
  }

  /** The steps can be taken one after the other, and none readmits. */
  ghost predicate Plain(c: Config, s: State, steps: seq<Step>)
    decreases |steps|
  {
    steps == [] ||
    (Enabled(c, s, steps[0]) && !Readmitting(c, s, steps[0]) && Plain(c, Next(c, s, steps[0]), steps[1..]))
  }

  lemma {:induction false} PlainRuns(c: Config, s: State, steps: seq<Step>)
    requires Plain(c, s, steps)
    ensures CanRun(c, s, steps)
    decreases |steps|
  {
    if steps != [] { PlainRuns(c, Next(c, s, steps[0]), steps[1..]); }
  }

  lemma StepPopsOnce(c: Config, s: State, step: Step)
    requires PoppedOnce(s) && WellFormed(s.frontier) && Enabled(c, s, step) && !Readmitting(c, s, step)
    ensures PoppedOnce(Next(c, s, step))
  {
    if step.Complete? {
      ReadmissionIff(c, s, step.task, step.branches, step.raiseDepth);
    } else {
      OthersPopOnce(c, s, step);
    }
  }

  lemma {:induction false} PlainPopsOnce(c: Config, s: State, steps: seq<Step>)
    requires Inv(c, s) && PoppedOnce(s) && Plain(c, s, steps)
    ensures CanRun(c, s, steps) && PoppedOnce(Run(c, s, steps))
    decreases |steps|
  {
    if steps != [] {
      StepPopsOnce(c, s, steps[0]);
      NextKeepsInv(c, s, steps[0]);
      PlainPopsOnce(c, Next(c, s, steps[0]), steps[1..]);
    }
  }

  /** A cycle in which no completion readmits pops every id at most once. */
  lemma CyclePopsOnce(c: Config, s: State, steps: seq<Step>)
    requires Seeded(c, s) && Plain(c, s, steps)
    ensures CanRun(c, s, steps) && OwnIds(Run(c, s, steps).popped)
  {
    SeededInv(c, s);
    PlainPopsOnce(c, s, steps);
  }

  /** These steps readmit nothing, and after them some id has been popped twice. */
  ghost predicate PopsTwice(c: Config, s: State, steps: seq<Step>) {
    Plain(c, s, steps) && CanRun(c, s, steps) && !OwnIds(Run(c, s, steps).popped)
  }

  /** The follow-on b of task i brings a popped scenario back in time: the loop is to go on, no deadline has been
      noticed, and either there is room beside the scenario's own task, or it is the next to be popped. */
  ghost predicate ComesBack(c: Config, s: State, i: nat, bs: seq<Branch>, raise: bool, b: Branch)
    requires Enabled(c, s, Complete(i, bs, raise))
  {
    && s.mode.Waiting? && s.skipped == []
    && b in bs && Readmits(c, s, s.inFlight[i].scenario, b)
    && (2 <= c.concurrency || IsBest(Next(c, s, Complete(i, bs, raise)).frontier, b.id))
  }

  /** A completion leads to an id popped twice, without any other that readmits, if and only if one of its follow-ons
      comes back in time. */
  lemma RevisitIff(c: Config, s: State, i: nat, bs: seq<Branch>, raise: bool, next: State)
    requires Inv(c, s) && PoppedOnce(s) && Enabled(c, s, Complete(i, bs, raise))
    requires next == Next(c, s, Complete(i, bs, raise))
    ensures (exists steps :: PopsTwice(c, next, steps)) <==> (exists b :: ComesBack(c, s, i, bs, raise, b))
  {
    NextKeepsInv(c, s, Complete(i, bs, raise));
    if b :| ComesBack(c, s, i, bs, raise, b) {
      BackInFrontier(c, s, i, bs, raise, b);
      var steps := PopAgain(c, next, b.id);
    } else {
      SafeAfter(c, s, i, bs, raise);
      forall steps | Plain(c, next, steps) && CanRun(c, next, steps) ensures OwnIds(Run(c, next, steps).popped) {
        SafeStays(c, next, steps);
      }
    }
  }

  // ---------- Each id has at most one task ----------

  lemma {:induction false} CountedOnce(scs: seq<Scenario>, sc: Scenario)
    requires OwnIds(scs)
    ensures multiset(scs)[sc] <= 1
  {
    if scs != [] {
      var front, last := scs[..|scs| - 1], scs[|scs| - 1];
      CountedOnce(front, sc);
      assert scs == front + [last];
      assert forall k :: 0 <= k < |front| ==> front[k].id != last.id;
      assert last !in multiset(front);
    }
  }

  lemma {:induction false} TallyFinds(ts: seq<Task>, sc: Scenario)
    ensures Tally(ts, sc) > 0 <==> exists k :: 0 <= k < |ts| && !ts[k].phase.Finished? && ts[k].scenario == sc
  {
    if ts != [] {
      var front := ts[..|ts| - 1];
      TallyFinds(front, sc);
      assert forall k :: 0 <= k < |front| ==> ts[k] == front[k];
    }
  }

  /** While every id was popped at most once, two unfinished tasks explore different ids. */
  lemma OwnTasks(c: Config, s: State, a: nat, b: nat)
    requires Inv(c, s) && OwnIds(s.popped) && Runs(s, a) && Runs(s, b) && a != b
    ensures s.inFlight[a].scenario.id != s.inFlight[b].scenario.id
  {
    var x, y := s.inFlight[a].scenario, s.inFlight[b].scenario;
    assert Accounted(s, x) && Accounted(s, y);
    TallyFinds(s.inFlight, x);
    TallyFinds(s.inFlight, y);
    if x == y {
      TallyUpdate(s.inFlight, a, Finished, x);
      var rest := s.inFlight[a := s.inFlight[a].(phase := Finished)];
      assert rest[b] == s.inFlight[b];
      TallyFinds(rest, x);
      CountedOnce(s.popped, x);
      assert false;
    }
    assert x in multiset(s.popped) && y in multiset(s.popped);
    var p :| 0 <= p < |s.popped| && s.popped[p] == x;
    var q :| 0 <= q < |s.popped| && s.popped[q] == y;
    assert p != q;
  }

  /** A popped scenario that was neither explored nor skipped has an unfinished task. */
  lemma StillRuns(c: Config, s: State, id: string) returns (k: nat)
    requires Inv(c, s) && s.skipped == [] && id in Ids(s.popped) && id !in s.frontier.explored
    ensures Runs(s, k) && s.inFlight[k].scenario.id == id
  {
    var sc :| sc in s.popped && sc.id == id;
    assert Accounted(s, sc) && sc !in s.completed;
    assert sc in multiset(s.popped) && sc !in multiset(s.completed);
    TallyFinds(s.inFlight, sc);
    k :| 0 <= k < |s.inFlight| && !s.inFlight[k].phase.Finished? && s.inFlight[k].scenario == sc;
  }

  // ---------- Back in time: the id is popped again ----------

  /** A popped id is pending and can still be popped again. */
  ghost predicate Returns(c: Config, s: State, id: string) {
    && Inv(c, s) && OwnIds(s.popped) && s.skipped == []
    && id in s.frontier.pending && id in Ids(s.popped)
    && (s.mode.Looping? || s.mode.Waiting?)
  }

  lemma BackInFrontier(c: Config, s: State, i: nat, bs: seq<Branch>, raise: bool, b: Branch)
    requires Inv(c, s) && PoppedOnce(s) && Enabled(c, s, Complete(i, bs, raise))
    requires ComesBack(c, s, i, bs, raise, b)
    ensures var next := Next(c, s, Complete(i, bs, raise));
            && Returns(c, next, b.id) && next.mode.Waiting? && Runs(s, i) && !Runs(next, i) && i < |next.inFlight|
            && (2 <= c.concurrency || IsBest(next.frontier, b.id))
  {
    NextKeepsInv(c, s, Complete(i, bs, raise));
    assert b.id !in s.frontier.pending;
    PushAllKeys(c, s.frontier, s.inFlight[i].scenario, bs, b.id);
  }

  /** Puts one step that readmits nothing in front. */
  lemma PopsTwiceFrom(c: Config, s: State, step: Step, rest: seq<Step>)
    requires Enabled(c, s, step) && !Readmitting(c, s, step) && PopsTwice(c, Next(c, s, step), rest)
    ensures PopsTwice(c, s, [step] + rest)
  {
    OneStep(c, s, step, rest);
    assert ([step] + rest)[0] == step && ([step] + rest)[1..] == rest;
  }

  lemma PopNow(c: Config, s: State, id: string)
    requires Returns(c, s, id) && s.mode.Looping? && IsBest(s.frontier, id)
    ensures PopsTwice(c, s, [Dispatch(id)])
  {
    var sc, step := s.frontier.pending[id], Dispatch(id);
    var next := Next(c, s, step);
    var k :| 0 <= k < |s.popped| && s.popped[k].id == id;
    assert next.popped[k].id == next.popped[|s.popped|].id;
    assert PopsTwice(c, next, []);
    PopsTwiceFrom(c, s, step, []);
    assert [step] + [] == [step];
  }

  /** While the loop waits for a first task to finish, a task other than the id's own can complete or enter. */
  lemma OthersGoOn(c: Config, s: State, id: string) returns (step: Step)
    requires Returns(c, s, id) && s.mode.Waiting? && 2 <= c.concurrency
    requires forall t :: t in s.inFlight ==> !t.phase.Finished?
    ensures Enabled(c, s, step) && ((step.Complete? && step.branches == [] && !step.raiseDepth) || step.Enter?)
    ensures step.Complete? ==> s.inFlight[step.task].scenario.id != id
  {
    var ts := s.inFlight;
    assert forall k :: 0 <= k < |ts| ==> ts[k] in ts;
    if CountInside(ts) > 0 {
      var a := SomebodyInside(ts);
      if ts[a].scenario.id != id {
        step := Complete(a, [], false);
      } else if CountInside(ts) > 1 {
        var b := OtherInside(ts, a);
        OwnTasks(c, s, a, b);
        step := Complete(b, [], false);
      } else {
        var k := if a == 0 then 1 else 0;
        if ts[k].phase.Inside? { TwoInside(ts, a, k); }
        step := Enter(NextInLine(ts, k));
      }
    } else {
      if ts[0].phase.Inside? { InsideCounts(ts, 0); }
      step := Enter(NextInLine(ts, 0));
    }
  }

  lemma ReturnsStill(c: Config, s: State, step: Step, id: string)
    requires Returns(c, s, id) && Enabled(c, s, step)
    requires step.Complete? ==> step.branches == [] && s.inFlight[step.task].scenario.id != id
    requires step.Dispatch? ==> step.id != id && step.id !in Ids(s.popped)
    requires step.Dispatch? || step.Resume? || step.Complete? || step.Enter?
    ensures Returns(c, Next(c, s, step), id) && !Readmitting(c, s, step)
  {
    var next := Next(c, s, step);
    NextKeepsInv(c, s, step);
    if step.Dispatch? { PoppedFresh(s.popped, s.frontier.pending[step.id]); }
  }

  /** Some task has finished, or there are places for two. */
  ghost predicate CanResume(c: Config, s: State, id: string) {
    2 <= c.concurrency || (IsBest(s.frontier, id) && (s.mode.Waiting? ==> exists t :: t in s.inFlight && t.phase.Finished?))
  }

  /** The loop resumes or pops something better, others go on while it waits, until the id is popped. */
  lemma PopAgain(c: Config, s: State, id: string) returns (steps: seq<Step>)
    requires Returns(c, s, id) && CanResume(c, s, id)
    ensures PopsTwice(c, s, steps)
    decreases Rank(c, s)
  {
    var step;
    if s.mode.Looping? {
      var best := if IsBest(s.frontier, id) then id else BestOf(s.frontier.pending);
      if best in Ids(s.popped) {
        PopNow(c, s, best);
        return [Dispatch(best)];
      }
      step := Dispatch(best);
    } else if exists t :: t in s.inFlight && t.phase.Finished? {
      step := Resume;
    } else {
      step := OthersGoOn(c, s, id);
    }
    ReturnsStill(c, s, step, id);
    NextDecreases(c, s, step);
    var rest := PopAgain(c, Next(c, s, step), id);
    PopsTwiceFrom(c, s, step, rest);
    steps := [step] + rest;
  }

  // ---------- Not back in time: no id is popped again ----------

  /** A task was skipped after something had been explored: nothing is popped any more. */
  predicate Late(s: State) { s.skipped != [] && s.completed != [] }

  predicate Shut(s: State) { s.mode.Draining? || s.mode.Ended? }

  /** One place only, and the id that came back is that of task k, which is first to have it: either alone, and the
      id is not the next to be popped, or with one task that waits behind it. */
  ghost predicate Blocked(c: Config, s: State, k: nat) {
    && c.concurrency == 1 && s.completed != [] && s.skipped == [] && Runs(s, k)
    && (forall id :: id in s.frontier.pending && id in Ids(s.popped) ==> id == s.inFlight[k].scenario.id)
    && (|| (!IsBest(s.frontier, s.inFlight[k].scenario.id) && OthersFinished(s.inFlight, k))
        || (k == 0 && s.mode.Waiting? && |s.inFlight| == 2 && s.inFlight[1].phase.Queued?))
  }

  predicate OthersFinished(ts: seq<Task>, k: nat) { forall j :: 0 <= j < |ts| && j != k ==> ts[j].phase.Finished? }

  ghost predicate Safe(c: Config, s: State) {
    Inv(c, s) && OwnIds(s.popped) && (PoppedOnce(s) || Late(s) || Shut(s) || exists k :: Blocked(c, s, k))
  }

  lemma {:induction false} OnlyUnfinished(ts: seq<Task>, k: nat)
    requires k < |ts| && !ts[k].phase.Finished? && OthersFinished(ts, k)
    ensures Unfinished(ts) == [ts[k]]
  {
    var front := ts[..|ts| - 1];
    if k < |front| {
      OnlyUnfinished(front, k);
    } else {
      NoneUnfinished(front);
    }
  }

  lemma {:induction false} NoneUnfinished(ts: seq<Task>)
    requires forall j :: 0 <= j < |ts| ==> ts[j].phase.Finished?
    ensures Unfinished(ts) == []
  {
    if ts != [] { NoneUnfinished(ts[..|ts| - 1]); }
  }

  /** The steps that task k takes or that stop the loop. */
  lemma BlockedTask(c: Config, s: State, k: nat, step: Step)
    requires Inv(c, s) && OwnIds(s.popped) && Blocked(c, s, k) && Enabled(c, s, step) && !Readmitting(c, s, step)
    requires step.Enter? || step.Skip? || step.Complete?
    ensures step.task == k
    ensures var next := Next(c, s, step);
            if step.Enter? then Blocked(c, next, k) else if step.Skip? then Late(next) else PoppedOnce(next)
  {
    var next := Next(c, s, step);
    if s.inFlight[k].phase.Inside? { InsideCounts(s.inFlight, k); }
    if step.Complete? {
      var sc, f := s.inFlight[k].scenario, s.frontier;
      assert step.task == k;
      forall id | id in next.frontier.pending ensures id !in Ids(s.popped) {
        if id in Ids(s.popped) {
          assert id != sc.id && id !in f.pending;
          PushAllKeys(c, f, sc, step.branches, id);
        }
      }
    }
  }

  lemma BlockedDispatch(c: Config, s: State, k: nat, id: string)
    requires Inv(c, s) && OwnIds(s.popped) && Blocked(c, s, k) && Enabled(c, s, Dispatch(id))
    ensures var next := Next(c, s, Dispatch(id)); OwnIds(next.popped) && Blocked(c, next, 0)
  {
    var next, sc := Next(c, s, Dispatch(id)), s.frontier.pending[id];
    assert id !in Ids(s.popped);
    PoppedFresh(s.popped, sc);
  }

  lemma BlockedStep(c: Config, s: State, k: nat, step: Step)
    requires Inv(c, s) && OwnIds(s.popped) && Blocked(c, s, k) && Enabled(c, s, step) && !Readmitting(c, s, step)
    ensures Safe(c, Next(c, s, step))
  {
    NextKeepsInv(c, s, step);
    if step.Enter? || step.Skip? || step.Complete? {
      BlockedTask(c, s, k, step);
    } else if step.Dispatch? {
      BlockedDispatch(c, s, k, step.id);
    } else if step.Resume? {
      BlockedResume(c, s, k);
    }
  }

  lemma BlockedResume(c: Config, s: State, k: nat)
    requires Blocked(c, s, k) && Enabled(c, s, Resume)
    ensures Blocked(c, Next(c, s, Resume), 0)
  {
    assert s.inFlight[k] in s.inFlight;
    OnlyUnfinished(s.inFlight, k);
  }

  lemma SafeStep(c: Config, s: State, step: Step)
    requires Safe(c, s) && Enabled(c, s, step) && !Readmitting(c, s, step)
    ensures Safe(c, Next(c, s, step))
  {
    NextKeepsInv(c, s, step);
    if PoppedOnce(s) {
      StepPopsOnce(c, s, step);
    } else if !Late(s) && !Shut(s) {
      var k :| Blocked(c, s, k);
      BlockedStep(c, s, k, step);
    }
  }

  lemma {:induction false} SafeStays(c: Config, s: State, steps: seq<Step>)
    requires Safe(c, s) && Plain(c, s, steps) && CanRun(c, s, steps)
    ensures Safe(c, Run(c, s, steps))
    decreases |steps|
  {
    if steps != [] {
      SafeStep(c, s, steps[0]);
      SafeStays(c, Next(c, s, steps[0]), steps[1..]);
    }
  }

  /** Only the follow-ons of the completion bring popped ids back. */
  lemma CameBack(c: Config, s: State, i: nat, bs: seq<Branch>, raise: bool, id: string)
    requires PoppedOnce(s) && Enabled(c, s, Complete(i, bs, raise)) && id in Ids(s.popped)
    requires id in Next(c, s, Complete(i, bs, raise)).frontier.pending
    ensures exists b :: b in bs && b.id == id && Readmits(c, s, s.inFlight[i].scenario, b)
    ensures id !in Next(c, s, Complete(i, bs, raise)).frontier.explored
  {
    PushAllKeys(c, s.frontier, s.inFlight[i].scenario, bs, id);
  }

  /** With one place, a readmitted id that is not the next to be popped is blocked by its own task. */
  lemma BlockedAfter(c: Config, s: State, i: nat, bs: seq<Branch>, raise: bool, b: Branch, next: State) returns (k: nat)
    requires Inv(c, s) && PoppedOnce(s) && Enabled(c, s, Complete(i, bs, raise))
    requires next == Next(c, s, Complete(i, bs, raise)) && Inv(c, next)
    requires s.mode.Waiting? && s.skipped == [] && b in bs && Readmits(c, s, s.inFlight[i].scenario, b)
    requires c.concurrency == 1 && !IsBest(next.frontier, b.id)
    ensures Blocked(c, next, k)
  {
    PushAllKeys(c, s.frontier, s.inFlight[i].scenario, bs, b.id);
    assert b.id in next.frontier.pending;
    k := StillRuns(c, next, b.id);
    forall id | id in next.frontier.pending && id in Ids(next.popped) ensures id == b.id {
      CameBack(c, s, i, bs, raise, id);
      var j := StillRuns(c, next, id);
      assert j == k;
    }
  }

  lemma SafeAfter(c: Config, s: State, i: nat, bs: seq<Branch>, raise: bool)
    requires Inv(c, s) && PoppedOnce(s) && Enabled(c, s, Complete(i, bs, raise))
    requires forall b :: !ComesBack(c, s, i, bs, raise, b)
    ensures Safe(c, Next(c, s, Complete(i, bs, raise)))
  {
    var next := Next(c, s, Complete(i, bs, raise));
    NextKeepsInv(c, s, Complete(i, bs, raise));
    ReadmissionIff(c, s, i, bs, raise);
    if b :| b in bs && Readmits(c, s, s.inFlight[i].scenario, b) && s.mode.Waiting? && s.skipped == [] {
      assert !ComesBack(c, s, i, bs, raise, b);
      var k := BlockedAfter(c, s, i, bs, raise, b, next);
    }
  }

  // It does happen: with concurrency 2, scenario x is in flight when y completes and proposes x's files
  // again; x is admitted, popped and explored a second time.

  const Two: Config := Config(2, 3, 2, 5, 2.0)
  const Again: Branch := Branch("x", 0.9, true)
  const Copy: Scenario := Scenario("x", 0.9, 1, 0)

  function Seed(id: string): Scenario { Scenario(id, 1.0, 0, 0) }

  function In(id: string, p: Phase): Task { Task(Seed(id), p) }

  function FourSeeds(): State {
    State(View(map["w" := Seed("w"), "x" := Seed("x"), "y" := Seed("y"), "z" := Seed("z")], {}, 3),
          [], Looping, [], [], [])
  }

  function XAndYInside(): State {
    State(View(map[], {}, 3), [In("x", Inside), In("y", Inside), In("z", Queued), In("w", Queued)], Waiting,
          [Seed("x"), Seed("y"), Seed("z"), Seed("w")], [], [])
  }

  function XInFlightTwice(): State {
    State(View(map[], {"y"}, 3), [In("x", Inside), In("z", Queued), In("w", Queued), Task(Copy, Queued)], Waiting,
          [Seed("x"), Seed("y"), Seed("z"), Seed("w"), Copy], [Seed("y")], [])
  }

  lemma CountFour(a: Task, b: Task, d: Task, e: Task)
    ensures CountInside([a, b, d, e]) ==
            (if a.phase.Inside? then 1 else 0) + (if b.phase.Inside? then 1 else 0) +
            (if d.phase.Inside? then 1 else 0) + (if e.phase.Inside? then 1 else 0)
  {
    Append([], a, Copy);
    Append([a], b, Copy);
    Append([a, b], d, Copy);
    Append([a, b, d], e, Copy);
    assert [] + [a] == [a] && [a] + [b] == [a, b] && [a, b] + [d] == [a, b, d] && [a, b, d] + [e] == [a, b, d, e];
  }

  lemma PruneOne(a: Task, b: Task, d: Task, e: Task)
    requires !d.phase.Finished? && !e.phase.Finished?
    ensures b.phase.Finished? && !a.phase.Finished? ==> Unfinished([a, b, d, e]) == [a, d, e]
    ensures a.phase.Finished? && !b.phase.Finished? ==> Unfinished([a, b, d, e]) == [b, d, e]
  {
    assert [a, b, d, e][..3] == [a, b, d] && [a, b, d][..2] == [a, b] && [a, b][..1] == [a] && [a][..0] == [];
    assert Unfinished([a]) == if a.phase.Finished? then [] else [a];
    assert Unfinished([a, b]) == Unfinished([a]) + if b.phase.Finished? then [] else [b];
    assert Unfinished([a, b, d]) == Unfinished([a, b]) + [d];
  }

  lemma EnterBoth(s: State)
    requires s == XAndYInside().(inFlight := XAndYInside().inFlight[0 := In("x", Queued)][1 := In("y", Queued)])
    ensures CanRun(Two, s, [Enter(0), Enter(1)]) && Run(Two, s, [Enter(0), Enter(1)]) == XAndYInside()
  {
    CountFour(In("x", Queued), In("y", Queued), In("z", Queued), In("w", Queued));
    CountFour(In("x", Inside), In("y", Queued), In("z", Queued), In("w", Queued));
    assert s.inFlight == [In("x", Queued), In("y", Queued), In("z", Queued), In("w", Queued)];
    var s1 := Next(Two, s, Enter(0));
    assert s1.inFlight == [In("x", Inside), In("y", Queued), In("z", Queued), In("w", Queued)];
    OneStep(Two, s1, Enter(1), []);
    OneStep(Two, s, Enter(0), [Enter(1)]);
  }

  lemma ReadmitX()
    ensures var steps := [Complete(1, [Again], false), Resume, Dispatch("x")];
            CanRun(Two, XAndYInside(), steps) && Run(Two, XAndYInside(), steps) == XInFlightTwice()
  {
    var s := XAndYInside();
    assert [Again][..0] == [] && PushAll(Two, s.frontier, Seed("y"), []) == s.frontier;
    assert PushAll(Two, s.frontier, Seed("y"), [Again]) == Push(s.frontier, Copy, 0.9, true);
    var s1 := Next(Two, s, Complete(1, [Again], false));
    assert s1.frontier.pending == map["x" := Copy];
    assert s1.inFlight == [In("x", Inside), In("y", Finished), In("z", Queued), In("w", Queued)];
    assert s1.inFlight[1] in s1.inFlight;
    var s2 := Next(Two, s1, Resume);
    PruneOne(In("x", Inside), In("y", Finished), In("z", Queued), In("w", Queued));
    assert s2.frontier.pending["x"] == Copy;
    OneStep(Two, s2, Dispatch("x"), []);
    OneStep(Two, s1, Resume, [Dispatch("x")]);
    OneStep(Two, s, Complete(1, [Again], false), [Resume, Dispatch("x")]);
  }

  function CopyLeft(): State {
    State(View(map[], {"x", "y"}, 3), [In("z", Queued), In("w", Queued), Task(Copy, Queued)], Draining,
          XInFlightTwice().popped, [Seed("y"), Seed("x")], [])
  }

  lemma FinishX()
    ensures var steps := [Complete(0, [], false), Resume, Leave(Empty)];
            CanRun(Two, XInFlightTwice(), steps) && Run(Two, XInFlightTwice(), steps) == CopyLeft()
  {
    var s := XInFlightTwice();
    var s1 := Next(Two, s, Complete(0, [], false));
    assert s1.inFlight == [In("x", Finished), In("z", Queued), In("w", Queued), Task(Copy, Queued)];
    assert s1.inFlight[0] in s1.inFlight && s1.frontier.pending == map[];
    PruneOne(In("x", Finished), In("z", Queued), In("w", Queued), Task(Copy, Queued));
    var s2 := Next(Two, s1, Resume);
    OneStep(Two, s2, Leave(Empty), []);
    OneStep(Two, s1, Resume, [Leave(Empty)]);
    OneStep(Two, s, Complete(0, [], false), [Resume, Leave(Empty)]);
  }

  lemma {:induction false} CompletedGrows(c: Config, s: State, steps: seq<Step>)
    requires CanRun(c, s, steps)
    ensures s.completed <= Run(c, s, steps).completed
    decreases |steps|
  {
    if steps != [] { CompletedGrows(c, Next(c, s, steps[0]), steps[1..]); }
  }

  /** The drain gets to the copy, too. */
  lemma FinishCopy() returns (steps: seq<Step>)
    requires Inv(Two, CopyLeft())
    ensures CanRun(Two, CopyLeft(), steps)
    ensures var done := Run(Two, CopyLeft(), steps).completed; [Seed("y"), Seed("x")] < done && done[|done| - 1] == Copy
  {
    var s := CopyLeft();
    assert s.inFlight[2] == Task(Copy, Queued);
    var enter := LetIn(Two, s, 2, "v");
    var inside := Run(Two, s, enter);
    CompletedGrows(Two, s, enter);
    OneStep(Two, inside, Complete(2, [], false), []);
    RunThen(Two, s, enter, [Complete(2, [], false)]);
    steps := enter + [Complete(2, [], false)];
  }

  lemma BothInside() returns (steps: seq<Step>)
    ensures CanRun(Two, FourSeeds(), steps) && Run(Two, FourSeeds(), steps) == XAndYInside()
  {
    var spawn, enter := [Dispatch("x"), Dispatch("y"), Dispatch("z"), Dispatch("w")], [Enter(0), Enter(1)];
    EnterBoth(Run(Two, FourSeeds(), spawn));
    RunThen(Two, FourSeeds(), spawn, enter);
    steps := spawn + enter;
  }

  lemma XLeftTwice() returns (steps: seq<Step>)
    ensures Seeded(Two, FourSeeds())
    ensures CanRun(Two, FourSeeds(), steps) && Run(Two, FourSeeds(), steps) == CopyLeft()
    ensures Inv(Two, CopyLeft())
  {
    var inside := BothInside();
    ReadmitX();
    FinishX();
    var readmit := [Complete(1, [Again], false), Resume, Dispatch("x")];
    var finish := [Complete(0, [], false), Resume, Leave(Empty)];
    RunThen(Two, XAndYInside(), readmit, finish);
    RunThen(Two, FourSeeds(), inside, readmit + finish);
    steps := inside + (readmit + finish);
    SeededInv(Two, FourSeeds());
    RunKeepsInv(Two, FourSeeds(), steps);
  }

  lemma TwoXs(done: seq<Scenario>) returns (i: nat, j: nat)
    requires [Seed("y"), Seed("x")] < done && done[|done| - 1] == Copy
    ensures i < j < |done| && done[i].id == done[j].id == "x"
  {
    i, j := 1, |done| - 1;
    assert done[1] == [Seed("y"), Seed("x")][1];
  }

  lemma TwiceFrom(s: State, first: seq<Step>) returns (steps: seq<Step>, i: nat, j: nat)
    requires CanRun(Two, s, first) && Run(Two, s, first) == CopyLeft() && Inv(Two, CopyLeft())
    ensures CanRun(Two, s, steps)
    ensures var done := Run(Two, s, steps).completed; i < j < |done| && done[i].id == done[j].id == "x"
  {
    var second := FinishCopy();
    RunThen(Two, s, first, second);
    steps := first + second;
    i, j := TwoXs(Run(Two, s, steps).completed);
  }

  lemma ExploredTwice() returns (steps: seq<Step>, i: nat, j: nat)
    ensures Seeded(Two, FourSeeds()) && CanRun(Two, FourSeeds(), steps)
    ensures var done := Run(Two, FourSeeds(), steps).completed; i < j < |done| && done[i].id == done[j].id == "x"
  {
    var first := XLeftTwice();
    steps, i, j := TwiceFrom(FourSeeds(), first);
  }
}
