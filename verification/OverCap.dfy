/** A cycle that explores beyond its depth cap: a pending scenario is upgraded to a depth that the cap and its bonus
    do not allow. */
module OverCap {
  import opened Frontier
  import opened Exploration
  import opened ExplorationSafety
  import opened ExplorationEnds

  const One: Config := Config(1, 1, 2, 5, 2.0)

  const R: Scenario := Scenario("r", 1.0, 0, 0)
  const Q: Scenario := Scenario("q", 0.9, 0, 0)
  const X: Scenario := Scenario("x", 0.2, 0, 0)
  const P: Scenario := Scenario("p", 0.95, 1, 0)
  const Deep: Scenario := Scenario("x", 0.5, 2, 0)

  const Children: seq<Branch> := [Branch("p", 0.95, true)]
  const Upgrade: seq<Branch> := [Branch("x", 0.5, true)]

  /** Three seeds under cap 1. */
  function Seeds(): State { State(View(map["r" := R, "q" := Q, "x" := X], {}, 1), [], Looping, [], [], []) }

  function TwoTasks(): State {
    State(View(map["x" := X], {}, 1), [Task(R, Queued), Task(Q, Queued)], Waiting, [R, Q], [], [])
  }

  /** r is explored, and its child p is in flight beside q. */
  function ChildInFlight(): State {
    State(View(map["x" := X], {"r"}, 1), [Task(Q, Queued), Task(P, Queued)], Waiting, [R, Q, P], [R], [])
  }

  /** p has proposed x again. */
  function Upgraded(): State {
    State(View(map["x" := Deep], {"r", "q", "p"}, 1), [Task(Q, Finished), Task(P, Finished)], Waiting,
          [R, Q, P], [R, Q, P], [])
  }

  lemma DispatchTwo()
    ensures var steps := [Dispatch("r"), Dispatch("q")];
            CanRun(One, Seeds(), steps) && Run(One, Seeds(), steps) == TwoTasks()
  {
    var s := Seeds();
    var s1 := Next(One, s, Dispatch("r"));
    assert s1.frontier.pending == map["q" := Q, "x" := X];
    var s2 := Next(One, s1, Dispatch("q"));
    assert s2.frontier.pending == map["x" := X] && s2.inFlight == [Task(R, Queued), Task(Q, Queued)];
    OneStep(One, s1, Dispatch("q"), []);
    OneStep(One, s, Dispatch("r"), [Dispatch("q")]);
  }

  lemma InsideIs(a: Task, b: Task)
    ensures CountInside([a, b]) == (if a.phase.Inside? then 1 else 0) + (if b.phase.Inside? then 1 else 0)
  {
    assert [a, b][..1] == [a] && [a][..0] == [];
    assert CountInside([a]) == if a.phase.Inside? then 1 else 0;
  }

  lemma PushOne(f: View, sc: Scenario, b: Branch)
    ensures PushAll(One, f, sc, [b]) == Push(f, Child(One, sc, b), b.effective, b.gates)
  {
    assert [b][..0] == [];
    assert PushAll(One, f, sc, []) == f;
  }

  /** r is explored, and the loop is about to resume. */
  function ParentExplored(): State {
    State(View(map["x" := X, "p" := P], {"r"}, 1), [Task(R, Finished), Task(Q, Queued)], Waiting, [R, Q], [R], [])
  }

  lemma ExploreParent()
    ensures var steps := [Enter(0), Complete(0, Children, false)];
            CanRun(One, TwoTasks(), steps) && Run(One, TwoTasks(), steps) == ParentExplored()
  {
    var s := TwoTasks();
    InsideIs(Task(R, Queued), Task(Q, Queued));
    var s1 := Next(One, s, Enter(0));
    assert s1.inFlight == [Task(R, Inside), Task(Q, Queued)];
    PushOne(s1.frontier, R, Children[0]);
    var s2 := Next(One, s1, Complete(0, Children, false));
    assert s2.inFlight == [Task(R, Finished), Task(Q, Queued)] && s2.frontier.pending == map["x" := X, "p" := P];
    OneStep(One, s1, Complete(0, Children, false), []);
    OneStep(One, s, Enter(0), [Complete(0, Children, false)]);
  }

  lemma DispatchChild()
    ensures var steps := [Resume, Dispatch("p")];
            CanRun(One, ParentExplored(), steps) && Run(One, ParentExplored(), steps) == ChildInFlight()
  {
    var s := ParentExplored();
    assert s.inFlight[0] in s.inFlight;
    assert [Task(R, Finished), Task(Q, Queued)][..1] == [Task(R, Finished)] && [Task(R, Finished)][..0] == [];
    assert Unfinished([Task(R, Finished)]) == [];
    var s1 := Next(One, s, Resume);
    assert s1.inFlight == [Task(Q, Queued)];
    var s2 := Next(One, s1, Dispatch("p"));
    assert s2.frontier.pending == map["x" := X] && s2.inFlight == [Task(Q, Queued), Task(P, Queued)];
    OneStep(One, s1, Dispatch("p"), []);
    OneStep(One, s, Resume, [Dispatch("p")]);
  }

  lemma ProposeAgain()
    ensures var steps := [Enter(0), Complete(0, [], false), Enter(1), Complete(1, Upgrade, false)];
            CanRun(One, ChildInFlight(), steps) && Run(One, ChildInFlight(), steps) == Upgraded()
  {
    var s := ChildInFlight();
    InsideIs(Task(Q, Queued), Task(P, Queued));
    var s1 := Next(One, s, Enter(0));
    assert s1.inFlight == [Task(Q, Inside), Task(P, Queued)];
    var s2 := Next(One, s1, Complete(0, [], false));
    assert s2.inFlight == [Task(Q, Finished), Task(P, Queued)] && s2.frontier.pending == map["x" := X];
    InsideIs(Task(Q, Finished), Task(P, Queued));
    var s3 := Next(One, s2, Enter(1));
    assert s3.inFlight == [Task(Q, Finished), Task(P, Inside)];
    PushOne(s3.frontier, P, Upgrade[0]);
    var s4 := Next(One, s3, Complete(1, Upgrade, false));
    assert s4.inFlight == [Task(Q, Finished), Task(P, Finished)] && s4.frontier.pending == map["x" := Deep];
    OneStep(One, s3, Complete(1, Upgrade, false), []);
    OneStep(One, s2, Enter(1), [Complete(1, Upgrade, false)]);
    OneStep(One, s1, Complete(0, [], false), [Enter(1), Complete(1, Upgrade, false)]);
    OneStep(One, s, Enter(0), [Complete(0, [], false), Enter(1), Complete(1, Upgrade, false)]);
  }

  /** From three seeds of depth 0 under cap 1: a child of depth 1 proposes a pending seed again, which is then pending
      at depth 2 without any bonus. */
  lemma CapIsPassed() returns (steps: seq<Step>)
    ensures Seeded(One, Seeds()) && CanRun(One, Seeds(), steps)
    ensures var end := Run(One, Seeds(), steps).frontier;
            "x" in end.pending && !WithinCap(end, "x") && end.pending["x"].bonus == 0 && end.maxDepth == One.maxDepth
  {
    DispatchTwo();
    ExploreParent();
    DispatchChild();
    ProposeAgain();
    var first := [Dispatch("r"), Dispatch("q")];
    var second := [Enter(0), Complete(0, Children, false)];
    var third := [Resume, Dispatch("p")];
    var fourth := [Enter(0), Complete(0, [], false), Enter(1), Complete(1, Upgrade, false)];
    RunThen(One, ParentExplored(), third, fourth);
    RunThen(One, TwoTasks(), second, third + fourth);
    RunThen(One, Seeds(), first, second + (third + fourth));
    steps := first + (second + (third + fourth));
  }
}
