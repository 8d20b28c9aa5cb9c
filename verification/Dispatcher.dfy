/** The dispatcher as the loop it is: one object per cycle, its methods the turns of the loop and of the
    tasks, each one step of the transition system in Exploration.dfy. */
module Dispatcher {
  import opened Common
  import opened Frontier
  import opened Exploration
  import opened ExplorationSafety
  import opened ExplorationEnds

  class ExplorationCycle {
    const config: Config
    const frontier: ExplorationFrontier
    var inFlight: seq<Task>
    var mode: Mode
    var completed: seq<Scenario>
    var breadthDone: bool
    ghost var popped: seq<Scenario>
    ghost var skipped: seq<Scenario>

    ghost function Abstract(): State
      reads this, frontier
    {
      State(frontier.Seen(), inFlight, mode, popped, completed, skipped)
    }

    ghost predicate Valid()
      reads this, frontier
    {
      frontier.Valid() && Inv(config, Abstract())
    }

    /** The cycle starts on a frontier the seeding phase has filled, at depth 1 until enough files are covered. */
    constructor (config: Config, frontier: ExplorationFrontier, covered: bool)
      requires frontier.Valid() && 0 < config.concurrency
      requires forall id :: id in frontier.pending ==> frontier.pending[id].bonus <= config.bonus
      modifies frontier`effectiveMaxDepth
      ensures Valid() && this.config == config && this.frontier == frontier && breadthDone == covered
      ensures frontier.Seen() ==
              old(frontier.Seen()).(maxDepth := if covered || config.maxDepth == 0 then config.maxDepth else 1)
      ensures Seeded(config, Abstract())
    {
      this.config, this.frontier := config, frontier;
      inFlight, mode, completed, breadthDone := [], Looping, [], covered;
      popped, skipped := [], [];
      new;
      frontier.SetEffectiveMaxDepth(if covered || config.maxDepth < 1 then config.maxDepth else 1);
      SeededInv(config, Abstract());
    }

    /** One turn of the while loop: the governor and the coverage threshold may stop it, an empty frontier
        does, then the deadline may; otherwise it pops and spawns. The pop always finds something, so the
        loop's branch for an empty pop is never taken. The clock does not run backwards: once a task has been
        skipped the deadline has passed. */
    method Turn(mayContinue: bool, covered: bool, pastDeadline: bool) returns (ghost step: Step)
      requires Valid() && mode.Looping?
      requires skipped != [] ==> pastDeadline
      modifies this, frontier
      ensures breadthDone == old(breadthDone)
      ensures Valid()
      ensures Enabled(config, old(Abstract()), step) && Abstract() == Next(config, old(Abstract()), step)
      ensures step.Dispatch? <==> mayContinue && !covered && old(frontier.pending) != map[] &&
                                  !(pastDeadline && old(completed) != [])
    {
      ghost var before := Abstract();
      var leave := true;
      if !mayContinue {
        step := Leave(Stopped);
      } else if frontier.pending == map[] {
        step := Leave(Empty);
      } else if covered {
        step := Leave(Saturated);
      } else if pastDeadline && completed != [] {
        step := Leave(Deadline);
      } else {
        step := Spawn();
        leave := false;
      }
      if leave {
        mode := if inFlight == [] then Ended else Draining;
        NextKeepsInv(config, before, step);
      }
    }

    /** Pops the best scenario and creates its task; at max_inflight tasks the loop waits. */
    method Spawn() returns (ghost step: Step)
      requires Valid() && mode.Looping? && InTime(Abstract()) && frontier.pending != map[]
      modifies this, frontier
      ensures breadthDone == old(breadthDone)
      ensures Valid() && step.Dispatch?
      ensures Enabled(config, old(Abstract()), step) && Abstract() == Next(config, old(Abstract()), step)
    {
      ghost var before := Abstract();
      var found, sc := frontier.PopScenario();
      step := Dispatch(sc.id);
      ghost var next := Next(config, before, step);
      assert Inv(config, next) by { NextKeepsInv(config, before, step); }
      popped := popped + [sc];
      inFlight := inFlight + [Task(sc, Queued)];
      if |inFlight| >= MaxInFlight(config) { mode := Waiting; }
      assert Abstract() == next;
    }

    method EnterTask(i: nat)
      requires Valid() && Enabled(config, Abstract(), Enter(i))
      modifies this
      ensures breadthDone == old(breadthDone)
      ensures Valid() && Abstract() == Next(config, old(Abstract()), Enter(i))
    {
      NextKeepsInv(config, Abstract(), Enter(i));
      inFlight := inFlight[i := inFlight[i].(phase := Inside)];
    }

    /** What a task does first inside the semaphore: past the deadline it returns at once, unless nothing has been
        explored yet and it would not need the LLM. */
    method SkipTask(i: nat, pastDeadline: bool, usesLLM: bool) returns (skips: bool)
      requires Valid() && Enabled(config, Abstract(), Skip(i))
      modifies this
      ensures breadthDone == old(breadthDone)
      ensures skips <==> pastDeadline && (old(completed) != [] || usesLLM)
      ensures Valid() && Abstract() == if skips then Next(config, old(Abstract()), Skip(i)) else old(Abstract())
    {
      skips := pastDeadline && (completed != [] || usesLLM);
      if skips {
        NextKeepsInv(config, Abstract(), Skip(i));
        skipped := skipped + [inFlight[i].scenario];
        inFlight := inFlight[i := inFlight[i].(phase := Finished)];
      }
    }

    /** What is kept of the model's answer: of the first few items those that name files. */
    method ParseFollowOns(sc: Scenario, raw: seq<Option<Branch>>) returns (branches: seq<Branch>)
      ensures var most := if config.drillThreshold <= sc.priority || 0 < sc.bonus then Max(3, config.followOns) else 3;
              Collects(branches, Take(raw, most), (o: Option<Branch>) => o)
      ensures |branches| <= MaxFollowOn(config, sc)
    {
      branches := [];
      var most := Take(raw, MaxFollowOn(config, sc));
      var k := 0;
      while k < |most|
        invariant 0 <= k <= |most| && |branches| <= k
        invariant Collects(branches, most[..k], (o: Option<Branch>) => o)
      {
        CollectsOneMore(branches, most[..k], most[k], (o: Option<Branch>) => o);
        assert most[..k + 1] == most[..k] + [most[k]];
        if most[k].Some? { branches := branches + [most[k].value]; }
        k := k + 1;
      }
      assert most[..|most|] == most;
    }

    method PushBranches(sc: Scenario, branches: seq<Branch>)
      requires frontier.Valid()
      modifies frontier
      ensures frontier.Valid() && frontier.Seen() == PushAll(config, old(frontier.Seen()), sc, branches)
    {
      var k := 0;
      while k < |branches|
        invariant 0 <= k <= |branches| && frontier.Valid()
        invariant frontier.Seen() == PushAll(config, old(frontier.Seen()), sc, branches[..k])
      {
        var b := branches[k];
        var admitted := frontier.PushScenario(Child(config, sc, b), b.effective, b.gates);
        assert branches[..k + 1][..k] == branches[..k];
        k := k + 1;
      }
      assert branches[..|branches|] == branches;
    }

    /** The section under the state lock: push the follow-ons, log, mark explored, and open the full depth the first
        time enough files are covered. */
    method CompleteTask(i: nat, branches: seq<Branch>, covered: bool)
      requires Valid() && Enabled(config, Abstract(), Complete(i, branches, false))
      modifies this, frontier
      ensures Valid() && Abstract() == Next(config, old(Abstract()), Complete(i, branches, covered && !old(breadthDone)))
      ensures breadthDone <==> old(breadthDone) || covered
    {
      var sc := inFlight[i].scenario;
      NextKeepsInv(config, Abstract(), Complete(i, branches, covered && !breadthDone));
      PushBranches(sc, branches);
      completed := completed + [sc];
      frontier.MarkAsExplored(sc.id);
      if !breadthDone && covered {
        breadthDone := true;
        frontier.SetEffectiveMaxDepth(config.maxDepth);
      }
      inFlight := inFlight[i := inFlight[i].(phase := Finished)];
    }

    /** gather returns: the cycle is over when every task is done. */
    method EndDrain()
      requires Valid() && Enabled(config, Abstract(), Step.EndDrain)
      modifies this`mode
      ensures Valid() && Abstract() == Next(config, old(Abstract()), Step.EndDrain) && mode.Ended?
      ensures multiset(popped) == multiset(completed) + multiset(skipped)
    {
      NextKeepsInv(config, Abstract(), Step.EndDrain);
      AllAccounted(config, Abstract());
      mode := Ended;
    }

    /** asyncio.wait returned: keep the tasks that are still pending. */
    method ResumeLoop()
      requires Valid() && Enabled(config, Abstract(), Resume)
      modifies this
      ensures breadthDone == old(breadthDone)
      ensures Valid() && Abstract() == Next(config, old(Abstract()), Resume)
      ensures |inFlight| < MaxInFlight(config)
    {
      NextKeepsInv(config, Abstract(), Resume);
      var pending: seq<Task> := [];
      var k := 0;
      while k < |inFlight|
        invariant 0 <= k <= |inFlight| && pending == Unfinished(inFlight[..k])
      {
        assert inFlight[..k + 1][..k] == inFlight[..k];
        if !inFlight[k].phase.Finished? { pending := pending + [inFlight[k]]; }
        k := k + 1;
      }
      assert inFlight[..|inFlight|] == inFlight;
      inFlight := pending;
      mode := Looping;
    }
  }
}
