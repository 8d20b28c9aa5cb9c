/** The bounded-parallel dispatcher of a precompute cycle as a transition system. The event loop runs other
    tasks only while the dispatcher awaits, so a turn of its loop is one step and task steps happen in the
    modes Waiting and Draining. Governor, clock, LLM answers and remaining admission gates are free
    choices. */
module Exploration {
  import opened Frontier

  datatype Config = Config(
    concurrency: nat, maxDepth: nat, bonus: nat, followOns: nat, drillThreshold: real)

  /** A follow-on proposed by the LLM: its file-set fingerprint, effective priority and other gates. */
  datatype Branch = Branch(id: string, effective: real, gates: bool)

  datatype Phase = Queued | Inside | Finished
  datatype Task = Task(scenario: Scenario, phase: Phase)
  datatype Mode = Looping | Waiting | Draining | Ended
  datatype Reason = Stopped | Saturated | Empty | Deadline

  datatype State = State(
    frontier: View, inFlight: seq<Task>, mode: Mode,
    popped: seq<Scenario>, completed: seq<Scenario>, skipped: seq<Scenario>)

  datatype Step =
    | Dispatch(id: string)                 // the loop pops the best scenario and spawns its task
    | Leave(reason: Reason)                // a loop condition or the deadline ends the loop
    | Enter(task: nat)                     // the task acquires the semaphore
    | Skip(task: nat)                      // past the deadline the task returns at once
    | Complete(task: nat, branches: seq<Branch>, raiseDepth: bool)
    | Resume                               // asyncio.wait returns with at least one finished task
    | EndDrain                             // gather returns: all tasks are finished

  function MaxInFlight(c: Config): (r: nat)
    ensures 2 <= r
  {
    if c.concurrency < 1 then 2 else 2 * c.concurrency
  }

  predicate HighPriority(c: Config, sc: Scenario) { sc.priority >= c.drillThreshold || sc.bonus > 0 }

  function MaxFollowOn(c: Config, sc: Scenario): (r: nat) {
    if HighPriority(c, sc) then Max(3, c.followOns) else 3
  }

  function ChildBonus(c: Config, sc: Scenario): (r: nat)
    ensures sc.bonus <= c.bonus ==> r <= c.bonus
  {
    if sc.priority >= c.drillThreshold then Max(sc.bonus, c.bonus)
    else if sc.bonus == 0 then 0 else sc.bonus - 1
  }

  function Child(c: Config, sc: Scenario, b: Branch): Scenario {
    Scenario(b.id, b.effective, sc.depth + 1, ChildBonus(c, sc))
  }

  function PushAll(c: Config, f: View, sc: Scenario, bs: seq<Branch>): View {
    if bs == [] then f
    else Push(PushAll(c, f, sc, bs[..|bs| - 1]), Child(c, sc, bs[|bs| - 1]), bs[|bs| - 1].effective, bs[|bs| - 1].gates)
  }

  function Raise(c: Config, f: View, raise: bool): View {
    if raise then f.(maxDepth := c.maxDepth) else f
  }

  function CountInside(ts: seq<Task>): (r: nat)
    ensures r <= |ts|
  {
    if ts == [] then 0 else CountInside(ts[..|ts| - 1]) + if ts[|ts| - 1].phase.Inside? then 1 else 0
  }

  function Unfinished(ts: seq<Task>): (r: seq<Task>)
    ensures |r| <= |ts|
  {
    if ts == [] then []
    else if ts[|ts| - 1].phase.Finished? then Unfinished(ts[..|ts| - 1])
    else Unfinished(ts[..|ts| - 1]) + [ts[|ts| - 1]]
  }

  lemma {:induction false} PruneDrops(ts: seq<Task>)
    ensures forall t :: t in Unfinished(ts) ==> t in ts && !t.phase.Finished?
    ensures (exists t :: t in ts && t.phase.Finished?) ==> |Unfinished(ts)| < |ts|
  {
    if ts != [] { PruneDrops(ts[..|ts| - 1]); }
  }

  predicate TasksRun(s: State) { s.mode.Waiting? || s.mode.Draining? }

  /** The semaphore serves its waiters in the order in which they came. */
  predicate FirstQueued(ts: seq<Task>, i: nat) {
    i < |ts| && ts[i].phase.Queued? && forall j :: 0 <= j < i ==> !ts[j].phase.Queued?
  }

  /** A skipped task shows that the deadline has passed, and after it the loop goes on only while nothing has been
      explored. */
  predicate InTime(s: State) { s.skipped == [] || s.completed == [] }

  ghost predicate Enabled(c: Config, s: State, step: Step) {
    match step
    case Dispatch(id) => s.mode.Looping? && InTime(s) && IsBest(s.frontier, id)
    case Leave(reason) =>
      s.mode.Looping? &&
      (reason.Empty? ==> s.frontier.pending == map[]) && (reason.Deadline? ==> s.completed != [])
    case Enter(i) =>
      TasksRun(s) && FirstQueued(s.inFlight, i) && CountInside(s.inFlight) < c.concurrency
    case Skip(i) => TasksRun(s) && i < |s.inFlight| && s.inFlight[i].phase.Inside?
    case Complete(i, bs, _) =>
      TasksRun(s) && i < |s.inFlight| && s.inFlight[i].phase.Inside? && |bs| <= MaxFollowOn(c, s.inFlight[i].scenario)
    case Resume => s.mode.Waiting? && exists t :: t in s.inFlight && t.phase.Finished?
    case EndDrain => s.mode.Draining? && forall t :: t in s.inFlight ==> t.phase.Finished?
  }

  ghost function Next(c: Config, s: State, step: Step): State
    requires Enabled(c, s, step)
  {
    match step
    case Dispatch(id) =>
      var sc := s.frontier.pending[id];
      State(s.frontier.(pending := s.frontier.pending - {id}), s.inFlight + [Task(sc, Queued)],
            if |s.inFlight| + 1 >= MaxInFlight(c) then Waiting else Looping,
            s.popped + [sc], s.completed, s.skipped)
    case Leave(_) => s.(mode := if s.inFlight == [] then Ended else Draining)
    case Enter(i) => s.(inFlight := s.inFlight[i := s.inFlight[i].(phase := Inside)])
    case Skip(i) =>
      s.(inFlight := s.inFlight[i := s.inFlight[i].(phase := Finished)],
         skipped := s.skipped + [s.inFlight[i].scenario])
    case Complete(i, bs, raise) =>
      var sc := s.inFlight[i].scenario;
      s.(frontier := Raise(c, MarkExplored(PushAll(c, s.frontier, sc, bs), sc.id), raise),
         inFlight := s.inFlight[i := s.inFlight[i].(phase := Finished)],
         completed := s.completed + [sc])
    case Resume => s.(inFlight := Unfinished(s.inFlight), mode := Looping)
    case EndDrain => s.(mode := Ended)
  }

  /** The steps can be taken one after the other from s. */
  ghost predicate CanRun(c: Config, s: State, steps: seq<Step>)
    decreases |steps|
  {
    steps == [] || (Enabled(c, s, steps[0]) && CanRun(c, Next(c, s, steps[0]), steps[1..]))
  }

  ghost function Run(c: Config, s: State, steps: seq<Step>): State
    requires CanRun(c, s, steps)
    decreases |steps|
  {
    if steps == [] then s else Run(c, Next(c, s, steps[0]), steps[1..])
  }

  /** A cycle begins with a seeded frontier. */
  ghost predicate Seeded(c: Config, s: State) {
    && 0 < c.concurrency
    && WellFormed(s.frontier) && s.frontier.maxDepth <= c.maxDepth
    && (forall id :: id in s.frontier.pending ==> s.frontier.pending[id].bonus <= c.bonus)
    && s.inFlight == [] && s.mode == Looping && s.popped == [] && s.completed == [] && s.skipped == []
  }

  // ---------- Safety ----------

  /** How many unfinished tasks explore this scenario. */
  ghost function Tally(ts: seq<Task>, sc: Scenario): (r: nat)
    ensures r <= |ts|
  {
    if ts == [] then 0
    else Tally(ts[..|ts| - 1], sc) +
         if !ts[|ts| - 1].phase.Finished? && ts[|ts| - 1].scenario == sc then 1 else 0
  }

  ghost predicate Bounded(c: Config, s: State) {
    && 0 < c.concurrency
    && CountInside(s.inFlight) <= c.concurrency
    && |s.inFlight| <= MaxInFlight(c)
    && (s.mode.Looping? ==> |s.inFlight| < MaxInFlight(c))
    && (s.mode.Waiting? ==> |s.inFlight| == MaxInFlight(c))
    && (s.mode.Ended? ==> forall t :: t in s.inFlight ==> t.phase.Finished?)
    && (TasksRun(s) ==> s.inFlight != [])
  }

  /** As often as it was popped, the scenario is in flight unfinished, completed, or skipped. */
  ghost predicate Accounted(s: State, sc: Scenario) {
    multiset(s.popped)[sc] == Tally(s.inFlight, sc) + multiset(s.completed)[sc] + multiset(s.skipped)[sc]
  }

  ghost predicate Marked(s: State) {
    forall sc :: sc in s.completed ==> sc.id in s.frontier.explored
  }

  /** The frontier is in order and no bonus exceeds the configured one. */
  ghost predicate Modest(c: Config, s: State) {
    && WellFormed(s.frontier) && s.frontier.maxDepth <= c.maxDepth
    && (forall id :: id in s.frontier.pending ==> s.frontier.pending[id].bonus <= c.bonus)
    && (forall t :: t in s.inFlight ==> t.scenario.bonus <= c.bonus)
  }

  ghost predicate Inv(c: Config, s: State) {
    Bounded(c, s) && Modest(c, s) && Marked(s) && forall sc :: Accounted(s, sc)
  }
}
