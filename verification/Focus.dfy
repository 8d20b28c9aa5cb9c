/** Auto Focus: persisted preferences changed by nine user actions, and the decision whether proactive work
    may run. Paths are canonical; a workspace's id stands for its path; file system, process list and
    clock are inputs. */
module Focus {
  import opened Common

  datatype FocusMode = Auto | ManualOnly | Paused
  datatype ResourceMode = Balanced | LowPower | Performance

  type Path = s: string | s != "" witness "/"

  /** The clock, in seconds. */
  type Time = t: real | 0.0 <= t witness 0.0

  datatype Prefs = Prefs(
    mode: FocusMode, resourceMode: ResourceMode, epoch: nat, preferredClient: Option<string>,
    pinned: Option<Path>, workHere: Option<Path>, workHereExpires: real, paused: set<Path>, pauseAll: bool)

  const Defaults: Prefs := Prefs(Auto, Balanced, 0, None, None, None, 0.0, {}, false)

  const WORK_HERE_TTL_SECONDS: int := 1800

  datatype ClientArg = NotSupplied | Clear | Client(id: string)

  datatype Action =
    | SetMode(mode: string, resource: Option<string>)
    | SetResourceMode(level: string)
    | SetRoute(policy: Option<string>, path: Option<Path>, client: ClientArg, route: Option<string>, ttl: Option<int>)
    | WorkHere(path: Option<Path>, seconds: int)
    | Pin(path: Option<Path>)
    | Unpin
    | Pause(path: Option<Path>)
    | Resume(path: Option<Path>)
    | PauseAll

  function CoerceMode(s: string): Option<FocusMode> {
    if s == "auto" then Some(Auto) else if s == "manual-only" then Some(ManualOnly)
    else if s == "paused" then Some(Paused) else None
  }

  function CoerceResource(s: string): Option<ResourceMode> {
    if s == "balanced" then Some(Balanced) else if s == "low_power" then Some(LowPower)
    else if s == "performance" then Some(Performance) else None
  }

  function Or<T>(o: Option<T>, default: T): T { if o.Some? then o.value else default }

  function Lease(now: Time, seconds: int): real { now + (if seconds < 60 then 60 else seconds) as real }

  // ---------- The object and its actions ----------

  datatype Outcome = Done | ValueError

  class FocusManager {
    const root: Path
    const supported: set<string>
    var prefs: Prefs

    constructor (root: Path, supported: set<string>)
      ensures prefs == Defaults && this.root == root && this.supported == supported
    {
      this.root, this.supported, prefs := root, supported, Defaults;
    }

    /** Saves the changed preferences, with the next epoch if asked for. */
    method Save(next: Prefs, bump: bool)
      modifies this
      ensures prefs == if bump then next.(epoch := next.epoch + 1) else next
    {
      prefs := if bump then next.(epoch := next.epoch + 1) else next;
    }

    method SetModeTo(mode: string, resource: Option<string>) returns (r: Outcome)
      modifies this
      ensures (r, prefs) == Act(root, supported, old(prefs), SetMode(mode, resource), 0.0)
    {
      var m := CoerceMode(mode);
      if m.None? { return ValueError; }
      var res := if resource.Some? then CoerceResource(resource.value) else None;
      if resource.Some? && res.None? { return ValueError; }
      var p := prefs;
      var changed := p.mode != m.value;
      p := p.(mode := m.value);
      p := p.(pauseAll := m.value.Paused?);
      if res.Some? {
        changed := changed || p.resourceMode != res.value;
        p := p.(resourceMode := res.value);
      }
      Save(p, changed);
      r := Done;
    }

    method SetResourceModeTo(resource: string) returns (r: Outcome)
      modifies this
      ensures (r, prefs) == Act(root, supported, old(prefs), SetResourceMode(resource), 0.0)
    {
      var res := CoerceResource(resource);
      if res.None? { return ValueError; }
      if prefs.resourceMode != res.value {
        Save(prefs.(resourceMode := res.value), true);
      }
      r := Done;
    }

    /** The workspace part of the route: the preferences as they would be saved, and whether they count as changed. */
    method DraftPolicy(policy: Option<string>, path: Option<Path>, ttl: Option<int>, now: Time) returns (d: Draft)
      ensures d == RoutePolicy(root, prefs, policy, path, ttl, now)
    {
      var p := prefs;
      if policy.None? { return Draft(p, false); }
      if policy.value !in {"auto", "work_here", "pinned"} { return Refused; }
      if policy.value == "auto" {
        return Draft(p.(workHere := None, workHereExpires := 0.0, pinned := None), p.workHere.Some? || p.pinned.Some?);
      }
      var target := Or(path, root);
      if policy.value == "work_here" {
        var seconds := if ttl.None? || ttl.value == 0 then WORK_HERE_TTL_SECONDS else ttl.value;
        p := p.(workHere := Some(target), workHereExpires := Lease(now, seconds), pinned := None);
      } else {
        p := p.(pinned := Some(target), workHere := None, workHereExpires := 0.0);
      }
      return Draft(p.(mode := Auto, pauseAll := false), true);
    }

    method SetRoutePreferences(policy: Option<string>, path: Option<Path>, client: ClientArg, route: Option<string>,
                               ttl: Option<int>, now: Time)
      returns (r: Outcome)
      modifies this
      ensures (r, prefs) == Act(root, supported, old(prefs), SetRoute(policy, path, client, route, ttl), now)
    {
      var d := DraftPolicy(policy, path, ttl, now);
      if d.Refused? { return ValueError; }
      var p, changed := d.prefs, d.changed;
      if !client.NotSupplied? {
        var next := if client.Clear? then None else Some(client.id);
        if next.Some? && next.value != "" && next.value !in supported { return ValueError; }
        changed := changed || p.preferredClient != next;
        p := p.(preferredClient := next);
      }
      if route.Some? {
        var res := CoerceResource(route.value);
        if res.None? { return ValueError; }
        changed := changed || p.resourceMode != res.value;
        p := p.(resourceMode := res.value);
      }
      Save(p, changed);
      r := Done;
    }

    method StartWorkHere(path: Option<Path>, seconds: int, now: Time)
      modifies this
      ensures (Done, prefs) == Act(root, supported, old(prefs), WorkHere(path, seconds), now)
    {
      var p := prefs.(workHere := Some(Or(path, root)), workHereExpires := Lease(now, seconds));
      Save(p.(mode := Auto, pauseAll := false), true);
    }

    method PinTo(path: Option<Path>)
      modifies this
      ensures (Done, prefs) == Act(root, supported, old(prefs), Pin(path), 0.0)
    {
      Save(prefs.(pinned := Some(Or(path, root)), mode := Auto, pauseAll := false), true);
    }

    method UnpinNow()
      modifies this
      ensures (Done, prefs) == Act(root, supported, old(prefs), Unpin, 0.0)
    {
      if prefs.pinned.None? { return; }
      Save(prefs.(pinned := None), true);
    }

    method PauseWorkspace(path: Option<Path>)
      modifies this
      ensures (Done, prefs) == Act(root, supported, old(prefs), Pause(path), 0.0)
    {
      var target := Or(path, root);
      if target in prefs.paused {
        assert prefs.paused + {target} == prefs.paused;
        return;
      }
      Save(prefs.(paused := prefs.paused + {target}), true);
    }

    method ResumeWorkspace(path: Option<Path>)
      modifies this
      ensures (Done, prefs) == Act(root, supported, old(prefs), Resume(path), 0.0)
    {
      var target, p := Or(path, root), prefs;
      var changed := target in p.paused || p.pauseAll || p.mode.Paused?;
      p := p.(paused := p.paused - {target});
      if p.pauseAll { p := p.(pauseAll := false, mode := Auto); }
      if p.mode.Paused? { p := p.(mode := Auto); }
      Save(p, changed);
    }

    method PauseEverything()
      modifies this
      ensures (Done, prefs) == Act(root, supported, old(prefs), PauseAll, 0.0)
    {
      Save(prefs.(pauseAll := true, mode := Paused), true);
    }

    /** The first thing build_state does. */
    method ExpireWorkHere(now: Time)
      modifies this
      ensures prefs == Expire(old(prefs), now)
    {
      if prefs.workHere.Some? && prefs.workHereExpires <= now {
        prefs := prefs.(workHere := None, workHereExpires := 0.0);
      }
    }

    /** The loops over clients and hints: the candidate map never holds more than this one workspace, with
        the first most confident eligible client as its owner. */
    method Candidates(os: seq<Observation>, configured: set<Path>)
      returns (candidates: map<Path, Workspace>, owners: map<Path, string>)
      ensures candidates == CandidateMap(root, configured, prefs, BestClient(root, os))
      ensures owners == OwnerMap(root, prefs, BestClient(root, os))
    {
      candidates, owners := map[], map[];
      var i := 0;
      while i < |os|
        invariant 0 <= i <= |os|
        invariant candidates == CandidateMap(root, configured, prefs, BestClient(root, os[..i]))
        invariant owners == OwnerMap(root, prefs, BestClient(root, os[..i]))
      {
        assert os[..i + 1][..i] == os[..i] && os[..i + 1][i] == os[i];
        if (os[i].running || os[i].foreground) && os[i].wired {
          candidates, owners := Hints(os[i], configured, candidates, owners, BestClient(root, os[..i]));
        }
        i := i + 1;
      }
      assert os[..|os|] == os;
    }

    method Hints(o: Observation, configured: set<Path>, candidates: map<Path, Workspace>, owners: map<Path, string>,
                 ghost best: Option<Observation>)
      returns (more: map<Path, Workspace>, theirs: map<Path, string>)
      requires candidates == CandidateMap(root, configured, prefs, best) && owners == OwnerMap(root, prefs, best)
      ensures var next := if root in o.hints && (best.None? || Clamp(best.value.confidence) < Clamp(o.confidence))
                          then Some(o) else best;
              more == CandidateMap(root, configured, prefs, next) && theirs == OwnerMap(root, prefs, next)
    {
      more, theirs := candidates, owners;
      ghost var next := best;
      var j := 0;
      while j < |o.hints|
        invariant 0 <= j <= |o.hints|
        invariant next == if root in o.hints[..j] && (best.None? || Clamp(best.value.confidence) < Clamp(o.confidence))
                          then Some(o) else best
        invariant more == CandidateMap(root, configured, prefs, next) && theirs == OwnerMap(root, prefs, next)
      {
        var ws := WorkspaceFor(root, configured, prefs, o.hints[j], o.confidence);
        assert o.hints[..j + 1] == o.hints[..j] + [o.hints[j]];
        j := j + 1;
        if ws.path == root && (next.None? || Clamp(next.value.confidence) < Clamp(o.confidence)) { next := Some(o); }
        if ws.paused || ws.path != root || !ws.trusted || !ws.wired { continue; }
        if ws.path !in more || more[ws.path].confidence < ws.confidence {
          more := more[ws.path := ws];
          theirs := theirs[ws.path := o.id];
        }
      }
      assert o.hints[..|o.hints|] == o.hints;
    }

    method BuildState(os: seq<Observation>, configured: set<Path>, now: Time) returns (state: FocusState)
      modifies this
      ensures prefs == Expire(old(prefs), now)
      ensures state == Decide(root, prefs, os)
    {
      ExpireWorkHere(now);
      var p := prefs;
      if p.pauseAll || p.mode.Paused? {
        return FocusState(PausedStatus, "standby", None, None, ["global_paused"], false);
      }
      if p.mode.ManualOnly? {
        return FocusState(ManualStatus, "standby", None, None, ["manual_only"], false);
      }
      var selected: Option<Workspace>, chooser, client, why := None, "standby", None, [];
      if p.pinned.Some? {
        selected, chooser := Some(WorkspaceFor(root, configured, p, p.pinned.value, 1.0)), "pinned";
      } else if p.workHere.Some? {
        selected, chooser := Some(WorkspaceFor(root, configured, p, p.workHere.value, 1.0)), "work_here";
      } else {
        var candidates, owners := Candidates(os, configured);
        var high := map w | w in candidates && candidates[w].confidence >= MIN_CONFIDENCE :: candidates[w];
        OneHigh(root, configured, p, BestClient(root, os), high);
        if |high| == 1 {
          selected, client, chooser := Some(high[root]), Some(owners[root]), "foreground_or_running_client";
        } else if |high| > 1 {
          why := why + ["ambiguous_workspaces"];
        }
      }
      if selected.Some? && selected.value.paused {
        why := why + ["workspace_paused"];
        selected := None;
      }
      if selected.None? {
        var running := exists i :: 0 <= i < |os| && os[i].running;
        if !running {
          return FocusState(Idle, "standby", None, None, why + ["no_supported_client_running"], false);
        }
        if why == [] { why := ["no_wired_workspace"]; }
        return FocusState(Standby, "standby", None, None, why, false);
      }
      state := FocusState(Active, chooser, Some(selected.value.path), client, why,
                          selected.value.path == root && !selected.value.paused);
    }
  }

  function CandidateMap(root: Path, configured: set<Path>, p: Prefs, best: Option<Observation>): (r: map<Path, Workspace>)
    ensures |r| <= 1
  {
    if root in p.paused || best.None? then map[]
    else map[root := WorkspaceFor(root, configured, p, root, best.value.confidence)]
  }

  function OwnerMap(root: Path, p: Prefs, best: Option<Observation>): map<Path, string> {
    if root in p.paused || best.None? then map[] else map[root := best.value.id]
  }

  lemma OneHigh(root: Path, configured: set<Path>, p: Prefs, best: Option<Observation>, high: map<Path, Workspace>)
    requires var candidates := CandidateMap(root, configured, p, best);
             high == map w | w in candidates && candidates[w].confidence >= MIN_CONFIDENCE :: candidates[w]
    ensures high == (if root !in p.paused && best.Some? && Clamp(best.value.confidence) >= MIN_CONFIDENCE
                     then map[root := WorkspaceFor(root, configured, p, root, best.value.confidence)] else map[])
    ensures |high| == if root !in p.paused && best.Some? && Clamp(best.value.confidence) >= MIN_CONFIDENCE then 1 else 0
  {
  }

  // ---------- The actions as functions ----------

  function Bump(p: Prefs, changed: bool): Prefs { if changed then p.(epoch := p.epoch + 1) else p }

  function Expire(p: Prefs, now: Time): Prefs {
    if p.workHere.Some? && p.workHereExpires <= now then p.(workHere := None, workHereExpires := 0.0) else p
  }

  datatype Draft = Draft(prefs: Prefs, changed: bool) | Refused

  function RoutePolicy(root: Path, p: Prefs, policy: Option<string>, path: Option<Path>, ttl: Option<int>, now: Time): Draft {
    if policy.None? then Draft(p, false)
    else if policy.value == "auto" then
      Draft(p.(workHere := None, workHereExpires := 0.0, pinned := None), p.workHere.Some? || p.pinned.Some?)
    else if policy.value == "work_here" then
      var seconds := if ttl.None? || ttl.value == 0 then WORK_HERE_TTL_SECONDS else ttl.value;
      Draft(p.(workHere := Some(Or(path, root)), workHereExpires := Lease(now, seconds), pinned := None,
               mode := Auto, pauseAll := false), true)
    else if policy.value == "pinned" then
      Draft(p.(pinned := Some(Or(path, root)), workHere := None, workHereExpires := 0.0,
               mode := Auto, pauseAll := false), true)
    else Refused
  }

  function RouteClient(supported: set<string>, d: Draft, client: ClientArg): Draft {
    if d.Refused? || client.NotSupplied? then d
    else
      var next := if client.Clear? then None else Some(client.id);
      if next.Some? && next.value != "" && next.value !in supported then Refused
      else Draft(d.prefs.(preferredClient := next), d.changed || d.prefs.preferredClient != next)
  }

  function RouteResource(d: Draft, route: Option<string>): Draft {
    if d.Refused? || route.None? then d
    else
      var res := CoerceResource(route.value);
      if res.None? then Refused
      else Draft(d.prefs.(resourceMode := res.value), d.changed || d.prefs.resourceMode != res.value)
  }

  /** An action either saves its preferences or raises and saves nothing. */
  function Act(root: Path, supported: set<string>, p: Prefs, a: Action, now: Time): (Outcome, Prefs) {
    match a
    case SetMode(mode, resource) =>
      var m := CoerceMode(mode);
      var res := if resource.Some? then CoerceResource(resource.value) else Some(p.resourceMode);
      if m.None? || res.None? then (ValueError, p)
      else (Done, Bump(p.(mode := m.value, pauseAll := m.value.Paused?, resourceMode := res.value),
                       p.mode != m.value || p.resourceMode != res.value))
    case SetResourceMode(resource) =>
      var res := CoerceResource(resource);
      if res.None? then (ValueError, p)
      else (Done, Bump(p.(resourceMode := res.value), p.resourceMode != res.value))
    case SetRoute(policy, path, client, route, ttl) =>
      var d := RouteResource(RouteClient(supported, RoutePolicy(root, p, policy, path, ttl, now), client), route);
      if d.Refused? then (ValueError, p) else (Done, Bump(d.prefs, d.changed))
    case WorkHere(path, seconds) =>
      (Done, Bump(p.(workHere := Some(Or(path, root)), workHereExpires := Lease(now, seconds),
                     mode := Auto, pauseAll := false), true))
    case Pin(path) => (Done, Bump(p.(pinned := Some(Or(path, root)), mode := Auto, pauseAll := false), true))
    case Unpin => (Done, Bump(p.(pinned := None), p.pinned.Some?))
    case Pause(path) => (Done, Bump(p.(paused := p.paused + {Or(path, root)}), Or(path, root) !in p.paused))
    case Resume(path) =>
      (Done, Bump(p.(paused := p.paused - {Or(path, root)}, pauseAll := false,
                     mode := if p.pauseAll || p.mode.Paused? then Auto else p.mode),
                  Or(path, root) in p.paused || p.pauseAll || p.mode.Paused?))
    case PauseAll => (Done, Bump(p.(pauseAll := true, mode := Paused), true))
  }

  /** A call: the action at one time, then the expiry in build_state at a later one. */
  datatype Call = Call(action: Action, at: Time, later: Time) | Look(later: Time)

  function AfterCall(root: Path, supported: set<string>, p: Prefs, c: Call): Prefs {
    match c
    case Call(a, at, later) =>
      var (outcome, q) := Act(root, supported, p, a, at);
      if outcome.ValueError? then q else Expire(q, later)
    case Look(later) => Expire(p, later)
  }

  function After(root: Path, supported: set<string>, calls: seq<Call>): Prefs {
    if calls == [] then Defaults
    else AfterCall(root, supported, After(root, supported, calls[..|calls| - 1]), calls[|calls| - 1])
  }

  ghost predicate Coherent(p: Prefs) {
    && (p.pauseAll <==> p.mode.Paused?)
    && (p.workHere.None? <==> p.workHereExpires == 0.0)
    && 0.0 <= p.workHereExpires
  }

  /** What the user can see change. */
  function Content(p: Prefs): Prefs { p.(epoch := 0) }

  lemma RouteCoherent(root: Path, supported: set<string>, p: Prefs, a: Action, now: Time)
    requires Coherent(p) && a.SetRoute?
    ensures var d := RouteResource(RouteClient(supported, RoutePolicy(root, p, a.policy, a.path, a.ttl, now), a.client), a.route);
            d.Draft? ==> Coherent(d.prefs) && d.prefs.epoch == p.epoch && (Content(d.prefs) != Content(p) ==> d.changed)
  {
  }

  lemma ActCoherent(root: Path, supported: set<string>, p: Prefs, a: Action, now: Time)
    requires Coherent(p)
    ensures Coherent(Act(root, supported, p, a, now).1)
  {
    if a.SetRoute? { RouteCoherent(root, supported, p, a, now); }
  }

  /** Over every run from the defaults: pause_all holds iff the mode is paused, there is no work-here path iff
      its expiry is 0, and the epoch never decreases. */
  lemma {:induction false} AlwaysCoherent(root: Path, supported: set<string>, calls: seq<Call>)
    ensures Coherent(After(root, supported, calls))
    ensures calls != [] ==> After(root, supported, calls[..|calls| - 1]).epoch <= After(root, supported, calls).epoch
  {
    if calls != [] {
      AlwaysCoherent(root, supported, calls[..|calls| - 1]);
      var p, c := After(root, supported, calls[..|calls| - 1]), calls[|calls| - 1];
      if c.Call? {
        ActCoherent(root, supported, p, c.action, c.at);
        EpochIff(root, supported, p, c.action, c.at);
      }
    }
  }

  /** The actions that count as a change even when they leave everything as it was. */
  predicate AlwaysBumps(a: Action) {
    a.WorkHere? || a.Pin? || a.PauseAll? ||
    (a.SetRoute? && a.policy.Some? && a.policy.value in {"work_here", "pinned"})
  }

  /** The epoch rises by exactly one when a successful action changes any preference or is one of those that
      always count; otherwise, and on every error, it stays. */
  lemma EpochIff(root: Path, supported: set<string>, p: Prefs, a: Action, now: Time)
    requires Coherent(p)
    ensures var (outcome, q) := Act(root, supported, p, a, now);
            && (outcome.ValueError? ==> q == p)
            && (q.epoch == p.epoch || q.epoch == p.epoch + 1)
            && (q.epoch == p.epoch + 1 <==> outcome.Done? && (Content(q) != Content(p) || AlwaysBumps(a)))
  {
    if a.SetRoute? { RouteBump(root, supported, p, a, now); }
    if a.Pause? { assert Or(a.path, root) in p.paused ==> p.paused + {Or(a.path, root)} == p.paused; }
    if a.Resume? { assert Or(a.path, root) !in p.paused ==> p.paused - {Or(a.path, root)} == p.paused; }
  }

  lemma RouteBump(root: Path, supported: set<string>, p: Prefs, a: Action, now: Time)
    requires Coherent(p) && a.SetRoute?
    ensures var d := RouteResource(RouteClient(supported, RoutePolicy(root, p, a.policy, a.path, a.ttl, now), a.client), a.route);
            d.Draft? ==> d.prefs.epoch == p.epoch && (d.changed <==> Content(d.prefs) != Content(p) || AlwaysBumps(a))
  {
  }

  /** Looking at the state changes nothing but an expired work-here grant, and no epoch. */
  lemma LookOnlyExpires(p: Prefs, now: Time)
    ensures var q := Expire(p, now);
            && q.epoch == p.epoch
            && (q != p ==> p.workHere.Some? && p.workHereExpires <= now &&
                           q == p.(workHere := None, workHereExpires := 0.0))
            && !(q.workHere.Some? && q.workHereExpires <= now)
  {
  }

  // ---------- The decision ----------

  datatype Observation = Observation(
    id: string, running: bool, foreground: bool, wired: bool, hints: seq<Path>, confidence: real)

  function Clamp(r: real): (c: real)
    ensures 0.0 <= c <= 1.0 && (0.0 <= r <= 1.0 ==> c == r) && (1.0 <= r ==> c == 1.0) && (r <= 0.0 ==> c == 0.0)
  {
    if r < 0.0 then 0.0 else if 1.0 < r then 1.0 else r
  }

  const MIN_CONFIDENCE: real := 0.70

  datatype Workspace = Workspace(path: Path, trusted: bool, wired: bool, paused: bool, confidence: real)

  /** `configured` are the paths with a vaner configuration file. */
  function WorkspaceFor(root: Path, configured: set<Path>, p: Prefs, path: Path, confidence: real): Workspace {
    Workspace(path, path in configured || path == root, path == root, path in p.paused, Clamp(confidence))
  }

  datatype Status = Idle | Standby | Active | PausedStatus | ManualStatus

  datatype FocusState = FocusState(
    status: Status, selectedBy: string, active: Option<Path>, activeClient: Option<string>,
    whyNot: seq<string>, allowed: bool)

  predicate Eligible(root: Path, o: Observation) {
    (o.running || o.foreground) && o.wired && root in o.hints
  }

  /** The first eligible client of the highest confidence. */
  function BestClient(root: Path, os: seq<Observation>): (r: Option<Observation>) {
    if os == [] then None
    else
      var best, last := BestClient(root, os[..|os| - 1]), os[|os| - 1];
      if Eligible(root, last) && (best.None? || Clamp(best.value.confidence) < Clamp(last.confidence)) then Some(last)
      else best
  }

  predicate AnyRunning(os: seq<Observation>) { exists i :: 0 <= i < |os| && os[i].running }

  datatype Chosen = Nothing | Choice(path: Path, chooser: string, client: Option<string>)

  function Choose(root: Path, p: Prefs, os: seq<Observation>): Chosen {
    if p.pinned.Some? then Choice(p.pinned.value, "pinned", None)
    else if p.workHere.Some? then Choice(p.workHere.value, "work_here", None)
    else if root in p.paused then Nothing
    else
      var best := BestClient(root, os);
      if best.Some? && Clamp(best.value.confidence) >= MIN_CONFIDENCE
      then Choice(root, "foreground_or_running_client", Some(best.value.id))
      else Nothing
  }

  function Decide(root: Path, p: Prefs, os: seq<Observation>): FocusState {
    if p.pauseAll || p.mode.Paused? then FocusState(PausedStatus, "standby", None, None, ["global_paused"], false)
    else if p.mode.ManualOnly? then FocusState(ManualStatus, "standby", None, None, ["manual_only"], false)
    else
      var c := Choose(root, p, os);
      if c.Choice? && c.path !in p.paused then
        FocusState(Active, c.chooser, Some(c.path), c.client, [], c.path == root)
      else
        var why := if c.Choice? then ["workspace_paused"] else [];
        if !AnyRunning(os) then
          FocusState(Idle, "standby", None, None, why + ["no_supported_client_running"], false)
        else FocusState(Standby, "standby", None, None, if why == [] then ["no_wired_workspace"] else why, false)
  }

  /** A running or foreground client, wired to Vaner, that names this workspace. */
  ghost predicate Vouches(root: Path, o: Observation) {
    (o.running || o.foreground) && o.wired && root in o.hints
  }

  /** The rule the whole decision amounts to. */
  ghost predicate MayWork(root: Path, p: Prefs, os: seq<Observation>) {
    && p.mode.Auto? && root !in p.paused
    && (|| p.pinned == Some(root)
        || (p.pinned.None? && p.workHere == Some(root))
        || (p.pinned.None? && p.workHere.None? &&
            exists i :: 0 <= i < |os| && Vouches(root, os[i]) && 0.70 <= os[i].confidence))
  }

  /** Client k is eligible, no eligible client beats it, and none before it equals it. */
  ghost predicate Leads(root: Path, os: seq<Observation>, k: int) {
    && 0 <= k < |os| && Vouches(root, os[k])
    && (forall i :: 0 <= i < |os| && Vouches(root, os[i]) ==> Clamp(os[i].confidence) <= Clamp(os[k].confidence))
    && (forall i :: 0 <= i < k && Vouches(root, os[i]) ==> Clamp(os[i].confidence) < Clamp(os[k].confidence))
  }

  lemma LeadsOneMore(root: Path, front: seq<Observation>, x: Observation, k: int)
    requires Leads(root, front, k)
    ensures if Vouches(root, x) && Clamp(front[k].confidence) < Clamp(x.confidence)
            then Leads(root, front + [x], |front|) else Leads(root, front + [x], k)
  {
    var os := front + [x];
    assert forall i :: 0 <= i < |front| ==> os[i] == front[i];
  }

  lemma LeadsAlone(root: Path, front: seq<Observation>, x: Observation)
    requires Vouches(root, x) && forall i :: 0 <= i < |front| ==> !Vouches(root, front[i])
    ensures Leads(root, front + [x], |front|)
  {
    var os := front + [x];
    assert forall i :: 0 <= i < |front| ==> os[i] == front[i];
  }

  /** BestClient is the earliest of the eligible clients with the greatest confidence. */
  lemma {:induction false} BestIsBest(root: Path, os: seq<Observation>)
    ensures BestClient(root, os).None? <==> forall i :: 0 <= i < |os| ==> !Vouches(root, os[i])
    ensures BestClient(root, os).Some? ==> exists k :: Leads(root, os, k) && os[k] == BestClient(root, os).value
  {
    if os != [] {
      var front, x := os[..|os| - 1], os[|os| - 1];
      BestIsBest(root, front);
      assert os == front + [x] && forall i :: 0 <= i < |front| ==> front[i] == os[i];
      if BestClient(root, front).Some? {
        var k :| Leads(root, front, k) && front[k] == BestClient(root, front).value;
        LeadsOneMore(root, front, x, k);
      } else if Vouches(root, x) {
        LeadsAlone(root, front, x);
      }
    }
  }

  /** The best client passes the bar exactly when some eligible client does. */
  lemma ConfidentIff(root: Path, os: seq<Observation>)
    ensures (BestClient(root, os).Some? && Clamp(BestClient(root, os).value.confidence) >= MIN_CONFIDENCE)
       <==> (exists i :: 0 <= i < |os| && Vouches(root, os[i]) && os[i].confidence >= MIN_CONFIDENCE)
  {
    BestIsBest(root, os);
    if BestClient(root, os).Some? {
      var k :| Leads(root, os, k) && os[k] == BestClient(root, os).value;
      if i :| 0 <= i < |os| && Vouches(root, os[i]) && os[i].confidence >= MIN_CONFIDENCE {
        assert Clamp(os[i].confidence) <= Clamp(os[k].confidence);
      }
    }
  }

  /** Auto Focus decides by the rule: for every coherent state and every set of observed clients. */
  lemma AllowedIff(root: Path, p: Prefs, os: seq<Observation>)
    requires Coherent(p)
    ensures Decide(root, p, os).allowed <==> MayWork(root, p, os)
  {
    ConfidentIff(root, os);
  }

  /** The rest of the state shown, told from preferences and observations: which status, which workspace, who chose it
      and for which client, and why nothing is done. The client is the leading one of those that pass the bar. */
  lemma StateTells(root: Path, p: Prefs, os: seq<Observation>)
    requires Coherent(p)
    ensures var s := Decide(root, p, os);
            var target := if p.pinned.Some? then p.pinned else p.workHere;
            var byClient := target.None? && root !in p.paused &&
                            exists i :: 0 <= i < |os| && Vouches(root, os[i]) && 0.70 <= os[i].confidence;
            var byUser := target.Some? && target.value !in p.paused;
            var running := exists i :: 0 <= i < |os| && os[i].running;
            && (s.status.PausedStatus? <==> p.mode.Paused?)
            && (s.status.ManualStatus? <==> p.mode.ManualOnly?)
            && (s.status.Active? <==> p.mode.Auto? && (byUser || byClient))
            && (s.status.Idle? <==> p.mode.Auto? && !byUser && !byClient && !running)
            && s.active == (if !s.status.Active? then None else if byUser then target else Some(root))
            && s.selectedBy == (if !s.status.Active? then "standby" else if p.pinned.Some? then "pinned"
                                else if byUser then "work_here" else "foreground_or_running_client")
            && (s.activeClient.Some? <==> s.status.Active? && byClient)
            && (s.activeClient.Some? ==> exists k :: Leads(root, os, k) && s.activeClient.value == os[k].id)
            && s.whyNot == (match s.status
                            case PausedStatus => ["global_paused"]
                            case ManualStatus => ["manual_only"]
                            case Active => []
                            case Idle => (if target.Some? then ["workspace_paused"] else []) + ["no_supported_client_running"]
                            case Standby => if target.Some? then ["workspace_paused"] else ["no_wired_workspace"])
  {
    ConfidentIff(root, os);
    BestIsBest(root, os);
  }

  // ---------- What the actions are for ----------

  ghost predicate NamesResource(level: string, r: ResourceMode) {
    && (r.Balanced? <==> level == "balanced") && (r.LowPower? <==> level == "low_power")
    && (r.Performance? <==> level == "performance")
  }

  ghost predicate KnownResource(level: string) { level == "balanced" || level == "low_power" || level == "performance" }

  /** Which mode and resources an action sets, and when it is refused. */
  lemma ModesTell(root: Path, supported: set<string>, p: Prefs, a: Action, now: Time)
    requires a.SetMode? || a.SetResourceMode?
    ensures var (outcome, q) := Act(root, supported, p, a, now);
            var level := if a.SetMode? then a.resource else Some(a.level);
            && (outcome.Done? <==> (a.SetMode? ==> a.mode == "auto" || a.mode == "manual-only" || a.mode == "paused")
                                   && (level.Some? ==> KnownResource(level.value)))
            && (q.preferredClient, q.pinned, q.paused) == (p.preferredClient, p.pinned, p.paused)
            && (q.workHere, q.workHereExpires) == (p.workHere, p.workHereExpires)
            && (outcome.Done? && a.SetMode? ==>
                  && (q.mode.Auto? <==> a.mode == "auto") && (q.mode.ManualOnly? <==> a.mode == "manual-only")
                  && (q.mode.Paused? <==> a.mode == "paused") && q.pauseAll == q.mode.Paused?)
            && (a.SetResourceMode? ==> (q.mode, q.pauseAll) == (p.mode, p.pauseAll))
            && (outcome.Done? && level.Some? ==> NamesResource(level.value, q.resourceMode))
            && (level.None? ==> q.resourceMode == p.resourceMode)
  {
  }

  /** What the workspace actions store and clear; `target` is the path given, or this workspace. The grant of a work-here
      lasts the seconds asked for, and at least 60. */
  lemma WorkspacesTell(root: Path, supported: set<string>, p: Prefs, a: Action, now: Time, target: Path)
    requires a.WorkHere? || a.Pin? || a.Pause? || a.Resume? || a.Unpin? || a.PauseAll?
    requires !a.Unpin? && !a.PauseAll? ==> target == if a.path.Some? then a.path.value else root
    ensures var (outcome, q) := Act(root, supported, p, a, now);
            var starts := a.WorkHere? || a.Pin?;
            && outcome.Done?
            && (q.preferredClient, q.resourceMode) == (p.preferredClient, p.resourceMode)
            && q.pinned == (if a.Pin? then Some(target) else if a.Unpin? then None else p.pinned)
            && q.workHere == (if a.WorkHere? then Some(target) else p.workHere)
            && q.workHereExpires == (if !a.WorkHere? then p.workHereExpires
                                     else if a.seconds <= 60 then now + 60.0 else now + a.seconds as real)
            && q.paused == (if a.Pause? then p.paused + {target} else if a.Resume? then p.paused - {target} else p.paused)
            && q.pauseAll == (a.PauseAll? || (p.pauseAll && !starts && !a.Resume?))
            && q.mode == (if a.PauseAll? then Paused
                          else if starts || (a.Resume? && (p.pauseAll || p.mode.Paused?)) then Auto else p.mode)
  {
  }

  /** A route is refused for an unknown policy, an unsupported client or unknown resources, and then nothing is saved. */
  lemma RouteAcceptedIff(root: Path, supported: set<string>, p: Prefs, a: Action, now: Time)
    requires a.SetRoute?
    ensures var (outcome, q) := Act(root, supported, p, a, now);
            && (outcome.Done? <==>
                  && (a.policy.Some? ==> a.policy.value == "work_here" || a.policy.value == "pinned" || a.policy.value == "auto")
                  && (a.client.Client? ==> a.client.id == "" || a.client.id in supported)
                  && (a.route.Some? ==> KnownResource(a.route.value)))
            && (!outcome.Done? ==> q == p)
  {
  }

  /** What a route stores of client and resources; it pauses and resumes nothing. */
  lemma RouteChoosesClient(root: Path, supported: set<string>, p: Prefs, a: Action, now: Time)
    requires a.SetRoute? && Act(root, supported, p, a, now).0.Done?
    ensures var q := Act(root, supported, p, a, now).1;
            && q.preferredClient == (match a.client case NotSupplied => p.preferredClient case Clear => None
                                                    case Client(id) => Some(id))
            && (if a.route.Some? then NamesResource(a.route.value, q.resourceMode) else q.resourceMode == p.resourceMode)
            && q.paused == p.paused
  {
  }

  /** What a route stores and clears of workspaces; seconds not given, or 0, stand for half an hour. */
  lemma RouteTells(root: Path, supported: set<string>, p: Prefs, a: Action, now: Time, target: Path, seconds: int)
    requires a.SetRoute? && Act(root, supported, p, a, now).0.Done?
    requires target == if a.path.Some? then a.path.value else root
    requires seconds == if a.ttl.None? || a.ttl == Some(0) then 1800 else if a.ttl.value <= 60 then 60 else a.ttl.value
    ensures var q := Act(root, supported, p, a, now).1;
            var here, pin := a.policy == Some("work_here"), a.policy == Some("pinned");
            && q.pinned == (if a.policy.None? then p.pinned else if pin then Some(target) else None)
            && q.workHere == (if a.policy.None? then p.workHere else if here then Some(target) else None)
            && q.workHereExpires == (if a.policy.None? then p.workHereExpires else if here then now + seconds as real else 0.0)
            && (q.mode, q.pauseAll) == if here || pin then (Auto, false) else (p.mode, p.pauseAll)
  {
    RoutePolicyKept(root, supported, p, a, now);
  }

  lemma RoutePolicyKept(root: Path, supported: set<string>, p: Prefs, a: Action, now: Time)
    requires a.SetRoute? && Act(root, supported, p, a, now).0.Done?
    ensures var d, q := RoutePolicy(root, p, a.policy, a.path, a.ttl, now), Act(root, supported, p, a, now).1;
            && d.Draft?
            && (q.pinned, q.workHere, q.workHereExpires) == (d.prefs.pinned, d.prefs.workHere, d.prefs.workHereExpires)
            && (q.mode, q.pauseAll) == (d.prefs.mode, d.prefs.pauseAll)
  {
  }

  /** Pinning decides at once and for good: work is allowed exactly where this workspace was pinned and is not paused,
      whatever clients are seen and however late. */
  lemma PinDecides(root: Path, supported: set<string>, p: Prefs, path: Option<Path>, at: Time, later: Time, os: seq<Observation>)
    requires Coherent(p)
    ensures Decide(root, AfterCall(root, supported, p, Call(Pin(path), at, later)), os).allowed <==>
            (path.None? || path.value == root) && root !in p.paused
  {
    var q := Act(root, supported, p, Pin(path), at).1;
    ActCoherent(root, supported, p, Pin(path), at);
    AllowedIff(root, Expire(q, later), os);
  }

  /** A work-here grant decides in the same way, where nothing is pinned, until its time is over; then the clients do. */
  lemma WorkHereDecides(root: Path, supported: set<string>, p: Prefs, path: Option<Path>, seconds: int, at: Time, later: Time,
                        os: seq<Observation>)
    requires Coherent(p) && p.pinned.None?
    ensures Decide(root, AfterCall(root, supported, p, Call(WorkHere(path, seconds), at, later)), os).allowed <==>
            && root !in p.paused
            && if later < at + (if seconds <= 60 then 60.0 else seconds as real) then path.None? || path.value == root
               else exists i :: 0 <= i < |os| && Vouches(root, os[i]) && 0.70 <= os[i].confidence
  {
    var q := Act(root, supported, p, WorkHere(path, seconds), at).1;
    ActCoherent(root, supported, p, WorkHere(path, seconds), at);
    AllowedIff(root, Expire(q, later), os);
  }

  /** Pausing this workspace, or everything, stops all work; resuming it takes a pause of it back. */
  lemma PauseStops(root: Path, supported: set<string>, p: Prefs, at: Time, later: Time, os: seq<Observation>)
    requires Coherent(p)
    ensures !Decide(root, AfterCall(root, supported, p, Call(Pause(None), at, later)), os).allowed
    ensures !Decide(root, AfterCall(root, supported, p, Call(PauseAll, at, later)), os).allowed
    ensures p.mode.Auto? && root !in p.paused ==>
            Content(Act(root, supported, Act(root, supported, p, Pause(None), at).1, Resume(None), later).1) == Content(p)
  {
    ActCoherent(root, supported, p, Pause(None), at);
    AllowedIff(root, Expire(Act(root, supported, p, Pause(None), at).1, later), os);
    assert root !in p.paused ==> p.paused + {root} - {root} == p.paused;
  }

  // ---------- The gate ----------

  datatype Gate = Queued | Deferred(reason: string)

  function ProactiveGate(s: FocusState, resources: ResourceMode, jobClass: string): Gate {
    if !s.allowed then Deferred(if s.whyNot != [] then s.whyNot[0] else "focus_not_active")
    else if resources.LowPower? && jobClass in {"prepared_work", "deep_reasoning"} then Deferred("low_power_mode")
    else Queued
  }

  /** Why a job is deferred, told from preferences and observations alone; queued exactly when the rule holds
      and low power does not forbid the job's class. */
  lemma GateReason(root: Path, p: Prefs, os: seq<Observation>, jobClass: string)
    requires Coherent(p)
    ensures var gate := ProactiveGate(Decide(root, p, os), p.resourceMode, jobClass);
            var target := if p.pinned.Some? then p.pinned else p.workHere;
            var heavy := p.resourceMode.LowPower? && jobClass in {"prepared_work", "deep_reasoning"};
            && (gate.Queued? <==> MayWork(root, p, os) && !heavy)
            && (gate == Deferred("low_power_mode") <==> MayWork(root, p, os) && heavy)
            && (gate == Deferred("global_paused") <==> p.mode.Paused?)
            && (gate == Deferred("manual_only") <==> p.mode.ManualOnly?)
            && (gate == Deferred("workspace_paused") <==> p.mode.Auto? && target.Some? && target.value in p.paused)
            && (gate == Deferred("focus_not_active") <==>
                p.mode.Auto? && target.Some? && target.value !in p.paused && target.value != root)
            && (gate == Deferred("no_supported_client_running") <==>
                p.mode.Auto? && target.None? && !MayWork(root, p, os) && !AnyRunning(os))
            && (gate == Deferred("no_wired_workspace") <==>
                p.mode.Auto? && target.None? && !MayWork(root, p, os) && AnyRunning(os))
  {
    AllowedIff(root, p, os);
  }
}
