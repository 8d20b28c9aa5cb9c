/** The prediction registry (src/vaner/intent/prediction_registry.py) and the log of events it emits: what a
    client that replays the log can and cannot know about it. */
module Registry {
  import opened Common
  import opened Replay

  const FLOOR_WEIGHT := 0.05
  const MIN_BUDGET := 128
  const MAX_TRACES := 10
  const MAX_TRACE_LENGTH := 32000

  datatype Spec = Spec(id: Id, title: string, description: string, source: string, anchor: string,
                       confidence: real, hypothesis: string, specificity: string)

  datatype Entry = Entry(spec: Spec, weight: real, budget: int, tokensUsed: int, modelCalls: int,
                         scenarioIds: seq<string>, scenariosComplete: int, readiness: Readiness, spent: bool,
                         evidence: real, captured: map<string, string>,
                         briefing: Option<string>, draft: Option<string>, traces: seq<string>)

  datatype State = State(pool: nat, order: seq<Id>, entries: map<Id, Entry>, log: seq<Event>)

  datatype Failure = Fine | KeyError | ValueError | InvalidTransition

  /** What one operation makes of one entry, and the events it emits about it. */
  datatype Touched = Touched(e: Entry, out: seq<Body>)

  datatype Cause =
    | ContextShift
    | FileChange(changed: set<string>, hashes: map<string, string>)
    | Commit
    | CategoryShift(category: string)
    | Superseded(artefact: string)
    | ComposerGone(session: string)

  datatype Op =
    | Enroll(spec: Spec, initial: real)
    | Refresh(spec: Spec)
    | AttachScenario(id: Id, scenario: string)
    | CompleteScenario(id: Id, scenario: string)
    | RecordCall(id: Id, tokens: int)
    | RecordEvidence(id: Id, delta: real)
    | RecordAdoption(id: Id)
    | AttachArtifact(id: Id, draft: Option<string>, briefing: Option<string>, thinking: Option<string>,
                     hashes: map<string, string>)
    | Transition(id: Id, to: Readiness)
    | Invalidate(cause: Cause)
    | ItemDelta(item: string, verdict: string)
    | Rebalance

  // ---------- One entry ----------

  function MaxReal(a: real, b: real): real { if a < b then b else a }

  /** int() truncates; the products it is applied to here are never negative. */
  function BudgetFor(pool: nat, weight: real): (b: int)
    ensures b >= MIN_BUDGET
  {
    var share := (pool as real * weight).Floor;
    if share < MIN_BUDGET then MIN_BUDGET else share
  }

  predicate Allowed(from: Readiness, to: Readiness) {
    match from
    case Queued => to in {Grounding, Stale}
    case Grounding => to in {EvidenceGathering, Stale}
    case EvidenceGathering => to in {Drafting, Stale}
    case Drafting => to in {Ready, Stale}
    case Ready => to == Stale
    case Stale => false
  }

  function Enrolment(spec: Spec, initial: real, pool: nat): Touched {
    var w := MaxReal(FLOOR_WEIGHT, initial);
    Touched(Entry(spec, w, BudgetFor(pool, w), 0, 0, [], 0, Queued, false, 0.0, map[], None, None, []),
            [Enrolled(Facts(spec.title, spec.source, spec.confidence, w, spec.hypothesis, spec.specificity), BudgetFor(pool, w))])
  }

  function Counted(e: Entry): Counts {
    Counts(e.tokensUsed, e.budget, e.scenariosComplete, e.evidence, e.modelCalls)
  }

  /** _transition, where it does not raise. */
  function MoveTo(e: Entry, to: Readiness): Touched {
    if e.readiness == to || !Allowed(e.readiness, to) then Touched(e, [])
    else Touched(e.(readiness := to), [ReadinessChanged(e.readiness, to)] + if to.Stale? then [Staled] else [])
  }

  function Adopt(e: Entry): Touched { Touched(e.(evidence := e.evidence + 1.0, spent := true), [ArtifactAdded("adoption")]) }

  function Reached(e: Entry, scenario: string): Touched {
    if scenario in e.scenarioIds then Touched(e, [])
    else
      var f := e.(scenarioIds := e.scenarioIds + [scenario]);
      if f.readiness.Queued? then MoveTo(f, Grounding) else Touched(f, [])
  }

  /** What Python's `isspace` holds for. */
  predicate Space(c: char) {
    || '\t' <= c <= '\r' || '\U{1c}' <= c <= ' ' || c in {'\U{85}', '\U{a0}', '\U{1680}', '\U{3000}'}
    || '\U{2000}' <= c <= '\U{200a}' || c in {'\U{2028}', '\U{2029}', '\U{202f}', '\U{205f}'}
  }

  function RightStripped(t: string): (r: string)
    ensures r <= t
    ensures r != "" ==> !Space(r[|r| - 1])
    ensures forall i :: |r| <= i < |t| ==> Space(t[i])
  {
    if t == "" || !Space(t[|t| - 1]) then t else RightStripped(t[..|t| - 1])
  }

  function Shortened(t: string): (r: string)
    ensures |r| <= MAX_TRACE_LENGTH + 1
  {
    if |t| <= MAX_TRACE_LENGTH then t else RightStripped(t[..MAX_TRACE_LENGTH]) + "\U{2026}"
  }

  /** The last few elements, in order. */
  function Newest<T>(ts: seq<T>, n: nat): (r: seq<T>)
    ensures |r| <= n
  {
    if |ts| <= n then ts else ts[|ts| - n..]
  }

  /** A thinking trace joins the ring buffer and the oldest may leave it. */
  function Ring(traces: seq<string>, t: string): seq<string> { Newest(traces + [Shortened(t)], MAX_TRACES) }

  function Attached(e: Entry, draft: Option<string>, briefing: Option<string>, thinking: Option<string>,
                    hashes: map<string, string>): Touched {
    Touched(e.(draft := if draft.Some? then draft else e.draft,
               briefing := if briefing.Some? then briefing else e.briefing,
               traces := if thinking.Some? then Ring(e.traces, thinking.value) else e.traces,
               captured := e.captured + hashes),
            (if draft.Some? then [ArtifactAdded("draft")] else [])
            + (if briefing.Some? then [ArtifactAdded("briefing")] else [])
            + (if thinking.Some? then [ArtifactAdded("thinking")] else []))
  }

  /** The captured hashes after a file change: new values where known, deleted paths forgotten. */
  function Recaptured(captured: map<string, string>, changed: set<string>, hashes: map<string, string>): map<string, string> {
    map p | p in captured && (p in hashes || p !in changed) :: if p in hashes then hashes[p] else captured[p]
  }

  predicate Mentions(text: string, word: string) {
    word <= text || (text != "" && Mentions(text[1..], word))
  }

  function Hit(e: Entry, cause: Cause, pool: nat): Touched {
    if e.readiness.Stale? then Touched(e, [])
    else
      match cause
      case ContextShift => MoveTo(e, Stale)
      case FileChange(changed, hashes) =>
        if changed !! e.captured.Keys then Touched(e, [])
        else
          var w := MaxReal(0.0, e.weight * 0.5);
          var f := e.(weight := w, budget := BudgetFor(pool, MaxReal(FLOOR_WEIGHT, w)), briefing := None, draft := None,
                      captured := Recaptured(e.captured, changed, hashes));
          if w < FLOOR_WEIGHT then MoveTo(f, Stale) else Touched(f, [])
      case Commit => if e.spec.specificity == "concrete" then Touched(e, []) else MoveTo(e, Stale)
      case CategoryShift(category) =>
        if category == "" || e.spec.anchor != category then Touched(e, [])
        else
          var w := MaxReal(0.0, e.weight - 0.1);
          if w < FLOOR_WEIGHT then MoveTo(e.(weight := w), Stale)
          else Touched(e.(weight := w, budget := BudgetFor(pool, MaxReal(FLOOR_WEIGHT, w))), [])
      case Superseded(artefact) =>
        if artefact != "" && e.spec.source == "artefact_item" && Mentions(e.spec.description, artefact)
        then MoveTo(e, Stale) else Touched(e, [])
      case ComposerGone(session) =>
        if session != "" && e.spec.source == "composer_intent" && e.spec.anchor == session
        then MoveTo(e, Stale) else Touched(e, [])
  }

  /** What an item's new state does to the prediction anchored to it. */
  function Delta(e: Entry, to: string): Touched {
    if to == "complete" then Adopt(e)
    else if to == "contradicted" then MoveTo(e.(weight := MaxReal(0.0, e.weight * 0.25)), Stale)
    else if to == "stalled" then Touched(e.(weight := MaxReal(0.0, e.weight * 0.5)), [])
    else Touched(e, [])
  }

  // ---------- The whole registry ----------

  function Tag(k: Id, now: real, out: seq<Body>): seq<Event> {
    if out == [] then [] else [Event(k, now, out[0])] + Tag(k, now, out[1..])
  }

  function Put(r: State, k: Id, t: Touched, now: real): State {
    r.(entries := r.entries[k := t.e], log := r.log + Tag(k, now, t.out))
  }

  function Sweep(r: State, ks: seq<Id>, cause: Cause, now: real): State {
    if ks == [] then r
    else
      var s, k := Sweep(r, ks[..|ks| - 1], cause, now), ks[|ks| - 1];
      if k in s.entries then Put(s, k, Hit(s.entries[k], cause, s.pool), now) else s
  }

  /** The first prediction, in enrolment order, anchored to the item. */
  function Anchored(entries: map<Id, Entry>, ks: seq<Id>, item: string): (r: Option<Id>)
    ensures r.Some? ==> r.value in ks && r.value in entries
                        && entries[r.value].spec.source == "artefact_item" && entries[r.value].spec.anchor == item
  {
    if ks == [] then None
    else if ks[0] in entries && entries[ks[0]].spec.source == "artefact_item" && entries[ks[0]].spec.anchor == item
    then Some(ks[0])
    else Anchored(entries, ks[1..], item)
  }

  function Yield(e: Entry): (y: real)
    ensures y >= 0.0
  {
    MaxReal(0.0, e.evidence) / (if e.tokensUsed < 1 then 1 else e.tokensUsed) as real
  }

  function TotalYield(entries: map<Id, Entry>, ks: seq<Id>): (t: real)
    ensures t >= 0.0
  {
    if ks == [] then 0.0
    else
      var k := ks[|ks| - 1];
      TotalYield(entries, ks[..|ks| - 1]) + if k in entries && !entries[k].readiness.Stale? then Yield(entries[k]) else 0.0
  }

  function Reweighted(e: Entry, total: real, pool: nat): Entry
    requires total > 0.0
  {
    if e.readiness.Stale? then e
    else
      var w := MaxReal(FLOOR_WEIGHT, Yield(e) / total);
      e.(weight := w, budget := BudgetFor(pool, w))
  }

  function Rebalanced(r: State): State {
    var total := TotalYield(r.entries, r.order);
    if total <= 0.0 then r
    else r.(entries := map k | k in r.entries :: Reweighted(r.entries[k], total, r.pool))
  }

  /** The operations that touch one enrolled prediction. */
  function TouchOne(e: Entry, op: Op): Touched {
    match op
    case Refresh(spec) => Touched(e.(spec := spec), [])
    case AttachScenario(_, scenario) => Reached(e, scenario)
    case CompleteScenario(_, scenario) =>
      Touched(if scenario in e.scenarioIds then e.(scenariosComplete := e.scenariosComplete + 1) else e, [])
    case RecordCall(_, tokens) =>
      var f := e.(modelCalls := e.modelCalls + 1, tokensUsed := e.tokensUsed + if tokens < 0 then 0 else tokens);
      Touched(f, [Progress(Counted(f))])
    case RecordEvidence(_, delta) =>
      var f := e.(evidence := e.evidence + delta);
      Touched(f, [Progress(Counted(f))])
    case RecordAdoption(_) => Adopt(e)
    case AttachArtifact(_, draft, briefing, thinking, hashes) => Attached(e, draft, briefing, thinking, hashes)
    case Transition(_, to) => MoveTo(e, to)
    case _ => Touched(e, [])
  }

  /** The prediction an operation names, if it names one that must already be enrolled. */
  function Named(op: Op): Option<Id> {
    match op
    case Refresh(spec) => Some(spec.id)
    case AttachScenario(id, _) => Some(id)
    case CompleteScenario(id, _) => Some(id)
    case RecordCall(id, _) => Some(id)
    case RecordEvidence(id, _) => Some(id)
    case RecordAdoption(id) => Some(id)
    case AttachArtifact(id, _, _, _, _) => Some(id)
    case Transition(id, _) => Some(id)
    case _ => None
  }

  /** One operation; where it raises, the registry is as before. Refresh is the arm of merge for a prediction
      already known. */
  function Step(r: State, op: Op, now: real): State {
    var k := Named(op);
    if k.Some? then
      if k.value in r.entries then Put(r, k.value, TouchOne(r.entries[k.value], op), now) else r
    else
      match op
      case Enroll(spec, initial) =>
        if spec.id in r.entries then r
        else Put(r.(order := r.order + [spec.id]), spec.id, Enrolment(spec, initial, r.pool), now)
      case Invalidate(cause) => Sweep(r, r.order, cause, now)
      case ItemDelta(item, verdict) =>
        var j := Anchored(r.entries, r.order, item);
        if j.None? then r else Put(r, j.value, Delta(r.entries[j.value], verdict), now)
      case _ => Rebalanced(r)
  }

  /** What an operation raises instead of taking its step. */
  function Raises(r: State, op: Op): Failure {
    if op.Enroll? then if op.spec.id in r.entries then ValueError else Fine
    else if Named(op).None? || op.Refresh? || op.RecordAdoption? then Fine
    else
      var k := Named(op).value;
      if k !in r.entries then KeyError
      else if op.Transition? && r.entries[k].readiness != op.to && !Allowed(r.entries[k].readiness, op.to) then InvalidTransition
      else Fine
  }

  // ---------- What the log says about one prediction ----------

  /** Everything a reader of the log can tell about one prediction: its view, adoptions since the last progress
      report, staled notices, readiness changes, and whether every event made sense when it came. */
  datatype Trace = Trace(view: Option<View>, adoptions: nat, staleNotes: nat, changes: nat, honest: bool)

  const Blank := Trace(None, 0, 0, 0, true)

  predicate MakesSense(o: Option<View>, b: Body) {
    match b
    case Enrolled(_, _) => o.None?
    case ReadinessChanged(from, to) => o.Some? && o.value.readiness == from && Allowed(from, to)
    case Staled => o.Some? && o.value.readiness.Stale?
    case _ => o.Some?
  }

  function Watch(t: Trace, e: Event): Trace {
    Trace(Next(t.view, e),
          if e.body.Progress? || e.body.Enrolled? then 0
          else if e.body == ArtifactAdded("adoption") then t.adoptions + 1 else t.adoptions,
          if e.body.Staled? then t.staleNotes + 1 else t.staleNotes,
          if e.body.ReadinessChanged? then t.changes + 1 else t.changes,
          t.honest && MakesSense(t.view, e.body))
  }

  function TraceOf(k: Id, es: seq<Event>): Trace {
    if es == [] then Blank
    else
      var t, e := TraceOf(k, es[..|es| - 1]), es[|es| - 1];
      if e.id == k then Watch(t, e) else t
  }

  function WatchAll(t: Trace, k: Id, now: real, out: seq<Body>): Trace
    decreases |out|
  {
    if out == [] then t else WatchAll(Watch(t, Event(k, now, out[0])), k, now, out[1..])
  }

  lemma {:induction false} TraceTag(k: Id, es: seq<Event>, j: Id, now: real, out: seq<Body>)
    ensures TraceOf(k, es + Tag(j, now, out)) == if j == k then WatchAll(TraceOf(k, es), k, now, out) else TraceOf(k, es)
    decreases |out|
  {
    if out == [] {
      assert es + Tag(j, now, out) == es;
    } else {
      var e := Event(j, now, out[0]);
      var rest := Tag(j, now, out[1..]);
      TraceTag(k, es + [e], j, now, out[1..]);
      assert Tag(j, now, out) == [e] + rest;
      assert es + ([e] + rest) == (es + [e]) + rest;
    }
  }

  /** The trace's view is the one a rebuilder holds. */
  lemma {:induction false} TraceSees(k: Id, es: seq<Event>)
    ensures TraceOf(k, es).view == Lookup(Replayed(Empty, es), k)
  {
    if es != [] {
      TraceSees(k, es[..|es| - 1]);
    }
  }

  // ---------- How an entry and its trace agree ----------

  function Level(s: Readiness): (n: nat)
    ensures n <= 5
  {
    match s
    case Queued => 0
    case Grounding => 1
    case EvidenceGathering => 2
    case Drafting => 3
    case Ready => 4
    case Stale => 5
  }

  /** What the log is exact about. */
  datatype Known = Known(readiness: Readiness, tokensUsed: int, modelCalls: int, evidence: real, adopted: bool, staleNotes: nat, honest: bool)

  /** Evidence lags by one per unreported adoption, which shows as an artefact kind. */
  function Told(t: Trace): Known
    requires t.view.Some?
  {
    var v := t.view.value;
    Known(v.readiness, v.counts.tokensUsed, v.counts.modelCalls, v.counts.evidence + t.adoptions as real,
          "adoption" in v.kinds, t.staleNotes, t.honest)
  }

  /** Staling is announced once, and every event makes sense when it comes. */
  function KnownOf(e: Entry): Known {
    Known(e.readiness, e.tokensUsed, e.modelCalls, e.evidence, e.spent, if e.readiness.Stale? then 1 else 0, true)
  }

  /** The trace tells what the entry knows, completed scenarios may only lag, readiness changed no more often than its
      level allows, and the ring buffer is not over-full. */
  ghost predicate Faithful(e: Entry, t: Trace) {
    && t.view.Some? && Told(t) == KnownOf(e)
    && t.view.value.counts.scenariosComplete <= e.scenariosComplete && t.changes <= Level(e.readiness)
    && |e.traces| <= MAX_TRACES
  }

  lemma WatchOneOrTwo(t: Trace, k: Id, now: real, a: Body, b: Body)
    ensures WatchAll(t, k, now, [a]) == Watch(t, Event(k, now, a))
    ensures WatchAll(t, k, now, [a, b]) == Watch(Watch(t, Event(k, now, a)), Event(k, now, b))
  {
    assert [a][1..] == [] && [a, b][1..] == [b] && [b][1..] == [];
    assert WatchAll(Watch(t, Event(k, now, a)), k, now, [b]) == Watch(Watch(t, Event(k, now, a)), Event(k, now, b));
  }

  lemma MoveFaithful(e: Entry, to: Readiness, t: Trace, k: Id, now: real)
    requires Faithful(e, t)
    ensures Faithful(MoveTo(e, to).e, WatchAll(t, k, now, MoveTo(e, to).out))
  {
    if e.readiness != to && Allowed(e.readiness, to) {
      WatchOneOrTwo(t, k, now, ReadinessChanged(e.readiness, to), Staled);
      if to.Stale? {
        assert MoveTo(e, to).out == [ReadinessChanged(e.readiness, to), Staled];
      } else {
        assert MoveTo(e, to).out == [ReadinessChanged(e.readiness, to)];
      }
    }
  }

  lemma {:induction false} KindsFaithful(e: Entry, t: Trace, k: Id, now: real, out: seq<Body>)
    requires Faithful(e, t)
    requires forall b :: b in out ==> b.ArtifactAdded? && b.kind != "adoption"
    ensures Faithful(e, WatchAll(t, k, now, out))
    decreases |out|
  {
    if out != [] {
      assert out[0] in out;
      KindsFaithful(e, Watch(t, Event(k, now, out[0])), k, now, out[1..]);
    }
  }

  lemma AttachFaithful(e: Entry, draft: Option<string>, briefing: Option<string>, thinking: Option<string>,
                       hashes: map<string, string>, t: Trace, k: Id, now: real)
    requires Faithful(e, t)
    ensures var a := Attached(e, draft, briefing, thinking, hashes); Faithful(a.e, WatchAll(t, k, now, a.out))
  {
    var a := Attached(e, draft, briefing, thinking, hashes);
    assert "draft" != "adoption" && "briefing" != "adoption" && "thinking" != "adoption";
    KindsFaithful(a.e, t, k, now, a.out);
  }

  // ---------- Every run ----------

  /** The log tells of k what the registry has; it is silent about predictions never enrolled. */
  ghost predicate Mirrored(r: State, k: Id) {
    if k in r.entries then Faithful(r.entries[k], TraceOf(k, r.log)) else TraceOf(k, r.log) == Blank
  }

  ghost predicate Inv(r: State) {
    && (forall i, j :: 0 <= i < j < |r.order| ==> r.order[i] != r.order[j])
    && (forall k :: k in r.order <==> k in r.entries)
    && Replayed(Empty, r.log).order == r.order
    && (forall k :: Mirrored(r, k))
  }

  function Start(pool: nat): State { State(pool, [], map[], []) }

  function Run(pool: nat, ops: seq<(Op, real)>): State {
    if ops == [] then Start(pool)
    else var last := ops[|ops| - 1]; Step(Run(pool, ops[..|ops| - 1]), last.0, last.1)
  }

  lemma {:induction false} TagOrder(b: Book, k: Id, now: real, out: seq<Body>)
    requires k in b.views
    ensures Replayed(b, Tag(k, now, out)).order == b.order && k in Replayed(b, Tag(k, now, out)).views
    decreases |out|
  {
    if out != [] {
      var e := Event(k, now, out[0]);
      TagOrder(Applied(b, e), k, now, out[1..]);
      assert Replayed(b, [e]) == Applied(b, e) by { assert [e][..0] == []; }
      ReplayComposes(b, [e], Tag(k, now, out[1..]));
    }
  }

  lemma {:induction false} PutKeeps(r: State, k: Id, t: Touched, now: real)
    requires Inv(r) && k in r.entries
    requires Faithful(t.e, WatchAll(TraceOf(k, r.log), k, now, t.out))
    ensures Inv(Put(r, k, t, now))
  {
    var s := Put(r, k, t, now);
    forall j ensures Mirrored(s, j) {
      assert Mirrored(r, j);
      TraceTag(j, r.log, k, now, t.out);
    }
    assert Mirrored(r, k);
    TraceSees(k, r.log);
    TagOrder(Replayed(Empty, r.log), k, now, t.out);
    ReplayComposes(Empty, r.log, Tag(k, now, t.out));
  }

  lemma {:induction false} EnrolKeeps(r: State, spec: Spec, initial: real, now: real)
    requires Inv(r) && spec.id !in r.entries
    ensures Inv(Step(r, Enroll(spec, initial), now))
  {
    var k, t := spec.id, Enrolment(spec, initial, r.pool);
    var s := Step(r, Enroll(spec, initial), now);
    var e := Event(k, now, t.out[0]);
    assert Mirrored(r, k);
    assert Tag(k, now, t.out) == [e] by { assert t.out[1..] == [] && Tag(k, now, []) == []; }
    forall j ensures Mirrored(s, j) {
      assert Mirrored(r, j);
    }
    TraceSees(k, r.log);
    assert Replayed(Empty, s.log) == Applied(Replayed(Empty, r.log), e) by { assert s.log[..|r.log|] == r.log; }
  }

  lemma {:induction false} HitKeeps(r: State, k: Id, cause: Cause, now: real)
    requires Inv(r) && k in r.entries
    ensures Inv(Put(r, k, Hit(r.entries[k], cause, r.pool), now))
  {
    var e, t := r.entries[k], TraceOf(k, r.log);
    assert Mirrored(r, k);
    if !e.readiness.Stale? {
      MoveFaithful(e, Stale, t, k, now);
      match cause
      case FileChange(changed, hashes) =>
        var w := MaxReal(0.0, e.weight * 0.5);
        MoveFaithful(e.(weight := w, budget := BudgetFor(r.pool, MaxReal(FLOOR_WEIGHT, w)), briefing := None, draft := None,
                        captured := Recaptured(e.captured, changed, hashes)), Stale, t, k, now);
      case CategoryShift(_) => MoveFaithful(e.(weight := MaxReal(0.0, e.weight - 0.1)), Stale, t, k, now);
      case _ =>
    }
    PutKeeps(r, k, Hit(e, cause, r.pool), now);
  }

  lemma {:induction false} SweepKeeps(r: State, ks: seq<Id>, cause: Cause, now: real)
    requires Inv(r)
    ensures Inv(Sweep(r, ks, cause, now))
  {
    if ks != [] {
      var s, k := Sweep(r, ks[..|ks| - 1], cause, now), ks[|ks| - 1];
      SweepKeeps(r, ks[..|ks| - 1], cause, now);
      if k in s.entries {
        HitKeeps(s, k, cause, now);
      }
    }
  }

  lemma {:induction false} NamedKeeps(r: State, op: Op, k: Id, now: real)
    requires Inv(r) && Named(op) == Some(k)
    ensures Inv(Step(r, op, now))
  {
    if k in r.entries {
      var e, t := r.entries[k], TraceOf(k, r.log);
      assert Mirrored(r, k);
      match op {
        case AttachScenario(_, scenario) =>
          MoveFaithful(e.(scenarioIds := e.scenarioIds + [scenario]), Grounding, t, k, now);
        case RecordCall(_, _) => WatchOneOrTwo(t, k, now, TouchOne(e, op).out[0], Staled);
        case RecordEvidence(_, _) => WatchOneOrTwo(t, k, now, TouchOne(e, op).out[0], Staled);
        case AttachArtifact(_, draft, briefing, thinking, hashes) =>
          AttachFaithful(e, draft, briefing, thinking, hashes, t, k, now);
        case Transition(_, to) => MoveFaithful(e, to, t, k, now);
        case _ =>
      }
      PutKeeps(r, k, TouchOne(e, op), now);
    }
  }

  lemma DeltaFaithful(e: Entry, to: string, t: Trace, k: Id, now: real)
    requires Faithful(e, t)
    ensures Faithful(Delta(e, to).e, WatchAll(t, k, now, Delta(e, to).out))
  {
    MoveFaithful(e.(weight := MaxReal(0.0, e.weight * 0.25)), Stale, t, k, now);
  }

  lemma {:induction false} DeltaKeeps(r: State, item: string, verdict: string, now: real)
    requires Inv(r)
    ensures Inv(Step(r, ItemDelta(item, verdict), now))
  {
    var k := Anchored(r.entries, r.order, item);
    if k.Some? {
      assert Mirrored(r, k.value);
      DeltaFaithful(r.entries[k.value], verdict, TraceOf(k.value, r.log), k.value, now);
      PutKeeps(r, k.value, Delta(r.entries[k.value], verdict), now);
    }
  }

  lemma {:induction false} StepKeeps(r: State, op: Op, now: real)
    requires Inv(r)
    ensures Inv(Step(r, op, now))
  {
    if Named(op).Some? {
      NamedKeeps(r, op, Named(op).value, now);
    } else if op.Enroll? {
      if op.spec.id !in r.entries { EnrolKeeps(r, op.spec, op.initial, now); }
    } else if op.Invalidate? {
      SweepKeeps(r, r.order, op.cause, now);
    } else if op.ItemDelta? {
      DeltaKeeps(r, op.item, op.verdict, now);
    } else {
      forall k ensures Mirrored(Rebalanced(r), k) {
        assert Mirrored(r, k);
      }
    }
  }

  lemma {:induction false} RunKeeps(pool: nat, ops: seq<(Op, real)>)
    ensures Inv(Run(pool, ops))
  {
    if ops != [] {
      RunKeeps(pool, ops[..|ops| - 1]);
      StepKeeps(Run(pool, ops[..|ops| - 1]), ops[|ops| - 1].0, ops[|ops| - 1].1);
    }
  }

  /** What replaying the emitted log tells about prediction k, over every run: the same population in the same
      order, exact readiness, tokens and calls, evidence short by the adoptions not yet reported, and no event
      ever skipped or out of place. */
  lemma {:induction false} ReplayMirrors(pool: nat, ops: seq<(Op, real)>, k: Id)
    ensures var r := Run(pool, ops);
            var b := Replayed(Empty, r.log);
            && b.order == r.order
            && b.views.Keys == r.entries.Keys
            && TraceOf(k, r.log).honest
            && (k in r.entries ==>
                  var e, v, t := r.entries[k], b.views[k], TraceOf(k, r.log);
                  && v.readiness == e.readiness
                  && v.counts.tokensUsed == e.tokensUsed && v.counts.modelCalls == e.modelCalls
                  && v.counts.scenariosComplete <= e.scenariosComplete
                  && e.evidence == v.counts.evidence + t.adoptions as real
                  && (e.spent <==> "adoption" in v.kinds)
                  && |e.traces| <= MAX_TRACES && t.changes <= 5 && t.staleNotes == if e.readiness.Stale? then 1 else 0)
  {
    RunKeeps(pool, ops);
    var r := Run(pool, ops);
    var b := Replayed(Empty, r.log);
    assert Mirrored(r, k);
    forall j ensures j in b.views <==> j in r.entries {
      assert Mirrored(r, j);
      TraceSees(j, r.log);
    }
    TraceSees(k, r.log);
  }

  /** A progress report brings every counter of the view up to date. */
  lemma ProgressCatchesUp(r: State, op: Op, now: real)
    requires Inv(r) && (op.RecordCall? || op.RecordEvidence?) && op.id in r.entries
    ensures var s := Step(r, op, now);
            && op.id in Replayed(Empty, s.log).views
            && Replayed(Empty, s.log).views[op.id].counts == Counted(s.entries[op.id])
  {
    assert Mirrored(r, op.id);
    var s, k := Step(r, op, now), op.id;
    var t := TouchOne(r.entries[k], op);
    TraceTag(k, r.log, k, now, t.out);
    WatchOneOrTwo(TraceOf(k, r.log), k, now, t.out[0], Staled);
    assert t.out == [t.out[0]];
    TraceSees(k, s.log);
  }

  /** The client's counters of prediction k are the registry's. */
  ghost predicate CaughtUp(r: State, k: Id) {
    && k in r.entries && TraceOf(k, r.log).view.Some?
    && TraceOf(k, r.log).view.value.counts == Counted(r.entries[k])
  }

  predicate Quiet(out: seq<Body>) { forall b :: b in out ==> !b.Progress? && !b.Enrolled? }

  lemma {:induction false} QuietKeepsCounts(t: Trace, k: Id, now: real, out: seq<Body>)
    requires t.view.Some? && Quiet(out)
    ensures var u := WatchAll(t, k, now, out); u.view.Some? && u.view.value.counts == t.view.value.counts
    decreases |out|
  {
    if out != [] {
      assert out[0] in out;
      QuietKeepsCounts(Watch(t, Event(k, now, out[0])), k, now, out[1..]);
    }
  }

  lemma PutQuiet(r: State, j: Id, t: Touched, now: real, k: Id)
    requires TraceOf(k, r.log).view.Some? && Quiet(t.out)
    ensures var o := TraceOf(k, Put(r, j, t, now).log).view;
            o.Some? && o.value.counts == TraceOf(k, r.log).view.value.counts
  {
    TraceTag(k, r.log, j, now, t.out);
    QuietKeepsCounts(TraceOf(k, r.log), k, now, t.out);
  }

  lemma HitQuiet(e: Entry, cause: Cause, pool: nat)
    ensures Quiet(Hit(e, cause, pool).out)
    ensures Counted(Hit(e, cause, pool).e) == Counted(e).(budget := Hit(e, cause, pool).e.budget)
  {
  }

  lemma {:induction false} SweepQuiet(r: State, ks: seq<Id>, cause: Cause, now: real, k: Id)
    requires k in r.entries && TraceOf(k, r.log).view.Some?
    ensures var s := Sweep(r, ks, cause, now);
            && k in s.entries && Counted(s.entries[k]) == Counted(r.entries[k]).(budget := s.entries[k].budget)
            && TraceOf(k, s.log).view.Some?
            && TraceOf(k, s.log).view.value.counts == TraceOf(k, r.log).view.value.counts
  {
    if ks != [] {
      var s, j := Sweep(r, ks[..|ks| - 1], cause, now), ks[|ks| - 1];
      SweepQuiet(r, ks[..|ks| - 1], cause, now, k);
      if j in s.entries {
        HitQuiet(s.entries[j], cause, s.pool);
        PutQuiet(s, j, Hit(s.entries[j], cause, s.pool), now, k);
      }
    }
  }

  /** The budget an invalidation leaves, told from the entry before it: a file change on captured paths and a
      category shift that does not stale the prediction recompute it. */
  function BudgetAfter(e: Entry, cause: Cause, pool: nat): int {
    match cause
    case FileChange(changed, _) =>
      if e.readiness.Stale? || changed !! e.captured.Keys then e.budget
      else BudgetFor(pool, MaxReal(FLOOR_WEIGHT, e.weight * 0.5))
    case CategoryShift(category) =>
      if e.readiness.Stale? || category == "" || e.spec.anchor != category || e.weight - 0.1 < FLOOR_WEIGHT then e.budget
      else BudgetFor(pool, e.weight - 0.1)
    case _ => e.budget
  }

  /** The budget a rebalance leaves: recomputed from the share of the yield, if there is any yield. */
  function BudgetShared(r: State, k: Id): int
    requires k in r.entries
  {
    var e, total := r.entries[k], TotalYield(r.entries, r.order);
    if e.readiness.Stale? || total <= 0.0 then e.budget else BudgetFor(r.pool, MaxReal(FLOOR_WEIGHT, Yield(e) / total))
  }

  /** The operations that change a counter of k and report nothing: finishing one of its scenarios, adopting it,
      and whatever is about to recompute its budget to another value. */
  predicate Silent(r: State, op: Op, k: Id)
    requires k in r.entries
  {
    match op
    case CompleteScenario(id, scenario) => id == k && scenario in r.entries[k].scenarioIds
    case RecordAdoption(id) => id == k
    case ItemDelta(item, verdict) => verdict == "complete" && Anchored(r.entries, r.order, item) == Some(k)
    case Invalidate(cause) => BudgetAfter(r.entries[k], cause, r.pool) != r.entries[k].budget
    case Rebalance => BudgetShared(r, k) != r.entries[k].budget
    case _ => false
  }

  lemma HitBudget(e: Entry, cause: Cause, pool: nat)
    ensures Hit(e, cause, pool).e.budget == BudgetAfter(e, cause, pool)
  {
  }

  /** A sweep hits each listed prediction once. */
  lemma {:induction false} SweepHitsOnce(r: State, ks: seq<Id>, cause: Cause, now: real, k: Id)
    requires k in r.entries && forall i, j :: 0 <= i < j < |ks| ==> ks[i] != ks[j]
    ensures var s := Sweep(r, ks, cause, now);
            && s.pool == r.pool && k in s.entries
            && s.entries[k] == if k in ks then Hit(r.entries[k], cause, r.pool).e else r.entries[k]
  {
    if ks != [] {
      var front, last := ks[..|ks| - 1], ks[|ks| - 1];
      SweepHitsOnce(r, front, cause, now, k);
      assert ks == front + [last];
      assert last !in front;
    }
  }

  lemma OneQuiet(e: Entry, op: Op)
    ensures !op.RecordCall? && !op.RecordEvidence? ==> Quiet(TouchOne(e, op).out)
    ensures !op.RecordCall? && !op.RecordEvidence? && !op.CompleteScenario? && !op.RecordAdoption? ==>
            Counted(TouchOne(e, op).e) == Counted(e)
  {
  }

  lemma NamedCatchUp(r: State, op: Op, now: real, k: Id)
    requires Inv(r) && CaughtUp(r, k) && Named(op).Some?
    ensures CaughtUp(Step(r, op, now), k) <==> !Silent(r, op, k)
  {
    var j := Named(op).value;
    if j in r.entries {
      var t := TouchOne(r.entries[j], op);
      OneQuiet(r.entries[j], op);
      TraceTag(k, r.log, j, now, t.out);
      if op.RecordCall? || op.RecordEvidence? {
        if j == k {
          ProgressCatchesUp(r, op, now);
          TraceSees(k, Step(r, op, now).log);
        }
      } else {
        PutQuiet(r, j, t, now, k);
      }
    }
  }

  /** A client's counters of a new prediction are right. */
  lemma EnrolmentCaughtUp(r: State, spec: Spec, initial: real, now: real)
    requires Inv(r) && spec.id !in r.entries
    ensures CaughtUp(Step(r, Enroll(spec, initial), now), spec.id)
  {
    var out := Enrolment(spec, initial, r.pool).out;
    TraceTag(spec.id, r.log, spec.id, now, out);
    WatchOneOrTwo(TraceOf(spec.id, r.log), spec.id, now, out[0], Staled);
    assert out == [out[0]];
  }

  lemma EnrolCatchUp(r: State, spec: Spec, initial: real, now: real, k: Id)
    requires Inv(r) && CaughtUp(r, k)
    ensures CaughtUp(Step(r, Enroll(spec, initial), now), k)
  {
    if spec.id !in r.entries {
      TraceTag(k, r.log, spec.id, now, Enrolment(spec, initial, r.pool).out);
    }
  }

  lemma DeltaCatchUp(r: State, item: string, verdict: string, now: real, k: Id)
    requires Inv(r) && CaughtUp(r, k)
    ensures CaughtUp(Step(r, ItemDelta(item, verdict), now), k) <==> !Silent(r, ItemDelta(item, verdict), k)
  {
    var j := Anchored(r.entries, r.order, item);
    if j.Some? {
      var t := Delta(r.entries[j.value], verdict);
      assert Quiet(t.out);
      PutQuiet(r, j.value, t, now, k);
    }
  }

  lemma SweepCatchUp(r: State, cause: Cause, now: real, k: Id)
    requires Inv(r) && CaughtUp(r, k)
    ensures k in Step(r, Invalidate(cause), now).entries
    ensures CaughtUp(Step(r, Invalidate(cause), now), k) <==> !Silent(r, Invalidate(cause), k)
  {
    SweepQuiet(r, r.order, cause, now, k);
    SweepHitsOnce(r, r.order, cause, now, k);
    HitBudget(r.entries[k], cause, r.pool);
  }

  /** When a client's counters, once right, stop being right: exactly at the silent operations. */
  lemma {:induction false} CatchUpIff(r: State, op: Op, now: real, k: Id)
    requires Inv(r) && CaughtUp(r, k)
    ensures var s := Step(r, op, now);
            k in s.entries && (CaughtUp(s, k) <==> !Silent(r, op, k))
  {
    if Named(op).Some? {
      NamedCatchUp(r, op, now, k);
    } else if op.Enroll? {
      EnrolCatchUp(r, op.spec, op.initial, now, k);
    } else if op.Invalidate? {
      SweepCatchUp(r, op.cause, now, k);
    } else if op.ItemDelta? {
      DeltaCatchUp(r, op.item, op.verdict, now, k);
    }
  }

  /** active() of the registry: neither stale nor adopted. */
  function ActiveHere(entries: map<Id, Entry>, ks: seq<Id>): seq<Id> {
    if ks == [] then []
    else
      var rest, k := ActiveHere(entries, ks[..|ks| - 1]), ks[|ks| - 1];
      if k in entries && !entries[k].readiness.Stale? && !entries[k].spent then rest + [k] else rest
  }

  function Unadopted(b: Book, ks: seq<Id>): seq<Id> {
    if ks == [] then []
    else
      var rest, k := Unadopted(b, ks[..|ks| - 1]), ks[|ks| - 1];
      if k in b.views && "adoption" !in b.views[k].kinds then rest + [k] else rest
  }

  lemma {:induction false} UnadoptedShrinks(b: Book, ks: seq<Id>)
    ensures |Unadopted(b, ks)| <= |ks|
    ensures Unadopted(b, ks) == ks <==> forall k :: k in ks ==> k in b.views && "adoption" !in b.views[k].kinds
  {
    if ks != [] {
      var front, k := ks[..|ks| - 1], ks[|ks| - 1];
      UnadoptedShrinks(b, front);
      assert ks == front + [k];
    }
  }

  lemma {:induction false} ActiveAgree(entries: map<Id, Entry>, b: Book, ks: seq<Id>)
    requires b.views.Keys == entries.Keys
    requires forall k :: k in entries ==> entries[k].readiness == b.views[k].readiness
                                          && (entries[k].spent <==> "adoption" in b.views[k].kinds)
    ensures ActiveHere(entries, ks) == Unadopted(b, ActiveOf(b, ks))
  {
    if ks != [] {
      var front, k := ks[..|ks| - 1], ks[|ks| - 1];
      ActiveAgree(entries, b, front);
      var rest := ActiveOf(b, front);
      assert (rest + [k])[..|rest|] == rest;
    }
  }

  lemma {:induction false} ActiveMembers(b: Book, ks: seq<Id>, k: Id)
    ensures k in ActiveOf(b, ks) <==> k in ks && k in b.views && !b.views[k].readiness.Stale?
  {
    if ks != [] {
      ActiveMembers(b, ks[..|ks| - 1], k);
      assert ks == ks[..|ks| - 1] + [ks[|ks| - 1]];
    }
  }

  /** The rebuilder's active list is the registry's exactly when no live prediction has been adopted; in any case
      the registry's can be had by leaving out those with an adoption among their artefacts. */
  lemma ActiveAgreeIff(pool: nat, ops: seq<(Op, real)>)
    ensures var r := Run(pool, ops);
            var b := Replayed(Empty, r.log);
            && ActiveHere(r.entries, r.order) == Unadopted(b, ActiveOf(b, b.order))
            && (ActiveHere(r.entries, r.order) == ActiveOf(b, b.order)
                <==> forall k :: k in r.entries && r.entries[k].spent ==> r.entries[k].readiness.Stale?)
  {
    var r := Run(pool, ops);
    var b := Replayed(Empty, r.log);
    RunKeeps(pool, ops);
    ReplayMirrors(pool, ops, "");
    forall k | k in r.entries
      ensures r.entries[k].readiness == b.views[k].readiness && (r.entries[k].spent <==> "adoption" in b.views[k].kinds)
    {
      ReplayMirrors(pool, ops, k);
    }
    ActiveAgree(r.entries, b, r.order);
    forall k ensures k in ActiveOf(b, r.order) <==> k in r.order && k in b.views && !b.views[k].readiness.Stale? {
      ActiveMembers(b, r.order, k);
    }
    UnadoptedShrinks(b, ActiveOf(b, r.order));
  }

  // ---------- It happens ----------

  const Item := Spec("p", "t", "d", "artefact_item", "i", 0.5, "likely_next", "concrete")

  lemma RunOne(pool: nat, ops: seq<(Op, real)>, op: Op, now: real)
    ensures Run(pool, ops + [(op, now)]) == Step(Run(pool, ops), op, now)
  {
    assert (ops + [(op, now)])[..|ops|] == ops;
  }

  lemma RunEnrolled(pool: nat, initial: real) returns (ops: seq<(Op, real)>)
    ensures Run(pool, ops) == Step(Start(pool), Enroll(Item, initial), 0.0)
    ensures Inv(Run(pool, ops)) && CaughtUp(Run(pool, ops), "p")
  {
    ops := [] + [(Enroll(Item, initial), 0.0)];
    RunOne(pool, [], Enroll(Item, initial), 0.0);
    RunKeeps(pool, []);
    RunKeeps(pool, ops);
    EnrolmentCaughtUp(Start(pool), Item, initial, 0.0);
  }

  /** Enrolled, then adopted: the registry offers nothing, the rebuilt list still does. */
  lemma AdoptedStaysListed(pool: nat) returns (ops: seq<(Op, real)>)
    ensures var r := Run(pool, ops);
            ActiveHere(r.entries, r.order) != ActiveOf(Replayed(Empty, r.log), Replayed(Empty, r.log).order)
  {
    var enrolled := RunEnrolled(pool, 0.5);
    RunOne(pool, enrolled, RecordAdoption("p"), 1.0);
    ops := enrolled + [(RecordAdoption("p"), 1.0)];
    var r := Run(pool, ops);
    assert "p" in r.entries && r.entries["p"].spent && !r.entries["p"].readiness.Stale?;
    ActiveAgreeIff(pool, ops);
  }

  /** Enrolled, a scenario attached and completed: the client's counters are right until the last step. */
  lemma CompletionGoesUnseen(pool: nat) returns (ops: seq<(Op, real)>, last: (Op, real))
    ensures CaughtUp(Run(pool, ops), "p") && !CaughtUp(Run(pool, ops + [last]), "p")
  {
    var enrolled := RunEnrolled(pool, 0.5);
    var attach := AttachScenario("p", "s");
    RunOne(pool, enrolled, attach, 1.0);
    ops, last := enrolled + [(attach, 1.0)], (CompleteScenario("p", "s"), 2.0);
    CatchUpIff(Run(pool, enrolled), attach, 1.0, "p");
    var r := Run(pool, ops);
    RunKeeps(pool, ops);
    assert "s" in r.entries["p"].scenarioIds;
    RunOne(pool, ops, last.0, last.1);
    CatchUpIff(r, last.0, last.1, "p");
  }

  lemma OnlyOneStalls(r: State, e: Entry)
    requires r.order == ["p"] && r.entries == map["p" := e]
    requires e.spec == Item && e.weight == FLOOR_WEIGHT && e.readiness.Queued?
    ensures Floored(r) && !Floored(Step(r, ItemDelta("i", "stalled"), 1.0))
  {
    assert Anchored(r.entries, r.order, "i") == Some("p");
    FloorIff(r, ItemDelta("i", "stalled"), 1.0);
  }

  /** Enrolled at the floor, then its item stalls: a live prediction below the floor. */
  lemma StalledBelowFloor(pool: nat) returns (ops: seq<(Op, real)>, last: (Op, real))
    ensures Floored(Run(pool, ops)) && !Floored(Run(pool, ops + [last]))
  {
    ops := RunEnrolled(pool, 0.05);
    last := (ItemDelta("i", "stalled"), 1.0);
    RunOne(pool, ops, last.0, last.1);
    OnlyOneStalls(Run(pool, ops), Enrolment(Item, 0.05, pool).e);
  }

  // ---------- Thinking traces ----------

  function AllShortened(ts: seq<string>): seq<string> {
    if ts == [] then [] else AllShortened(ts[..|ts| - 1]) + [Shortened(ts[|ts| - 1])]
  }

  function RingAfter(ts: seq<string>): seq<string> {
    if ts == [] then [] else Ring(RingAfter(ts[..|ts| - 1]), ts[|ts| - 1])
  }

  lemma NewestOneMore<T>(ts: seq<T>, t: T, n: nat)
    requires 0 < n
    ensures Newest(Newest(ts, n) + [t], n) == Newest(ts + [t], n)
  {
  }

  /** However many traces come, the ring buffer holds the newest ten, shortened and in order. */
  lemma {:induction false} RingHoldsNewest(ts: seq<string>)
    ensures RingAfter(ts) == Newest(AllShortened(ts), MAX_TRACES)
  {
    if ts != [] {
      RingHoldsNewest(ts[..|ts| - 1]);
      NewestOneMore(AllShortened(ts[..|ts| - 1]), Shortened(ts[|ts| - 1]), MAX_TRACES);
    }
  }

  // ---------- Readiness only moves forward ----------

  /** f is a later condition of the same prediction as e. */
  predicate Later(e: Entry, f: Entry) {
    && Level(e.readiness) <= Level(f.readiness)
    && e.tokensUsed <= f.tokensUsed && e.modelCalls <= f.modelCalls
    && e.scenariosComplete <= f.scenariosComplete
    && e.scenarioIds <= f.scenarioIds
    && (e.spent ==> f.spent)
  }

  lemma OneLater(e: Entry, op: Op)
    ensures Later(e, TouchOne(e, op).e) && TouchOne(e, op).e.weight == e.weight
  {
  }

  lemma HitLater(e: Entry, cause: Cause, pool: nat)
    ensures Later(e, Hit(e, cause, pool).e)
    ensures e.readiness.Stale? || e.weight >= FLOOR_WEIGHT ==>
            Hit(e, cause, pool).e.readiness.Stale? || Hit(e, cause, pool).e.weight >= FLOOR_WEIGHT
  {
  }

  lemma {:induction false} SweepForward(r: State, ks: seq<Id>, cause: Cause, now: real, k: Id)
    requires k in r.entries
    ensures var s := Sweep(r, ks, cause, now); k in s.entries && Later(r.entries[k], s.entries[k])
  {
    if ks != [] {
      var s := Sweep(r, ks[..|ks| - 1], cause, now);
      SweepForward(r, ks[..|ks| - 1], cause, now, k);
      HitLater(s.entries[k], cause, s.pool);
    }
  }

  lemma {:induction false} StepForward(r: State, op: Op, now: real, k: Id)
    requires k in r.entries
    ensures var s := Step(r, op, now); k in s.entries && Later(r.entries[k], s.entries[k])
  {
    if Named(op).Some? {
      OneLater(r.entries[k], op);
    } else if op.Invalidate? {
      SweepForward(r, r.order, op.cause, now, k);
    }
  }

  /** Over every run a prediction never leaves the registry, its readiness never moves back (so a stale one stays
      stale), its spend never shrinks, and an adopted one is never offered again. */
  lemma {:induction false} RunForward(pool: nat, ops: seq<(Op, real)>, i: nat, k: Id)
    requires i <= |ops| && k in Run(pool, ops[..i]).entries
    ensures var s := Run(pool, ops); k in s.entries && Later(Run(pool, ops[..i]).entries[k], s.entries[k])
  {
    if i == |ops| {
      assert ops[..i] == ops;
    } else {
      var front := ops[..|ops| - 1];
      assert front[..i] == ops[..i];
      RunForward(pool, front, i, k);
      StepForward(Run(pool, front), ops[|ops| - 1].0, ops[|ops| - 1].1, k);
    }
  }

  // ---------- The starvation floor ----------

  /** No live prediction holds less than the floor. */
  predicate Floored(r: State) { forall k :: k in r.entries && !r.entries[k].readiness.Stale? ==> r.entries[k].weight >= FLOOR_WEIGHT }

  lemma {:induction false} SweepFloored(r: State, ks: seq<Id>, cause: Cause, now: real)
    requires Floored(r)
    ensures Floored(Sweep(r, ks, cause, now))
  {
    if ks != [] {
      var s, k := Sweep(r, ks[..|ks| - 1], cause, now), ks[|ks| - 1];
      SweepFloored(r, ks[..|ks| - 1], cause, now);
      if k in s.entries { HitLater(s.entries[k], cause, s.pool); }
    }
  }

  lemma DeltaFloored(r: State, item: string, verdict: string, now: real)
    requires Floored(r)
    ensures Floored(Step(r, ItemDelta(item, verdict), now)) <==>
            !(&& verdict == "stalled" && Anchored(r.entries, r.order, item).Some?
              && var e := r.entries[Anchored(r.entries, r.order, item).value];
                 !e.readiness.Stale? && e.weight < 2.0 * FLOOR_WEIGHT)
  {
    var k := Anchored(r.entries, r.order, item);
    if k.Some? {
      var s, t := Step(r, ItemDelta(item, verdict), now), Delta(r.entries[k.value], verdict).e;
      assert s.entries == r.entries[k.value := t];
      assert k.value in s.entries && s.entries[k.value] == t;
      assert forall j :: j in s.entries && j != k.value ==> j in r.entries && s.entries[j] == r.entries[j];
    }
  }

  /** Only a stalled item can push a live prediction below the floor, and does whenever its weight is under twice
      the floor: every other way of losing weight stales the prediction instead. */
  lemma FloorIff(r: State, op: Op, now: real)
    requires Floored(r)
    ensures Floored(Step(r, op, now)) <==>
            !(&& op.ItemDelta? && op.verdict == "stalled" && Anchored(r.entries, r.order, op.item).Some?
              && var e := r.entries[Anchored(r.entries, r.order, op.item).value];
                 !e.readiness.Stale? && e.weight < 2.0 * FLOOR_WEIGHT)
  {
    if Named(op).Some? {
      if Named(op).value in r.entries {
        OneLater(r.entries[Named(op).value], op);
      }
    } else if op.Invalidate? {
      SweepFloored(r, r.order, op.cause, now);
    } else if op.ItemDelta? {
      DeltaFloored(r, op.item, op.verdict, now);
    }
  }

  // ---------- Rebalancing ----------

  function WeightSum(entries: map<Id, Entry>, ks: seq<Id>): real {
    if ks == [] then 0.0
    else
      var k := ks[|ks| - 1];
      WeightSum(entries, ks[..|ks| - 1]) + if k in entries && !entries[k].readiness.Stale? then entries[k].weight else 0.0
  }

  function LiveCount(entries: map<Id, Entry>, ks: seq<Id>): nat {
    if ks == [] then 0
    else
      var k := ks[|ks| - 1];
      LiveCount(entries, ks[..|ks| - 1]) + if k in entries && !entries[k].readiness.Stale? then 1 else 0
  }

  lemma DivSum(a: real, b: real, t: real)
    requires t > 0.0
    ensures (a + b) / t == a / t + b / t && (b >= 0.0 ==> b / t >= 0.0)
  {
  }

  lemma DivSelf(t: real)
    requires t > 0.0
    ensures t / t == 1.0
  {
  }

  lemma {:induction false} SharesBounded(old_: map<Id, Entry>, new_: map<Id, Entry>, ks: seq<Id>, total: real, pool: nat)
    requires total > 0.0 && new_ == map k | k in old_ :: Reweighted(old_[k], total, pool)
    ensures TotalYield(old_, ks) / total <= WeightSum(new_, ks)
         <= TotalYield(old_, ks) / total + FLOOR_WEIGHT * LiveCount(old_, ks) as real
  {
    if ks != [] {
      var front, k := ks[..|ks| - 1], ks[|ks| - 1];
      SharesBounded(old_, new_, front, total, pool);
      if k in old_ {
        DivSum(TotalYield(old_, front), Yield(old_[k]), total);
      }
    }
  }

  lemma YieldOrder(y: real, z: real, total: real)
    requires total > 0.0 && y <= z
    ensures MaxReal(FLOOR_WEIGHT, y / total) <= MaxReal(FLOOR_WEIGHT, z / total)
  {
    DivSum(y, z - y, total);
  }

  /** After a rebalance on any evidence, no live prediction is below the floor, and the weights add up to the whole
      cycle, over-committed by at most one floor per live prediction. */
  lemma RebalanceShares(r: State)
    requires TotalYield(r.entries, r.order) > 0.0
    ensures var s := Rebalanced(r);
            && Floored(s) && s.log == r.log
            && 1.0 <= WeightSum(s.entries, r.order)
            && WeightSum(s.entries, r.order) <= 1.0 + FLOOR_WEIGHT * LiveCount(r.entries, r.order) as real
  {
    var total := TotalYield(r.entries, r.order);
    SharesBounded(r.entries, Rebalanced(r).entries, r.order, total, r.pool);
    DivSelf(total);
  }

  /** More yield never means less weight. */
  lemma {:induction false} RebalanceOrder(r: State, j: Id, k: Id)
    requires TotalYield(r.entries, r.order) > 0.0
    requires j in r.entries && !r.entries[j].readiness.Stale?
    requires k in r.entries && !r.entries[k].readiness.Stale?
    requires Yield(r.entries[j]) <= Yield(r.entries[k])
    ensures Rebalanced(r).entries[j].weight <= Rebalanced(r).entries[k].weight
  {
    YieldOrder(Yield(r.entries[j]), Yield(r.entries[k]), TotalYield(r.entries, r.order));
  }
}
