/** What the operations of the prediction registry amount to, told from the calls: the counters over every run, who is
    staled or demoted by what, and how attention is shared. */
module RegistryRuns {
  import opened Common
  import opened Replay
  import opened Registry

  // ---------- Counters over runs ----------

  /** What was recorded about one prediction since it was enrolled. */
  datatype Record = Unknown | Record(tokens: int, calls: int, evidence: real, adopted: bool,
                                     scenarios: seq<string>, completed: int)

  /** The operation adopts prediction k: by name, or as the first one anchored to an item that is complete. */
  predicate Adopts(r: State, op: Op, k: Id) {
    || op == RecordAdoption(k)
    || (op.ItemDelta? && op.verdict == "complete" && Anchored(r.entries, r.order, op.item) == Some(k))
  }

  /** What is recorded of k after one more operation. */
  function Recorded(t: Record, op: Op, k: Id, adopts: bool): Record
    requires t.Record?
  {
    if adopts then t.(evidence := t.evidence + 1.0, adopted := true)
    else
      match op
      case RecordCall(id, n) => if id == k then t.(calls := t.calls + 1, tokens := t.tokens + if 0 < n then n else 0) else t
      case RecordEvidence(id, d) => if id == k then t.(evidence := t.evidence + d) else t
      case AttachScenario(id, s) => if id == k && s !in t.scenarios then t.(scenarios := t.scenarios + [s]) else t
      case CompleteScenario(id, s) => if id == k && s in t.scenarios then t.(completed := t.completed + 1) else t
      case _ => t
  }

  function RecordOf(pool: nat, ops: seq<(Op, real)>, k: Id): Record {
    if ops == [] then Unknown
    else
      var front, op := ops[..|ops| - 1], ops[|ops| - 1].0;
      var t := RecordOf(pool, front, k);
      if t.Record? then Recorded(t, op, k, Adopts(Run(pool, front), op, k))
      else if op.Enroll? && op.spec.id == k then Record(0, 0, 0.0, false, [], 0) else Unknown
  }

  /** The entry holds what was recorded. */
  predicate Holds(e: Entry, t: Record) {
    t == Record(e.tokensUsed, e.modelCalls, e.evidence, e.spent, e.scenarioIds, e.scenariosComplete)
  }

  lemma HitRecord(e: Entry, cause: Cause, pool: nat, t: Record)
    requires Holds(e, t)
    ensures Holds(Hit(e, cause, pool).e, t)
  {
  }

  lemma DeltaRecord(e: Entry, verdict: string, t: Record)
    requires Holds(e, t)
    ensures Holds(Delta(e, verdict).e, if verdict == "complete" then t.(evidence := t.evidence + 1.0, adopted := true) else t)
  {
  }

  lemma TouchRecord(e: Entry, op: Op, k: Id, t: Record)
    requires Holds(e, t) && Named(op) == Some(k)
    ensures Holds(TouchOne(e, op).e, Recorded(t, op, k, op.RecordAdoption?))
  {
  }

  lemma StepRecord(r: State, op: Op, now: real, k: Id, t: Record)
    requires Inv(r) && k in r.entries && Holds(r.entries[k], t)
    ensures var s := Step(r, op, now); k in s.entries && Holds(s.entries[k], Recorded(t, op, k, Adopts(r, op, k)))
  {
    if Named(op).Some? {
      if Named(op) == Some(k) { TouchRecord(r.entries[k], op, k, t); } else { OtherRecord(r, op, now, k, t); }
    } else {
      UnnamedRecord(r, op, now, k, t);
    }
  }

  lemma UnnamedRecord(r: State, op: Op, now: real, k: Id, t: Record)
    requires Inv(r) && k in r.entries && Holds(r.entries[k], t) && Named(op).None?
    ensures var s := Step(r, op, now); k in s.entries && Holds(s.entries[k], Recorded(t, op, k, Adopts(r, op, k)))
  {
    if op.Invalidate? {
      SweepHitsOnce(r, r.order, op.cause, now, k);
      HitRecord(r.entries[k], op.cause, r.pool, t);
    } else if op.ItemDelta? {
      ItemRecord(r, op.item, op.verdict, now, k, t);
    }
  }

  lemma ItemRecord(r: State, item: string, verdict: string, now: real, k: Id, t: Record)
    requires k in r.entries && Holds(r.entries[k], t)
    ensures var op := ItemDelta(item, verdict);
            var s := Step(r, op, now);
            k in s.entries && Holds(s.entries[k], Recorded(t, op, k, Adopts(r, op, k)))
  {
    DeltaRecord(r.entries[k], verdict, t);
  }

  lemma OtherRecord(r: State, op: Op, now: real, k: Id, t: Record)
    requires k in r.entries && Named(op).Some? && Named(op).value != k && t.Record?
    ensures var s := Step(r, op, now);
            k in s.entries && s.entries[k] == r.entries[k] && Recorded(t, op, k, Adopts(r, op, k)) == t
  {
  }

  /** Over every run: a prediction is in the registry if and only if it was enrolled, and its counters are the sums of
      what was recorded about it since; negative token counts count for nothing, an adoption for 1 of evidence. */
  lemma {:induction false} CountersTell(pool: nat, ops: seq<(Op, real)>, k: Id)
    ensures k in Run(pool, ops).entries <==> RecordOf(pool, ops, k).Record?
    ensures k in Run(pool, ops).entries ==> Holds(Run(pool, ops).entries[k], RecordOf(pool, ops, k))
  {
    if ops != [] {
      var front, last := ops[..|ops| - 1], ops[|ops| - 1];
      CountersTell(pool, front, k);
      assert ops == front + [last];
      if k in Run(pool, front).entries {
        RunKeeps(pool, front);
        StepRecord(Run(pool, front), last.0, last.1, k, RecordOf(pool, front, k));
      } else {
        StaysOut(Run(pool, front), last.0, last.1, k);
      }
    }
  }

  lemma {:induction false} SweepKeys(r: State, ks: seq<Id>, cause: Cause, now: real)
    ensures Sweep(r, ks, cause, now).entries.Keys == r.entries.Keys
  {
    if ks != [] { SweepKeys(r, ks[..|ks| - 1], cause, now); }
  }

  lemma StaysOut(r: State, op: Op, now: real, k: Id)
    requires k !in r.entries
    ensures k in Step(r, op, now).entries <==> op.Enroll? && op.spec.id == k
    ensures op.Enroll? && op.spec.id == k ==> Holds(Step(r, op, now).entries[k], Record(0, 0, 0.0, false, [], 0))
  {
    if op.Invalidate? { SweepKeys(r, r.order, op.cause, now); }
  }

  // ---------- One operation ----------

  /** An enrolment starts at its weight, or the floor of 0.05, with the budget that goes with it. */
  lemma EnrolTells(r: State, spec: Spec, initial: real, now: real)
    requires spec.id !in r.entries
    ensures var s := Step(r, Enroll(spec, initial), now);
            && s.order == r.order + [spec.id] && spec.id in s.entries
            && var e := s.entries[spec.id];
               && e.spec == spec && e.readiness == Queued && e.weight == (if initial < 0.05 then 0.05 else initial)
               && IsBudget(e.budget, r.pool, e.weight)
               && e.briefing.None? && e.draft.None? && e.traces == [] && e.captured == map[]
               && s.entries == r.entries[spec.id := e]
  {
  }

  /** The token budget of a weight: its share of the pool in whole tokens, but at least 128. */
  predicate IsBudget(budget: int, pool: nat, weight: real) {
    var share := pool as real * weight;
    if share < 129.0 then budget == 128 else budget as real <= share < budget as real + 1.0
  }

  /** A prediction moves one stage on, or to stale from any other stage; that is reported, staling twice over. Any other
      move but to where it is raises and changes nothing. */
  lemma TransitionTells(r: State, k: Id, to: Readiness, now: real)
    requires k in r.entries
    ensures var from, s := r.entries[k].readiness, Step(r, Op.Transition(k, to), now);
            var on := || (from.Queued? && to.Grounding?) || (from.Grounding? && to.EvidenceGathering?)
                      || (from.EvidenceGathering? && to.Drafting?) || (from.Drafting? && to.Ready?)
                      || (!from.Stale? && to.Stale?);
            && s.entries == (if on then r.entries[k := r.entries[k].(readiness := to)] else r.entries)
            && s.log == r.log + (if !on then [] else if to.Stale? then [Event(k, now, ReadinessChanged(from, to)), Event(k, now, Staled)]
                                 else [Event(k, now, ReadinessChanged(from, to))])
            && Raises(r, Op.Transition(k, to)) == if on || from == to then Fine else InvalidTransition
  {
    var from := r.entries[k].readiness;
    assert r.entries[k := r.entries[k]] == r.entries && r.log + [] == r.log;
    TagOne(k, now, ReadinessChanged(from, to));
    TagOne(k, now, Staled);
    TagConcat(k, now, [ReadinessChanged(from, to)], [Staled]);
  }

  lemma TagOne(k: Id, now: real, b: Body)
    ensures Tag(k, now, [b]) == [Event(k, now, b)] && Tag(k, now, []) == []
  {
    assert [b][1..] == [];
  }

  /** The word stands at position i of the text. */
  predicate StandsAt(text: string, word: string, i: int) { 0 <= i <= |text| - |word| && text[i..i + |word|] == word }

  lemma {:induction false} MentionsIff(text: string, word: string)
    ensures Mentions(text, word) <==> exists i :: StandsAt(text, word, i)
  {
    assert word <= text <==> StandsAt(text, word, 0);
    if text != "" {
      MentionsIff(text[1..], word);
      forall i | 0 < i ensures StandsAt(text, word, i) <==> StandsAt(text[1..], word, i - 1) {
        if i <= |text| - |word| { assert text[1..][i - 1..i - 1 + |word|] == text[i..i + |word|]; }
      }
      if i :| StandsAt(text[1..], word, i) { assert StandsAt(text, word, i + 1); }
      if i :| StandsAt(text, word, i) && i != 0 { assert StandsAt(text[1..], word, i - 1); }
    }
  }

  /** A live prediction that the cause concerns. */
  ghost predicate Concerns(cause: Cause, e: Entry) {
    match cause
    case ContextShift => true
    case FileChange(changed, _) => exists p :: p in changed && p in e.captured
    case Commit => e.spec.specificity != "concrete"
    case CategoryShift(category) => category != "" && e.spec.anchor == category
    case Superseded(artefact) =>
      artefact != "" && e.spec.source == "artefact_item" && exists i :: StandsAt(e.spec.description, artefact, i)
    case ComposerGone(session) => session != "" && e.spec.source == "composer_intent" && e.spec.anchor == session
  }

  /** The weight a cause leaves: half after a file change, 0.1 less after a category shift. */
  function Lowered(cause: Cause, weight: real): real {
    match cause
    case FileChange(_, _) => if weight <= 0.0 then 0.0 else weight / 2.0
    case CategoryShift(_) => if weight <= 0.1 then 0.0 else weight - 0.1
    case _ => weight
  }

  lemma BudgetIs(pool: nat, weight: real)
    ensures IsBudget(BudgetFor(pool, weight), pool, weight)
  {
  }

  lemma ChangedIff(changed: set<string>, captured: map<string, string>)
    ensures changed !! captured.Keys <==> !(exists p :: p in changed && p in captured)
  {
    if p :| p in changed && p in captured { assert p in captured.Keys; }
  }

  lemma FadeTells(e: Entry, cause: Cause, pool: nat)
    requires cause.FileChange? || cause.CategoryShift?
    ensures var f := Hit(e, cause, pool).e;
            if e.readiness.Stale? || !Concerns(cause, e) then f == e
            else
              && f.weight == Lowered(cause, e.weight) && (f.readiness.Stale? <==> f.weight < 0.05)
              && (!f.readiness.Stale? ==> f.readiness == e.readiness && IsBudget(f.budget, pool, f.weight))
  {
    if cause.FileChange? { ChangedIff(cause.changed, e.captured); }
    BudgetIs(pool, Lowered(cause, e.weight));
  }

  lemma HitTells(e: Entry, cause: Cause, pool: nat)
    ensures var f := Hit(e, cause, pool).e;
            if e.readiness.Stale? || !Concerns(cause, e) then f == e
            else
              && f.weight == Lowered(cause, e.weight)
              && (f.readiness.Stale? <==> (cause.FileChange? || cause.CategoryShift? ==> f.weight < 0.05))
              && (!f.readiness.Stale? ==> f.readiness == e.readiness && IsBudget(f.budget, pool, f.weight))
  {
    if cause.FileChange? || cause.CategoryShift? { FadeTells(e, cause, pool); }
    if cause.Superseded? { MentionsIff(e.spec.description, cause.artefact); }
  }

  /** A file change drops what was prepared, takes over the new hashes that are known and forgets the other changed paths. */
  lemma HashesTell(e: Entry, cause: Cause, pool: nat, path: string)
    ensures var f := Hit(e, cause, pool).e;
            if e.readiness.Stale? || !cause.FileChange? || !Concerns(cause, e)
            then (f.captured, f.briefing, f.draft) == (e.captured, e.briefing, e.draft)
            else
              && f.briefing == f.draft == None
              && (path in f.captured <==> path in e.captured && (path in cause.hashes || path !in cause.changed))
              && (path in f.captured ==> f.captured[path] == if path in cause.hashes then cause.hashes[path] else e.captured[path])
  {
    if cause.FileChange? { ChangedIff(cause.changed, e.captured); }
  }

  /** What one invalidation does to each prediction of a reached registry. Those it concerns are staled, except that a file
      change and a category shift first lower the weight and stale only below the floor of 0.05; all others are
      left as they were. */
  lemma InvalidationTells(pool: nat, ops: seq<(Op, real)>, cause: Cause, now: real, k: Id)
    requires k in Run(pool, ops).entries
    ensures var e, s := Run(pool, ops).entries[k], Step(Run(pool, ops), Invalidate(cause), now);
            && k in s.entries
            && var f := s.entries[k];
               if e.readiness.Stale? || !Concerns(cause, e) then f == e
               else
                 && f.weight == Lowered(cause, e.weight)
                 && (f.readiness.Stale? <==> (cause.FileChange? || cause.CategoryShift? ==> f.weight < 0.05))
                 && (!f.readiness.Stale? ==> f.readiness == e.readiness && IsBudget(f.budget, pool, f.weight))
  {
    var r := Run(pool, ops);
    RunKeeps(pool, ops);
    SamePool(pool, ops);
    SweepHitsOnce(r, r.order, cause, now, k);
    HitTells(r.entries[k], cause, pool);
  }

  lemma {:induction false} SweepPool(r: State, ks: seq<Id>, cause: Cause, now: real)
    ensures Sweep(r, ks, cause, now).pool == r.pool
  {
    if ks != [] { SweepPool(r, ks[..|ks| - 1], cause, now); }
  }

  lemma {:induction false} SamePool(pool: nat, ops: seq<(Op, real)>)
    ensures Run(pool, ops).pool == pool
  {
    if ops != [] {
      var r, last := Run(pool, ops[..|ops| - 1]), ops[|ops| - 1];
      SamePool(pool, ops[..|ops| - 1]);
      if last.0.Invalidate? { SweepPool(r, r.order, last.0.cause, last.1); }
    }
  }

  // ---------- An item's new state ----------

  predicate AnchoredTo(r: State, item: string, k: Id) {
    k in r.entries && r.entries[k].spec.source == "artefact_item" && r.entries[k].spec.anchor == item
  }

  lemma {:induction false} AnchoredFirst(r: State, ks: seq<Id>, item: string, i: nat)
    requires i <= |ks| && forall j :: 0 <= j < i ==> !AnchoredTo(r, item, ks[j])
    requires i < |ks| ==> AnchoredTo(r, item, ks[i])
    ensures Anchored(r.entries, ks, item) == if i < |ks| then Some(ks[i]) else None
  {
    if i > 0 {
      assert !AnchoredTo(r, item, ks[0]);
      AnchoredFirst(r, ks[1..], item, i - 1);
    }
  }

  /** An item's new state acts on the first prediction enrolled that is anchored to it, if there is one: completion adopts
      it, a contradiction stales it at a quarter of its weight, a stall halves its weight. */
  lemma ItemTells(r: State, item: string, verdict: string, now: real, i: nat)
    requires i <= |r.order| && forall j :: 0 <= j < i ==> !AnchoredTo(r, item, r.order[j])
    requires i < |r.order| ==> AnchoredTo(r, item, r.order[i])
    ensures var s := Step(r, ItemDelta(item, verdict), now);
            if i == |r.order| then s == r
            else
              var k := r.order[i];
              var e := r.entries[k];
              && s.order == r.order && s.entries.Keys == r.entries.Keys
              && (forall j :: j in r.entries && j != k ==> s.entries[j] == r.entries[j])
              && s.entries[k].spent == (e.spent || verdict == "complete")
              && s.entries[k].evidence == e.evidence + (if verdict == "complete" then 1.0 else 0.0)
              && s.entries[k].readiness == (if verdict == "contradicted" then Stale else e.readiness)
              && s.entries[k].weight == (if verdict == "contradicted" then if e.weight <= 0.0 then 0.0 else e.weight / 4.0
                                         else if verdict == "stalled" then if e.weight <= 0.0 then 0.0 else e.weight / 2.0
                                         else e.weight)
  {
    AnchoredFirst(r, r.order, item, i);
  }

  /** What an artefact leaves in the entry; each kind given is reported, in this order. */
  lemma ArtefactTells(r: State, k: Id, draft: Option<string>, briefing: Option<string>, thinking: Option<string>,
                      hashes: map<string, string>, now: real, path: string)
    requires k in r.entries
    ensures var s := Step(r, AttachArtifact(k, draft, briefing, thinking, hashes), now);
            && k in s.entries
            && var e, f := r.entries[k], s.entries[k];
               && (f.spec, f.weight, f.budget, f.readiness) == (e.spec, e.weight, e.budget, e.readiness)
               && f.draft == (if draft.Some? then draft else e.draft)
               && f.briefing == (if briefing.Some? then briefing else e.briefing)
               && (path in f.captured <==> path in e.captured || path in hashes)
               && (path in f.captured ==> f.captured[path] == if path in hashes then hashes[path] else e.captured[path])
               && (thinking.None? ==> f.traces == e.traces)
  {
  }

  lemma ArtefactReports(r: State, k: Id, draft: Option<string>, briefing: Option<string>, thinking: Option<string>,
                        hashes: map<string, string>, now: real)
    requires k in r.entries
    ensures var s := Step(r, AttachArtifact(k, draft, briefing, thinking, hashes), now);
            s.log == r.log + (if draft.Some? then [Event(k, now, ArtifactAdded("draft"))] else [])
                           + (if briefing.Some? then [Event(k, now, ArtifactAdded("briefing"))] else [])
                           + (if thinking.Some? then [Event(k, now, ArtifactAdded("thinking"))] else [])
  {
    KindTag(k, now, "draft", draft.Some?);
    KindTag(k, now, "briefing", briefing.Some?);
    KindTag(k, now, "thinking", thinking.Some?);
    var a, b := KindIf("draft", draft.Some?), KindIf("briefing", briefing.Some?);
    TagConcat(k, now, a + b, KindIf("thinking", thinking.Some?));
    TagConcat(k, now, a, b);
    FourParts(r.log, Tag(k, now, a), Tag(k, now, b), Tag(k, now, KindIf("thinking", thinking.Some?)));
  }

  function KindIf(kind: string, given: bool): seq<Body> { if given then [ArtifactAdded(kind)] else [] }

  lemma KindTag(k: Id, now: real, kind: string, given: bool)
    ensures Tag(k, now, KindIf(kind, given)) == if given then [Event(k, now, ArtifactAdded(kind))] else []
  {
    TagOne(k, now, ArtifactAdded(kind));
  }

  lemma FourParts(log: seq<Event>, a: seq<Event>, b: seq<Event>, d: seq<Event>)
    ensures log + (a + b + d) == log + a + b + d
  {
  }

  lemma {:induction false} TagConcat(k: Id, now: real, a: seq<Body>, b: seq<Body>)
    ensures Tag(k, now, a + b) == Tag(k, now, a) + Tag(k, now, b)
  {
    if a == [] {
      assert a + b == b;
    } else {
      assert (a + b)[1..] == a[1..] + b;
      TagConcat(k, now, a[1..], b);
    }
  }

  // ---------- Shares ----------

  /** Evidence, if there is any, per token spent. */
  function Earned(e: Entry): real {
    (if e.evidence <= 0.0 then 0.0 else e.evidence) / (if e.tokensUsed <= 1 then 1.0 else e.tokensUsed as real)
  }

  lemma EarnedIsYield(e: Entry)
    ensures Earned(e) == Yield(e)
  {
  }

  lemma InProportion(a: real, b: real, total: real)
    requires total > 0.0
    ensures (a / total) * b == (b / total) * a
  {
    assert (a / total) * b == (a * b) / total;
    assert (b / total) * a == (b * a) / total;
  }

  lemma ShareTells(r: State, k: Id)
    requires TotalYield(r.entries, r.order) > 0.0 && k in r.entries && !r.entries[k].readiness.Stale?
    ensures var s := Step(r, Rebalance, 0.0);
            && k in s.entries && s.entries[k].weight >= 0.05 && IsBudget(s.entries[k].budget, r.pool, s.entries[k].weight)
            && (s.entries[k].weight > 0.05 ==> s.entries[k].weight == Earned(r.entries[k]) / TotalYield(r.entries, r.order))
  {
    EarnedIsYield(r.entries[k]);
    BudgetIs(r.pool, Step(r, Rebalance, 0.0).entries[k].weight);
  }

  /** A rebalance on any evidence leaves each live prediction with the floor of 0.05 or more, and those above it in
      proportion to the evidence each has earned per token. */
  lemma SharesTell(r: State, j: Id, k: Id)
    requires TotalYield(r.entries, r.order) > 0.0
    requires j in r.entries && !r.entries[j].readiness.Stale?
    requires k in r.entries && !r.entries[k].readiness.Stale?
    ensures var s := Step(r, Rebalance, 0.0);
            && j in s.entries && k in s.entries && s.entries[j].weight >= 0.05
            && IsBudget(s.entries[j].budget, r.pool, s.entries[j].weight)
            && (s.entries[j].weight > 0.05 && s.entries[k].weight > 0.05 ==>
                  s.entries[j].weight * Earned(r.entries[k]) == s.entries[k].weight * Earned(r.entries[j]))
  {
    ShareTells(r, j);
    ShareTells(r, k);
    InProportion(Earned(r.entries[j]), Earned(r.entries[k]), TotalYield(r.entries, r.order));
  }

  /** Without any evidence it changes nothing. */
  lemma {:induction false} NoEvidence(entries: map<Id, Entry>, ks: seq<Id>)
    ensures TotalYield(entries, ks) > 0.0 <==>
            exists k :: k in ks && k in entries && !entries[k].readiness.Stale? && entries[k].evidence > 0.0
  {
    if ks != [] {
      var front, k := ks[..|ks| - 1], ks[|ks| - 1];
      NoEvidence(entries, front);
      assert ks == front + [k];
    }
  }

  // ---------- Traces ----------

  lemma {:induction false} ShortenedAt(ts: seq<string>, i: nat)
    requires i < |ts|
    ensures |AllShortened(ts)| == |ts| && AllShortened(ts)[i] == Shortened(ts[i])
  {
    var n := |ts| - 1;
    if i < n { ShortenedAt(ts[..n], i); } else if n > 0 { ShortenedAt(ts[..n], 0); }
  }

  /** The ring buffer place by place: the newest ten traces, or all, oldest first. */
  lemma RingTells(ts: seq<string>, i: nat)
    requires i < |RingAfter(ts)|
    ensures |RingAfter(ts)| == if |ts| < 10 then |ts| else 10
    ensures RingAfter(ts)[i] == Shortened(ts[|ts| - |RingAfter(ts)| + i])
  {
    RingHoldsNewest(ts);
    if ts != [] { ShortenedAt(ts, 0); }
    NewestAt(AllShortened(ts), 10, i);
    ShortenedAt(ts, |ts| - |RingAfter(ts)| + i);
  }

  lemma NewestAt<T>(ts: seq<T>, n: nat, i: nat)
    requires i < |Newest(ts, n)|
    ensures |Newest(ts, n)| == (if |ts| < n then |ts| else n) && Newest(ts, n)[i] == ts[|ts| - |Newest(ts, n)| + i]
  {
  }

  lemma {:induction false} StrippedIs(t: string, n: nat)
    requires n <= |t| && (n > 0 ==> !Space(t[n - 1])) && forall i :: n <= i < |t| ==> Space(t[i])
    ensures RightStripped(t) == t[..n]
  {
    if n < |t| {
      StrippedIs(t[..|t| - 1], n);
      assert t[..|t| - 1][..n] == t[..n];
    } else {
      assert t[..n] == t;
    }
  }

  /** A trace of up to 32000 characters is kept whole; of a longer one the first 32000 without the white space at their
      end, and an ellipsis. */
  lemma ShortenedTells(t: string, n: nat)
    requires n <= |t| && n <= 32000 && (n > 0 ==> !Space(t[n - 1])) && forall i :: n <= i < |t| && i < 32000 ==> Space(t[i])
    ensures Shortened(t) == if |t| <= 32000 then t else t[..n] + "\U{2026}"
  {
    if |t| > 32000 {
      StrippedIs(t[..32000], n);
      assert t[..32000][..n] == t[..n];
    }
  }
}
