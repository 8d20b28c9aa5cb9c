/** The prediction registry as an object updated in place (src/vaner/intent/prediction_registry.py), proved
    against the steps of module Registry. The listener is the list of events it has been handed. */
module LiveRegistry {
  import opened Common
  import opened Replay
  import opened Registry

  class PredictionRegistry {
    const pool: nat
    var order: seq<Id>
    var predictions: map<Id, Entry>
    var heard: seq<Event>

    ghost function Now(): State reads this { State(pool, order, predictions, heard) }

    constructor (pool: nat)
      ensures Now() == Start(pool)
    {
      this.pool := pool;
      order, predictions, heard := [], map[], [];
    }

    method Emit(k: Id, b: Body, now: real)
      modifies this`heard
      ensures heard == old(heard) + Tag(k, now, [b])
    {
      assert [b][1..] == [];
      heard := heard + [Event(k, now, b)];
    }

    /** Stores an entry and reports about it in order. */
    method Report(k: Id, t: Touched, now: real)
      modifies this`predictions, this`heard
      ensures Now() == Put(old(Now()), k, t, now)
    {
      predictions := predictions[k := t.e];
      for i := 0 to |t.out|
        invariant predictions == old(predictions)[k := t.e]
        invariant heard == old(heard) + Tag(k, now, t.out[..i])
      {
        TagGrows(k, now, t.out[..i], t.out[i]);
        assert t.out[..i + 1] == t.out[..i] + [t.out[i]];
        Emit(k, t.out[i], now);
      }
      assert t.out[..|t.out|] == t.out;
    }

    method Enroll(spec: Spec, initial: real, now: real) returns (raised: Failure)
      modifies this
      ensures raised == Raises(old(Now()), Op.Enroll(spec, initial))
      ensures Now() == Step(old(Now()), Op.Enroll(spec, initial), now)
    {
      if spec.id in predictions {
        return ValueError;
      }
      var weight := MaxReal(FLOOR_WEIGHT, initial);
      var budget := BudgetFor(pool, weight);
      order := order + [spec.id];
      predictions := predictions[spec.id := Entry(spec, weight, budget, 0, 0, [], 0, Queued, false, 0.0, map[], None, None, [])];
      Emit(spec.id, Enrolled(Facts(spec.title, spec.source, spec.confidence, weight, spec.hypothesis, spec.specificity), budget), now);
      return Fine;
    }

    /** _transition: nothing for a prediction already there, an error for an illegal move. */
    method MoveReadiness(k: Id, to: Readiness, now: real) returns (raised: Failure)
      requires k in predictions
      modifies this`predictions, this`heard
      ensures Now() == Put(old(Now()), k, MoveTo(old(predictions[k]), to), now)
      ensures raised == if old(predictions[k].readiness) != to && !Allowed(old(predictions[k].readiness), to)
                        then InvalidTransition else Fine
    {
      var from := predictions[k].readiness;
      if from == to || !Allowed(from, to) {
        assert predictions == predictions[k := predictions[k]] && heard + [] == heard;
        return if from == to then Fine else InvalidTransition;
      }
      predictions := predictions[k := predictions[k].(readiness := to)];
      Emit(k, ReadinessChanged(from, to), now);
      if to.Stale? {
        TagGrows(k, now, [ReadinessChanged(from, to)], Staled);
        Emit(k, Staled, now);
      }
      return Fine;
    }

    method Transition(id: Id, to: Readiness, now: real) returns (raised: Failure)
      modifies this
      ensures raised == Raises(old(Now()), Op.Transition(id, to))
      ensures Now() == Step(old(Now()), Op.Transition(id, to), now)
    {
      if id !in predictions {
        return KeyError;
      }
      raised := MoveReadiness(id, to, now);
    }

    method AttachScenario(id: Id, scenario: string, now: real) returns (raised: Failure)
      modifies this
      ensures raised == Raises(old(Now()), Op.AttachScenario(id, scenario))
      ensures Now() == Step(old(Now()), Op.AttachScenario(id, scenario), now)
    {
      if id !in predictions {
        return KeyError;
      }
      var e := predictions[id];
      if scenario in e.scenarioIds {
        assert predictions == predictions[id := e] && heard + [] == heard;
        return Fine;
      }
      predictions := predictions[id := e.(scenarioIds := e.scenarioIds + [scenario])];
      if e.readiness.Queued? {
        raised := MoveReadiness(id, Grounding, now);
      } else {
        assert heard + [] == heard;
        raised := Fine;
      }
    }

    method CompleteScenario(id: Id, scenario: string, now: real) returns (raised: Failure)
      modifies this
      ensures raised == Raises(old(Now()), Op.CompleteScenario(id, scenario))
      ensures Now() == Step(old(Now()), Op.CompleteScenario(id, scenario), now)
    {
      if id !in predictions {
        return KeyError;
      }
      var e := predictions[id];
      if scenario in e.scenarioIds {
        predictions := predictions[id := e.(scenariosComplete := e.scenariosComplete + 1)];
      }
      assert predictions == old(predictions)[id := predictions[id]] && heard + [] == heard;
      return Fine;
    }

    method RecordCall(id: Id, tokens: int, now: real) returns (raised: Failure)
      modifies this
      ensures raised == Raises(old(Now()), Op.RecordCall(id, tokens))
      ensures Now() == Step(old(Now()), Op.RecordCall(id, tokens), now)
    {
      if id !in predictions {
        return KeyError;
      }
      var e := predictions[id];
      e := e.(modelCalls := e.modelCalls + 1);
      e := e.(tokensUsed := e.tokensUsed + if tokens < 0 then 0 else tokens);
      predictions := predictions[id := e];
      Emit(id, Progress(Counts(e.tokensUsed, e.budget, e.scenariosComplete, e.evidence, e.modelCalls)), now);
      return Fine;
    }

    method RecordEvidence(id: Id, delta: real, now: real) returns (raised: Failure)
      modifies this
      ensures raised == Raises(old(Now()), Op.RecordEvidence(id, delta))
      ensures Now() == Step(old(Now()), Op.RecordEvidence(id, delta), now)
    {
      if id !in predictions {
        return KeyError;
      }
      var e := predictions[id];
      e := e.(evidence := e.evidence + delta);
      predictions := predictions[id := e];
      Emit(id, Progress(Counts(e.tokensUsed, e.budget, e.scenariosComplete, e.evidence, e.modelCalls)), now);
      return Fine;
    }

    method RecordAdoption(id: Id, now: real)
      modifies this
      ensures Now() == Step(old(Now()), Op.RecordAdoption(id), now)
    {
      if id in predictions {
        var e := predictions[id];
        predictions := predictions[id := e.(evidence := e.evidence + 1.0, spent := true)];
        Emit(id, ArtifactAdded("adoption"), now);
      }
    }

    static method AddTrace(old_: seq<string>, thinking: string) returns (traces: seq<string>)
      ensures traces == Ring(old_, thinking)
    {
      traces := old_ + [Shortened(thinking)];
      if |traces| > MAX_TRACES {
        var overflow := |traces| - MAX_TRACES;
        traces := traces[overflow..];
      }
    }

    /** What is given goes into the entry, and the kinds to report are collected. */
    static method Gather(given: Entry, draft: Option<string>, briefing: Option<string>, thinking: Option<string>,
                         hashes: map<string, string>) returns (e: Entry, kinds: seq<Body>)
      ensures Touched(e, kinds) == Attached(given, draft, briefing, thinking, hashes)
    {
      e, kinds := given, [];
      if draft.Some? {
        e := e.(draft := draft);
        kinds := kinds + [ArtifactAdded("draft")];
      }
      if briefing.Some? {
        e := e.(briefing := briefing);
        kinds := kinds + [ArtifactAdded("briefing")];
      }
      if thinking.Some? {
        var traces := AddTrace(e.traces, thinking.value);
        e := e.(traces := traces);
        kinds := kinds + [ArtifactAdded("thinking")];
      }
      if hashes != map[] {
        e := e.(captured := e.captured + hashes);
      }
      assert e.captured == given.captured + hashes;
    }

    method AttachArtifact(id: Id, draft: Option<string>, briefing: Option<string>, thinking: Option<string>,
                          hashes: map<string, string>, now: real) returns (raised: Failure)
      modifies this
      ensures raised == Raises(old(Now()), Op.AttachArtifact(id, draft, briefing, thinking, hashes))
      ensures Now() == Step(old(Now()), Op.AttachArtifact(id, draft, briefing, thinking, hashes), now)
    {
      if id !in predictions {
        return KeyError;
      }
      var e, kinds := Gather(predictions[id], draft, briefing, thinking, hashes);
      Report(id, Touched(e, kinds), now);
      return Fine;
    }

    /** stale_all and the population-wide invalidation signals: every prediction in turn. */
    method Invalidate(cause: Cause, now: real)
      modifies this
      ensures Now() == Step(old(Now()), Op.Invalidate(cause), now)
    {
      var ks := order;
      for i := 0 to |ks|
        invariant Now() == Sweep(old(Now()), ks[..i], cause, now)
      {
        assert ks[..i + 1][..i] == ks[..i];
        if ks[i] in predictions {
          Report(ks[i], Hit(predictions[ks[i]], cause, pool), now);
        }
      }
      assert ks[..|ks|] == ks;
    }

    method ApplyItemStateDelta(item: string, verdict: string, now: real)
      modifies this
      ensures Now() == Step(old(Now()), Op.ItemDelta(item, verdict), now)
    {
      for i := 0 to |order|
        invariant Now() == old(Now())
        invariant Anchored(predictions, order, item) == Anchored(predictions, order[i..], item)
      {
        var k := order[i];
        assert order[i..][0] == k && order[i..][1..] == order[i + 1..];
        if k in predictions && predictions[k].spec.source == "artefact_item" && predictions[k].spec.anchor == item {
          var e := predictions[k];
          if verdict == "complete" {
            RecordAdoption(k, now);
          } else if verdict == "contradicted" {
            predictions := predictions[k := e.(weight := MaxReal(0.0, e.weight * 0.25))];
            var _ := MoveReadiness(k, Stale, now);
          } else if verdict == "stalled" {
            predictions := predictions[k := e.(weight := MaxReal(0.0, e.weight * 0.5))];
            assert heard + [] == heard;
          } else {
            assert predictions == predictions[k := e] && heard + [] == heard;
          }
          return;
        }
      }
    }

    method SumOfYields() returns (total: real)
      ensures total == TotalYield(predictions, order)
    {
      total := 0.0;
      for i := 0 to |order|
        invariant total == TotalYield(predictions, order[..i])
      {
        assert order[..i + 1][..i] == order[..i];
        if order[i] in predictions && !predictions[order[i]].readiness.Stale? {
          total := total + Yield(predictions[order[i]]);
        }
      }
      assert order[..|order|] == order;
    }

    /** Gives each live prediction its share, in order. */
    method Spread(total: real)
      requires total > 0.0
      requires forall k :: k in order <==> k in predictions
      requires forall i, j :: 0 <= i < j < |order| ==> order[i] != order[j]
      modifies this`predictions
      ensures predictions == map k | k in old(predictions) :: Reweighted(old(predictions)[k], total, pool)
    {
      ghost var was := predictions;
      for i := 0 to |order|
        invariant predictions.Keys == was.Keys
        invariant forall j :: 0 <= j < i ==> predictions[order[j]] == Reweighted(was[order[j]], total, pool)
        invariant forall j :: i <= j < |order| ==> predictions[order[j]] == was[order[j]]
      {
        var k := order[i];
        var e := predictions[k];
        if !e.readiness.Stale? {
          var weight := MaxReal(FLOOR_WEIGHT, Yield(e) / total);
          predictions := predictions[k := e.(weight := weight, budget := BudgetFor(pool, weight))];
        }
      }
    }

    method Rebalance()
      requires Inv(Now())
      modifies this
      ensures Now() == Step(old(Now()), Op.Rebalance, 0.0)
    {
      var total := SumOfYields();
      if total > 0.0 {
        Spread(total);
      }
    }
  }

  lemma {:induction false} TagGrows(k: Id, now: real, out: seq<Body>, b: Body)
    ensures Tag(k, now, out + [b]) == Tag(k, now, out) + Tag(k, now, [b])
    decreases |out|
  {
    if out == [] {
      assert [] + [b] == [b];
    } else {
      assert (out + [b])[1..] == out[1..] + [b];
      TagGrows(k, now, out[1..], b);
    }
  }
}
