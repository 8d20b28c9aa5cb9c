/** Boosts of preferred sources (src/vaner/engine.py, _sync_pinned_facts): undone and reapplied at every sync. */
module Boosts {

  const BOOST := 0.1
  const CEILING := 2.0
  const BOTTOM := 0.3
  const HIT_RATE := 1.05
  const MISS_RATE := 0.95

  /** Source multipliers and the deltas the last sync added to them. */
  datatype Table = Table(multipliers: map<string, real>, applied: map<string, real>)

  function Min(a: real, b: real): (r: real)
    ensures r <= a && r <= b && (r == a || r == b)
  {
    if a <= b then a else b
  }

  function Max(a: real, b: real): (r: real)
    ensures a <= r && b <= r && (r == a || r == b)
  {
    if a <= b then b else a
  }

  function Get(m: map<string, real>, s: string, otherwise: real): real { if s in m then m[s] else otherwise }

  function Multiplier(t: Table, s: string): real { Get(t.multipliers, s, 1.0) }

  function Undone(t: Table): Table {
    Table(map s | s in t.multipliers.Keys + t.applied.Keys ::
            if s in t.applied then Max(BOTTOM, Multiplier(t, s) - t.applied[s]) else t.multipliers[s],
          map[])
  }

  function BoostOne(t: Table, s: string): Table {
    if s == "" then t
    else
      var current := Multiplier(t, s);
      var updated := Min(CEILING, current + BOOST);
      Table(t.multipliers[s := updated], t.applied[s := Get(t.applied, s, 0.0) + (updated - current)])
  }

  function BoostAll(t: Table, facts: seq<string>): Table {
    if facts == [] then t else BoostOne(BoostAll(t, facts[..|facts| - 1]), facts[|facts| - 1])
  }

  function Synced(t: Table, facts: seq<string>): Table { BoostAll(Undone(t), facts) }

  function Rated(x: real, hit: bool): real {
    if hit then Min(CEILING, x * HIT_RATE) else Max(BOTTOM, x * MISS_RATE)
  }

  /** The multipliers after feedback on one source. */
  function Rerated(m: map<string, real>, source: string, hit: bool): map<string, real> {
    m[source := Rated(Get(m, source, 1.0), hit)]
  }

  class SourceBoosts {
    var multipliers: map<string, real>
    var applied: map<string, real>

    ghost function Now(): Table reads this { Table(multipliers, applied) }

    constructor (multipliers: map<string, real>)
      ensures Now() == Table(multipliers, map[])
    {
      this.multipliers, applied := multipliers, map[];
    }

    /** Takes back what the last sync added. */
    method Undo()
      modifies this
      ensures Now() == Undone(old(Now()))
    {
      var left := applied.Keys;
      ghost var was := multipliers;
      while left != {}
        invariant left <= applied.Keys && applied == old(applied)
        invariant multipliers.Keys == was.Keys + (applied.Keys - left)
        invariant forall s :: s in multipliers ==>
          multipliers[s] == if s in applied && s !in left then Max(BOTTOM, Get(was, s, 1.0) - applied[s]) else was[s]
        decreases left
      {
        var s :| s in left;
        var current := if s in multipliers then multipliers[s] else 1.0;
        multipliers := multipliers[s := Max(BOTTOM, current - applied[s])];
        left := left - {s};
      }
      applied := map[];
    }

    /** record_source_feedback: it knows nothing of the deltas. */
    method RecordFeedback(source: string, hit: bool)
      modifies this`multipliers
      ensures multipliers == Rerated(old(multipliers), source, hit)
      ensures var x := if source in old(multipliers) then old(multipliers)[source] else 1.0;
              multipliers == old(multipliers)[source :=
                if hit then if x * 1.05 <= 2.0 then x * 1.05 else 2.0 else if x * 0.95 >= 0.3 then x * 0.95 else 0.3]
    {
      var current := if source in multipliers then multipliers[source] else 1.0;
      multipliers := multipliers[source := if hit then Min(CEILING, current * HIT_RATE) else Max(BOTTOM, current * MISS_RATE)];
    }

    method Sync(facts: seq<string>)
      modifies this
      ensures Now() == Synced(old(Now()), facts)
    {
      Undo();
      ghost var undone := Now();
      for i := 0 to |facts|
        invariant Now() == BoostAll(undone, facts[..i])
      {
        assert facts[..i + 1][..i] == facts[..i];
        var s := facts[i];
        if s != "" {
          var current := if s in multipliers then multipliers[s] else 1.0;
          var updated := Min(CEILING, current + BOOST);
          multipliers := multipliers[s := updated];
          applied := applied[s := (if s in applied then applied[s] else 0.0) + (updated - current)];
        }
      }
      assert facts[..|facts|] == facts;
    }
  }

  // ---------- What syncing amounts to ----------

  function Count(facts: seq<string>, s: string): nat {
    if facts == [] then 0
    else Count(facts[..|facts| - 1], s) + if s != "" && facts[|facts| - 1] == s then 1 else 0
  }

  /** A multiplier boosted n times over: 0.1 each time, up to 2. */
  function Boosted(base: real, n: nat): real {
    if n == 0 then base else if base + 0.1 * n as real <= 2.0 then base + 0.1 * n as real else 2.0
  }

  /** Some sync of the run boosted s. */
  predicate EverBoosted(runs: seq<seq<string>>, s: string) {
    runs != [] && (EverBoosted(runs[..|runs| - 1], s) || Count(runs[|runs| - 1], s) > 0)
  }

  /** What is left of a source's multiplier once every sync of the run is undone. */
  function Base(m: map<string, real>, runs: seq<seq<string>>, s: string): real {
    var x := if s in m then m[s] else 1.0;
    if EverBoosted(runs, s) && x < 0.3 then 0.3 else x
  }

  /** For source s, the table holds the base left by the earlier syncs, boosted once for every mention in facts,
      and knows by how much. */
  ghost predicate Holds(t: Table, m: map<string, real>, runs: seq<seq<string>>, facts: seq<string>, s: string) {
    && Multiplier(t, s) == Boosted(Base(m, runs, s), Count(facts, s))
    && (s in t.applied <==> Count(facts, s) > 0)
    && (s in t.applied ==> t.applied[s] == Multiplier(t, s) - Base(m, runs, s))
  }

  ghost predicate Carries(t: Table, m: map<string, real>, runs: seq<seq<string>>, facts: seq<string>) {
    forall s :: Holds(t, m, runs, facts, s)
  }

  lemma {:induction false} BoostAllCarries(t: Table, m: map<string, real>, runs: seq<seq<string>>, facts: seq<string>)
    requires Carries(t, m, runs, [])
    ensures Carries(BoostAll(t, facts), m, runs, facts)
  {
    if facts != [] {
      var front, f := facts[..|facts| - 1], facts[|facts| - 1];
      BoostAllCarries(t, m, runs, front);
      var u := BoostAll(t, front);
      forall s
        ensures Holds(BoostOne(u, f), m, runs, facts, s)
      {
        assert Holds(u, m, runs, front, s);
      }
    }
  }

  /** Taking a boost back restores the base, raised to the bottom where something was boosted. */
  lemma UndoneCarries(t: Table, m: map<string, real>, runs: seq<seq<string>>, facts: seq<string>)
    requires Carries(t, m, runs, facts)
    ensures Carries(Undone(t), m, runs + [facts], [])
  {
    forall s
      ensures Holds(Undone(t), m, runs + [facts], [], s)
    {
      assert Holds(t, m, runs, facts, s);
    }
  }

  function Start(m: map<string, real>): Table { Table(m, map[]) }

  function SyncedAll(m: map<string, real>, runs: seq<seq<string>>): Table {
    if runs == [] then Start(m) else Synced(SyncedAll(m, runs[..|runs| - 1]), runs[|runs| - 1])
  }

  /** Over any run of syncs, the table is the original one, raised to the bottom where an earlier sync boosted,
      with the last facts' boosts on top: nothing else of the earlier syncs survives. */
  lemma {:induction false} SyncsForget(m: map<string, real>, runs: seq<seq<string>>, last: seq<string>)
    ensures Carries(SyncedAll(m, runs + [last]), m, runs, last)
  {
    var t := SyncedAll(m, runs);
    assert (runs + [last])[..|runs|] == runs;
    if runs != [] {
      var front, f := runs[..|runs| - 1], runs[|runs| - 1];
      assert front + [f] == runs;
      SyncsForget(m, front, f);
      UndoneCarries(t, m, front, f);
    }
    BoostAllCarries(Undone(t), m, runs, last);
  }

  /** After the run, the last facts give source s the multiplier they would give it on the original table. */
  ghost predicate Exact(m: map<string, real>, runs: seq<seq<string>>, last: seq<string>, s: string) {
    Multiplier(SyncedAll(m, runs + [last]), s) == Multiplier(SyncedAll(m, [last]), s)
  }

  /** Source s started at the bottom or above, or is boosted to the ceiling anyway. */
  predicate Recovers(m: map<string, real>, last: seq<string>, s: string) {
    Get(m, s, 1.0) >= 0.3 || Get(m, s, 1.0) + 0.1 * Count(last, s) as real >= 2.0
  }

  lemma ExactAt(m: map<string, real>, runs: seq<seq<string>>, last: seq<string>, s: string)
    ensures Exact(m, runs, last, s) <==> (EverBoosted(runs, s) ==> Recovers(m, last, s))
  {
    SyncsForget(m, runs, last);
    SyncsForget(m, [], last);
    assert [] + [last] == [last];
    assert Holds(SyncedAll(m, runs + [last]), m, runs, last, s);
    assert Holds(SyncedAll(m, [last]), m, [], last, s);
  }

  /** Undo is exact over a run if and only if every source the run boosted recovers. */
  lemma ExactIff(m: map<string, real>, runs: seq<seq<string>>, last: seq<string>)
    ensures (forall s :: Exact(m, runs, last, s)) <==> (forall s :: EverBoosted(runs, s) ==> Recovers(m, last, s))
  {
    forall s
      ensures Exact(m, runs, last, s) <==> (EverBoosted(runs, s) ==> Recovers(m, last, s))
    {
      ExactAt(m, runs, last, s);
    }
  }

  /** Withdrawing every fact restores the original table exactly when no boosted source started below the bottom. */
  lemma RestoredIff(m: map<string, real>, runs: seq<seq<string>>)
    ensures (forall s :: Multiplier(SyncedAll(m, runs + [[]]), s) == Get(m, s, 1.0))
       <==> (forall s :: EverBoosted(runs, s) ==> Get(m, s, 1.0) >= 0.3)
  {
    SyncsForget(m, runs, []);
    forall s
      ensures Multiplier(SyncedAll(m, runs + [[]]), s) == Get(m, s, 1.0)
         <==> (EverBoosted(runs, s) ==> Get(m, s, 1.0) >= BOTTOM)
    {
      assert Holds(SyncedAll(m, runs + [[]]), m, runs, [], s);
    }
  }

  // ---------- Across restarts ----------

  function Clamped(x: real): real { Max(BOTTOM, Min(CEILING, x)) }

  /** The saved multipliers as they are loaded again. */
  function Loaded(m: map<string, real>): map<string, real> { map s | s in m :: Clamped(m[s]) }

  /** One start of the engine: the saved multipliers are loaded, but no deltas, and the facts synced. */
  function Started(saved: map<string, real>, facts: seq<string>): map<string, real> {
    Synced(Start(Loaded(saved)), facts).multipliers
  }

  function AfterRestarts(m: map<string, real>, facts: seq<string>, restarts: nat): map<string, real> {
    if restarts == 0 then Started(m, facts) else Started(AfterRestarts(m, facts, restarts - 1), facts)
  }

  lemma OneStart(saved: map<string, real>, facts: seq<string>, s: string)
    ensures Get(Started(saved, facts), s, 1.0) == Boosted(Clamped(Get(saved, s, 1.0)), Count(facts, s))
  {
  }

  lemma {:induction false} Compounds(m: map<string, real>, facts: seq<string>, restarts: nat, s: string)
    ensures Get(AfterRestarts(m, facts, restarts), s, 1.0)
         == Boosted(Clamped(Get(m, s, 1.0)), Times(restarts + 1, Count(facts, s)))
  {
    var base, n := Clamped(Get(m, s, 1.0)), Count(facts, s);
    if restarts == 0 {
      OneStart(m, facts, s);
      assert Times(1, n) == Times(0, n) + n == n;
    } else {
      Compounds(m, facts, restarts - 1, s);
      OneStart(AfterRestarts(m, facts, restarts - 1), facts, s);
      assert Times(restarts + 1, n) == Times(restarts, n) + n;
    }
  }

  function Times(k: nat, n: nat): nat { if k == 0 then 0 else Times(k - 1, n) + n }

  lemma {:induction false} TimesIsProduct(k: nat, n: nat)
    ensures Times(k, n) == k * n
  {
    if k > 0 {
      TimesIsProduct(k - 1, n);
      assert (k - 1) * n + n == k * n;
    }
  }

  /** Across restarts the boost is not undone but compounds, once per restart, up to the ceiling. Where the policy is
      loaded, a saved multiplier is first brought between 0.3 and 2. */
  lemma RestartsCompound(m: map<string, real>, facts: seq<string>, restarts: nat, s: string)
    ensures var x := if s in m then m[s] else 1.0;
            var loaded := if x < 0.3 then 0.3 else if 2.0 < x then 2.0 else x;
            Get(AfterRestarts(m, facts, restarts), s, 1.0) == Boosted(loaded, (restarts + 1) * Count(facts, s))
  {
    Compounds(m, facts, restarts, s);
    TimesIsProduct(restarts + 1, Count(facts, s));
  }

}
