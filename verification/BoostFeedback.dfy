/** Source multipliers over whole runs: policy loads, hit and miss feedback, and syncs of pinned facts. Which tables
    are reached, and when taking a boost back is exact although something else wrote in between. */
module BoostFeedback {
  import opened Boosts

  /** A load replaces the policy but not the deltas; a restart is a load with no deltas (AfterRestarts). */
  datatype Op = Sync(facts: seq<string>) | Feedback(source: string, hit: bool) | Load(saved: map<string, real>)

  /** The multipliers when the syncs are left out. */
  function DoUnboosted(m: map<string, real>, op: Op): map<string, real> {
    match op
    case Sync(_) => m
    case Feedback(source, hit) => Rerated(m, source, hit)
    case Load(saved) => Loaded(saved)
  }

  function Do(t: Table, op: Op): Table {
    match op
    case Sync(facts) => Synced(t, facts)
    case Feedback(source, hit) => Table(Rerated(t.multipliers, source, hit), t.applied)
    case Load(saved) => Table(Loaded(saved), t.applied)
  }

  function Run(m: map<string, real>, ops: seq<Op>): Table {
    if ops == [] then Start(Loaded(m)) else Do(Run(m, ops[..|ops| - 1]), ops[|ops| - 1])
  }

  /** The multipliers of the same run without its syncs. */
  function Unboosted(m: map<string, real>, ops: seq<Op>): map<string, real> {
    if ops == [] then Loaded(m)
    else DoUnboosted(Unboosted(m, ops[..|ops| - 1]), ops[|ops| - 1])
  }

  // ---------- The tables that are reached ----------

  ghost predicate InRange(t: Table) {
    && (forall s :: 0.3 <= Multiplier(t, s) <= 2.0)
    && (forall s :: s in t.applied ==> 0.0 <= t.applied[s])
  }

  /** What one sync makes of source s on top of the undone table. */
  lemma SyncAt(t: Table, facts: seq<string>, s: string)
    ensures var u, v := Undone(t), Synced(t, facts);
            && Multiplier(v, s) == Boosted(Multiplier(u, s), Count(facts, s))
            && (s in v.applied <==> Count(facts, s) > 0)
            && (s in v.applied ==> v.applied[s] == Multiplier(v, s) - Multiplier(u, s))
  {
    var u := Undone(t);
    forall k ensures Holds(u, u.multipliers, [], [], k) { }
    BoostAllCarries(u, u.multipliers, [], facts);
    assert Holds(Synced(t, facts), u.multipliers, [], facts, s);
  }

  lemma UndoneInRange(t: Table)
    requires InRange(t)
    ensures InRange(Undone(t))
  {
    forall s ensures BOTTOM <= Multiplier(Undone(t), s) <= CEILING {
      assert BOTTOM <= Multiplier(t, s) <= CEILING;
    }
  }

  lemma BoostedInRange(base: real, n: nat)
    requires BOTTOM <= base <= CEILING
    ensures base <= Boosted(base, n) <= CEILING
  {
  }

  lemma DoInRange(t: Table, op: Op)
    requires InRange(t)
    ensures InRange(Do(t, op))
  {
    var v := Do(t, op);
    if op.Sync? {
      UndoneInRange(t);
      forall s ensures BOTTOM <= Multiplier(v, s) <= CEILING && (s in v.applied ==> 0.0 <= v.applied[s]) {
        SyncAt(t, op.facts, s);
        BoostedInRange(Multiplier(Undone(t), s), Count(op.facts, s));
      }
    } else {
      forall s ensures BOTTOM <= Multiplier(v, s) <= CEILING {
        assert BOTTOM <= Multiplier(t, s) <= CEILING;
      }
    }
  }

  /** Every table that loads, feedback and syncs can reach lies between 0.3 and 2.0, and no boost is negative. */
  lemma {:induction false} AlwaysInRange(m: map<string, real>, ops: seq<Op>)
    ensures InRange(Run(m, ops))
  {
    if ops != [] {
      AlwaysInRange(m, ops[..|ops| - 1]);
      DoInRange(Run(m, ops[..|ops| - 1]), ops[|ops| - 1]);
    }
  }

  /** So on every reached table the syncs that follow are forgotten exactly: the last facts give what they would
      have given at once. */
  lemma SyncsExact(m: map<string, real>, ops: seq<Op>, runs: seq<seq<string>>, last: seq<string>, s: string)
    ensures var reached := Undone(Run(m, ops)).multipliers;
            Exact(reached, runs, last, s)
            && Multiplier(SyncedAll(reached, runs + [[]]), s) == Get(reached, s, 1.0)
  {
    var t := Run(m, ops);
    AlwaysInRange(m, ops);
    UndoneInRange(t);
    var reached := Undone(t).multipliers;
    assert BOTTOM <= Multiplier(Undone(t), s);
    ExactAt(reached, runs, last, s);
    SyncsForget(reached, runs, []);
    assert Holds(SyncedAll(reached, runs + [[]]), reached, runs, [], s);
  }

  // ---------- Writes between two syncs ----------

  /** The operation writes the multiplier of s by other means than a sync. */
  predicate Writes(op: Op, s: string) { op.Load? || (op.Feedback? && op.source == s) }

  /** Taking the boosts back leaves for s what the run without syncs has. */
  ghost predicate UndoExact(m: map<string, real>, ops: seq<Op>, s: string) {
    Multiplier(Undone(Run(m, ops)), s) == Get(Unboosted(m, ops), s, 1.0)
  }

  ghost predicate WritesUnboosted(m: map<string, real>, ops: seq<Op>, s: string) {
    ops == [] ||
    var front := ops[..|ops| - 1];
    WritesUnboosted(m, front, s) && (Writes(ops[|ops| - 1], s) ==> s !in Run(m, front).applied)
  }

  /** Undo is exact over every run that writes a source only while no boost of it is applied. */
  lemma {:induction false} UndoStaysExact(m: map<string, real>, ops: seq<Op>, s: string)
    requires WritesUnboosted(m, ops, s)
    ensures UndoExact(m, ops, s)
  {
    if ops != [] {
      var front, op := ops[..|ops| - 1], ops[|ops| - 1];
      var t := Run(m, front);
      UndoStaysExact(m, front, s);
      if op.Sync? {
        AlwaysInRange(m, front);
        UndoneInRange(t);
        SyncUndone(t, op.facts, s);
      } else {
        WriteUnboosted(t, Unboosted(m, front), op, s);
      }
    }
  }

  lemma WriteUnboosted(t: Table, m: map<string, real>, op: Op, s: string)
    requires Multiplier(Undone(t), s) == Get(m, s, 1.0) && !op.Sync?
    requires Writes(op, s) ==> s !in t.applied
    ensures Multiplier(Undone(Do(t, op)), s) == Get(DoUnboosted(m, op), s, 1.0)
  {
  }

  /** Undoing a sync gives back what it started from. */
  lemma SyncUndone(t: Table, facts: seq<string>, s: string)
    requires InRange(Undone(t))
    ensures Multiplier(Undone(Synced(t, facts)), s) == Multiplier(Undone(t), s)
  {
    SyncAt(t, facts, s);
    assert BOTTOM <= Multiplier(Undone(t), s);
  }

  /** Feedback on a source right after a sync: undo stays exact if and only if nothing was boosted, the source was at
      the ceiling already, or the clamps happen to make up for it. Otherwise the boost was rated too: a hit below the
      ceiling leaves 0.005 too much for every mention. */
  lemma FeedbackExactIff(t: Table, facts: seq<string>, s: string, hit: bool)
    requires InRange(t)
    ensures var base, n := Multiplier(Undone(t), s), Count(facts, s);
            var after := Multiplier(Undone(Do(Synced(t, facts), Feedback(s, hit))), s);
            && (after == Rated(base, hit) <==>
                || n == 0 || base == CEILING
                || (if hit then HIT_RATE * base + BOOST * n as real == CEILING else MISS_RATE * base <= BOTTOM))
            && (hit && HIT_RATE * (base + BOOST * n as real) <= CEILING ==>
                  after == HIT_RATE * base + 0.005 * n as real)
  {
    var base, n := Multiplier(Undone(t), s), Count(facts, s);
    UndoneInRange(t);
    assert BOTTOM <= base <= CEILING;
    SyncAt(t, facts, s);
    RatedBoost(base, n, hit);
  }

  lemma RatedBoost(base: real, n: nat, hit: bool)
    requires BOTTOM <= base <= CEILING
    ensures var high := Boosted(base, n);
            var after := if n == 0 then Rated(base, hit) else Max(BOTTOM, Rated(high, hit) - (high - base));
            && (after == Rated(base, hit) <==>
                || n == 0 || base == CEILING
                || (if hit then HIT_RATE * base + BOOST * n as real == CEILING else MISS_RATE * base <= BOTTOM))
            && (hit && HIT_RATE * (base + BOOST * n as real) <= CEILING ==>
                  after == HIT_RATE * base + 0.005 * n as real)
  {
    if n > 0 {
      assert BOOST * n as real >= BOOST;
    }
  }

  /** A policy loaded right after a sync loses the boosts it never had: undo stays exact if and only if nothing was
      boosted, the source was at the ceiling already, or the loaded multiplier is at the bottom. */
  lemma LoadExactIff(t: Table, facts: seq<string>, saved: map<string, real>, s: string)
    requires InRange(t)
    ensures var after := Multiplier(Undone(Do(Synced(t, facts), Load(saved))), s);
            after == Get(Loaded(saved), s, 1.0) <==>
            || Count(facts, s) == 0 || Multiplier(Undone(t), s) == CEILING || Get(Loaded(saved), s, 1.0) == BOTTOM
  {
    var base, n := Multiplier(Undone(t), s), Count(facts, s);
    UndoneInRange(t);
    assert BOTTOM <= base <= CEILING;
    SyncAt(t, facts, s);
    UndoneAt(Do(Synced(t, facts), Load(saved)), s);
    LoadedUnder(base, n, Get(Loaded(saved), s, 1.0));
  }

  lemma UndoneAt(t: Table, s: string)
    ensures Multiplier(Undone(t), s)
         == if s in t.applied then Max(BOTTOM, Multiplier(t, s) - t.applied[s]) else Multiplier(t, s)
  {
  }

  lemma LoadedUnder(base: real, n: nat, loaded: real)
    requires BOTTOM <= base <= CEILING && BOTTOM <= loaded
    ensures (if n == 0 then loaded else Max(BOTTOM, loaded - (Boosted(base, n) - base))) == loaded
            <==> n == 0 || base == CEILING || loaded == BOTTOM
  {
    if n > 0 {
      assert BOOST * n as real >= BOOST;
    }
  }

  /** It happens: a source at 1.0 is preferred once, hit once, and no longer preferred; it keeps 1.055, where the hit
      alone gives 1.05. */
  lemma HitKeepsPartOfBoost(m: map<string, real>, s: string)
    requires s != "" && Get(m, s, 1.0) == 1.0
    ensures Multiplier(Run(m, [Sync([s]), Feedback(s, true), Sync([])]), s) == 1.055
    ensures Get(Unboosted(m, [Sync([s]), Feedback(s, true), Sync([])]), s, 1.0) == 1.05
  {
    var a, b, d := Sync([s]), Feedback(s, true), Sync([]);
    assert [a, b, d][..2] == [a, b] && [a, b][..1] == [a] && [a][..0] == [];
    var t := Start(Loaded(m));
    assert Run(m, []) == t && Run(m, [a]) == Synced(t, [s]) && Run(m, [a, b]) == Do(Synced(t, [s]), b);
    AlwaysInRange(m, []);
    assert [s][..0] == [] && Count([s], s) == 1;
    FeedbackExactIff(t, [s], s, true);
    SyncAt(Run(m, [a, b]), [], s);
    assert Run(m, [a, b, d]) == Synced(Run(m, [a, b]), []);
    assert Unboosted(m, []) == Loaded(m) && Unboosted(m, [a]) == Loaded(m);
    assert Unboosted(m, [a, b]) == Rerated(Loaded(m), s, true);
  }
}
