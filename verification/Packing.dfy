/** Greedy packing of ranked artefacts into a token budget. */
module Packing {
  import opened Ranking

  /** `tokens` is the token count of the rendered chunk. */
  datatype Artefact = Artefact(key: string, chunk: string, tokens: nat)

  datatype Scores = Unscored | ByKey(scores: map<string, real>)

  function ScoreOf(scores: map<string, real>, key: string): real {
    if key in scores then scores[key] else 0.0
  }

  function Keys(artefacts: seq<Artefact>): (r: seq<string>)
    ensures |r| == |artefacts|
  {
    if artefacts == [] then [] else Keys(artefacts[..|artefacts| - 1]) + [artefacts[|artefacts| - 1].key]
  }

  /** A repeated key keeps the entry of its last artefact. */
  function TokenMap(artefacts: seq<Artefact>): (r: map<string, nat>)
    ensures forall k :: k in r <==> k in Keys(artefacts)
  {
    if artefacts == [] then map[]
    else TokenMap(artefacts[..|artefacts| - 1])[artefacts[|artefacts| - 1].key := artefacts[|artefacts| - 1].tokens]
  }

  function Order(artefacts: seq<Artefact>, scores: Scores): seq<string> {
    match scores
    case Unscored => Keys(artefacts)
    case ByKey(m) => StableSort(Keys(artefacts), k => 0.0 - ScoreOf(m, k))
  }

  // ---------- The greedy choice, by rank ----------

  /** Cost of the chosen ranks. */
  function Cost(chosen: seq<bool>, costs: seq<nat>): (r: nat)
    requires |chosen| == |costs|
  {
    if costs == [] then 0
    else Cost(chosen[..|costs| - 1], costs[..|costs| - 1]) + if chosen[|costs| - 1] then costs[|costs| - 1] else 0
  }

  /** Take each rank that still fits. */
  function Greedy(costs: seq<nat>, budget: int): (r: seq<bool>)
    ensures |r| == |costs|
  {
    if costs == [] then []
    else
      var front := Greedy(costs[..|costs| - 1], budget);
      front + [Cost(front, costs[..|costs| - 1]) + costs[|costs| - 1] <= budget]
  }

  lemma {:induction false} CostGrows(chosen: seq<bool>, costs: seq<nat>, n: nat)
    requires |chosen| == |costs| && n <= |costs|
    ensures Cost(chosen[..n], costs[..n]) <= Cost(chosen, costs)
    ensures n < |costs| && chosen[n] ==> Cost(chosen[..n], costs[..n]) + costs[n] <= Cost(chosen, costs)
  {
    if n < |costs| {
      var c, k := chosen[..|costs| - 1], costs[..|costs| - 1];
      CostGrows(c, k, n);
      assert c[..n] == chosen[..n] && k[..n] == costs[..n];
    } else {
      assert chosen[..n] == chosen && costs[..n] == costs;
    }
  }

  lemma {:induction false} GreedyPrefix(costs: seq<nat>, budget: int, n: nat)
    requires n <= |costs|
    ensures Greedy(costs, budget)[..n] == Greedy(costs[..n], budget)
    ensures n < |costs| ==>
            (Greedy(costs, budget)[n] <==> Cost(Greedy(costs[..n], budget), costs[..n]) + costs[n] <= budget)
  {
    if n < |costs| {
      var front := costs[..|costs| - 1];
      GreedyPrefix(front, budget, n);
      assert front[..n] == costs[..n];
      if n == |costs| - 1 { assert costs[..n] == front; }
    } else {
      assert costs[..n] == costs;
    }
  }

  lemma {:induction false} GreedyFits(costs: seq<nat>, budget: int)
    ensures 0 <= budget ==> Cost(Greedy(costs, budget), costs) <= budget
    ensures budget < 0 ==> Cost(Greedy(costs, budget), costs) == 0
  {
    if costs != [] {
      GreedyFits(costs[..|costs| - 1], budget);
      var front := Greedy(costs[..|costs| - 1], budget);
      assert Greedy(costs, budget)[..|costs| - 1] == front;
    }
  }

  /** Greedy packing is lexicographically best: against any selection that fits the budget, at the first
      rank where the two differ it is the greedy one that holds the artefact. */
  lemma LexicographicallyBest(costs: seq<nat>, budget: int, other: seq<bool>, i: nat)
    requires |other| == |costs| && Cost(other, costs) <= budget && i < |costs|
    requires other[..i] == Greedy(costs, budget)[..i] && other[i] != Greedy(costs, budget)[i]
    ensures Greedy(costs, budget)[i]
  {
    GreedyPrefix(costs, budget, i);
    CostGrows(other, costs, i);
  }

  /** Nothing that was dropped could still be added at the end. */
  lemma DroppedDoesNotFit(costs: seq<nat>, budget: int, i: nat)
    requires i < |costs| && !Greedy(costs, budget)[i]
    ensures Cost(Greedy(costs, budget), costs) + costs[i] > budget
  {
    GreedyPrefix(costs, budget, i);
    CostGrows(Greedy(costs, budget), costs, i);
  }

  // ---------- Keys instead of ranks ----------

  function Costs(order: seq<string>, tokens: map<string, nat>): (r: seq<nat>)
    requires forall k :: k in order ==> k in tokens
    ensures |r| == |order|
    ensures forall i :: 0 <= i < |order| ==> r[i] == tokens[order[i]]
  {
    seq(|order|, i requires 0 <= i < |order| => tokens[order[i]])
  }

  function Chosen(order: seq<string>, kept: set<string>): (r: seq<bool>)
    ensures |r| == |order|
    ensures forall i :: 0 <= i < |order| ==> (r[i] <==> order[i] in kept)
  {
    seq(|order|, i requires 0 <= i < |order| => order[i] in kept)
  }

  function KeptKeys(order: seq<string>, flags: seq<bool>): (r: set<string>)
    requires |flags| == |order|
  {
    if order == [] then {}
    else KeptKeys(order[..|order| - 1], flags[..|order| - 1]) +
         if flags[|order| - 1] then {order[|order| - 1]} else {}
  }

  lemma {:induction false} KeptIff(order: seq<string>, flags: seq<bool>, k: string)
    requires |flags| == |order|
    ensures k in KeptKeys(order, flags) <==> exists i :: 0 <= i < |order| && flags[i] && order[i] == k
  {
    if order != [] {
      var front, fs := order[..|order| - 1], flags[..|order| - 1];
      KeptIff(front, fs, k);
      if i :| 0 <= i < |front| && fs[i] && front[i] == k { assert flags[i] && order[i] == k; }
      if i :| 0 <= i < |order| && flags[i] && order[i] == k {
        assert i < |front| ==> fs[i] && front[i] == k;
      }
    }
  }

  predicate Distinct(s: seq<string>) {
    forall i, j :: 0 <= i < j < |s| ==> s[i] != s[j]
  }

  /** A rank that was dropped although another rank keeps its key. */
  ghost predicate Resurrected(order: seq<string>, flags: seq<bool>, i: nat)
    requires |flags| == |order| && i < |order|
  {
    !flags[i] && order[i] in KeptKeys(order, flags)
  }

  lemma {:induction false} CostOrder(a: seq<bool>, b: seq<bool>, costs: seq<nat>)
    requires |a| == |b| == |costs| && forall i :: 0 <= i < |a| && a[i] ==> b[i]
    ensures Cost(a, costs) <= Cost(b, costs)
    ensures Cost(a, costs) == Cost(b, costs) <==> forall i :: 0 <= i < |a| && b[i] && !a[i] ==> costs[i] == 0
  {
    if costs != [] {
      var n := |costs| - 1;
      CostOrder(a[..n], b[..n], costs[..n]);
      assert forall i :: 0 <= i < n ==> a[..n][i] == a[i] && b[..n][i] == b[i] && costs[..n][i] == costs[i];
    }
  }

  /** The text is rendered from the kept keys, the budget was counted by rank: the rendered tokens equal
      `used` exactly when no dropped rank of positive size shares its key with a kept one. */
  lemma RenderedTokensIff(order: seq<string>, tokens: map<string, nat>, budget: int)
    requires forall k :: k in order ==> k in tokens
    ensures var costs := Costs(order, tokens);
            var flags := Greedy(costs, budget);
            Cost(Chosen(order, KeptKeys(order, flags)), costs) == Cost(flags, costs) <==>
            forall i :: 0 <= i < |order| && Resurrected(order, flags, i) ==> costs[i] == 0
  {
    var costs := Costs(order, tokens);
    var flags := Greedy(costs, budget);
    var kept := KeptKeys(order, flags);
    forall i | 0 <= i < |order| && flags[i] ensures Chosen(order, kept)[i] { KeptIff(order, flags, order[i]); }
    CostOrder(flags, Chosen(order, kept), costs);
    assert forall i :: 0 <= i < |order| ==> (Resurrected(order, flags, i) <==> Chosen(order, kept)[i] && !flags[i]);
  }

  lemma DistinctNotResurrected(order: seq<string>, flags: seq<bool>, i: nat)
    requires Distinct(order) && |flags| == |order| && i < |order|
    ensures !Resurrected(order, flags, i)
    ensures order[i] in KeptKeys(order, flags) <==> flags[i]
  {
    KeptIff(order, flags, order[i]);
  }

  /** Two artefacts with one key: the second is dropped, yet both are rendered, over the budget. */
  lemma DuplicateKeyOverrunsBudget()
    ensures var order, tokens := ["a", "a"], map["a" := 6];
            var costs := Costs(order, tokens);
            var flags := Greedy(costs, 10);
            flags == [true, false] && Cost(Chosen(order, KeptKeys(order, flags)), costs) == 12
  {
    var order, tokens := ["a", "a"], map["a" := 6];
    var costs := Costs(order, tokens);
    assert costs == [6, 6] && costs[..1] == [6] && costs[..1][..0] == [];
    assert Greedy([6], 10) == [true];
    assert Cost([true], [6]) == 6;
    var flags := Greedy(costs, 10);
    assert flags == [true] + [false];
    KeptIff(order, flags, "a");
    var both := Chosen(order, KeptKeys(order, flags));
    assert both == [true, true] && both[..1] == [true];
  }

  function Rendered(order: seq<string>, chunks: map<string, string>, kept: set<string>): (r: seq<string>)
    requires forall k :: k in order ==> k in chunks
  {
    if order == [] then []
    else Rendered(order[..|order| - 1], chunks, kept) +
         if order[|order| - 1] in kept then [chunks[order[|order| - 1]]] else []
  }

  function ChunkMap(artefacts: seq<Artefact>): (r: map<string, string>)
    ensures forall k :: k in r <==> k in Keys(artefacts)
  {
    if artefacts == [] then map[]
    else ChunkMap(artefacts[..|artefacts| - 1])[artefacts[|artefacts| - 1].key := artefacts[|artefacts| - 1].chunk]
  }

  lemma {:induction false} OrderPermutes(artefacts: seq<Artefact>, scores: Scores)
    ensures multiset(Order(artefacts, scores)) == multiset(Keys(artefacts))
    ensures forall k :: k in Order(artefacts, scores) <==> k in Keys(artefacts)
  {
    if scores.ByKey? { StableSortAscending(Keys(artefacts), k => 0.0 - ScoreOf(scores.scores, k)); }
    assert forall k :: k in Order(artefacts, scores) <==> k in multiset(Order(artefacts, scores));
    assert forall k :: k in Keys(artefacts) <==> k in multiset(Keys(artefacts));
  }

  // ---------- The order, told from artefacts and scores ----------

  /** What an artefact is worth; nothing where no score is known. */
  ghost function Worth(scores: Scores, key: string): real {
    if scores.ByKey? && key in scores.scores then scores.scores[key] else 0.0
  }

  /** Artefact b is worth more than a, or as much and listed earlier. */
  ghost predicate Outranks(artefacts: seq<Artefact>, scores: Scores, b: nat, a: nat)
    requires a < |artefacts| && b < |artefacts|
  {
    var x, y := Worth(scores, artefacts[b].key), Worth(scores, artefacts[a].key);
    x > y || (x == y && b < a)
  }

  /** How many of the first n artefacts outrank artefact a. */
  ghost function Ahead(artefacts: seq<Artefact>, scores: Scores, a: nat, n: nat): (r: nat)
    requires a < |artefacts| && n <= |artefacts|
    ensures r <= n
  {
    if n == 0 then 0 else Ahead(artefacts, scores, a, n - 1) + if Outranks(artefacts, scores, n - 1, a) then 1 else 0
  }

  lemma {:induction false} KeyAt(artefacts: seq<Artefact>, i: nat)
    requires i < |artefacts|
    ensures Keys(artefacts)[i] == artefacts[i].key
  {
    if i < |artefacts| - 1 { KeyAt(artefacts[..|artefacts| - 1], i); }
  }

  lemma {:induction false} EqualStay(s: seq<string>, key: string -> real)
    requires forall k :: key(k) == 0.0
    ensures StableSort(s, key) == s
  {
    if s != [] {
      EqualStay(s[..|s| - 1], key);
      assert s == s[..|s| - 1] + [s[|s| - 1]];
    }
  }

  lemma OrderSorts(artefacts: seq<Artefact>, scores: Scores) returns (key: string -> real)
    ensures forall k :: key(k) == 0.0 - Worth(scores, k)
    ensures Order(artefacts, scores) == StableSort(Keys(artefacts), key)
  {
    if scores.Unscored? {
      key := k => 0.0;
      EqualStay(Keys(artefacts), key);
    } else {
      key := k => 0.0 - ScoreOf(scores.scores, k);
    }
  }

  lemma {:induction false} AheadIsBefore(artefacts: seq<Artefact>, scores: Scores, key: string -> real, a: nat, n: nat)
    requires a < |artefacts| && n <= |artefacts| && forall k :: key(k) == 0.0 - Worth(scores, k)
    ensures Ahead(artefacts, scores, a, n) == Before(Keys(artefacts), key, a, n)
  {
    if n > 0 {
      AheadIsBefore(artefacts, scores, key, a, n - 1);
      KeyAt(artefacts, n - 1);
      KeyAt(artefacts, a);
    }
  }

  /** Packing takes the artefacts by worth: each at the place that counts those outranking it. */
  lemma OrderByWorth(artefacts: seq<Artefact>, scores: Scores, a: nat)
    requires a < |artefacts|
    ensures |Order(artefacts, scores)| == |artefacts| && Ahead(artefacts, scores, a, |artefacts|) < |artefacts|
    ensures Order(artefacts, scores)[Ahead(artefacts, scores, a, |artefacts|)] == artefacts[a].key
  {
    var key := OrderSorts(artefacts, scores);
    AheadIsBefore(artefacts, scores, key, a, |artefacts|);
    SortedByRank(Keys(artefacts), key, a);
    KeyAt(artefacts, a);
  }

  lemma AheadStrict(artefacts: seq<Artefact>, scores: Scores, b: nat, a: nat)
    requires a < |artefacts| && b < |artefacts|
    ensures Ahead(artefacts, scores, b, |artefacts|) < Ahead(artefacts, scores, a, |artefacts|) <==>
            Outranks(artefacts, scores, b, a)
  {
    var key := OrderSorts(artefacts, scores);
    AheadIsBefore(artefacts, scores, key, a, |artefacts|);
    AheadIsBefore(artefacts, scores, key, b, |artefacts|);
    RankStrict(Keys(artefacts), key, b, a);
    KeyAt(artefacts, a);
    KeyAt(artefacts, b);
  }

  /** Which artefact stands at place q, where no key is listed twice. */
  lemma AtPlace(artefacts: seq<Artefact>, scores: Scores, q: nat) returns (b: nat)
    requires Distinct(Keys(artefacts)) && q < |Order(artefacts, scores)|
    ensures b < |artefacts| && Order(artefacts, scores)[q] == artefacts[b].key
    ensures Ahead(artefacts, scores, b, |artefacts|) == q
  {
    var order := Order(artefacts, scores);
    OrderPermutes(artefacts, scores);
    DistinctPermuted(Keys(artefacts), order);
    assert order[q] in Keys(artefacts);
    b :| 0 <= b < |Keys(artefacts)| && Keys(artefacts)[b] == order[q];
    KeyAt(artefacts, b);
    OrderByWorth(artefacts, scores, b);
  }

  /** The tokens of the artefacts with a kept key. */
  ghost function TokensOf(artefacts: seq<Artefact>, kept: set<string>): (r: nat) {
    if artefacts == [] then 0
    else
      var a := artefacts[|artefacts| - 1];
      TokensOf(artefacts[..|artefacts| - 1], kept) + if a.key in kept then a.tokens else 0
  }

  /** Against every other choice that fits the budget: of the artefacts on which the two differ, the one that outranks
      all others is among the kept. */
  ghost predicate BestChoice(artefacts: seq<Artefact>, scores: Scores, budget: int, kept: set<string>) {
    forall other: set<string>, a: nat ::
      a < |artefacts| && TokensOf(artefacts, other) <= budget && DiffersFirst(artefacts, scores, kept, other, a) ==>
      artefacts[a].key in kept
  }

  /** Artefact a is in one of the choices only, and all that outrank it are in both or in neither. */
  ghost predicate DiffersFirst(artefacts: seq<Artefact>, scores: Scores, kept: set<string>, other: set<string>, a: nat)
    requires a < |artefacts|
  {
    && (artefacts[a].key in kept <==> artefacts[a].key !in other)
    && forall b :: 0 <= b < |artefacts| && Outranks(artefacts, scores, b, a) ==>
         (artefacts[b].key in kept <==> artefacts[b].key in other)
  }

  /** A key stands for the last artefact listed with it. */
  lemma {:induction false} LastCounts(artefacts: seq<Artefact>, keys: seq<string>, i: nat)
    requires keys == Keys(artefacts) && i < |keys| && forall j :: i < j < |keys| ==> keys[j] != keys[i]
    ensures keys[i] in TokenMap(artefacts) && TokenMap(artefacts)[keys[i]] == artefacts[i].tokens
    ensures keys[i] in ChunkMap(artefacts) && ChunkMap(artefacts)[keys[i]] == artefacts[i].chunk
  {
    var n := |artefacts| - 1;
    assert keys[..n] == Keys(artefacts[..n]) && keys[n] == artefacts[n].key;
    if i < n { LastCounts(artefacts[..n], keys[..n], i); }
  }

  lemma OwnTokens(artefacts: seq<Artefact>, i: nat)
    requires Distinct(Keys(artefacts)) && i < |artefacts|
    ensures artefacts[i].key in TokenMap(artefacts) && TokenMap(artefacts)[artefacts[i].key] == artefacts[i].tokens
    ensures artefacts[i].key in ChunkMap(artefacts) && ChunkMap(artefacts)[artefacts[i].key] == artefacts[i].chunk
  {
    KeyAt(artefacts, i);
    LastCounts(artefacts, Keys(artefacts), i);
  }

  lemma {:induction false} TokensAre(artefacts: seq<Artefact>, tokens: map<string, nat>, kept: set<string>)
    requires forall i :: 0 <= i < |artefacts| ==> artefacts[i].key in tokens && tokens[artefacts[i].key] == artefacts[i].tokens
    ensures SumKept(Keys(artefacts), tokens, kept) == TokensOf(artefacts, kept)
  {
    if artefacts != [] {
      var front := artefacts[..|artefacts| - 1];
      TokensAre(front, tokens, kept);
      assert Keys(artefacts)[..|front|] == Keys(front);
    }
  }

  lemma TokensAreCost(artefacts: seq<Artefact>, scores: Scores, kept: set<string>)
    requires Distinct(Keys(artefacts))
    ensures |Order(artefacts, scores)| == |CostsOf(artefacts, scores)|
    ensures TokensOf(artefacts, kept) == Cost(Chosen(Order(artefacts, scores), kept), CostsOf(artefacts, scores))
  {
    var key := OrderSorts(artefacts, scores);
    OrderPermutes(artefacts, scores);
    forall i | 0 <= i < |artefacts|
      ensures artefacts[i].key in TokenMap(artefacts) && TokenMap(artefacts)[artefacts[i].key] == artefacts[i].tokens
    {
      OwnTokens(artefacts, i);
    }
    TokensAre(artefacts, TokenMap(artefacts), kept);
    SumSorted(Keys(artefacts), key, TokenMap(artefacts), kept);
    SumIsCost(Order(artefacts, scores), TokenMap(artefacts), kept);
  }

  lemma PackedAt(artefacts: seq<Artefact>, budget: int, scores: Scores, a: nat)
    requires Distinct(Keys(artefacts)) && a < |artefacts|
    ensures |Order(artefacts, scores)| == |artefacts| && Ahead(artefacts, scores, a, |artefacts|) < |artefacts|
    ensures artefacts[a].key in PackedKeys(artefacts, budget, scores) <==>
            Packed(artefacts, budget, scores)[Ahead(artefacts, scores, a, |artefacts|)]
  {
    OrderByWorth(artefacts, scores, a);
    DistinctKeysBalance(artefacts, scores, Packed(artefacts, budget, scores), Ahead(artefacts, scores, a, |artefacts|));
  }

  lemma SameBefore(artefacts: seq<Artefact>, scores: Scores, budget: int, other: set<string>, a: nat, q: nat)
    requires Distinct(Keys(artefacts)) && a < |artefacts| && q < Ahead(artefacts, scores, a, |artefacts|)
    requires DiffersFirst(artefacts, scores, PackedKeys(artefacts, budget, scores), other, a)
    ensures q < |Order(artefacts, scores)|
    ensures Order(artefacts, scores)[q] in other <==> Packed(artefacts, budget, scores)[q]
  {
    OrderByWorth(artefacts, scores, a);
    var b := AtPlace(artefacts, scores, q);
    AheadStrict(artefacts, scores, b, a);
    PackedAt(artefacts, budget, scores, b);
  }

  lemma SamePrefix(order: seq<string>, flags: seq<bool>, other: set<string>, n: nat)
    requires n <= |order| == |flags| && forall q :: 0 <= q < n ==> (order[q] in other <==> flags[q])
    ensures Chosen(order, other)[..n] == flags[..n]
  {
  }

  lemma AgainstOther(artefacts: seq<Artefact>, scores: Scores, budget: int, other: set<string>, a: nat,
                     order: seq<string>, flags: seq<bool>, costs: seq<nat>)
    requires Distinct(Keys(artefacts)) && a < |artefacts| && TokensOf(artefacts, other) <= budget
    requires DiffersFirst(artefacts, scores, PackedKeys(artefacts, budget, scores), other, a)
    requires order == Order(artefacts, scores) && costs == CostsOf(artefacts, scores)
    requires flags == Packed(artefacts, budget, scores)
    ensures artefacts[a].key in PackedKeys(artefacts, budget, scores)
  {
    var p := Ahead(artefacts, scores, a, |artefacts|);
    TokensAreCost(artefacts, scores, other);
    OrderByWorth(artefacts, scores, a);
    forall q | 0 <= q < p ensures order[q] in other <==> flags[q] { SameBefore(artefacts, scores, budget, other, a, q); }
    SamePrefix(order, flags, other, p);
    PackedAt(artefacts, budget, scores, a);
    LexicographicallyBest(costs, budget, Chosen(order, other), p);
  }

  /** Packing makes the best choice there is, in artefacts and scores. */
  lemma PackingBest(artefacts: seq<Artefact>, scores: Scores, budget: int)
    requires Distinct(Keys(artefacts))
    ensures BestChoice(artefacts, scores, budget, PackedKeys(artefacts, budget, scores))
    ensures Cost(Packed(artefacts, budget, scores), CostsOf(artefacts, scores)) ==
            TokensOf(artefacts, PackedKeys(artefacts, budget, scores))
  {
    var order, kept := Order(artefacts, scores), PackedKeys(artefacts, budget, scores);
    var costs, flags := CostsOf(artefacts, scores), Packed(artefacts, budget, scores);
    forall other: set<string>, a: nat | a < |artefacts| && TokensOf(artefacts, other) <= budget &&
      DiffersFirst(artefacts, scores, kept, other, a)
      ensures artefacts[a].key in kept
    {
      AgainstOther(artefacts, scores, budget, other, a, order, flags, costs);
    }
    TokensAreCost(artefacts, scores, kept);
    forall q | 0 <= q < |order| ensures flags[q] == Chosen(order, kept)[q] {
      DistinctKeysBalance(artefacts, scores, flags, q);
    }
    assert flags == Chosen(order, kept);
  }

  /** Some artefact outranks all others that differ. */
  lemma {:induction false} FirstDifference(artefacts: seq<Artefact>, scores: Scores, kept: set<string>,
                                           other: set<string>, n: nat)
    returns (a: nat)
    requires n <= |artefacts| && exists i :: 0 <= i < n && (artefacts[i].key in kept <==> artefacts[i].key !in other)
    ensures a < n && (artefacts[a].key in kept <==> artefacts[a].key !in other)
    ensures forall b :: 0 <= b < n && Outranks(artefacts, scores, b, a) ==>
              (artefacts[b].key in kept <==> artefacts[b].key in other)
  {
    var m := n - 1;
    if exists i :: 0 <= i < m && (artefacts[i].key in kept <==> artefacts[i].key !in other) {
      a := FirstDifference(artefacts, scores, kept, other, m);
      if Outranks(artefacts, scores, m, a) && (artefacts[m].key in kept <==> artefacts[m].key !in other) { a := m; }
    } else {
      a := m;
    }
  }

  /** And there is only one: two choices within the budget that are both best keep the same artefacts. */
  lemma BestChoiceUnique(artefacts: seq<Artefact>, scores: Scores, budget: int, a: set<string>, b: set<string>, i: nat)
    requires BestChoice(artefacts, scores, budget, a) && TokensOf(artefacts, a) <= budget
    requires BestChoice(artefacts, scores, budget, b) && TokensOf(artefacts, b) <= budget
    requires i < |artefacts|
    ensures artefacts[i].key in a <==> artefacts[i].key in b
  {
    if artefacts[i].key in a <==> artefacts[i].key !in b {
      var d := FirstDifference(artefacts, scores, a, b, |artefacts|);
      assert DiffersFirst(artefacts, scores, a, b, d) && DiffersFirst(artefacts, scores, b, a, d);
      assert false;
    }
  }

  /** The token counts by rank. */
  function CostsOf(artefacts: seq<Artefact>, scores: Scores): (r: seq<nat>)
    ensures |r| == |Order(artefacts, scores)|
  {
    OrderPermutes(artefacts, scores);
    Costs(Order(artefacts, scores), TokenMap(artefacts))
  }

  /** The ranks packed, and their keys. */
  function Packed(artefacts: seq<Artefact>, maxTokens: int, scores: Scores): (r: seq<bool>)
    ensures |r| == |Order(artefacts, scores)|
  {
    Greedy(CostsOf(artefacts, scores), maxTokens)
  }

  function PackedKeys(artefacts: seq<Artefact>, maxTokens: int, scores: Scores): (r: set<string>) {
    KeptKeys(Order(artefacts, scores), Packed(artefacts, maxTokens, scores))
  }

  /** The chunks are those of the kept artefacts, each once, what is worth more first. */
  ghost predicate Lists(chunks: seq<string>, artefacts: seq<Artefact>, scores: Scores, kept: set<string>, who: seq<nat>) {
    && |who| == |chunks|
    && (forall k :: 0 <= k < |who| ==> who[k] < |artefacts| && artefacts[who[k]].key in kept
                                       && chunks[k] == artefacts[who[k]].chunk)
    && (forall j, k :: 0 <= j < k < |who| ==> Outranks(artefacts, scores, who[j], who[k]))
    && (forall a: nat :: a < |artefacts| && artefacts[a].key in kept ==> a in who)
  }

  /** The same for the first n places of the order. */
  ghost predicate ListsFirst(chunks: seq<string>, artefacts: seq<Artefact>, scores: Scores, kept: set<string>,
                             who: seq<nat>, n: nat) {
    && |who| == |chunks|
    && (forall k :: 0 <= k < |who| ==> who[k] < |artefacts| && artefacts[who[k]].key in kept
                                       && chunks[k] == artefacts[who[k]].chunk
                                       && Ahead(artefacts, scores, who[k], |artefacts|) < n)
    && (forall j, k :: 0 <= j < k < |who| ==> Outranks(artefacts, scores, who[j], who[k]))
    && (forall a: nat :: a < |artefacts| && artefacts[a].key in kept && Ahead(artefacts, scores, a, |artefacts|) < n ==>
                         a in who)
  }

  lemma ListsOneMore(chunks: seq<string>, artefacts: seq<Artefact>, scores: Scores, kept: set<string>, who: seq<nat>, n: nat,
                     b: nat)
    requires ListsFirst(chunks, artefacts, scores, kept, who, n)
    requires b < |artefacts| && Ahead(artefacts, scores, b, |artefacts|) == n
    ensures if artefacts[b].key in kept
            then ListsFirst(chunks + [artefacts[b].chunk], artefacts, scores, kept, who + [b], n + 1)
            else ListsFirst(chunks, artefacts, scores, kept, who, n + 1)
  {
    forall k | 0 <= k < |who| ensures Outranks(artefacts, scores, who[k], b) { AheadStrict(artefacts, scores, who[k], b); }
    forall a: nat | a < |artefacts| && Ahead(artefacts, scores, a, |artefacts|) == n ensures a == b {
      AheadStrict(artefacts, scores, a, b);
      AheadStrict(artefacts, scores, b, a);
    }
  }

  /** Artefact b stands at place q of an order, with its key and chunk. */
  ghost predicate Stands(artefacts: seq<Artefact>, scores: Scores, order: seq<string>, chunks: map<string, string>,
                         q: nat, b: nat) {
    && q < |order| && b < |artefacts| && Ahead(artefacts, scores, b, |artefacts|) == q
    && order[q] == artefacts[b].key && order[q] in chunks && chunks[order[q]] == artefacts[b].chunk
  }

  ghost predicate Places(artefacts: seq<Artefact>, scores: Scores, order: seq<string>, chunks: map<string, string>,
                         at: seq<nat>) {
    |at| == |order| && forall q :: 0 <= q < |at| ==> Stands(artefacts, scores, order, chunks, q, at[q])
  }

  lemma StandsAt(artefacts: seq<Artefact>, scores: Scores, q: nat) returns (b: nat)
    requires Distinct(Keys(artefacts)) && q < |Order(artefacts, scores)|
    ensures Stands(artefacts, scores, Order(artefacts, scores), ChunkMap(artefacts), q, b)
  {
    b := AtPlace(artefacts, scores, q);
    OwnTokens(artefacts, b);
  }

  lemma {:induction false} PlacesOf(artefacts: seq<Artefact>, scores: Scores, order: seq<string>, chunks: map<string, string>,
                                    n: nat)
    returns (at: seq<nat>)
    requires Distinct(Keys(artefacts)) && order == Order(artefacts, scores) && chunks == ChunkMap(artefacts) && n <= |order|
    ensures |at| == n && forall q :: 0 <= q < n ==> Stands(artefacts, scores, order, chunks, q, at[q])
  {
    if n == 0 {
      at := [];
    } else {
      var front := PlacesOf(artefacts, scores, order, chunks, n - 1);
      var b := StandsAt(artefacts, scores, n - 1);
      at := front + [b];
    }
  }

  lemma {:induction false} RendersFirst(artefacts: seq<Artefact>, scores: Scores, kept: set<string>,
                                        order: seq<string>, chunks: map<string, string>, at: seq<nat>)
    returns (who: seq<nat>)
    requires Places(artefacts, scores, order, chunks, at) && forall k :: k in order ==> k in chunks
    ensures ListsFirst(Rendered(order, chunks, kept), artefacts, scores, kept, who, |order|)
  {
    if order == [] {
      who := [];
    } else {
      var n := |order| - 1;
      assert Stands(artefacts, scores, order, chunks, n, at[n]);
      forall q | 0 <= q < n ensures Stands(artefacts, scores, order[..n], chunks, q, at[..n][q]) {
        assert Stands(artefacts, scores, order, chunks, q, at[q]);
      }
      who := RendersFirst(artefacts, scores, kept, order[..n], chunks, at[..n]);
      assert order == order[..n] + [artefacts[at[n]].key];
      RendersNext(artefacts, scores, kept, n, order[..n], chunks, who, at[n]);
      if artefacts[at[n]].key in kept { who := who + [at[n]]; }
    }
  }

  lemma RendersNext(artefacts: seq<Artefact>, scores: Scores, kept: set<string>, n: nat, front: seq<string>,
                    chunks: map<string, string>, who: seq<nat>, b: nat)
    requires b < |artefacts| && Ahead(artefacts, scores, b, |artefacts|) == n
    requires (forall k :: k in front ==> k in chunks) && artefacts[b].key in chunks
    requires chunks[artefacts[b].key] == artefacts[b].chunk
    requires ListsFirst(Rendered(front, chunks, kept), artefacts, scores, kept, who, n)
    ensures forall k :: k in front + [artefacts[b].key] ==> k in chunks
    ensures ListsFirst(Rendered(front + [artefacts[b].key], chunks, kept), artefacts, scores, kept,
                       if artefacts[b].key in kept then who + [b] else who, n + 1)
  {
    RenderOneMore(front, artefacts[b].key, chunks, kept);
    ListsOneMore(Rendered(front, chunks, kept), artefacts, scores, kept, who, n, b);
  }

  lemma RenderOneMore(order: seq<string>, key: string, chunks: map<string, string>, kept: set<string>)
    requires forall k :: k in order + [key] ==> k in chunks
    ensures Rendered(order + [key], chunks, kept) == if key in kept then Rendered(order, chunks, kept) + [chunks[key]]
                                                     else Rendered(order, chunks, kept)
  {
    assert (order + [key])[..|order|] == order;
  }

  lemma RenderedTells(artefacts: seq<Artefact>, scores: Scores, kept: set<string>) returns (who: seq<nat>)
    requires Distinct(Keys(artefacts)) && forall k :: k in Order(artefacts, scores) ==> k in ChunkMap(artefacts)
    ensures Lists(Rendered(Order(artefacts, scores), ChunkMap(artefacts), kept), artefacts, scores, kept, who)
  {
    var order := Order(artefacts, scores);
    var at := PlacesOf(artefacts, scores, order, ChunkMap(artefacts), |order|);
    who := RendersFirst(artefacts, scores, kept, order, ChunkMap(artefacts), at);
    forall a: nat | a < |artefacts| ensures Ahead(artefacts, scores, a, |artefacts|) < |order| {
      OrderByWorth(artefacts, scores, a);
    }
  }

  method CompressContext(artefacts: seq<Artefact>, maxTokens: int, scores: Scores)
    returns (chunks: seq<string>, tokenMap: map<string, nat>, used: nat, kept: set<string>)
    ensures tokenMap == TokenMap(artefacts)
    ensures kept == PackedKeys(artefacts, maxTokens, scores)
    ensures used == Cost(Packed(artefacts, maxTokens, scores), CostsOf(artefacts, scores))
    ensures forall k :: k in Order(artefacts, scores) ==> k in ChunkMap(artefacts)
    ensures chunks == Rendered(Order(artefacts, scores), ChunkMap(artefacts), kept)
    ensures Distinct(Keys(artefacts)) ==>
              BestChoice(artefacts, scores, maxTokens, kept) && used == TokensOf(artefacts, kept) &&
              exists who :: Lists(chunks, artefacts, scores, kept, who)
  {
    tokenMap := map[];
    var chunkMap: map<string, string> := map[];
    var ordered: seq<string> := [];
    var i := 0;
    while i < |artefacts|
      invariant 0 <= i <= |artefacts|
      invariant tokenMap == TokenMap(artefacts[..i]) && chunkMap == ChunkMap(artefacts[..i])
      invariant ordered == Keys(artefacts[..i])
    {
      assert artefacts[..i + 1][..i] == artefacts[..i] && artefacts[..i + 1][i] == artefacts[i];
      tokenMap := tokenMap[artefacts[i].key := artefacts[i].tokens];
      chunkMap := chunkMap[artefacts[i].key := artefacts[i].chunk];
      ordered := ordered + [artefacts[i].key];
      i := i + 1;
    }
    assert artefacts[..|artefacts|] == artefacts;
    OrderPermutes(artefacts, scores);
    ordered := Order(artefacts, scores);
    used, kept := Pack(ordered, tokenMap, maxTokens);
    chunks := Render(ordered, chunkMap, kept);
    if Distinct(Keys(artefacts)) {
      PackingBest(artefacts, scores, maxTokens);
      var who := RenderedTells(artefacts, scores, kept);
    }
  }

  /** One more rank considered. */
  lemma {:induction false} PackStep(order: seq<string>, costs: seq<nat>, budget: int, i: nat)
    requires |costs| == |order| && i < |order|
    ensures var before, after := Greedy(costs[..i], budget), Greedy(costs[..i + 1], budget);
            var fits := Cost(before, costs[..i]) + costs[i] <= budget;
            && KeptKeys(order[..i + 1], after) == KeptKeys(order[..i], before) + (if fits then {order[i]} else {})
            && Cost(after, costs[..i + 1]) == Cost(before, costs[..i]) + if fits then costs[i] else 0
  {
    assert costs[..i + 1][..i] == costs[..i] && order[..i + 1][..i] == order[..i];
    assert Greedy(costs[..i + 1], budget)[..i] == Greedy(costs[..i], budget);
  }

  /** The keys kept and the tokens used after the first i ranks. */
  ghost predicate PackedTo(order: seq<string>, costs: seq<nat>, budget: int, i: nat, used: nat, kept: set<string>)
    requires i <= |order| == |costs|
  {
    var flags := Greedy(costs[..i], budget);
    kept == KeptKeys(order[..i], flags) && used == Cost(flags, costs[..i])
  }

  lemma PackOne(order: seq<string>, costs: seq<nat>, budget: int, i: nat, used: nat, kept: set<string>)
    requires i < |order| == |costs| && PackedTo(order, costs, budget, i, used, kept)
    ensures if used + costs[i] <= budget then PackedTo(order, costs, budget, i + 1, used + costs[i], kept + {order[i]})
            else PackedTo(order, costs, budget, i + 1, used, kept)
  {
    PackStep(order, costs, budget, i);
  }

  method Pack(ordered: seq<string>, tokenMap: map<string, nat>, maxTokens: int) returns (used: nat, kept: set<string>)
    requires forall k :: k in ordered ==> k in tokenMap
    ensures var costs := Costs(ordered, tokenMap);
            kept == KeptKeys(ordered, Greedy(costs, maxTokens)) && used == Cost(Greedy(costs, maxTokens), costs)
  {
    used, kept := 0, {};
    ghost var costs := Costs(ordered, tokenMap);
    var i := 0;
    while i < |ordered|
      invariant 0 <= i <= |ordered| && PackedTo(ordered, costs, maxTokens, i, used, kept)
    {
      var chunkTokens := tokenMap[ordered[i]];
      PackOne(ordered, costs, maxTokens, i, used, kept);
      if used + chunkTokens <= maxTokens {
        kept := kept + {ordered[i]};
        used := used + chunkTokens;
      }
      i := i + 1;
    }
    assert costs[..|ordered|] == costs && ordered[..|ordered|] == ordered;
  }

  method Render(ordered: seq<string>, chunkMap: map<string, string>, kept: set<string>) returns (chunks: seq<string>)
    requires forall k :: k in ordered ==> k in chunkMap
    ensures chunks == Rendered(ordered, chunkMap, kept)
  {
    chunks := [];
    var i := 0;
    while i < |ordered|
      invariant 0 <= i <= |ordered| && chunks == Rendered(ordered[..i], chunkMap, kept)
    {
      assert ordered[..i + 1][..i] == ordered[..i];
      if ordered[i] in kept { chunks := chunks + [chunkMap[ordered[i]]]; }
      i := i + 1;
    }
    assert ordered[..|ordered|] == ordered;
  }

  // ---------- Tokens by key ----------

  /** Tokens of the kept keys, each as often as it is listed. */
  function SumKept(keys: seq<string>, tokens: map<string, nat>, kept: set<string>): (r: nat) {
    if keys == [] then 0
    else
      var k := keys[|keys| - 1];
      SumKept(keys[..|keys| - 1], tokens, kept) + if k in kept && k in tokens then tokens[k] else 0
  }

  lemma {:induction false} SumInsert(s: seq<string>, x: string, key: string -> real, tokens: map<string, nat>, kept: set<string>)
    ensures SumKept(Insert(s, x, key), tokens, kept) == SumKept(s + [x], tokens, kept)
  {
    assert (s + [x])[..|s|] == s;
    if s != [] && key(x) < key(s[|s| - 1]) {
      var front := s[..|s| - 1];
      SumInsert(front, x, key, tokens, kept);
      assert (front + [x])[..|front|] == front;
      assert Insert(s, x, key)[..|s|] == Insert(front, x, key);
    }
  }

  lemma {:induction false} SumSorted(s: seq<string>, key: string -> real, tokens: map<string, nat>, kept: set<string>)
    ensures SumKept(StableSort(s, key), tokens, kept) == SumKept(s, tokens, kept)
  {
    if s != [] {
      var front := StableSort(s[..|s| - 1], key);
      SumSorted(s[..|s| - 1], key, tokens, kept);
      SumInsert(front, s[|s| - 1], key, tokens, kept);
      assert (front + [s[|s| - 1]])[..|front|] == front;
    }
  }

  lemma {:induction false} SumIsCost(order: seq<string>, tokens: map<string, nat>, kept: set<string>)
    requires forall k :: k in order ==> k in tokens
    ensures SumKept(order, tokens, kept) == Cost(Chosen(order, kept), Costs(order, tokens))
  {
    if order != [] {
      var front := order[..|order| - 1];
      SumIsCost(front, tokens, kept);
      assert Chosen(order, kept)[..|front|] == Chosen(front, kept);
      assert Costs(order, tokens)[..|front|] == Costs(front, tokens);
    }
  }

  /** With distinct keys, as the store provides them, no rank is resurrected: a decision is Kept exactly when
      its rank was packed, and so the selected tokens are the tokens used. */
  lemma {:induction false} DistinctKeysBalance(artefacts: seq<Artefact>, scores: Scores, flags: seq<bool>, i: nat)
    requires Distinct(Keys(artefacts)) && i < |Order(artefacts, scores)| == |flags|
    ensures !Resurrected(Order(artefacts, scores), flags, i)
    ensures Order(artefacts, scores)[i] in KeptKeys(Order(artefacts, scores), flags) <==> flags[i]
  {
    OrderPermutes(artefacts, scores);
    DistinctPermuted(Keys(artefacts), Order(artefacts, scores));
    DistinctNotResurrected(Order(artefacts, scores), flags, i);
  }

  lemma DistinctPermuted(a: seq<string>, b: seq<string>)
    requires Distinct(a) && multiset(a) == multiset(b)
    ensures Distinct(b)
  {
    forall i, j | 0 <= i < j < |b| ensures b[i] != b[j] {
      if b[i] == b[j] {
        assert b == b[..i] + [b[i]] + b[i + 1..j] + [b[j]] + b[j + 1..];
        assert multiset(b)[b[i]] >= 2;
        OnceIfDistinct(a, b[i]);
        assert false;
      }
    }
  }

  lemma {:induction false} OnceIfDistinct(a: seq<string>, x: string)
    requires Distinct(a)
    ensures multiset(a)[x] <= 1
  {
    if a != [] {
      var front, last := a[..|a| - 1], a[|a| - 1];
      OnceIfDistinct(front, x);
      assert a == front + [last];
      if x == last {
        assert x !in front;
        assert multiset(front)[x] == 0;
      }
    }
  }
}
