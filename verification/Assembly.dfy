/** The context package assembled from the packed artefacts: a decision for each, the kept ones selected. */
module Assembly {
  import opened Common
  import opened Ranking
  import opened Packing

  datatype Reason = Kept | Dropped(why: string)

  datatype Decision = Decision(key: string, tokens: nat, reason: Reason)

  datatype Selection = Selection(key: string, tokens: nat)

  function Decide(a: Artefact, tokens: map<string, nat>, kept: set<string>, reasons: map<string, string>): Decision {
    Decision(a.key, if a.key in tokens then tokens[a.key] else 0,
             if a.key in kept then Kept else Dropped(if a.key in reasons then reasons[a.key] else "budget"))
  }

  function Total(selections: seq<Selection>): (r: nat) {
    if selections == [] then 0 else Total(selections[..|selections| - 1]) + selections[|selections| - 1].tokens
  }

  function Decisions(artefacts: seq<Artefact>, tokens: map<string, nat>, kept: set<string>, reasons: map<string, string>): (r: seq<Decision>)
    ensures |r| == |artefacts|
  {
    seq(|artefacts|, i requires 0 <= i < |artefacts| => Decide(artefacts[i], tokens, kept, reasons))
  }

  /** The kept decisions in order. */
  function Selected(decisions: seq<Decision>): (r: seq<Selection>) {
    if decisions == [] then []
    else
      var d := decisions[|decisions| - 1];
      Selected(decisions[..|decisions| - 1]) + if d.reason.Kept? then [Selection(d.key, d.tokens)] else []
  }

  lemma DecideOneMore(artefacts: seq<Artefact>, tokens: map<string, nat>, kept: set<string>, reasons: map<string, string>, i: nat)
    requires i < |artefacts|
    ensures var before, d := Decisions(artefacts[..i], tokens, kept, reasons), Decide(artefacts[i], tokens, kept, reasons);
            && Decisions(artefacts[..i + 1], tokens, kept, reasons) == before + [d]
            && Selected(before + [d]) ==
               if d.reason.Kept? then Selected(before) + [Selection(d.key, d.tokens)] else Selected(before)
  {
    var before, d := Decisions(artefacts[..i], tokens, kept, reasons), Decide(artefacts[i], tokens, kept, reasons);
    assert (before + [d])[..i] == before;
  }

  /** What is selected of a decision: its key and tokens, if it was kept. */
  const SelectionOf: Decision -> Option<Selection> :=
    (d: Decision) => if d.reason.Kept? then Some(Selection(d.key, d.tokens)) else None

  lemma {:induction false} SelectedCollects(decisions: seq<Decision>)
    ensures Collects(Selected(decisions), decisions, SelectionOf)
  {
    if decisions != [] {
      var front, d := decisions[..|decisions| - 1], decisions[|decisions| - 1];
      SelectedCollects(front);
      assert Selected(front) + [] == Selected(front);
      CollectsNext(Selected(front), decisions, SelectionOf, Selected(decisions));
    }
  }

  lemma {:induction false} SelectedTotal(artefacts: seq<Artefact>, tokens: map<string, nat>, kept: set<string>, reasons: map<string, string>)
    requires forall i :: 0 <= i < |artefacts| ==> artefacts[i].key in tokens
    ensures Total(Selected(Decisions(artefacts, tokens, kept, reasons))) == SumKept(Keys(artefacts), tokens, kept)
  {
    if artefacts != [] {
      var n := |artefacts| - 1;
      SelectedTotal(artefacts[..n], tokens, kept, reasons);
      assert artefacts[..n + 1] == artefacts;
      DecideOneMore(artefacts, tokens, kept, reasons, n);
      assert Keys(artefacts)[..n] == Keys(artefacts[..n]);
    }
  }

  method DecideAll(artefacts: seq<Artefact>, tokenMap: map<string, nat>, kept: set<string>, reasons: map<string, string>)
    returns (decisions: seq<Decision>, selections: seq<Selection>)
    ensures decisions == Decisions(artefacts, tokenMap, kept, reasons) && selections == Selected(decisions)
  {
    decisions, selections := [], [];
    var i := 0;
    while i < |artefacts|
      invariant 0 <= i <= |artefacts|
      invariant decisions == Decisions(artefacts[..i], tokenMap, kept, reasons) && selections == Selected(decisions)
    {
      var a := artefacts[i];
      var d := Decision(a.key, if a.key in tokenMap then tokenMap[a.key] else 0,
                        if a.key in kept then Kept else Dropped(if a.key in reasons then reasons[a.key] else "budget"));
      DecideOneMore(artefacts, tokenMap, kept, reasons, i);
      decisions := decisions + [d];
      if d.reason.Kept? { selections := selections + [Selection(d.key, d.tokens)]; }
      i := i + 1;
    }
    assert artefacts[..|artefacts|] == artefacts;
  }

  /** The package: a decision per artefact, and the kept ones selected in input order. */
  method AssemblePackage(artefacts: seq<Artefact>, maxTokens: int, scores: map<string, real>, reasons: map<string, string>)
    returns (decisions: seq<Decision>, selections: seq<Selection>, used: nat, kept: set<string>)
    ensures kept == PackedKeys(artefacts, maxTokens, ByKey(scores))
    ensures used == Cost(Packed(artefacts, maxTokens, ByKey(scores)), CostsOf(artefacts, ByKey(scores)))
    ensures decisions == Decisions(artefacts, TokenMap(artefacts), kept, reasons)
    ensures |decisions| == |artefacts| && Collects(selections, decisions, SelectionOf)
    ensures Distinct(Keys(artefacts)) ==>
              && BestChoice(artefacts, ByKey(scores), maxTokens, kept) && used == TokensOf(artefacts, kept)
              && forall i :: 0 <= i < |artefacts| ==>
                   var key := artefacts[i].key;
                   decisions[i] == Decision(key, artefacts[i].tokens,
                                            if key in kept then Kept
                                            else Dropped(if key in reasons then reasons[key] else "budget"))
    ensures selections == Selected(decisions)
  {
    var chunks, tokenMap, count, keys := CompressContext(artefacts, maxTokens, ByKey(scores));
    decisions, selections := DecideAll(artefacts, tokenMap, keys, reasons);
    SelectedCollects(decisions);
    forall i | Distinct(Keys(artefacts)) && 0 <= i < |artefacts|
      ensures artefacts[i].key in tokenMap && tokenMap[artefacts[i].key] == artefacts[i].tokens
    {
      OwnTokens(artefacts, i);
    }
    used, kept := count, keys;
  }

  lemma {:induction false} KeyListed(artefacts: seq<Artefact>, i: nat)
    requires i < |artefacts|
    ensures artefacts[i].key in Keys(artefacts)
  {
    if i < |artefacts| - 1 { KeyListed(artefacts[..|artefacts| - 1], i); }
  }

  lemma {:induction false} SumIff(artefacts: seq<Artefact>, scores: map<string, real>, budget: int)
    ensures var order, flags, costs := Order(artefacts, ByKey(scores)), Packed(artefacts, budget, ByKey(scores)), CostsOf(artefacts, ByKey(scores));
            SumKept(Keys(artefacts), TokenMap(artefacts), PackedKeys(artefacts, budget, ByKey(scores))) == Cost(flags, costs) <==>
            forall i :: 0 <= i < |order| && Resurrected(order, flags, i) ==> costs[i] == 0
  {
    var order, tokens, kept := Order(artefacts, ByKey(scores)), TokenMap(artefacts), PackedKeys(artefacts, budget, ByKey(scores));
    OrderPermutes(artefacts, ByKey(scores));
    SumSorted(Keys(artefacts), k => 0.0 - ScoreOf(scores, k), tokens, kept);
    SumIsCost(order, tokens, kept);
    RenderedTokensIff(order, tokens, budget);
  }

  /** The package's selections add up to its `token_used` exactly when no dropped rank of positive size
      shares its key with a kept one. */
  lemma {:induction false} SelectedTokensIff(artefacts: seq<Artefact>, scores: map<string, real>, budget: int,
                                             reasons: map<string, string>, kept: set<string>)
    requires kept == PackedKeys(artefacts, budget, ByKey(scores))
    ensures var order, flags, costs := Order(artefacts, ByKey(scores)), Packed(artefacts, budget, ByKey(scores)), CostsOf(artefacts, ByKey(scores));
            Total(Selected(Decisions(artefacts, TokenMap(artefacts), kept, reasons))) == Cost(flags, costs) <==>
            forall i :: 0 <= i < |order| && Resurrected(order, flags, i) ==> costs[i] == 0
  {
    forall i | 0 <= i < |artefacts| ensures artefacts[i].key in TokenMap(artefacts) { KeyListed(artefacts, i); }
    SelectedTotal(artefacts, TokenMap(artefacts), kept, reasons);
    SumIff(artefacts, scores, budget);
  }
}
