/** Ranked selection of artefacts with drop reasons. Scores are given; so is the verdict of the exclusion
    rules. */
module Selector {
  import opened Common
  import opened Ranking

  datatype Exclusion = Admitted | PrivacyExcluded | PathExcluded

  datatype Candidate = Candidate(key: string, corpus: string, score: real, exclusion: Exclusion)

  const Descending: Candidate -> real := (c: Candidate) => 0.0 - c.score

  const COMPETITIVE_SHARE: real := 0.45

  function Eligible(cs: seq<Candidate>): (r: seq<Candidate>) {
    if cs == [] then []
    else Eligible(cs[..|cs| - 1]) + if cs[|cs| - 1].exclusion.Admitted? then [cs[|cs| - 1]] else []
  }

  function Ranked(cs: seq<Candidate>): seq<Candidate> { StableSort(Eligible(cs), Descending) }

  function Threshold(ranked: seq<Candidate>): real {
    if ranked == [] then 0.0 else ranked[0].score * COMPETITIVE_SHARE
  }

  function Competitive(ranked: seq<Candidate>, least: real): (r: seq<Candidate>)
    ensures |r| <= |ranked|
  {
    if ranked == [] then []
    else Competitive(ranked[..|ranked| - 1], least) +
         if ranked[|ranked| - 1].score >= least then [ranked[|ranked| - 1]] else []
  }

  /** The simple meaning: the first n of the ranking among those of at least 0.45 of the best score. */
  function Selection(cs: seq<Candidate>, n: int): seq<Candidate> {
    Take(Competitive(Ranked(cs), Threshold(Ranked(cs))), n)
  }

  const CandidateKey: Candidate -> string := (x: Candidate) => x.key

  ghost function KeysOf(xs: seq<Candidate>): (r: set<string>) { KeySet(xs, CandidateKey) }

  /** One competitive row while the loop runs: whether it brings a new corpus or there is room, it is taken,
      unless nothing at all is wanted. */
  method TakeRow(selected: seq<Candidate>, corpora: set<string>, c: Candidate, topN: int)
    returns (more: seq<Candidate>, seen: set<string>)
    requires selected == [] || |selected| < topN
    ensures more == if 0 < topN then selected + [c] else []
  {
    more, seen := selected, corpora;
    if selected != [] && c.corpus !in corpora {
      more := selected + [c];
      seen := corpora + {c.corpus};
    } else if |selected| < topN {
      more := selected + [c];
      seen := corpora + {c.corpus};
    }
  }

  /** Once full, later rows change nothing. */
  lemma {:induction false} CompetitivePrefix(ranked: seq<Candidate>, least: real, i: nat)
    requires i <= |ranked|
    ensures Competitive(ranked[..i], least) <= Competitive(ranked, least)
  {
    if i == |ranked| {
      assert ranked[..i] == ranked;
    } else {
      var front := ranked[..|ranked| - 1];
      CompetitivePrefix(front, least, i);
      assert front[..i] == ranked[..i];
    }
  }

  lemma FullAlready(ranked: seq<Candidate>, least: real, i: nat, n: int, best: seq<Candidate>)
    requires i <= |ranked| && best == Competitive(ranked[..i], least) && |best| >= n
    ensures Take(Competitive(ranked, least), n) == Take(best, n)
  {
    CompetitivePrefix(ranked, least, i);
  }

  function Below(ranked: seq<Candidate>, least: real): (r: seq<Candidate>) {
    if ranked == [] then []
    else Below(ranked[..|ranked| - 1], least) +
         if ranked[|ranked| - 1].score < least then [ranked[|ranked| - 1]] else []
  }

  /** One more row of the ranking. */
  lemma RowStep(ranked: seq<Candidate>, least: real, i: nat)
    requires i < |ranked|
    ensures var c := ranked[i];
            && Competitive(ranked[..i + 1], least) ==
               Competitive(ranked[..i], least) + (if c.score < least then [] else [c])
            && KeysOf(Below(ranked[..i + 1], least)) ==
               KeysOf(Below(ranked[..i], least)) + (if c.score < least then {c.key} else {})
  {
    var c, below := ranked[i], Below(ranked[..i], least);
    assert ranked[..i + 1][..i] == ranked[..i] && ranked[..i + 1][i] == c;
    KeySetOneMore(below, c, CandidateKey);
    assert Below(ranked[..i + 1], least) == if c.score < least then below + [c] else below;
  }

  /** Those keys are told to be below the threshold, and the other reasons are as they were. */
  ghost predicate Reasoned(now: map<string, string>, before: map<string, string>, low: set<string>) {
    && now.Keys == before.Keys + low
    && forall k :: k in now ==> now[k] == if k in low then "below_competitive_threshold" else before[k]
  }

  lemma ReasonOne(now: map<string, string>, before: map<string, string>, low: set<string>, k: string)
    requires Reasoned(now, before, low)
    ensures Reasoned(now[k := "below_competitive_threshold"], before, low + {k})
  {
  }

  /** The loop over the ranking with its diversity branch, until it is full. */
  method TakeRows(ranked: seq<Candidate>, least: real, topN: int, reasons: map<string, string>)
    returns (selected: seq<Candidate>, captured: map<string, string>,
             ghost seen: nat, ghost best: seq<Candidate>, ghost low: set<string>)
    ensures seen <= |ranked| && best == Competitive(ranked[..seen], least) && low == KeysOf(Below(ranked[..seen], least))
    ensures selected == Take(best, topN)
    ensures || (seen == |ranked| && (best == [] || |selected| < topN))
            || (seen > 0 && ranked[seen - 1].score >= least && best != [] && |best| >= topN)
    ensures Reasoned(captured, reasons, low)
  {
    selected, captured, low := [], reasons, {};
    var corpora: set<string> := {};
    var i := 0;
    while i < |ranked|
      invariant 0 <= i <= |ranked|
      invariant selected == Competitive(ranked[..i], least) && (selected == [] || |selected| < topN)
      invariant low == KeysOf(Below(ranked[..i], least))
      invariant Reasoned(captured, reasons, low)
    {
      var c := ranked[i];
      RowStep(ranked, least, i);
      i := i + 1;
      if c.score < least {
        ReasonOne(captured, reasons, low, c.key);
        low := low + {c.key};
        captured := captured[c.key := "below_competitive_threshold"];
        continue;
      }
      best := selected + [c];
      selected, corpora := TakeRow(selected, corpora, c, topN);
      if |selected| >= topN {
        seen := i;
        return;
      }
    }
    seen, best := i, selected;
  }

  lemma {:induction false} NoneBelow(ranked: seq<Candidate>, least: real)
    requires forall i :: 0 <= i < |ranked| ==> ranked[i].score >= least
    ensures Below(ranked, least) == []
  {
    if ranked != [] { NoneBelow(ranked[..|ranked| - 1], least); }
  }

  /** Rows below the threshold come last, so they are looked at only if the selection is not full before. */
  lemma SeenBelow(ranked: seq<Candidate>, least: real, topN: int, seen: nat, best: seq<Candidate>)
    requires Ascending(ranked, Descending) && least == Threshold(ranked) && seen <= |ranked|
    requires best == Competitive(ranked[..seen], least)
    requires || (seen == |ranked| && (best == [] || |Take(best, topN)| < topN))
             || (seen > 0 && ranked[seen - 1].score >= least && best != [] && |best| >= topN)
    ensures Below(ranked[..seen], least) ==
            if |Take(best, topN)| < topN || (ranked != [] && ranked[0].score < 0.0) then Below(ranked, least) else []
  {
    if seen == |ranked| && (best == [] || |Take(best, topN)| < topN) {
      assert ranked[..seen] == ranked;
      CompetitiveRun(ranked, least);
    } else {
      forall i | 0 <= i < seen ensures ranked[i].score >= least {
        assert i < seen - 1 ==> Descending(ranked[i]) <= Descending(ranked[seen - 1]);
      }
      assert Descending(ranked[0]) <= Descending(ranked[seen - 1]) || seen == 1;
      NoneBelow(ranked[..seen], least);
    }
  }

  /** `seen` rows were looked at; those below the threshold among them got a reason. */
  method SelectRows(ranked: seq<Candidate>, topN: int, reasons: map<string, string>)
    returns (selected: seq<Candidate>, captured: map<string, string>, ghost seen: nat)
    ensures selected == Take(Competitive(ranked, Threshold(ranked)), topN)
    ensures seen <= |ranked|
    ensures captured.Keys == reasons.Keys + KeysOf(Below(ranked[..seen], Threshold(ranked)))
    ensures Reasoned(captured, reasons, KeysOf(Below(ranked[..seen], Threshold(ranked))))
    ensures Ascending(ranked, Descending) ==>
              Below(ranked[..seen], Threshold(ranked)) ==
              if |selected| < topN || (ranked != [] && ranked[0].score < 0.0) then Below(ranked, Threshold(ranked)) else []
  {
    var least := if ranked == [] then 0.0 else ranked[0].score * COMPETITIVE_SHARE;
    ghost var best, low;
    selected, captured, seen, best, low := TakeRows(ranked, least, topN, reasons);
    if Ascending(ranked, Descending) { SeenBelow(ranked, least, topN, seen, best); }
    if seen < |ranked| {
      FullAlready(ranked, least, seen, topN, best);
    } else {
      assert ranked[..seen] == ranked;
    }
  }

  function Excuse(c: Candidate): string { if c.exclusion.PrivacyExcluded? then "privacy_excluded" else "path_excluded" }

  /** The reasons after the excluded candidates have been told why. */
  function ExcuseAll(cs: seq<Candidate>, before: map<string, string>): (r: map<string, string>) {
    if cs == [] then before
    else
      var c, m := cs[|cs| - 1], ExcuseAll(cs[..|cs| - 1], before);
      if c.exclusion.Admitted? then m else m[c.key := Excuse(c)]
  }

  lemma {:induction false} ExcuseKeys(cs: seq<Candidate>, before: map<string, string>)
    ensures ExcuseAll(cs, before).Keys == before.Keys + KeysOf(Excluded(cs))
  {
    if cs != [] {
      ExcuseKeys(cs[..|cs| - 1], before);
      var front, c := Excluded(cs[..|cs| - 1]), cs[|cs| - 1];
      KeySetOneMore(front, c, CandidateKey);
      assert Excluded(cs) == if c.exclusion.Admitted? then front else front + [c];
    }
  }

  lemma {:induction false} ExcuseAt(cs: seq<Candidate>, before: map<string, string>, i: nat)
    requires i < |cs| && forall j :: i < j < |cs| ==> cs[j].key != cs[i].key
    requires forall j :: 0 <= j < i ==> cs[j].key != cs[i].key
    ensures var now, k := ExcuseAll(cs, before), cs[i].key;
            if cs[i].exclusion.Admitted? then (k in now <==> k in before) && (k in now ==> now[k] == before[k])
            else k in now && now[k] == Excuse(cs[i])
  {
    if i < |cs| - 1 {
      ExcuseAt(cs[..|cs| - 1], before, i);
    } else {
      ExcuseNot(cs[..i], before, cs[i].key);
    }
  }

  lemma {:induction false} ExcuseNot(cs: seq<Candidate>, before: map<string, string>, k: string)
    requires forall j :: 0 <= j < |cs| ==> cs[j].key != k
    ensures var now := ExcuseAll(cs, before); (k in now <==> k in before) && (k in now ==> now[k] == before[k])
  {
    if cs != [] { ExcuseNot(cs[..|cs| - 1], before, k); }
  }

  /** The loop over the candidates: rows to rank, and reasons for those excluded. */
  method GatherRows(cs: seq<Candidate>, reasons: map<string, string>)
    returns (rows: seq<Candidate>, captured: map<string, string>)
    ensures rows == Eligible(cs) && captured == ExcuseAll(cs, reasons)
  {
    rows, captured := [], reasons;
    var i := 0;
    while i < |cs|
      invariant 0 <= i <= |cs| && rows == Eligible(cs[..i]) && captured == ExcuseAll(cs[..i], reasons)
    {
      assert cs[..i + 1][..i] == cs[..i] && cs[..i + 1][i] == cs[i];
      if cs[i].exclusion.Admitted? {
        rows := rows + [cs[i]];
      } else {
        captured := captured[cs[i].key := if cs[i].exclusion.PrivacyExcluded? then "privacy_excluded" else "path_excluded"];
      }
      i := i + 1;
    }
    assert cs[..|cs|] == cs;
  }

  /** The reason a candidate ends up with: why it was excluded; for an admitted one that was not selected, that it is
      below the threshold if the selection is not full or there can be none, and otherwise what was known
      before or that others came first; for a selected one whatever was known before. */
  ghost predicate ReasonTold(cs: seq<Candidate>, topN: int, before: map<string, string>, selected: seq<Candidate>,
                             now: map<string, string>, c: Candidate) {
    if c.exclusion.PrivacyExcluded? then c.key in now && now[c.key] == "privacy_excluded"
    else if c.exclusion.PathExcluded? then c.key in now && now[c.key] == "path_excluded"
    else if c in selected then (c.key in now <==> c.key in before) && (c.key in now ==> now[c.key] == before[c.key])
    else if |selected| < topN || AllNegative(cs) then c.key in now && now[c.key] == "below_competitive_threshold"
    else c.key in now && now[c.key] == if c.key in before then before[c.key] else "ranked_below_top_n"
  }

  ghost predicate AllNegative(cs: seq<Candidate>) { forall x :: x in cs && x.exclusion.Admitted? ==> x.score < 0.0 }

  lemma NegativeIff(cs: seq<Candidate>)
    requires Ranked(cs) != []
    ensures AllNegative(cs) <==> Ranked(cs)[0].score < 0.0
  {
    var ranked := Ranked(cs);
    Members(cs);
    RankedMembers(cs);
    StableSortAscending(Eligible(cs), Descending);
    assert ranked[0] in ranked;
    if ranked[0].score < 0.0 {
      forall x | x in cs && x.exclusion.Admitted? ensures x.score < 0.0 {
        assert x in ranked;
        var p :| 0 <= p < |ranked| && ranked[p] == x;
        assert p > 0 ==> Descending(ranked[0]) <= Descending(ranked[p]);
      }
    }
  }

  /** If the selection is not full, or the best score is negative, everything competitive is selected. */
  lemma LooseTakesAll(cs: seq<Candidate>, topN: int)
    requires Ranked(cs) != [] && (|Selection(cs, topN)| < topN || Ranked(cs)[0].score < 0.0)
    ensures Selection(cs, topN) == Competitive(Ranked(cs), Threshold(Ranked(cs)))
  {
    var all := Competitive(Ranked(cs), Threshold(Ranked(cs)));
    StableSortAscending(Eligible(cs), Descending);
    CutIsPrefix(Ranked(cs), |all|);
  }

  lemma LowIff(cs: seq<Candidate>, topN: int, low: seq<Candidate>, c: Candidate)
    requires DistinctKeys(cs, CandidateKey) && c in cs && c.exclusion.Admitted?
    requires low == if |Selection(cs, topN)| < topN || (Ranked(cs) != [] && Ranked(cs)[0].score < 0.0)
                    then Below(Ranked(cs), Threshold(Ranked(cs))) else []
    ensures c.key in KeysOf(low) <==> c !in Selection(cs, topN) && (|Selection(cs, topN)| < topN || AllNegative(cs))
  {
    Members(cs);
    RankedMembers(cs);
    assert c in Ranked(cs);
    NegativeIff(cs);
    BelowMembers(Ranked(cs), Threshold(Ranked(cs)));
    KeyOwner(cs, low, c);
    if low != [] || |Selection(cs, topN)| < topN || AllNegative(cs) {
      LooseTakesAll(cs, topN);
      CompetitiveMembers(Ranked(cs), Threshold(Ranked(cs)));
    }
  }

  lemma {:induction false} TakenMembers(cs: seq<Candidate>, topN: int)
    ensures forall x :: x in Selection(cs, topN) ==> x in cs && x.exclusion.Admitted?
  {
    Members(cs);
    RankedMembers(cs);
    CompetitiveMembers(Ranked(cs), Threshold(Ranked(cs)));
  }

  lemma RestIff(cs: seq<Candidate>, topN: int, c: Candidate)
    requires DistinctKeys(cs, CandidateKey) && c in cs
    ensures c.key in KeysOf(Ranked(cs)) - KeysOf(Selection(cs, topN)) <==> c.exclusion.Admitted? && c !in Selection(cs, topN)
  {
    Members(cs);
    RankedMembers(cs);
    TakenMembers(cs, topN);
    KeyOwner(cs, Ranked(cs), c);
    KeyOwner(cs, Selection(cs, topN), c);
  }

  lemma LowAdmitted(cs: seq<Candidate>, low: seq<Candidate>, c: Candidate)
    requires DistinctKeys(cs, CandidateKey) && c in cs && !c.exclusion.Admitted?
    requires low == [] || low == Below(Ranked(cs), Threshold(Ranked(cs)))
    ensures c.key !in KeysOf(low)
  {
    Members(cs);
    RankedMembers(cs);
    BelowMembers(Ranked(cs), Threshold(Ranked(cs)));
    KeyOwner(cs, low, c);
  }

  lemma WhichReason(cs: seq<Candidate>, topN: int, before: map<string, string>, selected: seq<Candidate>, low: seq<Candidate>,
                    r1: map<string, string>, now: map<string, string>, c: Candidate)
    requires DistinctKeys(cs, CandidateKey) && c in cs && selected == Selection(cs, topN)
    requires Reasoned(r1, ExcuseAll(cs, before), KeysOf(low))
    requires low == if |selected| < topN || (Ranked(cs) != [] && Ranked(cs)[0].score < 0.0)
                    then Below(Ranked(cs), Threshold(Ranked(cs))) else []
    requires now.Keys == r1.Keys + (KeysOf(Ranked(cs)) - KeysOf(selected))
    requires forall k :: k in now ==> now[k] == if k in r1 then r1[k] else "ranked_below_top_n"
    ensures ReasonTold(cs, topN, before, selected, now, c)
  {
    var i :| 0 <= i < |cs| && cs[i] == c;
    forall j | 0 <= j < |cs| && j != i ensures cs[j].key != c.key { assert CandidateKey(cs[j]) != CandidateKey(cs[i]); }
    ExcuseAt(cs, before, i);
    RestIff(cs, topN, c);
    if c.exclusion.Admitted? { LowIff(cs, topN, low, c); } else { LowAdmitted(cs, low, c); }
    assert c.key in now <==> c.key in r1 || (c.exclusion.Admitted? && c !in selected);
    assert c.key in r1 <==> c.key in ExcuseAll(cs, before) || c.key in KeysOf(low);
  }

  method SelectArtefacts(cs: seq<Candidate>, topN: int, reasons: map<string, string>)
    returns (selected: seq<Candidate>, captured: map<string, string>, ghost seen: nat)
    ensures selected == Selection(cs, topN)
    ensures seen <= |Ranked(cs)|
    ensures captured.Keys ==
            reasons.Keys + KeysOf(Excluded(cs)) + KeysOf(Below(Ranked(cs)[..seen], Threshold(Ranked(cs)))) +
            (KeysOf(Ranked(cs)) - KeysOf(selected))
    ensures DistinctKeys(cs, CandidateKey) ==>
              forall c :: c in cs ==> ReasonTold(cs, topN, reasons, selected, captured, c)
  {
    var rows;
    rows, captured := GatherRows(cs, reasons);
    ExcuseKeys(cs, reasons);
    var ranked := StableSort(rows, Descending);
    StableSortAscending(rows, Descending);
    selected, captured, seen := SelectRows(ranked, topN, captured);
    ghost var r1 := captured;
    captured := ReasonRest(ranked, selected, captured);
    if DistinctKeys(cs, CandidateKey) {
      forall c | c in cs ensures ReasonTold(cs, topN, reasons, selected, captured, c) {
        WhichReason(cs, topN, reasons, selected, Below(ranked[..seen], Threshold(ranked)), r1, captured, c);
      }
    }
  }

  method ReasonRest(ranked: seq<Candidate>, selected: seq<Candidate>, reasons: map<string, string>)
    returns (captured: map<string, string>)
    ensures captured.Keys == reasons.Keys + (KeysOf(ranked) - KeysOf(selected))
    ensures forall k :: k in captured ==> captured[k] == if k in reasons then reasons[k] else "ranked_below_top_n"
  {
    captured := reasons;
    var selectedKeys: set<string> := set c | c in selected :: c.key;
    assert selectedKeys == KeysOf(selected);
    var i := 0;
    while i < |ranked|
      invariant 0 <= i <= |ranked|
      invariant captured.Keys == reasons.Keys + (KeysOf(ranked[..i]) - KeysOf(selected))
      invariant forall k :: k in captured ==> captured[k] == if k in reasons then reasons[k] else "ranked_below_top_n"
    {
      var c := ranked[i];
      assert ranked[..i + 1] == ranked[..i] + [c];
      KeySetOneMore(ranked[..i], c, CandidateKey);
      if c.key !in selectedKeys && c.key !in captured {
        captured := captured[c.key := "ranked_below_top_n"];
      }
      i := i + 1;
    }
    assert ranked[..|ranked|] == ranked;
  }

  function Excluded(cs: seq<Candidate>): (r: seq<Candidate>) {
    if cs == [] then []
    else Excluded(cs[..|cs| - 1]) + if cs[|cs| - 1].exclusion.Admitted? then [] else [cs[|cs| - 1]]
  }

  // ---------- What the caller learns ----------

  /** With distinct keys and a fresh reasons map, exactly the candidates that were not selected have a
      reason. */
  lemma ReasonsIff(cs: seq<Candidate>, topN: int, seen: nat, captured: set<string>, c: Candidate)
    requires DistinctKeys(cs, CandidateKey) && c in cs && seen <= |Ranked(cs)|
    requires captured ==
             KeysOf(Excluded(cs)) + KeysOf(Below(Ranked(cs)[..seen], Threshold(Ranked(cs)))) +
             (KeysOf(Ranked(cs)) - KeysOf(Selection(cs, topN)))
    ensures c.key in captured <==> c !in Selection(cs, topN)
  {
    var ranked, least := Ranked(cs), Threshold(Ranked(cs));
    Members(cs);
    RankedMembers(cs);
    BelowMembers(ranked[..seen], least);
    CompetitiveMembers(ranked, least);
    assert forall x :: x in Selection(cs, topN) ==> x in Competitive(ranked, least);
    KeyOwner(cs, Excluded(cs), c);
    KeyOwner(cs, ranked, c);
    KeyOwner(cs, Below(ranked[..seen], least), c);
    KeyOwner(cs, Selection(cs, topN), c);
  }

  lemma RankedMembers(cs: seq<Candidate>)
    ensures forall x :: x in Ranked(cs) <==> x in Eligible(cs)
  {
    StableSortAscending(Eligible(cs), Descending);
    forall x ensures x in Ranked(cs) <==> x in Eligible(cs) {
      assert x in Ranked(cs) <==> x in multiset(Ranked(cs));
      assert x in Eligible(cs) <==> x in multiset(Eligible(cs));
    }
  }

  lemma KeyOwner(cs: seq<Candidate>, part: seq<Candidate>, c: Candidate)
    requires DistinctKeys(cs, CandidateKey) && c in cs && forall x :: x in part ==> x in cs
    ensures c.key in KeysOf(part) <==> c in part
  {
    if c in part { var i :| 0 <= i < |part| && part[i] == c; }
    if c.key in KeysOf(part) {
      var i :| 0 <= i < |part| && part[i].key == c.key;
      assert part[i] in part;
    }
  }

  lemma {:induction false} Members(cs: seq<Candidate>)
    ensures forall x :: x in Eligible(cs) <==> x in cs && x.exclusion.Admitted?
    ensures forall x :: x in Excluded(cs) <==> x in cs && !x.exclusion.Admitted?
  {
    if cs != [] {
      Members(cs[..|cs| - 1]);
      assert cs == cs[..|cs| - 1] + [cs[|cs| - 1]];
    }
  }

  lemma {:induction false} BelowMembers(ranked: seq<Candidate>, least: real)
    ensures forall x :: x in Below(ranked, least) <==> x in ranked && x.score < least
  {
    if ranked != [] {
      BelowMembers(ranked[..|ranked| - 1], least);
      assert ranked == ranked[..|ranked| - 1] + [ranked[|ranked| - 1]];
    }
  }

  lemma {:induction false} CompetitiveMembers(ranked: seq<Candidate>, least: real)
    ensures forall x :: x in Competitive(ranked, least) <==> x in ranked && x.score >= least
  {
    if ranked != [] {
      CompetitiveMembers(ranked[..|ranked| - 1], least);
      assert ranked == ranked[..|ranked| - 1] + [ranked[|ranked| - 1]];
    }
  }

  /** The selection is a prefix of the ranking when the best score is not negative; when it is, 0.45 of it
      exceeds every score and nothing is selected. */
  lemma SelectionIsPrefix(cs: seq<Candidate>, topN: int)
    ensures var ranked := Ranked(cs);
            if ranked != [] && ranked[0].score < 0.0 then Selection(cs, topN) == []
            else Selection(cs, topN) <= ranked
  {
    StableSortAscending(Eligible(cs), Descending);
    CutIsPrefix(Ranked(cs), topN);
  }

  lemma {:induction false} CutIsPrefix(ranked: seq<Candidate>, topN: int)
    requires Ascending(ranked, Descending)
    ensures var cut := Take(Competitive(ranked, Threshold(ranked)), topN);
            if ranked != [] && ranked[0].score < 0.0 then cut == [] else cut <= ranked
  {
    var c := Competitive(ranked, Threshold(ranked));
    CompetitiveRun(ranked, Threshold(ranked));
  }

  // ---------- The selection, told from the candidates ----------

  /** Candidate j is admitted and scores more than candidate i, or as much and is listed earlier. */
  predicate Beats(cs: seq<Candidate>, j: nat, i: nat)
    requires i < |cs| && j < |cs|
  {
    cs[j].exclusion.Admitted? && (cs[j].score > cs[i].score || (cs[j].score == cs[i].score && j < i))
  }

  /** How many of the first n candidates beat candidate i. */
  ghost function BeatenBy(cs: seq<Candidate>, i: nat, n: nat): (r: nat)
    requires i < |cs| && n <= |cs|
    ensures r <= n
  {
    if n == 0 then 0 else BeatenBy(cs, i, n - 1) + if Beats(cs, n - 1, i) then 1 else 0
  }

  /** Candidate t has the best score of those admitted. */
  ghost predicate Tops(cs: seq<Candidate>, t: nat) {
    && t < |cs| && cs[t].exclusion.Admitted?
    && forall j :: 0 <= j < |cs| && cs[j].exclusion.Admitted? ==> cs[j].score <= cs[t].score
  }

  /** The row of candidate m, if it is admitted: as many come before as are admitted before it. */
  function RowOf(cs: seq<Candidate>, m: nat): (r: nat)
    requires m <= |cs|
  {
    |Eligible(cs[..m])|
  }

  lemma {:induction false} EligiblePrefix(cs: seq<Candidate>, m: nat)
    requires m <= |cs|
    ensures Eligible(cs[..m]) <= Eligible(cs)
  {
    if m < |cs| {
      EligiblePrefix(cs[..|cs| - 1], m);
      assert cs[..|cs| - 1][..m] == cs[..m];
    } else {
      assert cs[..m] == cs;
    }
  }

  lemma RowAt(cs: seq<Candidate>, m: nat)
    requires m < |cs|
    ensures RowOf(cs, m + 1) == RowOf(cs, m) + (if cs[m].exclusion.Admitted? then 1 else 0) <= |Eligible(cs)|
    ensures cs[m].exclusion.Admitted? ==> Eligible(cs)[RowOf(cs, m)] == cs[m]
  {
    assert cs[..m + 1][..m] == cs[..m] && cs[..m + 1][m] == cs[m];
    EligiblePrefix(cs, m + 1);
  }

  lemma RowsOrdered(cs: seq<Candidate>, i: nat, m: nat)
    requires i < |cs| && m < |cs| && cs[i].exclusion.Admitted? && cs[m].exclusion.Admitted?
    ensures RowOf(cs, m) < RowOf(cs, i) <==> m < i
  {
    var low, high := if m < i then m else i, if m < i then i else m;
    RowAt(cs, low);
    if low < high {
      assert cs[..high][..low + 1] == cs[..low + 1];
      EligiblePrefix(cs[..high], low + 1);
    }
  }

  lemma {:induction false} RowFrom(cs: seq<Candidate>, e: nat) returns (i: nat)
    requires e < |Eligible(cs)|
    ensures i < |cs| && cs[i].exclusion.Admitted? && RowOf(cs, i) == e
  {
    var n := |cs| - 1;
    if e < |Eligible(cs[..n])| {
      i := RowFrom(cs[..n], e);
      assert cs[..n][..i] == cs[..i];
    } else {
      i := n;
    }
  }

  /** One more candidate, admitted as row b or not at all. */
  lemma BeatenStep(cs: seq<Candidate>, rows: seq<Candidate>, i: nat, m: nat, a: nat, b: nat)
    requires i < |cs| && m < |cs| && a < |rows| && b <= |rows| && rows[a] == cs[i]
    requires cs[m].exclusion.Admitted? ==> b < |rows| && rows[b] == cs[m] && (b < a <==> m < i)
    requires Before(rows, Descending, a, b) == BeatenBy(cs, i, m)
    ensures cs[m].exclusion.Admitted? ==> Before(rows, Descending, a, b + 1) == BeatenBy(cs, i, m + 1)
    ensures !cs[m].exclusion.Admitted? ==> Before(rows, Descending, a, b) == BeatenBy(cs, i, m + 1)
  {
    if cs[m].exclusion.Admitted? { BeforeRow(rows, a, b); }
  }

  lemma {:induction false} BeatenIsBefore(cs: seq<Candidate>, i: nat, n: nat)
    requires i < |cs| && cs[i].exclusion.Admitted? && n <= |cs|
    ensures RowOf(cs, i) < |Eligible(cs)| && RowOf(cs, n) <= |Eligible(cs)|
    ensures Before(Eligible(cs), Descending, RowOf(cs, i), RowOf(cs, n)) == BeatenBy(cs, i, n)
  {
    RowAt(cs, i);
    if n > 0 {
      var m := n - 1;
      BeatenIsBefore(cs, i, m);
      RowAt(cs, m);
      if cs[m].exclusion.Admitted? { RowsOrdered(cs, i, m); }
      BeatenStep(cs, Eligible(cs), i, m, RowOf(cs, i), RowOf(cs, m));
    }
  }

  lemma BeforeRow(rows: seq<Candidate>, i: nat, m: nat)
    requires i < |rows| && m < |rows|
    ensures Before(rows, Descending, i, m + 1) == Before(rows, Descending, i, m) +
            if rows[m].score > rows[i].score || (rows[m].score == rows[i].score && m < i) then 1 else 0
  {
  }

  /** Every admitted candidate stands in the ranking where the count of those that beat it puts it. */
  lemma RankedAt(cs: seq<Candidate>, i: nat)
    requires i < |cs| && cs[i].exclusion.Admitted?
    ensures BeatenBy(cs, i, |cs|) < |Ranked(cs)| && Ranked(cs)[BeatenBy(cs, i, |cs|)] == cs[i]
  {
    assert cs[..|cs|] == cs;
    RowAt(cs, i);
    BeatenIsBefore(cs, i, |cs|);
    SortedByRank(Eligible(cs), Descending, RowOf(cs, i));
  }

  /** And every row of the ranking is such a candidate. */
  lemma RankedFrom(cs: seq<Candidate>, p: nat) returns (i: nat)
    requires p < |Ranked(cs)|
    ensures i < |cs| && cs[i].exclusion.Admitted? && BeatenBy(cs, i, |cs|) == p && Ranked(cs)[p] == cs[i]
  {
    assert cs[..|cs|] == cs;
    var e := RankTaken(Eligible(cs), Descending, p);
    i := RowFrom(cs, e);
    RowAt(cs, i);
    BeatenIsBefore(cs, i, |cs|);
  }

  lemma TopFirst(cs: seq<Candidate>, t: nat)
    requires Tops(cs, t)
    ensures Ranked(cs) != [] && Ranked(cs)[0].score == cs[t].score
  {
    RankedAt(cs, t);
    StableSortAscending(Eligible(cs), Descending);
    assert Descending(Ranked(cs)[0]) <= Descending(cs[t]);
    var i := RankedFrom(cs, 0);
  }

  lemma CompetitivePlaces(ranked: seq<Candidate>, p: nat)
    requires Ascending(ranked, Descending) && p < |ranked|
    ensures p < |Competitive(ranked, Threshold(ranked))| <==>
            0.0 <= ranked[0].score && 0.45 * ranked[0].score <= ranked[p].score
  {
    CompetitiveRun(ranked, Threshold(ranked));
    var n := |Competitive(ranked, Threshold(ranked))|;
    assert Descending(ranked[0]) <= Descending(ranked[p]);
    if n <= p {
      assert Descending(ranked[n]) <= Descending(ranked[p]);
    } else {
      assert Descending(ranked[p]) <= Descending(ranked[n - 1]) && Descending(ranked[0]) <= Descending(ranked[n - 1]);
    }
  }

  lemma TakenPlaces(ranked: seq<Candidate>, cut: seq<Candidate>, n: int, p: nat)
    requires cut <= ranked
    ensures p < |Take(cut, n)| <==> p < n && p < |cut|
    ensures p < |Take(cut, n)| ==> Take(cut, n)[p] == ranked[p]
  {
  }

  /** Of the admitted candidates exactly those are selected that fewer than n beat and that reach 0.45 of the best score,
      which is not negative; each stands at the place that counts those that beat it. */
  lemma SelectedIff(cs: seq<Candidate>, n: int, t: nat, i: nat)
    requires Tops(cs, t) && i < |cs| && cs[i].exclusion.Admitted?
    ensures var place := BeatenBy(cs, i, |cs|);
            && (place < |Selection(cs, n)| <==> place < n && 0.0 <= cs[t].score && 0.45 * cs[t].score <= cs[i].score)
            && (place < |Selection(cs, n)| ==> Selection(cs, n)[place] == cs[i])
  {
    RankedAt(cs, i);
    TopFirst(cs, t);
    StableSortAscending(Eligible(cs), Descending);
    CompetitivePlaces(Ranked(cs), BeatenBy(cs, i, |cs|));
    CompetitiveRun(Ranked(cs), Threshold(Ranked(cs)));
    TakenPlaces(Ranked(cs), Competitive(Ranked(cs), Threshold(Ranked(cs))), n, BeatenBy(cs, i, |cs|));
  }

  /** Nothing else is selected. */
  lemma SelectedFrom(cs: seq<Candidate>, n: int, p: nat) returns (i: nat)
    requires p < |Selection(cs, n)|
    ensures i < |cs| && cs[i].exclusion.Admitted? && BeatenBy(cs, i, |cs|) == p && Selection(cs, n)[p] == cs[i]
  {
    StableSortAscending(Eligible(cs), Descending);
    CompetitiveRun(Ranked(cs), Threshold(Ranked(cs)));
    TakenPlaces(Ranked(cs), Competitive(Ranked(cs), Threshold(Ranked(cs))), n, p);
    i := RankedFrom(cs, p);
  }

  lemma {:induction false} CompetitiveRun(ranked: seq<Candidate>, least: real)
    requires Ascending(ranked, Descending)
    ensures Competitive(ranked, least) <= ranked
    ensures Competitive(ranked, least) == [] || ranked[|Competitive(ranked, least)| - 1].score >= least
    ensures |Competitive(ranked, least)| < |ranked| ==> ranked[|Competitive(ranked, least)|].score < least
  {
    if ranked != [] {
      var n := |ranked| - 1;
      CompetitiveRun(ranked[..n], least);
      var c := Competitive(ranked[..n], least);
      if |c| < n { assert Descending(ranked[|c|]) <= Descending(ranked[n]); }
    }
  }
}
