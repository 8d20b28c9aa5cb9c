/** The two ways an answerable briefing caps its evidence: per section, and by transport priority. Trimming an
    excerpt gives a text of unknown token count: `trim(item, budget)`. */
module EvidenceCaps {
  import opened Evidence

  type Trimmer = (Item, int) -> nat

  const MIN_TRIM: int := 80

  function AtLeast(low: int, n: int): int { if n < low then low else n }

  function Trimmed(item: Item, budget: int, trim: Trimmer): Item {
    item.(tokens := trim(item, AtLeast(MIN_TRIM, budget)), truncated := true)
  }

  // ---------- Section caps ----------

  datatype Capped = Capped(kept: seq<Item>, used: nat, truncated: bool)

  /** The loop of `_cap_items` from a given point on. */
  function CapFrom(items: seq<Item>, budget: int, minItems: int, trim: Trimmer, c: Capped): (r: Capped)
    decreases |items|
  {
    if items == [] then c
    else
      var fits := c.used + items[0].tokens <= budget;
      if c.kept != [] && !fits && |c.kept| >= minItems then CapFrom(items[1..], budget, minItems, trim, c)
      else
        var item := if fits then items[0] else Trimmed(items[0], budget - c.used, trim);
        var next := Capped(c.kept + [item], c.used + item.tokens, c.truncated || !fits);
        if next.used >= budget && |next.kept| >= minItems then next
        else CapFrom(items[1..], budget, minItems, trim, next)
  }

  function Cap(items: seq<Item>, budget: int, minItems: int, trim: Trimmer): Capped {
    CapFrom(items, budget, minItems, trim, Capped([], 0, false))
  }

  method CapItems(items: seq<Item>, budget: int, minItems: int, trim: Trimmer)
    returns (kept: seq<Item>, dropped: int, truncated: bool)
    ensures var c := Cap(items, budget, minItems, trim);
            kept == c.kept && truncated == c.truncated && dropped == |items| - |kept|
  {
    var used: nat := 0;
    kept, truncated := [], false;
    var i := 0;
    while i < |items|
      invariant 0 <= i <= |items| && |kept| <= i
      invariant Cap(items, budget, minItems, trim) ==
                CapFrom(items[i..], budget, minItems, trim, Capped(kept, used, truncated))
    {
      var item := items[i];
      assert items[i..][0] == item && items[i..][1..] == items[i + 1..];
      i := i + 1;
      if kept != [] && used + item.tokens > budget && |kept| >= minItems { continue; }
      if used + item.tokens > budget {
        item := item.(tokens := trim(item, AtLeast(MIN_TRIM, budget - used)), truncated := true);
        truncated := true;
      }
      kept := kept + [item];
      used := used + item.tokens;
      if used >= budget && |kept| >= minItems { break; }
    }
    dropped := AtLeast(0, |items| - |kept|);
  }

  /** a is what is left of b after deleting some items. */
  predicate Subsequence(a: seq<Item>, b: seq<Item>)
    decreases |b|
  {
    a == [] || (b != [] && (if a[0] == b[0] then Subsequence(a[1..], b[1..]) || Subsequence(a, b[1..])
                            else Subsequence(a, b[1..])))
  }

  /** The result goes on from what was kept with a subsequence of the items. */
  predicate GoesOn(r: seq<Item>, kept: seq<Item>, items: seq<Item>) {
    |kept| <= |r| && r[..|kept|] == kept && Subsequence(r[|kept|..], items)
  }

  lemma GoesOnTaking(r: seq<Item>, kept: seq<Item>, x: Item, items: seq<Item>)
    requires items != [] && items[0] == x && GoesOn(r, kept + [x], items[1..])
    ensures GoesOn(r, kept, items)
  {
    var more := r[|kept| + 1..];
    assert r == (kept + [x]) + more;
    assert r[|kept|..] == [x] + more && ([x] + more)[1..] == more;
  }

  /** With at least one item kept and nothing over the budget, only items that fit are added. */
  lemma {:induction false} CapRest(items: seq<Item>, budget: int, minItems: int, trim: Trimmer, c: Capped)
    requires minItems <= 1 && c.kept != [] && c.used == Total(c.kept) <= budget
    ensures var r := CapFrom(items, budget, minItems, trim, c);
            && c.used <= r.used == Total(r.kept) <= budget && r.truncated == c.truncated
            && GoesOn(r.kept, c.kept, items)
    decreases |items|
  {
    if items != [] {
      var x := items[0];
      if c.used + x.tokens > budget {
        CapRest(items[1..], budget, minItems, trim, c);
        SubsequenceSkip(CapFrom(items[1..], budget, minItems, trim, c).kept[|c.kept|..], items);
      } else {
        var next := Capped(c.kept + [x], c.used + x.tokens, c.truncated);
        TotalOneMore(c.kept, x);
        if next.used < budget {
          CapRest(items[1..], budget, minItems, trim, next);
        }
        GoesOnTaking(CapFrom(items, budget, minItems, trim, c).kept, c.kept, x, items);
      }
    }
  }

  /** What the loop leaves out would not fit any more. */
  lemma {:induction false} CapLeavesNothing(items: seq<Item>, budget: int, minItems: int, trim: Trimmer, c: Capped, x: Item)
    requires minItems <= 1 && c.kept != [] && c.used == Total(c.kept) <= budget && x in items
    ensures var r := CapFrom(items, budget, minItems, trim, c);
            x in r.kept || r.used + x.tokens > budget || r.used == budget
    decreases |items|
  {
    CapRest(items, budget, minItems, trim, c);
    var y := items[0];
    if c.used + y.tokens > budget {
      if x != y { CapLeavesNothing(items[1..], budget, minItems, trim, c, x); }
    } else {
      TotalOneMore(c.kept, y);
      var next := Capped(c.kept + [y], c.used + y.tokens, c.truncated);
      assert next.kept[|c.kept|] == y;
      if next.used < budget {
        CapRest(items[1..], budget, minItems, trim, next);
        var r := CapFrom(items[1..], budget, minItems, trim, next).kept;
        assert r[|c.kept|] == r[..|next.kept|][|c.kept|] == y;
        if x != y { CapLeavesNothing(items[1..], budget, minItems, trim, next, x); }
      }
    }
  }

  lemma SubsequenceSkip(a: seq<Item>, b: seq<Item>)
    requires b != [] && Subsequence(a, b[1..])
    ensures Subsequence(a, b)
  {
  }

  /** With min_items of at most 1, as every caller passes: the first item is always kept, trimmed if it alone is
      over the budget; the others kept are a subsequence, untrimmed; the kept tokens are within the budget,
      or the trimmed first item is all that is kept; and what was left out would not fit any more. */
  lemma CapBounds(items: seq<Item>, budget: int, minItems: int, trim: Trimmer)
    requires minItems <= 1 && items != []
    ensures var r := Cap(items, budget, minItems, trim);
            && r.kept != []
            && r.kept[0] == (if items[0].tokens <= budget then items[0] else Trimmed(items[0], budget, trim))
            && r.truncated == (items[0].tokens > budget)
            && Subsequence(r.kept[1..], items[1..])
            && r.used == Total(r.kept)
            && (r.used <= budget || (|r.kept| == 1 && r.truncated))
            && forall x :: x in items[1..] && x !in r.kept ==> r.used + x.tokens > budget || r.used >= budget
  {
    var first := if items[0].tokens <= budget then items[0] else Trimmed(items[0], budget, trim);
    var next := Capped([first], first.tokens, items[0].tokens > budget);
    CapFirst(items, budget, minItems, trim);
    TotalFirst([first]);
    if next.used < budget {
      CapRest(items[1..], budget, minItems, trim, next);
      forall x | x in items[1..] ensures x in Cap(items, budget, minItems, trim).kept ||
        Cap(items, budget, minItems, trim).used + x.tokens > budget || Cap(items, budget, minItems, trim).used >= budget
      {
        CapLeavesNothing(items[1..], budget, minItems, trim, next, x);
      }
    }
  }

  lemma CapFirst(items: seq<Item>, budget: int, minItems: int, trim: Trimmer)
    requires minItems <= 1 && items != []
    ensures var first := if items[0].tokens <= budget then items[0] else Trimmed(items[0], budget, trim);
            var next := Capped([first], first.tokens, items[0].tokens > budget);
            Cap(items, budget, minItems, trim) ==
            if next.used >= budget then next else CapFrom(items[1..], budget, minItems, trim, next)
  {
    var first := if items[0].tokens <= budget then items[0] else Trimmed(items[0], budget, trim);
    assert [] + [first] == [first];
  }

  /** After the first item, an item is kept if and only if the tokens kept before it leave something of the budget and
      it fits into that. */
  ghost predicate TakesWhatFits(items: seq<Item>, flags: seq<bool>, budget: int)
    requires |flags| == |items|
  {
    items == [] ||
    var n := |items| - 1;
    && TakesWhatFits(items[..n], flags[..n], budget)
    && var used := Total(Pick(items[..n], flags[..n]));
       n == 0 || (flags[n] <==> used < budget && used + items[n].tokens <= budget)
  }

  lemma TakesOneMore(items: seq<Item>, flags: seq<bool>, budget: int, used: nat, x: Item, take: bool)
    requires items != [] && |flags| == |items| && TakesWhatFits(items, flags, budget) && used == Total(Pick(items, flags))
    requires take <==> used < budget && used + x.tokens <= budget
    ensures TakesWhatFits(items + [x], flags + [take], budget)
    ensures Pick(items + [x], flags + [take]) == Pick(items, flags) + if take then [x] else []
  {
    var more, fs := items + [x], flags + [take];
    assert more[..|items|] == items && fs[..|items|] == flags && more[|items|] == x;
  }

  /** What the loop makes of the next item: what is `next`, and whether it stops there. */
  lemma CapOne(rest: seq<Item>, budget: int, minItems: int, trim: Trimmer, c: Capped, next: Capped)
    requires rest != [] && minItems <= 1 && c.kept != [] && c.used < budget
    requires next == if c.used + rest[0].tokens <= budget then Capped(c.kept + [rest[0]], c.used + rest[0].tokens, c.truncated)
                     else c
    ensures CapFrom(rest, budget, minItems, trim, c) ==
            if next.used >= budget then next else CapFrom(rest[1..], budget, minItems, trim, next)
  {
  }

  lemma Shift(items: seq<Item>, rest: seq<Item>)
    requires rest != []
    ensures items + [rest[0]] + rest[1..] == items + rest
  {
  }

  /** What the loop has kept so far is what the flags pick. */
  ghost predicate KeptBy(items: seq<Item>, flags: seq<bool>, budget: int, c: Capped) {
    && items != [] && |flags| == |items| && TakesWhatFits(items, flags, budget)
    && c.kept == Pick(items, flags) && c.used == Total(c.kept)
  }

  lemma KeptOneMore(items: seq<Item>, flags: seq<bool>, budget: int, c: Capped, x: Item, take: bool)
    requires KeptBy(items, flags, budget, c) && (take <==> c.used < budget && c.used + x.tokens <= budget)
    ensures KeptBy(items + [x], flags + [take], budget, if take then Capped(c.kept + [x], c.used + x.tokens, c.truncated) else c)
  {
    TakesOneMore(items, flags, budget, c.used, x, take);
    TotalOneMore(c.kept, x);
  }

  lemma {:induction false} CapGoesOn(items: seq<Item>, rest: seq<Item>, whole: seq<Item>, budget: int, minItems: int,
                                     trim: Trimmer, c: Capped, flags: seq<bool>)
    returns (all: seq<bool>)
    requires whole == items + rest && minItems <= 1 && KeptBy(items, flags, budget, c) && c.kept != []
    ensures var r := if c.used >= budget then c else CapFrom(rest, budget, minItems, trim, c);
            KeptBy(whole, all, budget, r) && r.truncated == c.truncated
    ensures flags <= all
    decreases |rest|
  {
    if rest == [] {
      all := flags;
      assert whole == items;
    } else {
      var x := rest[0];
      var take := c.used < budget && c.used + x.tokens <= budget;
      var next := if take then Capped(c.kept + [x], c.used + x.tokens, c.truncated) else c;
      Shift(items, rest);
      KeptOneMore(items, flags, budget, c, x, take);
      if c.used < budget { CapOne(rest, budget, minItems, trim, c, next); }
      all := CapGoesOn(items + [x], rest[1..], whole, budget, minItems, trim, next, flags + [take]);
    }
  }

  /** The same told item by item; the first is trimmed to the budget, and to no less than 80 tokens, where it does not
      fit. */
  lemma CapTells(items: seq<Item>, budget: int, minItems: int, trim: Trimmer, first: Item) returns (flags: seq<bool>)
    requires minItems <= 1 && items != []
    requires first == if items[0].tokens <= budget then items[0]
                      else items[0].(tokens := trim(items[0], if budget < 80 then 80 else budget), truncated := true)
    ensures |flags| == |items| && flags[0] && TakesWhatFits([first] + items[1..], flags, budget)
    ensures var r := Cap(items, budget, minItems, trim);
            r.kept == Pick([first] + items[1..], flags) && r.used == Total(r.kept) && r.truncated == (items[0].tokens > budget)
  {
    CapFirst(items, budget, minItems, trim);
    TotalFirst([first]);
    assert [first][..0] == [] && [true][..0] == [] && [] + [first] == [first];
    flags := CapGoesOn([first], items[1..], [first] + items[1..], budget, minItems, trim,
                       Capped([first], first.tokens, items[0].tokens > budget), [true]);
  }

  /** With min_items 2, which no caller passes, a second item is forced in, and the bound fails exactly when the
      trimmed text of that item is more than what the first has left. */
  lemma ForcedItemOverrunsIff(x: Item, y: Item, budget: int, trim: Trimmer)
    requires x.tokens <= budget < x.tokens + y.tokens
    ensures var r := Cap([x, y], budget, 2, trim);
            && r.kept == [x, Trimmed(y, budget - x.tokens, trim)]
            && (r.used > budget <==> trim(y, AtLeast(MIN_TRIM, budget - x.tokens)) > budget - x.tokens)
  {
    var z := Trimmed(y, budget - x.tokens, trim);
    assert [x, y][1..] == [y] && [y][1..] == [];
    assert [] + [x] == [x] && [x] + [z] == [x, z];
    assert Cap([x, y], budget, 2, trim) == CapFrom([y], budget, 2, trim, Capped([x], x.tokens, false));
    assert CapFrom([y], budget, 2, trim, Capped([x], x.tokens, false)) == Capped([x, z], x.tokens + z.tokens, true);
  }

  // ---------- Transport priority ----------

  /** How many leading items fit one after the other. */
  function Fit(items: seq<Item>, used: nat, limit: int): (r: nat)
    ensures r <= |items|
    decreases |items|
  {
    if items == [] || used + items[0].tokens > limit then 0 else 1 + Fit(items[1..], used + items[0].tokens, limit)
  }

  /** The leading items fit together, and the next one does not. */
  lemma {:induction false} FitIsMaximal(items: seq<Item>, used: nat, limit: int)
    ensures Fit(items, used, limit) > 0 ==> used + Total(items[..Fit(items, used, limit)]) <= limit
    ensures Fit(items, used, limit) < |items| ==>
            used + Total(items[..Fit(items, used, limit)]) + items[Fit(items, used, limit)].tokens > limit
    decreases |items|
  {
    if items != [] && used + items[0].tokens <= limit {
      FitIsMaximal(items[1..], used + items[0].tokens, limit);
      var n := Fit(items[1..], used + items[0].tokens, limit);
      TotalFirst(items[..n + 1]);
      assert items[..n + 1][1..] == items[1..][..n];
    } else {
      assert items[..0] == [];
    }
  }

  /** What a group keeps: the leading items that fit; a protected group whose first item does not fit keeps
      that one trimmed and goes on. */
  function KeptOf(items: seq<Item>, used: nat, limit: int, protected: bool, trim: Trimmer): (r: seq<Item>)
    ensures |r| <= |items|
  {
    if protected && items != [] && used + items[0].tokens > limit then
      var first := Trimmed(items[0], limit - used, trim);
      [first] + items[1..1 + Fit(items[1..], used + first.tokens, limit)]
    else items[..Fit(items, used, limit)]
  }

  /** The loop over a group from a given point on. */
  function GroupFrom(items: seq<Item>, kept: seq<Item>, used: nat, limit: int, protected: bool, trim: Trimmer): (r: seq<Item>)
    decreases |items|
  {
    if items == [] then kept
    else if used + items[0].tokens <= limit then
      GroupFrom(items[1..], kept + [items[0]], used + items[0].tokens, limit, protected, trim)
    else if protected && kept == [] then
      var first := Trimmed(items[0], limit - used, trim);
      GroupFrom(items[1..], [first], used + first.tokens, limit, protected, trim)
    else kept
  }

  lemma {:induction false} GroupIsFit(items: seq<Item>, kept: seq<Item>, used: nat, limit: int, protected: bool, trim: Trimmer)
    requires protected ==> kept != []
    ensures GroupFrom(items, kept, used, limit, protected, trim) == kept + items[..Fit(items, used, limit)]
    decreases |items|
  {
    if items != [] && used + items[0].tokens <= limit {
      var x, n := items[0], Fit(items[1..], used + items[0].tokens, limit);
      GroupIsFit(items[1..], kept + [x], used + x.tokens, limit, protected, trim);
      assert items[..1 + n] == [x] + items[1..][..n];
      assert kept + ([x] + items[1..][..n]) == (kept + [x]) + items[1..][..n];
    } else {
      assert kept + items[..0] == kept;
    }
  }

  lemma GroupIsKept(items: seq<Item>, used: nat, limit: int, protected: bool, trim: Trimmer)
    ensures GroupFrom(items, [], used, limit, protected, trim) == KeptOf(items, used, limit, protected, trim)
  {
    if !protected {
      GroupIsFit(items, [], used, limit, protected, trim);
      assert [] + items[..Fit(items, used, limit)] == items[..Fit(items, used, limit)];
    } else if items != [] {
      var x := items[0];
      if used + x.tokens > limit {
        var first := Trimmed(x, limit - used, trim);
        GroupIsFit(items[1..], [first], used + first.tokens, limit, protected, trim);
        assert items[1..][..Fit(items[1..], used + first.tokens, limit)] ==
               items[1..1 + Fit(items[1..], used + first.tokens, limit)];
      } else {
        assert [] + [x] == [x];
        GroupIsFit(items[1..], [x], used + x.tokens, limit, protected, trim);
        var n := Fit(items[1..], used + x.tokens, limit);
        assert [x] + items[1..][..n] == items[..1 + n];
      }
    }
  }

  lemma GroupTakes(items: seq<Item>, i: nat, kept: seq<Item>, used: nat, limit: int, protected: bool, trim: Trimmer)
    requires i < |items| && used + items[i].tokens <= limit
    ensures GroupFrom(items[i..], kept, used, limit, protected, trim) ==
            GroupFrom(items[i + 1..], kept + [items[i]], used + items[i].tokens, limit, protected, trim)
  {
    assert items[i..][0] == items[i] && items[i..][1..] == items[i + 1..];
  }

  lemma GroupTrims(items: seq<Item>, i: nat, used: nat, limit: int, trim: Trimmer)
    requires i < |items| && used + items[i].tokens > limit
    ensures var first := Trimmed(items[i], limit - used, trim);
            GroupFrom(items[i..], [], used, limit, true, trim) ==
            GroupFrom(items[i + 1..], [first], used + first.tokens, limit, true, trim)
  {
    assert items[i..][0] == items[i] && items[i..][1..] == items[i + 1..];
  }

  method GroupLoop(items: seq<Item>, used: nat, limit: int, protected: bool, trim: Trimmer)
    returns (kept: seq<Item>, used': nat, truncated: bool)
    ensures kept == GroupFrom(items, [], used, limit, protected, trim)
    ensures used' == used + Total(kept) && |kept| <= |items|
    ensures truncated <==> protected && items != [] && used + items[0].tokens > limit
  {
    kept, used', truncated := [], used, false;
    ghost var goal := GroupFrom(items, [], used, limit, protected, trim);
    assert items[0..] == items;
    var i := 0;
    while i < |items|
      invariant 0 <= i == |kept| <= |items| && used' == used + Total(kept)
      invariant GroupFrom(items[i..], kept, used', limit, protected, trim) == goal
      invariant truncated <==> protected && 0 < i && used + items[0].tokens > limit
    {
      var item := items[i];
      if used' + item.tokens <= limit {
        GroupTakes(items, i, kept, used', limit, protected, trim);
      } else {
        if !protected || kept != [] { break; }
        GroupTrims(items, i, used', limit, trim);
        item := item.(tokens := trim(item, AtLeast(MIN_TRIM, limit - used')), truncated := true);
        truncated := true;
        assert kept + [item] == [item];
      }
      TotalOneMore(kept, item);
      kept := kept + [item];
      used' := used' + item.tokens;
      i := i + 1;
    }
  }

  method KeepGroup(items: seq<Item>, used: nat, limit: int, protected: bool, trim: Trimmer)
    returns (kept: seq<Item>, used': nat, dropped: nat, truncated: bool)
    ensures kept == KeptOf(items, used, limit, protected, trim)
    ensures used' == used + Total(kept) && |kept| + dropped == |items|
    ensures truncated <==> protected && items != [] && used + items[0].tokens > limit
  {
    kept, used', truncated := GroupLoop(items, used, limit, protected, trim);
    dropped := |items| - |kept|;
    GroupIsKept(items, used, limit, protected, trim);
  }

  /** Within the limit, or nothing kept but one trimmed item. */
  predicate Bounded(kept: seq<Item>, used: nat, limit: int) {
    used + Total(kept) <= limit || kept == []
  }

  lemma OpenGroupBounded(items: seq<Item>, used: nat, limit: int, trim: Trimmer)
    ensures Bounded(KeptOf(items, used, limit, false, trim), used, limit)
    ensures KeptOf(items, used, limit, false, trim) <= items
  {
    FitIsMaximal(items, used, limit);
  }

  lemma OpenIsLongest(items: seq<Item>, used: nat, limit: int, trim: Trimmer)
    ensures var kept := KeptOf(items, used, limit, false, trim);
            |kept| < |items| ==> used + Total(kept) + items[|kept|].tokens > limit
  {
    FitIsMaximal(items, used, limit);
  }

  lemma {:induction false} NothingFits(items: seq<Item>, used: nat, limit: int)
    requires used > limit
    ensures Fit(items, used, limit) == 0
  {
  }

  lemma DirectIsLongest(items: seq<Item>, limit: int, trim: Trimmer)
    ensures var d := KeptOf(items, 0, limit, true, trim); |d| < |items| ==> Total(d) + items[|d|].tokens > limit
  {
    if items != [] && items[0].tokens > limit {
      var first := Trimmed(items[0], limit, trim);
      var n := Fit(items[1..], first.tokens, limit);
      var d := [first] + items[1..1 + n];
      assert d[1..] == items[1..][..n];
      TotalFirst(d);
      FitIsMaximal(items[1..], first.tokens, limit);
    } else {
      FitIsMaximal(items, 0, limit);
    }
  }

  lemma DirectTrimmed(items: seq<Item>, limit: int, trim: Trimmer)
    requires items != [] && items[0].tokens > limit
    ensures var d := KeptOf(items, 0, limit, true, trim);
            && d != [] && d[1..] <= items[1..] && d[0] == Trimmed(items[0], limit, trim)
            && (Total(d) <= limit || |d| == 1)
  {
    var first := Trimmed(items[0], limit, trim);
    var n := Fit(items[1..], first.tokens, limit);
    var d := [first] + items[1..1 + n];
    assert d[1..] == items[1..][..n];
    TotalFirst(d);
    if first.tokens > limit { NothingFits(items[1..], first.tokens, limit); }
    FitIsMaximal(items[1..], first.tokens, limit);
  }

  lemma DirectGroup(items: seq<Item>, limit: int, trim: Trimmer)
    ensures var d := KeptOf(items, 0, limit, true, trim);
            && (items != [] ==> d != [])
            && (d != [] ==> d[1..] <= items[1..])
            && (d != [] ==> d[0] == (if items[0].tokens <= limit then items[0] else Trimmed(items[0], limit, trim)))
            && (Total(d) <= limit || d == [] || (|d| == 1 && items[0].tokens > limit))
  {
    if items != [] && items[0].tokens > limit {
      DirectTrimmed(items, limit, trim);
    } else if items != [] {
      FitIsMaximal(items, 0, limit);
      assert items[..Fit(items, 0, limit)][1..] == items[1..][..Fit(items, 0, limit) - 1];
    }
  }

  /** The three groups together, when each keeps to what the ones before leave. */
  lemma WithinLimit(d: seq<Item>, s: seq<Item>, l: seq<Item>, limit: int)
    requires Total(d) <= limit || |d| <= 1
    requires Total(d) > limit ==> s == [] && l == []
    requires Bounded(s, Total(d), limit) && Bounded(l, Total(d) + Total(s), limit)
    ensures Total(d) + Total(s) + Total(l) <= limit || d + s + l == [] || (Total(d) > limit && |d| == 1 && s == [] && l == [])
  {
  }

  datatype Transported = Transported(direct: seq<Item>, supporting: seq<Item>, lower: seq<Item>,
    droppedDirect: nat, droppedSupporting: nat, droppedLower: nat, truncated: bool)

  /** The three groups in turn share one limit. */
  function TransportCap(direct: seq<Item>, supporting: seq<Item>, lower: seq<Item>, limit: int, trim: Trimmer): Transported {
    var d := KeptOf(direct, 0, limit, true, trim);
    var s := KeptOf(supporting, Total(d), limit, false, trim);
    var l := KeptOf(lower, Total(d) + Total(s), limit, false, trim);
    Transported(d, s, l, |direct| - |d|, |supporting| - |s|, |lower| - |l|, direct != [] && direct[0].tokens > limit)
  }

  /** The kept tokens are within the limit, or the trimmed first direct item is all there is, or nothing is. */
  ghost predicate WithinUnlessTrimmed(d: seq<Item>, s: seq<Item>, l: seq<Item>, limit: int, trimmed: bool) {
    Total(d) + Total(s) + Total(l) <= limit || d + s + l == [] || (trimmed && |d| == 1 && s == [] && l == [])
  }

  /** The transport cap keeps a prefix of each group, with the first direct item at most trimmed and never
      dropped, and all kept tokens are within the limit, unless the trimmed first direct item is all
      that is kept. */
  lemma TransportCapBounds(direct: seq<Item>, supporting: seq<Item>, lower: seq<Item>, limit: int, trim: Trimmer)
    ensures var r := TransportCap(direct, supporting, lower, limit, trim);
            && (direct != [] ==> r.direct != [] && r.direct[1..] <= direct[1..])
            && (direct != [] ==>
                  r.direct[0] == if direct[0].tokens <= limit then direct[0]
                                 else direct[0].(tokens := trim(direct[0], if limit < 80 then 80 else limit), truncated := true))
            && r.supporting <= supporting && r.lower <= lower
            && |r.direct| + r.droppedDirect == |direct|
            && |r.supporting| + r.droppedSupporting == |supporting| && |r.lower| + r.droppedLower == |lower|
            && r.truncated == (direct != [] && direct[0].tokens > limit)
            && WithinUnlessTrimmed(r.direct, r.supporting, r.lower, limit, r.truncated)
  {
    var d := KeptOf(direct, 0, limit, true, trim);
    var s := KeptOf(supporting, Total(d), limit, false, trim);
    var l := KeptOf(lower, Total(d) + Total(s), limit, false, trim);
    var r := TransportCap(direct, supporting, lower, limit, trim);
    assert (r.direct, r.supporting, r.lower) == (d, s, l);
    DirectGroup(direct, limit, trim);
    OpenGroupBounded(supporting, Total(d), limit, trim);
    OpenGroupBounded(lower, Total(d) + Total(s), limit, trim);
    TransportWithin(direct, supporting, lower, limit, trim, d, s, l);
  }

  lemma TransportWithin(direct: seq<Item>, supporting: seq<Item>, lower: seq<Item>, limit: int, trim: Trimmer,
                        d: seq<Item>, s: seq<Item>, l: seq<Item>)
    requires d == KeptOf(direct, 0, limit, true, trim)
    requires s == KeptOf(supporting, Total(d), limit, false, trim)
    requires l == KeptOf(lower, Total(d) + Total(s), limit, false, trim)
    ensures WithinUnlessTrimmed(d, s, l, limit, direct != [] && direct[0].tokens > limit)
  {
    DirectGroup(direct, limit, trim);
    OpenGroupBounded(supporting, Total(d), limit, trim);
    OpenGroupBounded(lower, Total(d) + Total(s), limit, trim);
    if Total(d) > limit {
      NothingFits(supporting, Total(d), limit);
      NothingFits(lower, Total(d) + Total(s), limit);
    }
    WithinLimit(d, s, l, limit);
  }

  /** Each prefix is as long as it can be: the next item of its group is too much for what the kept ones leave. */
  lemma TransportCapIsLongest(direct: seq<Item>, supporting: seq<Item>, lower: seq<Item>, limit: int, trim: Trimmer)
    ensures var r := TransportCap(direct, supporting, lower, limit, trim);
            && (|r.direct| < |direct| ==> Total(r.direct) + direct[|r.direct|].tokens > limit)
            && (|r.supporting| < |supporting| ==>
                  Total(r.direct) + Total(r.supporting) + supporting[|r.supporting|].tokens > limit)
            && (|r.lower| < |lower| ==>
                  Total(r.direct) + Total(r.supporting) + Total(r.lower) + lower[|r.lower|].tokens > limit)
  {
    var r := TransportCap(direct, supporting, lower, limit, trim);
    DirectIsLongest(direct, limit, trim);
    OpenIsLongest(supporting, Total(r.direct), limit, trim);
    OpenIsLongest(lower, Total(r.direct) + Total(r.supporting), limit, trim);
  }

  method CapByTransportPriority(direct: seq<Item>, supporting: seq<Item>, lower: seq<Item>, limit: int, trim: Trimmer)
    returns (r: Transported)
    ensures r == TransportCap(direct, supporting, lower, limit, trim)
  {
    var d, used, droppedD, cut := KeepGroup(direct, 0, limit, true, trim);
    var s, used', droppedS, _ := KeepGroup(supporting, used, limit, false, trim);
    var l, _, droppedL, _ := KeepGroup(lower, used', limit, false, trim);
    r := Transported(d, s, l, droppedD, droppedS, droppedL, cut);
  }
}
