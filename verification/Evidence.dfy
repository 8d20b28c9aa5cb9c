/** Evidence assembly for an answerable briefing: the de-duplication plan and its execution, and the two ways
    of capping evidence to a token budget. */
module Evidence {
  import opened Common

  /** `key` is the de-duplication key of path and excerpt. */
  datatype Item = Item(path: string, key: string, tokens: nat, fromPrediction: bool, truncated: bool)

  datatype Role = Direct | Supporting | Lower
  datatype Mode = Off | Shadow | Advisory | Safe | Active
  datatype Verdict = Include | IncludeProtected | Demote | Dedupe | OmitDuplicate
  datatype Origin = NoOrigin | DuplicateOf(path: string)

  datatype Decision = Decision(path: string, verdict: Verdict, tokenDelta: int, origin: Origin)

  function Total(items: seq<Item>): (r: nat) {
    if items == [] then 0 else Total(items[..|items| - 1]) + items[|items| - 1].tokens
  }

  lemma {:induction false} TotalConcat(a: seq<Item>, b: seq<Item>)
    ensures Total(a + b) == Total(a) + Total(b)
  {
    if b == [] {
      assert a + b == a;
    } else {
      assert (a + b)[..|a + b| - 1] == a + b[..|b| - 1];
      TotalConcat(a, b[..|b| - 1]);
    }
  }

  lemma TotalOneMore(items: seq<Item>, x: Item)
    ensures Total(items + [x]) == Total(items) + x.tokens
  {
    assert (items + [x])[..|items|] == items;
  }

  lemma TotalFirst(items: seq<Item>)
    requires items != []
    ensures Total(items) == items[0].tokens + Total(items[1..])
  {
    assert items == [items[0]] + items[1..];
    TotalConcat([items[0]], items[1..]);
    assert [items[0]][..0] == [];
  }

  // ---------- First occurrences ----------

  /** The first item with the key of item i. */
  function First(items: seq<Item>, i: nat): (r: nat)
    requires i < |items|
    ensures r <= i && items[r].key == items[i].key
    ensures forall j :: 0 <= j < r ==> items[j].key != items[i].key
  {
    FirstFrom(items, i, 0)
  }

  function FirstFrom(items: seq<Item>, i: nat, from: nat): (r: nat)
    requires from <= i < |items|
    requires forall j :: 0 <= j < from ==> items[j].key != items[i].key
    ensures from <= r <= i && items[r].key == items[i].key
    ensures forall j :: 0 <= j < r ==> items[j].key != items[i].key
    decreases i - from
  {
    if items[from].key == items[i].key then from else FirstFrom(items, i, from + 1)
  }

  predicate Repeats(items: seq<Item>, i: nat)
    requires i < |items|
  {
    First(items, i) < i
  }

  // ---------- The plan ----------

  predicate Protected(item: Item, role: Role, conflicts: set<string>) {
    role.Direct? || item.path in conflicts || item.fromPrediction
  }

  /** The decision for an item, given the path of the seen item with its key, if any. An empty path counts as
      no duplicate when the verdict is chosen. */
  function Judge(item: Item, role: Role, mode: Mode, conflicts: set<string>, origin: Origin): Decision {
    var duplicate := origin.DuplicateOf? && origin.path != "";
    var verdict :=
      if duplicate then if mode.Shadow? || mode.Advisory? then Dedupe else OmitDuplicate
      else if Protected(item, role, conflicts) then IncludeProtected
      else if role.Lower? && !mode.Active? then Demote
      else Include;
    Decision(item.path, verdict, if verdict.OmitDuplicate? then -(item.tokens as int) else 0, origin)
  }

  function OriginOf(items: seq<Item>, i: nat): Origin
    requires i < |items|
  {
    if Repeats(items, i) then DuplicateOf(items[First(items, i)].path) else NoOrigin
  }

  predicate Marked(plan: seq<Decision>, i: nat)
    requires i < |plan|
  {
    plan[i].verdict.OmitDuplicate?
  }

  function Planned(items: seq<Item>, roles: seq<Role>, mode: Mode, conflicts: set<string>, i: nat): Decision
    requires i < |items| == |roles|
  {
    Judge(items[i], roles[i], mode, conflicts, OriginOf(items, i))
  }

  /** What the plan says of each item among all items in group order. */
  ghost predicate Plans(plan: seq<Decision>, items: seq<Item>, roles: seq<Role>, mode: Mode, conflicts: set<string>)
    requires |roles| == |items|
  {
    if mode.Off? then plan == []
    else |plan| == |items| &&
         forall i :: 0 <= i < |items| ==> plan[i] == Planned(items, roles, mode, conflicts, i)
  }

  /** The keys of the first n items, each with the path of its first item. */
  ghost function SeenMap(items: seq<Item>, n: nat): (r: map<string, string>)
    requires n <= |items|
  {
    if n == 0 then map[]
    else
      var seen := SeenMap(items, n - 1);
      if items[n - 1].key in seen then seen else seen[items[n - 1].key := items[n - 1].path]
  }

  lemma {:induction false} SeenFirst(items: seq<Item>, n: nat, i: nat)
    requires n <= |items| && i < |items|
    ensures items[i].key in SeenMap(items, n) <==> First(items, i) < n
    ensures items[i].key in SeenMap(items, n) ==> SeenMap(items, n)[items[i].key] == items[First(items, i)].path
  {
    if n > 0 { SeenFirst(items, n - 1, i); }
  }

  method BuildAssemblyPlan(items: seq<Item>, roles: seq<Role>, mode: Mode, conflicts: set<string>)
    returns (plan: seq<Decision>)
    requires |roles| == |items|
    ensures Plans(plan, items, roles, mode, conflicts)
  {
    plan := [];
    if mode.Off? { return; }
    var seen: map<string, string> := map[];
    var i := 0;
    while i < |items|
      invariant 0 <= i == |plan| <= |items| && seen == SeenMap(items, i)
      invariant forall j :: 0 <= j < i ==> plan[j] == Planned(items, roles, mode, conflicts, j)
    {
      var item := items[i];
      SeenFirst(items, i, i);
      var origin := if item.key in seen then DuplicateOf(seen[item.key]) else NoOrigin;
      assert origin == OriginOf(items, i);
      plan := plan + [Judge(item, roles[i], mode, conflicts, origin)];
      if origin.NoOrigin? { seen := seen[item.key := item.path]; }
      i := i + 1;
    }
  }

  // ---------- Its execution ----------

  /** The items that do not repeat an earlier one or a key in `seen`. */
  function Fresh(items: seq<Item>, seen: set<string>): (r: (seq<Item>, set<string>)) {
    if items == [] then ([], seen)
    else
      var (kept, s) := Fresh(items[..|items| - 1], seen);
      var item := items[|items| - 1];
      if item.key in s then (kept, s) else (kept + [item], s + {item.key})
  }

  function Uniques(items: seq<Item>): seq<Item> { Fresh(items, {}).0 }

  lemma {:induction false} FreshConcat(a: seq<Item>, b: seq<Item>, seen: set<string>)
    ensures var (kept, s) := Fresh(a, seen);
            Fresh(a + b, seen) == (kept + Fresh(b, s).0, Fresh(b, s).1)
  {
    var (kept, s) := Fresh(a, seen);
    if b == [] {
      assert a + b == a && kept + [] == kept;
    } else {
      var front, x := b[..|b| - 1], b[|b| - 1];
      FreshConcat(a, front, seen);
      assert a + b == (a + front) + [x];
      assert kept + (Fresh(front, s).0 + [x]) == (kept + Fresh(front, s).0) + [x];
    }
  }

  predicate AnyMarked(plan: seq<Decision>) {
    exists i :: 0 <= i < |plan| && Marked(plan, i)
  }

  method KeepUnique(items: seq<Item>, seen: set<string>) returns (kept: seq<Item>, seen': set<string>)
    ensures (kept, seen') == Fresh(items, seen)
  {
    kept, seen' := [], seen;
    var i := 0;
    while i < |items|
      invariant 0 <= i <= |items| && (kept, seen') == Fresh(items[..i], seen)
    {
      assert items[..i + 1][..i] == items[..i];
      if items[i].key !in seen' {
        seen' := seen' + {items[i].key};
        kept := kept + [items[i]];
      }
      i := i + 1;
    }
    assert items[..|items|] == items;
  }

  method ApplySafeAssembly(direct: seq<Item>, supporting: seq<Item>, lower: seq<Item>, plan: seq<Decision>)
    returns (d: seq<Item>, s: seq<Item>, l: seq<Item>)
    ensures !AnyMarked(plan) ==> d == direct && s == supporting && l == lower
    ensures AnyMarked(plan) ==>
              d == Uniques(direct) && d + s == Uniques(direct + supporting) &&
              d + s + l == Uniques(direct + supporting + lower)
  {
    var i, any := 0, false;
    while i < |plan| && !any
      invariant 0 <= i <= |plan| && (any ==> AnyMarked(plan))
      invariant !any ==> forall j :: 0 <= j < i ==> !Marked(plan, j)
    {
      any := Marked(plan, i);
      i := i + 1;
    }
    if !any { return direct, supporting, lower; }
    var seen: set<string> := {};
    d, seen := KeepUnique(direct, seen);
    s, seen := KeepUnique(supporting, seen);
    FreshConcat(direct, supporting, {});
    l, seen := KeepUnique(lower, seen);
    FreshConcat(direct + supporting, lower, {});
  }

  /** The items at the chosen positions. */
  function Pick(items: seq<Item>, flags: seq<bool>): (r: seq<Item>)
    requires |flags| == |items|
  {
    if items == [] then []
    else Pick(items[..|items| - 1], flags[..|items| - 1]) + if flags[|items| - 1] then [items[|items| - 1]] else []
  }

  function FirstFlags(items: seq<Item>): (r: seq<bool>)
    ensures |r| == |items|
  {
    seq(|items|, i requires 0 <= i < |items| => !Repeats(items, i))
  }

  const ItemKey: Item -> string := (x: Item) => x.key

  ghost function KeysOf(xs: seq<Item>): (r: set<string>) { KeySet(xs, ItemKey) }

  /** The survivors carry all the original keys ... */
  lemma {:induction false} FreshKeys(items: seq<Item>)
    ensures Fresh(items, {}).1 == KeysOf(items) == KeysOf(Uniques(items))
  {
    if items != [] {
      var front, last := items[..|items| - 1], items[|items| - 1];
      FreshKeys(front);
      assert items == front + [last];
      KeySetOneMore(front, last, ItemKey);
      KeySetOneMore(Uniques(front), last, ItemKey);
    }
  }

  /** ... each once ... */
  lemma {:induction false} UniquesDistinct(items: seq<Item>)
    ensures DistinctKeys(Uniques(items), ItemKey)
  {
    if items != [] {
      var front, last := items[..|items| - 1], items[|items| - 1];
      UniquesDistinct(front);
      FreshKeys(front);
      var kept := Uniques(front);
      if last.key !in Fresh(front, {}).1 {
        assert Uniques(items) == kept + [last];
        forall i | 0 <= i < |kept| ensures kept[i].key != last.key { assert kept[i].key in KeysOf(kept); }
      }
    }
  }

  lemma RepeatsIff(items: seq<Item>)
    requires items != []
    ensures var n := |items| - 1; Repeats(items, n) <==> items[n].key in KeysOf(items[..n])
  {
    var n := |items| - 1;
    if Repeats(items, n) { assert items[..n][First(items, n)].key == items[n].key; }
  }

  /** ... and are exactly the items that repeat no earlier one, in their order. */
  lemma {:induction false} UniquesAreFirsts(items: seq<Item>)
    ensures Uniques(items) == Pick(items, FirstFlags(items))
  {
    if items != [] {
      var n := |items| - 1;
      var front := items[..n];
      UniquesAreFirsts(front);
      forall i | 0 <= i < n ensures FirstFlags(items)[i] == FirstFlags(front)[i] { }
      assert FirstFlags(items)[..n] == FirstFlags(front);
      FreshKeys(front);
      RepeatsIff(items);
    }
  }

  // ---------- Plan against execution ----------

  /** Which positions survive a briefing in the given mode. Only the safe mode executes its plan. */
  ghost function Survives(plan: seq<Decision>, items: seq<Item>, mode: Mode): (r: seq<bool>)
    ensures |r| == |items|
  {
    if mode.Safe? && AnyMarked(plan) then FirstFlags(items) else seq(|items|, _ => true)
  }

  /** Exactly the items marked omit_duplicate are removed. */
  ghost predicate Executed(plan: seq<Decision>, items: seq<Item>, mode: Mode) {
    forall i :: 0 <= i < |items| ==> (!Survives(plan, items, mode)[i] <==> i < |plan| && Marked(plan, i))
  }

  /** Item i repeats an item whose path is empty. */
  ghost predicate Pathless(items: seq<Item>, i: nat)
    requires i < |items|
  {
    Repeats(items, i) && items[First(items, i)].path == ""
  }

  lemma MarkedIff(plan: seq<Decision>, items: seq<Item>, roles: seq<Role>, mode: Mode, conflicts: set<string>, i: nat)
    requires |roles| == |items| && Plans(plan, items, roles, mode, conflicts) && i < |items|
    ensures i < |plan| && Marked(plan, i) <==>
            (mode.Safe? || mode.Active?) && Repeats(items, i) && !Pathless(items, i)
  {
  }

  /** The decision for item i, told from the items. It is a duplicate if the first item of its key is an earlier one
      with a path. */
  lemma VerdictTells(plan: seq<Decision>, items: seq<Item>, roles: seq<Role>, mode: Mode, conflicts: set<string>, i: nat)
    requires |roles| == |items| && Plans(plan, items, roles, mode, conflicts) && !mode.Off? && i < |items|
    ensures |plan| == |items| && plan[i].path == items[i].path
    ensures var first := First(items, i);
            var duplicate := first < i && items[first].path != "";
            var protected := roles[i].Direct? || items[i].path in conflicts || items[i].fromPrediction;
            && (plan[i].verdict.OmitDuplicate? <==> duplicate && (mode.Safe? || mode.Active?))
            && (plan[i].verdict.Dedupe? <==> duplicate && (mode.Shadow? || mode.Advisory?))
            && (plan[i].verdict.IncludeProtected? <==> !duplicate && protected)
            && (plan[i].verdict.Demote? <==> !duplicate && !protected && roles[i].Lower? && !mode.Active?)
            && plan[i].origin == (if first < i then DuplicateOf(items[first].path) else NoOrigin)
            && plan[i].tokenDelta == if duplicate && (mode.Safe? || mode.Active?) then -(items[i].tokens as int) else 0
  {
  }

  /** The evidence of a briefing: all groups are planned, but only in the safe mode is the plan carried out. */
  method AssembleEvidence(direct: seq<Item>, supporting: seq<Item>, lower: seq<Item>, mode: Mode, conflicts: set<string>)
    returns (d: seq<Item>, s: seq<Item>, l: seq<Item>, plan: seq<Decision>)
    ensures Plans(plan, direct + supporting + lower, RolesOf(direct, supporting, lower), mode, conflicts)
    ensures d + s + l == Pick(direct + supporting + lower, Survives(plan, direct + supporting + lower, mode))
    ensures !mode.Safe? ==> d == direct && s == supporting && l == lower
  {
    var all := direct + supporting + lower;
    plan := BuildAssemblyPlan(all, RolesOf(direct, supporting, lower), mode, conflicts);
    d, s, l := direct, supporting, lower;
    if mode == Safe {
      d, s, l := ApplySafeAssembly(direct, supporting, lower, plan);
    }
    UniquesAreFirsts(all);
    PickAll(all);
  }

  function RolesOf(direct: seq<Item>, supporting: seq<Item>, lower: seq<Item>): (r: seq<Role>)
    ensures |r| == |direct + supporting + lower|
    ensures forall i :: 0 <= i < |r| ==>
              r[i] == if i < |direct| then Direct else if i < |direct| + |supporting| then Supporting else Lower
  {
    seq(|direct|, _ => Direct) + seq(|supporting|, _ => Supporting) + seq(|lower|, _ => Lower)
  }

  /** The briefing removes exactly what its plan marks if and only if, in the safe mode, nothing is marked or no
      item repeats a pathless one, and, in the active mode, nothing is marked; the other modes mark and
      remove nothing. */
  lemma PlanExecutedIff(plan: seq<Decision>, items: seq<Item>, roles: seq<Role>, mode: Mode, conflicts: set<string>)
    requires |roles| == |items| && Plans(plan, items, roles, mode, conflicts)
    ensures Executed(plan, items, mode) <==>
            match mode {
              case Safe => !AnyMarked(plan) || forall i :: 0 <= i < |items| ==> !Pathless(items, i)
              case Active => !AnyMarked(plan)
              case _ => true
            }
  {
    forall i | 0 <= i < |items|
      ensures i < |plan| && Marked(plan, i) <==> (mode.Safe? || mode.Active?) && Repeats(items, i) && !Pathless(items, i)
    {
      MarkedIff(plan, items, roles, mode, conflicts, i);
    }
    if mode.Active? && AnyMarked(plan) {
      var i :| 0 <= i < |plan| && Marked(plan, i);
      assert !Executed(plan, items, mode);
    }
    if mode.Safe? && AnyMarked(plan) {
      if i :| 0 <= i < |items| && Pathless(items, i) {
        assert !Survives(plan, items, mode)[i];
      }
    }
  }

  function DeltaSum(plan: seq<Decision>): (r: int) {
    if plan == [] then 0 else DeltaSum(plan[..|plan| - 1]) + plan[|plan| - 1].tokenDelta
  }

  ghost predicate Aligned(plan: seq<Decision>, items: seq<Item>) {
    |plan| == |items| &&
    forall i :: 0 <= i < |items| ==> plan[i].tokenDelta == if Marked(plan, i) then -(items[i].tokens as int) else 0
  }

  lemma {:induction false} DeltaBalances(plan: seq<Decision>, items: seq<Item>, flags: seq<bool>)
    requires Aligned(plan, items) && |flags| == |items|
    requires forall i :: 0 <= i < |items| ==> (!flags[i] <==> Marked(plan, i))
    ensures Total(items) == Total(Pick(items, flags)) - DeltaSum(plan)
  {
    if items != [] {
      var n := |items| - 1;
      var p, front, fs := plan[..n], items[..n], flags[..n];
      forall i | 0 <= i < n ensures Marked(p, i) <==> Marked(plan, i) { }
      DeltaBalances(p, front, fs);
      assert Marked(plan, n) <==> !flags[n];
      if flags[n] { TotalOneMore(Pick(front, fs), items[n]); } else { assert Pick(items, flags) == Pick(front, fs); }
    }
  }

  /** When the plan is executed, the tokens before equal the tokens after minus the sum of the deltas. */
  lemma {:induction false} TokensBalance(plan: seq<Decision>, items: seq<Item>, roles: seq<Role>, mode: Mode, conflicts: set<string>)
    requires |roles| == |items| && Plans(plan, items, roles, mode, conflicts) && Executed(plan, items, mode)
    ensures Total(items) == Total(Pick(items, Survives(plan, items, mode))) - DeltaSum(plan)
  {
    if mode.Off? {
      PickAll(items);
    } else {
      DeltaBalances(plan, items, Survives(plan, items, mode));
    }
  }

  lemma {:induction false} PickAll(items: seq<Item>)
    ensures Pick(items, seq(|items|, _ => true)) == items
  {
    if items != [] {
      var n := |items| - 1;
      PickAll(items[..n]);
      assert seq(|items|, (_: int) => true)[..n] == seq(n, (_: int) => true);
    }
  }

  /** A repeated pathless item goes unmarked but is removed as soon as some other duplicate is marked. */
  lemma PathlessRemovedUnmarked(plan: seq<Decision>)
    requires var x, y := Item("", "::k", 5, false, false), Item("p", "p::m", 3, false, false);
             Plans(plan, [x, x, y, y], [Direct, Direct, Direct, Direct], Safe, {})
    ensures var x, y := Item("", "::k", 5, false, false), Item("p", "p::m", 3, false, false);
            !Marked(plan, 1) && Marked(plan, 3) && !Survives(plan, [x, x, y, y], Safe)[1]
  {
    var x, y := Item("", "::k", 5, false, false), Item("p", "p::m", 3, false, false);
    var items := [x, x, y, y];
    assert items[0] == items[1] == x && items[2] == items[3] == y;
    assert First(items, 1) == 0 && First(items, 3) == 2;
    MarkedIff(plan, items, [Direct, Direct, Direct, Direct], Safe, {}, 1);
    MarkedIff(plan, items, [Direct, Direct, Direct, Direct], Safe, {}, 3);
  }
}
