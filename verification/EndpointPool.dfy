/** Weighted round-robin over exploration endpoints with a per-endpoint circuit breaker. */
module EndpointPool {
  import opened Common
  const FAILURE_THRESHOLD: nat := 3
  const FAILURE_COOLDOWN_SECONDS: real := 60.0

  /** A reading of the monotonic clock. */
  type Time = t: real | 0.0 <= t witness 0.0

  datatype Health = Health(
    consecutiveFailures: nat, lastSuccessAt: Time, lastFailureAt: Time,
    totalCalls: nat, totalFailures: nat, cooldownUntil: Time)

  const Fresh: Health := Health(0, 0.0, 0.0, 0, 0, 0.0)

  /** `expanded` lists every endpoint index once per unit of weight. */
  datatype State = State(expanded: seq<nat>, cursor: nat, health: seq<Health>)

  predicate Ready(s: State) { s.cursor < |s.expanded| && s.health != [] }

  datatype Op = Pick(now: Time) | Success(entry: nat, now: Time) | Failure(entry: nat, now: Time)

  function Copies(weight: int): (r: nat)
    ensures 1 <= r
  {
    if weight < 1 then 1 else weight
  }

  function Repeat(x: nat, n: nat): (r: seq<nat>)
    ensures |r| == n && forall i :: 0 <= i < n ==> r[i] == x
  {
    seq(n, _ => x)
  }

  /** Each rounded weight counts for at least one slot. */
  function Expand(weights: seq<int>): (r: seq<nat>)
    ensures forall i :: 0 <= i < |r| ==> r[i] < |weights|
    ensures weights != [] ==> r != []
  {
    if weights == [] then []
    else Expand(weights[..|weights| - 1]) + Repeat(|weights| - 1, Copies(weights[|weights| - 1]))
  }

  function Start(weights: seq<int>): State {
    State(Expand(weights), 0, seq(|weights|, _ => Fresh))
  }

  ghost predicate Valid(s: State) {
    && Ready(s)
    && (forall i :: 0 <= i < |s.expanded| ==> s.expanded[i] < |s.health|)
    && (forall e :: 0 <= e < |s.health| ==> e in s.expanded)
  }

  function Up(health: seq<Health>, now: Time): (r: set<nat>) {
    set e: nat | e < |health| && health[e].cooldownUntil <= now
  }

  function Next(cursor: nat, n: nat): (r: nat)
    requires cursor < n
    ensures r == if cursor + 1 < n then cursor + 1 else 0
  {
    (cursor + 1) % n
  }

  datatype Found = Found(entry: nat) | NotFound

  /** At most `tries` advances of the cursor, stopping behind the first slot of an endpoint in `up`. */
  function Scan(x: seq<nat>, cursor: nat, up: set<nat>, tries: nat): (r: (Found, nat))
    requires cursor < |x|
    ensures r.1 < |x|
    decreases tries
  {
    if tries == 0 then (NotFound, cursor)
    else if x[cursor] in up then (Found(x[cursor]), Next(cursor, |x|))
    else Scan(x, Next(cursor, |x|), up, tries - 1)
  }

  /** The first endpoint whose cooldown expires soonest. */
  function Soonest(health: seq<Health>): (r: nat)
    requires health != []
    ensures r < |health|
    ensures forall e :: 0 <= e < |health| ==> health[r].cooldownUntil <= health[e].cooldownUntil
    ensures forall e :: 0 <= e < r ==> health[r].cooldownUntil < health[e].cooldownUntil
  {
    if |health| == 1 then 0
    else
      var best := Soonest(health[..|health| - 1]);
      if health[|health| - 1].cooldownUntil < health[best].cooldownUntil then |health| - 1 else best
  }

  function PickStep(s: State, now: Time): (r: (State, nat))
    requires Ready(s)
  {
    var (found, cursor) := Scan(s.expanded, s.cursor, Up(s.health, now), |s.expanded|);
    (s.(cursor := cursor), if found.Found? then found.entry else Soonest(s.health))
  }

  function Succeeded(h: Health, now: Time): Health {
    h.(consecutiveFailures := 0, cooldownUntil := 0.0, lastSuccessAt := now, totalCalls := h.totalCalls + 1)
  }

  function Failed(h: Health, now: Time): Health {
    var f := h.consecutiveFailures + 1;
    h.(consecutiveFailures := f, lastFailureAt := now,
       totalCalls := h.totalCalls + 1, totalFailures := h.totalFailures + 1,
       cooldownUntil := if f >= FAILURE_THRESHOLD then now + FAILURE_COOLDOWN_SECONDS else h.cooldownUntil)
  }

  function Step(s: State, op: Op): State
    requires Ready(s)
  {
    match op
    case Pick(now) => PickStep(s, now).0
    case Success(e, now) => if e < |s.health| then s.(health := s.health[e := Succeeded(s.health[e], now)]) else s
    case Failure(e, now) => if e < |s.health| then s.(health := s.health[e := Failed(s.health[e], now)]) else s
  }

  /** Calls are concurrent, so picks and recorded outcomes may interleave in any way. */
  function Run(s: State, ops: seq<Op>): (r: State)
    requires Ready(s)
    ensures r.cursor < |r.expanded| && |r.health| == |s.health| && r.expanded == s.expanded
  {
    if ops == [] then s else Step(Run(s, ops[..|ops| - 1]), ops[|ops| - 1])
  }

  /** The endpoints the run picked, in order. */
  function Picked(s: State, ops: seq<Op>): (r: seq<nat>)
    requires Ready(s)
  {
    if ops == [] then []
    else
      var front, op := ops[..|ops| - 1], ops[|ops| - 1];
      Picked(s, front) + if op.Pick? then [PickStep(Run(s, front), op.now).1] else []
  }

  // ---------- The expanded index ----------

  function Count(s: seq<nat>, e: nat): (r: nat) {
    multiset(s)[e]
  }

  lemma RepeatCount(x: nat, n: nat, e: nat)
    ensures Count(Repeat(x, n), e) == if e == x then n else 0
    decreases n
  {
    if n > 0 {
      assert Repeat(x, n) == Repeat(x, n - 1) + [x];
      RepeatCount(x, n - 1, e);
    }
  }

  /** Each endpoint has as many slots as its weight, and one if that is less than 1. */
  lemma {:induction false} ExpandCount(weights: seq<int>, e: nat)
    ensures Count(Expand(weights), e) == if e >= |weights| then 0 else if weights[e] >= 1 then weights[e] else 1
  {
    if weights != [] {
      ExpandCount(weights[..|weights| - 1], e);
      RepeatCount(|weights| - 1, Copies(weights[|weights| - 1]), e);
    }
  }

  /** The slots of an endpoint lie together, in the order of the endpoints. */
  lemma {:induction false} ExpandInOrder(weights: seq<int>, i: nat, j: nat)
    requires i <= j < |Expand(weights)|
    ensures Expand(weights)[i] <= Expand(weights)[j]
  {
    if weights != [] {
      var front := weights[..|weights| - 1];
      if j < |Expand(front)| { ExpandInOrder(front, i, j); }
    }
  }

  lemma StartValid(weights: seq<int>)
    requires weights != []
    ensures Valid(Start(weights))
  {
    forall e | 0 <= e < |weights| ensures e in Expand(weights) {
      ExpandCount(weights, e);
      assert e in multiset(Expand(weights));
    }
  }

  // ---------- Round robin ----------

  function Filter(s: seq<nat>, up: set<nat>): (r: seq<nat>) {
    if s == [] then [] else (if s[0] in up then [s[0]] else []) + Filter(s[1..], up)
  }

  lemma {:induction false} FilterConcat(a: seq<nat>, b: seq<nat>, up: set<nat>)
    ensures Filter(a + b, up) == Filter(a, up) + Filter(b, up)
  {
    if a == [] {
      assert a + b == b;
    } else {
      assert (a + b)[1..] == a[1..] + b && (a + b)[0] == a[0];
      FilterConcat(a[1..], b, up);
      Associative(if a[0] in up then [a[0]] else [], Filter(a[1..], up), Filter(b, up));
    }
  }

  lemma {:induction false} FilterCount(s: seq<nat>, up: set<nat>, e: nat)
    ensures Count(Filter(s, up), e) == if e in up then Count(s, e) else 0
  {
    if s != [] {
      FilterCount(s[1..], up, e);
      assert s == [s[0]] + s[1..];
    }
  }

  function Rotate(x: seq<nat>, c: nat): (r: seq<nat>)
    requires c <= |x|
    ensures |r| == |x|
  {
    x[c..] + x[..c]
  }

  /** The healthy slots in the order in which the cursor will meet them. */
  function Turn(x: seq<nat>, c: nat, up: set<nat>): seq<nat>
    requires c < |x|
  {
    Filter(Rotate(x, c), up)
  }

  lemma RotateStep(x: seq<nat>, c: nat)
    requires c < |x|
    ensures Rotate(x, Next(c, |x|)) == Rotate(x, c)[1..] + [x[c]]
    ensures Rotate(x, c) == [x[c]] + Rotate(x, c)[1..]
  {
  }

  lemma TurnStep(x: seq<nat>, c: nat, up: set<nat>)
    requires c < |x|
    ensures x[c] !in up ==> Turn(x, Next(c, |x|), up) == Turn(x, c, up)
    ensures x[c] in up ==> Turn(x, c, up) != [] && Turn(x, c, up)[0] == x[c] &&
                           Turn(x, Next(c, |x|), up) == Turn(x, c, up)[1..] + [x[c]]
  {
    RotateStep(x, c);
    FilterConcat(Rotate(x, c)[1..], [x[c]], up);
    assert Filter([x[c]], up) == if x[c] in up then [x[c]] else [];
  }

  /** A scan over the first `tries` slots finds the head of the turn, or nothing there. */
  lemma {:induction false} ScanMeetsTurn(x: seq<nat>, c: nat, up: set<nat>, tries: nat)
    requires c < |x| && tries <= |x|
    ensures var (found, c') := Scan(x, c, up, tries);
            if found == NotFound then
              Filter(Rotate(x, c)[..tries], up) == [] && c' == if c + tries < |x| then c + tries else c + tries - |x|
            else Turn(x, c, up) != [] && found.entry == Turn(x, c, up)[0] &&
                 Turn(x, c', up) == Turn(x, c, up)[1..] + [Turn(x, c, up)[0]]
    decreases tries
  {
    if tries > 0 {
      TurnStep(x, c, up);
      if x[c] !in up {
        var next := Next(c, |x|);
        ScanMeetsTurn(x, next, up, tries - 1);
        RotateStep(x, c);
        assert Rotate(x, next)[..tries - 1] == Rotate(x, c)[..tries][1..];
      }
    }
  }

  lemma FullScan(x: seq<nat>, c: nat, up: set<nat>)
    requires c < |x|
    ensures var (found, c') := Scan(x, c, up, |x|);
            if Turn(x, c, up) == [] then found == NotFound && c' == c
            else found == Found(Turn(x, c, up)[0]) &&
                 Turn(x, c', up) == Turn(x, c, up)[1..] + [Turn(x, c, up)[0]]
  {
    ScanMeetsTurn(x, c, up, |x|);
    assert Rotate(x, c)[..|x|] == Rotate(x, c);
  }

  /** m picks against one fixed healthy set. */
  function Picks(x: seq<nat>, c: nat, up: set<nat>, m: nat): (r: (seq<nat>, nat))
    requires c < |x|
    ensures r.1 < |x|
  {
    if m == 0 then ([], c)
    else
      var (front, c1) := Picks(x, c, up, m - 1);
      var (found, c2) := Scan(x, c1, up, |x|);
      (front + if found.Found? then [found.entry] else [], c2)
  }

  lemma RotateOn<T>(t: seq<T>, m: nat)
    requires 0 < m <= |t|
    ensures var r := t[m - 1..] + t[..m - 1];
            r[0] == t[m - 1] && r[1..] + [r[0]] == t[m..] + t[..m]
    ensures t[..m] == t[..m - 1] + [t[m - 1]]
  {
  }

  lemma {:induction false} PicksFollowTurn(x: seq<nat>, c: nat, up: set<nat>, m: nat)
    requires c < |x| && m <= |Turn(x, c, up)|
    ensures Picks(x, c, up, m).0 == Turn(x, c, up)[..m]
    ensures Turn(x, Picks(x, c, up, m).1, up) == Turn(x, c, up)[m..] + Turn(x, c, up)[..m]
  {
    if m > 0 {
      PicksFollowTurn(x, c, up, m - 1);
      var c1 := Picks(x, c, up, m - 1).1;
      FullScan(x, c1, up);
      RotateOn(Turn(x, c, up), m);
    }
  }

  lemma {:induction false} TurnCount(x: seq<nat>, c: nat, up: set<nat>, e: nat)
    requires c < |x|
    ensures Count(Turn(x, c, up), e) == if e in up then Count(x, e) else 0
    ensures |Turn(x, c, up)| == |Filter(x, up)|
  {
    FilterCount(Rotate(x, c), up, e);
    assert x == x[..c] + x[c..];
    FilterConcat(x[..c], x[c..], up);
    FilterConcat(x[c..], x[..c], up);
  }

  lemma {:induction false} PicksSplit(x: seq<nat>, c: nat, up: set<nat>, a: nat, b: nat)
    requires c < |x|
    ensures Picks(x, c, up, a + b).0 == Picks(x, c, up, a).0 + Picks(x, Picks(x, c, up, a).1, up, b).0
    ensures Picks(x, c, up, a + b).1 == Picks(x, Picks(x, c, up, a).1, up, b).1
  {
    if b == 0 {
      assert Picks(x, c, up, a).0 + [] == Picks(x, c, up, a).0;
    } else {
      PicksSplit(x, c, up, a, b - 1);
      var c1 := Picks(x, c, up, a).1;
      var (found, _) := Scan(x, Picks(x, c1, up, b - 1).1, up, |x|);
      Associative(Picks(x, c, up, a).0, Picks(x, c1, up, b - 1).0, if found.Found? then [found.entry] else []);
    }
  }

  lemma {:induction false} PicksLength(x: seq<nat>, c: nat, up: set<nat>, m: nat)
    requires c < |x| && Filter(x, up) != []
    ensures |Picks(x, c, up, m).0| == m
  {
    if m > 0 {
      PicksLength(x, c, up, m - 1);
      var c1 := Picks(x, c, up, m - 1).1;
      TurnCount(x, c1, up, 0);
      FullScan(x, c1, up);
    }
  }

  lemma {:induction false} FilterNonEmpty(x: seq<nat>, up: set<nat>, e: nat)
    requires e in x && e in up
    ensures Filter(x, up) != []
  {
    if x[0] != e { FilterNonEmpty(x[1..], up, e); }
  }

  /** Every pick of the run sees exactly the healthy set `up`. */
  ghost predicate SeesOnly(s: State, ops: seq<Op>, up: set<nat>)
    requires Ready(s)
  {
    ops == [] ||
    var front, op := ops[..|ops| - 1], ops[|ops| - 1];
    SeesOnly(s, front, up) && (op.Pick? ==> Up(Run(s, front).health, op.now) == up)
  }

  lemma PickExtends(t: State, now: Time, c: nat, up: set<nat>, k: nat)
    requires c < |t.expanded| && t.health != [] && t.cursor == Picks(t.expanded, c, up, k).1
    requires Up(t.health, now) == up && Filter(t.expanded, up) != []
    ensures Picks(t.expanded, c, up, k + 1) ==
            (Picks(t.expanded, c, up, k).0 + [PickStep(t, now).1], PickStep(t, now).0.cursor)
  {
    TurnCount(t.expanded, t.cursor, up, 0);
    FullScan(t.expanded, t.cursor, up);
  }

  lemma {:induction false} RunPicks(s: State, ops: seq<Op>, up: set<nat>)
    requires Ready(s) && SeesOnly(s, ops, up) && Filter(s.expanded, up) != []
    ensures (Picked(s, ops), Run(s, ops).cursor) == Picks(s.expanded, s.cursor, up, |Picked(s, ops)|)
  {
    if ops != [] {
      var front, op := ops[..|ops| - 1], ops[|ops| - 1];
      RunPicks(s, front, up);
      if op.Pick? {
        PickExtends(Run(s, front), op.now, s.cursor, up, |Picked(s, front)|);
        assert Picked(s, ops) == Picked(s, front) + [PickStep(Run(s, front), op.now).1];
      } else {
        assert Picked(s, ops) == Picked(s, front);
      }
    }
  }

  lemma PicksInThree(x: seq<nat>, c: nat, up: set<nat>, a: nat, b: nat, d: nat)
    requires c < |x|
    ensures var first := Picks(x, c, up, a);
            var second := Picks(x, first.1, up, b);
            Picks(x, c, up, a + (b + d)).0 == first.0 + (second.0 + Picks(x, second.1, up, d).0)
  {
    PicksSplit(x, c, up, a, b + d);
    PicksSplit(x, Picks(x, c, up, a).1, up, b, d);
  }

  lemma {:induction false} PicksWindow(x: seq<nat>, c: nat, up: set<nat>, from: nat, m: nat, total: nat)
    requires c < |x| && Filter(x, up) != [] && from + m <= total
    ensures |Picks(x, c, up, total).0| == total
    ensures Picks(x, c, up, total).0[from..from + m] == Picks(x, Picks(x, c, up, from).1, up, m).0
  {
    PicksLength(x, c, up, total);
    PicksLength(x, c, up, from);
    PicksLength(x, Picks(x, c, up, from).1, up, m);
    var d := total - from - m;
    assert total == from + (m + d);
    PicksInThree(x, c, up, from, m, d);
    var first := Picks(x, c, up, from);
    var second := Picks(x, first.1, up, m);
  }

  /** Any m consecutive picks, m the number of healthy slots, are one turn. */
  lemma WindowIsTurn(s: State, ops: seq<Op>, up: set<nat>, from: nat, m: nat) returns (c: nat)
    requires Ready(s) && SeesOnly(s, ops, up) && m == |Filter(s.expanded, up)| > 0
    requires from + m <= |Picked(s, ops)|
    ensures c < |s.expanded| && Picked(s, ops)[from..from + m] == Turn(s.expanded, c, up)
  {
    RunPicks(s, ops, up);
    PicksWindow(s.expanded, s.cursor, up, from, m, |Picked(s, ops)|);
    c := Picks(s.expanded, s.cursor, up, from).1;
    TurnCount(s.expanded, c, up, 0);
    PicksFollowTurn(s.expanded, c, up, m);
  }

  lemma WindowCount(s: State, ops: seq<Op>, up: set<nat>, from: nat, m: nat, e: nat, slots: nat)
    requires Count(s.expanded, e) == slots
    requires Ready(s) && SeesOnly(s, ops, up) && m == |Filter(s.expanded, up)| > 0
    requires from + m <= |Picked(s, ops)|
    ensures Count(Picked(s, ops)[from..from + m], e) == if e in up then slots else 0
  {
    var c := WindowIsTurn(s, ops, up, from, m);
    TurnCount(s.expanded, c, up, e);
  }

  /** Weighted fairness under failures: as long as every pick sees the same non-empty healthy set, any
      window of as many consecutive picks as the healthy endpoints weigh together, from whatever cursor and
      with whatever outcomes recorded in between, takes each healthy endpoint exactly as often as its
      weight says, once if that is less than 1, and no other endpoint at all. h witnesses that the set is not
      empty. */
  lemma {:induction false} WeightedFairness(weights: seq<int>, s: State, ops: seq<Op>, up: set<nat>, h: nat, from: nat, m: nat, e: nat)
    requires Ready(s) && s.expanded == Expand(weights) && SeesOnly(s, ops, up)
    requires h in up && h < |weights|
    requires m == TotalWeight(weights, up) && from + m <= |Picked(s, ops)|
    ensures Count(Picked(s, ops)[from..from + m], e) ==
            if e !in up || e >= |weights| then 0 else if weights[e] >= 1 then weights[e] else 1
  {
    ExpandFacts(weights, s.expanded, up, h);
    ExpandCount(weights, e);
    WindowCount(s, ops, up, from, m, e, Count(s.expanded, e));
  }

  lemma {:induction false} FilterAll(s: seq<nat>, up: set<nat>)
    requires forall e :: e in s ==> e in up
    ensures Filter(s, up) == s
  {
    if s != [] {
      FilterAll(s[1..], up);
      assert s == [s[0]] + s[1..];
    }
  }

  /** A new pool whose endpoints stay healthy takes its slots in order from the first one on. */
  lemma {:induction false} FreshTurn(weights: seq<int>, ops: seq<Op>, up: set<nat>)
    requires weights != [] && SeesOnly(Start(weights), ops, up) && forall e: nat :: e < |weights| ==> e in up
    requires |Picked(Start(weights), ops)| <= |Expand(weights)|
    ensures Picked(Start(weights), ops) == Expand(weights)[..|Picked(Start(weights), ops)|]
  {
    var x := Expand(weights);
    FilterAll(x, up);
    assert Rotate(x, 0) == x;
    RunPicks(Start(weights), ops, up);
    PicksFollowTurn(x, 0, up, |Picked(Start(weights), ops)|);
  }

  lemma ExpandFacts(weights: seq<int>, x: seq<nat>, up: set<nat>, h: nat)
    requires x == Expand(weights) && h in up && h < |weights|
    ensures |Filter(x, up)| == TotalWeight(weights, up) > 0
  {
    SlotsOf(weights, up);
    SomeSlot(weights, up, h);
  }

  lemma SomeSlot(weights: seq<int>, up: set<nat>, h: nat)
    requires h in up && h < |weights|
    ensures Filter(Expand(weights), up) != []
  {
    ExpandCount(weights, h);
    assert h in multiset(Expand(weights));
    FilterNonEmpty(Expand(weights), up, h);
  }

  /** The window's length: the total weight of the healthy endpoints. */
  lemma {:induction false} SlotsOf(weights: seq<int>, up: set<nat>)
    ensures |Filter(Expand(weights), up)| == TotalWeight(weights, up)
  {
    if weights != [] {
      var front, last := weights[..|weights| - 1], |weights| - 1;
      SlotsOf(front, up);
      FilterConcat(Expand(front), Repeat(last, Copies(weights[last])), up);
      FilterRepeat(last, Copies(weights[last]), up);
    }
  }

  /** The sum of the weights of the endpoints in `up`, a weight of less than 1 counting as 1. */
  ghost function TotalWeight(weights: seq<int>, up: set<nat>): (r: nat) {
    if weights == [] then 0
    else TotalWeight(weights[..|weights| - 1], up) +
         if |weights| - 1 !in up then 0 else if weights[|weights| - 1] >= 1 then weights[|weights| - 1] else 1
  }

  lemma FilterRepeat(x: nat, n: nat, up: set<nat>)
    ensures Filter(Repeat(x, n), up) == if x in up then Repeat(x, n) else []
    decreases n
  {
    if n > 0 {
      assert Repeat(x, n)[1..] == Repeat(x, n - 1);
      FilterRepeat(x, n - 1, up);
    }
  }

  lemma TurnHeadUp(x: seq<nat>, c: nat, up: set<nat>)
    requires c < |x|
    ensures Turn(x, c, up) == [] <==> forall e :: e in x ==> e !in up
    ensures Turn(x, c, up) != [] ==> Turn(x, c, up)[0] in x && Turn(x, c, up)[0] in up
  {
    if e :| e in x && e in up {
      FilterNonEmpty(x, up, e);
      TurnCount(x, c, up, e);
    }
    var t := Turn(x, c, up);
    if t != [] {
      TurnCount(x, c, up, t[0]);
      assert t[0] in multiset(t);
      assert t[0] in multiset(x);
    }
  }

  /** If any endpoint is healthy the pick is a healthy one; otherwise the cursor does not move and the
      endpoint with the soonest expiry is tried. */
  lemma PickPrefersHealthy(s: State, now: Time)
    requires Valid(s)
    ensures var up := Up(s.health, now);
            var (s', e) := PickStep(s, now);
            if up == {} then s' == s && e == Soonest(s.health) else e in up
  {
    var up := Up(s.health, now);
    FullScan(s.expanded, s.cursor, up);
    TurnHeadUp(s.expanded, s.cursor, up);
  }

  lemma {:induction false} ScanFinds(x: seq<nat>, c: nat, up: set<nat>, tries: nat, k: nat)
    requires c < |x| && k < tries <= |x| && Rotate(x, c)[k] in up
    requires forall j :: 0 <= j < k ==> Rotate(x, c)[j] !in up
    ensures Scan(x, c, up, tries) == (Found(Rotate(x, c)[k]), if c + k + 1 < |x| then c + k + 1 else c + k + 1 - |x|)
    decreases k
  {
    RotateStep(x, c);
    if k > 0 {
      var next := Next(c, |x|);
      assert Rotate(x, c)[0] !in up;
      forall j | 0 <= j < k - 1 ensures Rotate(x, next)[j] !in up {
        assert Rotate(x, next)[j] == Rotate(x, c)[j + 1];
      }
      assert Rotate(x, next)[k - 1] == Rotate(x, c)[k];
      ScanFinds(x, next, up, tries - 1, k - 1);
    }
  }

  /** A pick goes around the slots from the cursor on, up to the first whose endpoint is out of cooldown, and leaves the
      cursor behind it. */
  lemma PickIsNextUp(s: State, now: Time, slots: seq<nat>, k: nat)
    requires Valid(s) && slots == s.expanded[s.cursor..] + s.expanded[..s.cursor] && k < |slots|
    requires s.health[slots[k]].cooldownUntil <= now
    requires forall j :: 0 <= j < k ==> now < s.health[slots[j]].cooldownUntil
    ensures PickStep(s, now).1 == slots[k]
    ensures PickStep(s, now).0.cursor == if s.cursor + k + 1 < |slots| then s.cursor + k + 1 else s.cursor + k + 1 - |slots|
  {
    ScanFinds(s.expanded, s.cursor, Up(s.health, now), |s.expanded|, k);
  }

  // ---------- Circuit breaker ----------

  datatype Outcome = Outcome(ok: bool, at: Time)

  /** What was recorded for endpoint e, oldest first. */
  function History(ops: seq<Op>, e: nat): (r: seq<Outcome>) {
    if ops == [] then []
    else
      var op := ops[|ops| - 1];
      History(ops[..|ops| - 1], e) +
      match op
      case Pick(_) => []
      case Success(i, now) => if i == e then [Outcome(true, now)] else []
      case Failure(i, now) => if i == e then [Outcome(false, now)] else []
  }

  /** k is the length of the longest all-failure suffix. */
  ghost predicate FailureSuffix(h: seq<Outcome>, k: nat) {
    && k <= |h|
    && (forall i :: |h| - k <= i < |h| ==> !h[i].ok)
    && (k < |h| ==> h[|h| - k - 1].ok)
  }

  /** t is the time of the last failure, 0 when there is none. */
  ghost predicate LastFailure(h: seq<Outcome>, t: Time) {
    if exists i :: 0 <= i < |h| && !h[i].ok
    then exists i :: 0 <= i < |h| && !h[i].ok && h[i].at == t && forall j :: i < j < |h| ==> h[j].ok
    else t == 0.0
  }

  /** The time of the last success, 0 when there is none. */
  function LastSuccess(h: seq<Outcome>): (t: Time) {
    if h == [] then 0.0 else if h[|h| - 1].ok then h[|h| - 1].at else LastSuccess(h[..|h| - 1])
  }

  function Failures(h: seq<Outcome>): (r: nat) {
    if h == [] then 0 else Failures(h[..|h| - 1]) + if h[|h| - 1].ok then 0 else 1
  }

  /** A health record tells the truth about a history. */
  ghost predicate Tells(health: Health, h: seq<Outcome>) {
    && FailureSuffix(h, health.consecutiveFailures)
    && LastFailure(h, health.lastFailureAt)
    && health.totalCalls == |h|
    && health.cooldownUntil == if health.consecutiveFailures >= 3 then health.lastFailureAt + 60.0 else 0.0
  }

  lemma SuccessTells(health: Health, h: seq<Outcome>, now: Time)
    requires Tells(health, h)
    ensures Tells(Succeeded(health, now), h + [Outcome(true, now)])
  {
    var h' := h + [Outcome(true, now)];
    if exists i :: 0 <= i < |h| && !h[i].ok {
      var i :| 0 <= i < |h| && !h[i].ok && h[i].at == health.lastFailureAt && forall j :: i < j < |h| ==> h[j].ok;
      assert !h'[i].ok && h'[i].at == health.lastFailureAt;
      forall j | i < j < |h'| ensures h'[j].ok { assert j < |h| ==> h[j].ok; }
    }
  }

  lemma FailureTells(health: Health, h: seq<Outcome>, now: Time)
    requires Tells(health, h)
    ensures Tells(Failed(health, now), h + [Outcome(false, now)])
  {
    var h' := h + [Outcome(false, now)];
    assert !h'[|h|].ok && h'[|h|].at == now;
    var k := health.consecutiveFailures;
    forall i | |h'| - (k + 1) <= i < |h'| ensures !h'[i].ok { assert i < |h| ==> !h[i].ok; }
  }

  lemma {:induction false} SuffixUnique(h: seq<Outcome>, j: nat, k: nat)
    requires FailureSuffix(h, j) && FailureSuffix(h, k)
    ensures j == k
  {
    assert j < k ==> |h| - k <= |h| - j - 1;
    assert k < j ==> |h| - j <= |h| - k - 1;
  }

  /** After any run, whatever the interleaving, each endpoint's record tells the truth about its own
      outcomes. */
  lemma {:induction false} BreakerTellsHistory(weights: seq<int>, ops: seq<Op>, e: nat)
    requires weights != [] && e < |weights|
    ensures Tells(Run(Start(weights), ops).health[e], History(ops, e))
  {
    if ops != [] {
      var front, op := ops[..|ops| - 1], ops[|ops| - 1];
      BreakerTellsHistory(weights, front, e);
      var before := Run(Start(weights), front).health[e];
      SuccessTells(before, History(front, e), op.now);
      FailureTells(before, History(front, e), op.now);
      assert History(front, e) + [] == History(front, e);
    }
  }

  lemma OneOutcome(h: seq<Outcome>, o: Outcome)
    ensures LastSuccess(h + [o]) == if o.ok then o.at else LastSuccess(h)
    ensures Failures(h + [o]) == Failures(h) + if o.ok then 0 else 1
  {
    assert (h + [o])[..|h|] == h;
  }

  /** The rest of the record: the time of the last success and the number of failures. */
  lemma {:induction false} RecordCounts(weights: seq<int>, ops: seq<Op>, e: nat)
    requires weights != [] && e < |weights|
    ensures var health := Run(Start(weights), ops).health[e];
            health.lastSuccessAt == LastSuccess(History(ops, e)) && health.totalFailures == Failures(History(ops, e))
  {
    if ops != [] {
      var front, op := ops[..|ops| - 1], ops[|ops| - 1];
      assert ops == front + [op];
      RecordCounts(weights, front, e);
      StepCounts(Run(Start(weights), front), op, e);
      HistoryStep(front, op, e);
    }
  }

  predicate Concerns(op: Op, e: nat) { !op.Pick? && op.entry == e }

  lemma HistoryStep(ops: seq<Op>, op: Op, e: nat)
    ensures var h, all := History(ops, e), History(ops + [op], e);
            && LastSuccess(all) == (if Concerns(op, e) && op.Success? then op.now else LastSuccess(h))
            && Failures(all) == Failures(h) + if Concerns(op, e) && op.Failure? then 1 else 0
  {
    var h := History(ops, e);
    assert (ops + [op])[..|ops|] == ops;
    OneOutcome(h, Outcome(op.Success?, op.now));
    assert h + [] == h;
  }

  lemma StepCounts(s: State, op: Op, e: nat)
    requires Ready(s) && e < |s.health|
    ensures var h, k := s.health[e], Step(s, op).health[e];
            && k.lastSuccessAt == (if Concerns(op, e) && op.Success? then op.now else h.lastSuccessAt)
            && k.totalFailures == h.totalFailures + if Concerns(op, e) && op.Failure? then 1 else 0
  {
  }

  /** The breaker as the module documents it: an endpoint is in cooldown at `now` exactly when its recorded
      outcomes end in at least three failures, the last of them less than 60 seconds ago. */
  lemma CooldownIff(weights: seq<int>, ops: seq<Op>, e: nat, now: Time, k: nat, last: Time)
    requires weights != [] && e < |weights|
    requires FailureSuffix(History(ops, e), k) && LastFailure(History(ops, e), last)
    ensures e !in Up(Run(Start(weights), ops).health, now) <==>
            k >= 3 && now < last + 60.0
  {
    BreakerTellsHistory(weights, ops, e);
    var health := Run(Start(weights), ops).health[e];
    SuffixUnique(History(ops, e), k, health.consecutiveFailures);
  }

  /** When all endpoints cool down, the one tried is the one whose last failure is the oldest. */
  lemma FallbackFailedLongestAgo(weights: seq<int>, ops: seq<Op>, now: Time, e: nat, mine: Time, other: Time)
    requires weights != [] && e < |weights|
    requires Up(Run(Start(weights), ops).health, now) == {}
    requires LastFailure(History(ops, e), other)
    requires var p := PickStep(Run(Start(weights), ops), now).1;
             LastFailure(History(ops, p), mine)
    ensures mine <= other
  {
    var s := Run(Start(weights), ops);
    RunValid(weights, ops);
    PickPrefersHealthy(s, now);
    var p := PickStep(s, now).1;
    forall i | 0 <= i < |weights| ensures s.health[i].cooldownUntil == s.health[i].lastFailureAt + FAILURE_COOLDOWN_SECONDS {
      BreakerTellsHistory(weights, ops, i);
      assert i !in Up(s.health, now);
    }
    BreakerTellsHistory(weights, ops, p);
    BreakerTellsHistory(weights, ops, e);
  }

  lemma RunValid(weights: seq<int>, ops: seq<Op>)
    requires weights != []
    ensures Valid(Run(Start(weights), ops))
  {
    StartValid(weights);
  }

  /** Endpoint after endpoint, each as often as its weight says, and once if that is less than 1. */
  ghost predicate Slotted(weights: seq<int>, x: seq<nat>) {
    && (forall i, j :: 0 <= i <= j < |x| ==> x[i] <= x[j] < |weights|)
    && (forall e: nat :: e < |weights| ==> Count(x, e) == if weights[e] >= 1 then weights[e] else 1)
  }

  lemma SlottedExpand(weights: seq<int>)
    ensures Slotted(weights, Expand(weights))
  {
    forall i, j | 0 <= i <= j < |Expand(weights)| ensures Expand(weights)[i] <= Expand(weights)[j] {
      ExpandInOrder(weights, i, j);
    }
    forall e: nat | e < |weights| ensures Count(Expand(weights), e) == if weights[e] >= 1 then weights[e] else 1 {
      ExpandCount(weights, e);
    }
  }

  // ---------- The object ----------

  class ExplorationEndpointPool {
    const weights: seq<int>
    var health: seq<Health>
    var expanded: seq<nat>
    var cursor: nat

    ghost predicate IsValid()
      reads this
    {
      weights != [] && |health| == |weights| && expanded == Expand(weights) && cursor < |expanded|
    }

    function Abstract(): State
      reads this
    {
      State(expanded, cursor, health)
    }

    constructor (weights: seq<int>)
      requires weights != []
      ensures IsValid() && Abstract() == Start(weights) && this.weights == weights
      ensures cursor == 0 && |health| == |weights| && Slotted(weights, expanded)
    {
      this.weights := weights;
      health := seq(|weights|, _ => Fresh);
      cursor := 0;
      var index: seq<nat> := [];
      var i := 0;
      while i < |weights|
        invariant 0 <= i <= |weights| && index == Expand(weights[..i])
      {
        var count := if weights[i] < 1 then 1 else weights[i];
        index := index + Repeat(i, count);
        assert weights[..i + 1][..i] == weights[..i];
        i := i + 1;
      }
      assert weights[..|weights|] == weights;
      expanded := index;
      SlottedExpand(weights);
    }

    method PickEntry(now: Time) returns (entry: nat)
      requires IsValid()
      modifies this`cursor
      ensures IsValid()
      ensures (Abstract(), entry) == PickStep(old(Abstract()), now)
    {
      var n := |expanded|;
      var tries := n;
      while 0 < tries
        invariant 0 <= tries <= n && IsValid() && health == old(health) && expanded == old(expanded)
        invariant Scan(expanded, cursor, Up(health, now), tries) ==
                  Scan(expanded, old(cursor), Up(health, now), n)
      {
        var idx := expanded[cursor];
        cursor := Next(cursor, n);
        tries := tries - 1;
        if health[idx].cooldownUntil <= now { return idx; }
      }
      entry := ExpiresFirst();
    }

    /** Python's `min` over the entries by expiry. */
    method ExpiresFirst() returns (entry: nat)
      requires IsValid()
      ensures entry == Soonest(health)
    {
      entry := 0;
      var i := 1;
      while i < |health|
        invariant 1 <= i <= |health| && entry == Soonest(health[..i])
      {
        if health[i].cooldownUntil < health[entry].cooldownUntil { entry := i; }
        i := i + 1;
      }
      assert health[..|health|] == health;
    }

    method RecordSuccess(entry: nat, now: Time)
      requires IsValid() && entry < |health|
      modifies this`health
      ensures IsValid() && Abstract() == Step(old(Abstract()), Success(entry, now))
    {
      var h := health[entry];
      h := h.(consecutiveFailures := 0);
      h := h.(cooldownUntil := 0.0);
      h := h.(lastSuccessAt := now, totalCalls := h.totalCalls + 1);
      health := health[entry := h];
    }

    method RecordFailure(entry: nat, now: Time)
      requires IsValid() && entry < |health|
      modifies this`health
      ensures IsValid() && Abstract() == Step(old(Abstract()), Failure(entry, now))
    {
      var h := health[entry];
      h := h.(consecutiveFailures := h.consecutiveFailures + 1);
      h := h.(lastFailureAt := now, totalCalls := h.totalCalls + 1, totalFailures := h.totalFailures + 1);
      if h.consecutiveFailures >= FAILURE_THRESHOLD {
        h := h.(cooldownUntil := now + FAILURE_COOLDOWN_SECONDS);
      }
      health := health[entry := h];
    }
  }

  /** Null where the source raises ValueError. */
  method BuildPool(weights: seq<int>) returns (pool: ExplorationEndpointPool?)
    ensures pool == null <==> weights == []
    ensures pool != null ==> pool.IsValid() && pool.Abstract() == Start(weights)
    ensures pool != null ==> pool.cursor == 0 && |pool.health| == |weights| && Slotted(weights, pool.expanded)
  {
    if weights == [] { return null; }
    pool := new ExplorationEndpointPool(weights);
  }
}
