/** The exploration frontier: admission, lazy-deletion priority queue, explored marks. Scores, the minimum
    priority, the size cap and the overlap test are abstracted: a push carries its effective priority and
    whether those remaining gates let it in. */
module Frontier {

  datatype Scenario = Scenario(id: string, priority: real, depth: nat, bonus: nat)

  /** What callers can observe. */
  datatype View = View(pending: map<string, Scenario>, explored: set<string>, maxDepth: nat)

  ghost predicate WellFormed(f: View) {
    && (forall id :: id in f.pending ==> f.pending[id].id == id)
    && f.pending.Keys !! f.explored
  }

  function Max(a: nat, b: nat): (r: nat)
    ensures a <= r && b <= r && (r == a || r == b)
  {
    if a < b then b else a
  }

  function Push(f: View, sc: Scenario, effective: real, gates: bool): View {
    if sc.id in f.explored then f
    else if sc.id in f.pending then
      var existing := f.pending[sc.id];
      if existing.priority < effective then
        f.(pending := f.pending[sc.id := sc.(priority := effective, bonus := Max(existing.bonus, sc.bonus))])
      else f
    else if sc.depth > f.maxDepth + sc.bonus || !gates then f
    else f.(pending := f.pending[sc.id := sc.(priority := effective)])
  }

  function MarkExplored(f: View, id: string): View {
    f.(pending := f.pending - {id}, explored := f.explored + {id})
  }

  ghost predicate IsBest(f: View, id: string) {
    id in f.pending && forall other :: other in f.pending ==> f.pending[other].priority <= f.pending[id].priority
  }

  /** The depth cap that the admission gate documents, for one entry. */
  predicate WithinCap(f: View, id: string) {
    id in f.pending ==> f.pending[id].depth <= f.maxDepth + f.pending[id].bonus
  }

  /** A push keeps the cap for its entry unless it upgrades a pending one: the upgrade takes over the new
      depth without the depth test, so it breaks the cap exactly when that depth is above the cap plus the
      larger of the two bonuses. */
  lemma PushKeepsCapIff(f: View, sc: Scenario, effective: real, gates: bool)
    requires WithinCap(f, sc.id)
    ensures WithinCap(Push(f, sc, effective, gates), sc.id) <==>
            !(&& sc.id !in f.explored && sc.id in f.pending && f.pending[sc.id].priority < effective
              && sc.depth > f.maxDepth + Max(f.pending[sc.id].bonus, sc.bonus))
  {
    var g := Push(f, sc, effective, gates);
    if sc.id !in f.explored && sc.id in f.pending && f.pending[sc.id].priority < effective {
      assert g.pending[sc.id] == sc.(priority := effective, bonus := Max(f.pending[sc.id].bonus, sc.bonus));
    } else if g != f {
      assert g.pending[sc.id] == sc.(priority := effective);
    }
  }

  /** The cap is broken by a real case: a shallow pending scenario re-proposed from a deep one. */
  lemma UpgradePassesCap()
    ensures var shallow := Scenario("x", 0.2, 0, 0);
            var deep := Scenario("x", 0.5, 4, 0);
            var f := View(map["x" := shallow], {}, 3);
            WellFormed(f) && WithinCap(f, "x") && !WithinCap(Push(f, deep, 0.5, true), "x")
  {
  }

  datatype Entry = Entry(priority: real, counter: nat, scenario: Scenario)

  /** heapq's order on the negated-priority tuples; counters are never shared. */
  predicate Ahead(a: Entry, b: Entry) {
    a.priority > b.priority || (a.priority == b.priority && a.counter <= b.counter)
  }

  ghost predicate FirstOf(heap: set<Entry>, e: Entry) { e in heap && forall o :: o in heap ==> Ahead(e, o) }

  lemma {:induction false} HasFirst(heap: set<Entry>) returns (e: Entry)
    requires heap != {}
    ensures FirstOf(heap, e)
    decreases |heap|
  {
    e :| e in heap;
    var rest := heap - {e};
    assert heap == rest + {e};
    if rest != {} {
      var f := HasFirst(rest);
      if Ahead(f, e) {
        e := f;
      } else {
        assert forall o :: o in rest ==> Ahead(f, o) && Ahead(e, o);
      }
    }
  }

  lemma HasLeast(heap: set<Entry>)
    requires heap != {}
    ensures exists e :: e in heap && forall o :: o in heap ==> Ahead(e, o)
  {
    var e := HasFirst(heap);
  }

  /** Every pending scenario has its current entry in the heap; older entries may linger there. */
  ghost predicate Listed(heap: set<Entry>, counters: map<string, nat>, pending: map<string, Scenario>) {
    forall id :: id in pending ==> id in counters && Entry(pending[id].priority, counters[id], pending[id]) in heap
  }

  /** Of the pending scenarios of greatest priority, the one pushed first. */
  ghost predicate OldestOfBest(counters: map<string, nat>, pending: map<string, Scenario>, id: string)
    requires id in pending && pending.Keys <= counters.Keys
  {
    forall other :: other in pending ==>
      || pending[other].priority < pending[id].priority
      || (pending[other].priority == pending[id].priority && counters[id] <= counters[other])
  }

  /** A current entry that comes first in the heap belongs to the oldest of the best. */
  lemma FirstIsOldestOfBest(heap: set<Entry>, counters: map<string, nat>, pending: map<string, Scenario>, id: string)
    requires Listed(heap, counters, pending) && id in pending
    requires forall o :: o in heap ==> Ahead(Entry(pending[id].priority, counters[id], pending[id]), o)
    ensures OldestOfBest(counters, pending, id)
  {
    forall other | other in pending
      ensures pending[other].priority < pending[id].priority
              || (pending[other].priority == pending[id].priority && counters[id] <= counters[other])
    {
      assert Entry(pending[other].priority, counters[other], pending[other]) in heap;
    }
  }

  class ExplorationFrontier {
    var heap: set<Entry>
    var entryCounter: map<string, nat>
    var pending: map<string, Scenario>
    var explored: set<string>
    var pushCounter: nat
    var effectiveMaxDepth: nat

    function Seen(): View
      reads this
    {
      View(pending, explored, effectiveMaxDepth)
    }

    ghost predicate Valid()
      reads this
    {
      && WellFormed(Seen())
      && Listed(heap, entryCounter, pending)
      && (forall e :: e in heap ==> e.counter <= pushCounter)
      && (forall a, b :: a in heap && b in heap && a.counter == b.counter ==> a == b)
    }

    constructor (maxDepth: nat)
      ensures Valid() && Seen() == View(map[], {}, maxDepth)
    {
      heap, entryCounter, pending, explored, pushCounter := {}, map[], map[], {}, 0;
      effectiveMaxDepth := maxDepth;
    }

    method SetEffectiveMaxDepth(depth: nat)
      requires Valid()
      modifies this`effectiveMaxDepth
      ensures Valid() && Seen() == old(Seen()).(maxDepth := depth)
    {
      effectiveMaxDepth := depth;
    }

    method PushScenario(sc: Scenario, effective: real, gates: bool) returns (admitted: bool)
      requires Valid()
      modifies this
      ensures Valid() && Seen() == Push(old(Seen()), sc, effective, gates)
      ensures admitted <==> sc.id !in old(pending) && sc.id in pending
      ensures entryCounter == if pending == old(pending) then old(entryCounter) else old(entryCounter)[sc.id := pushCounter]
      ensures pushCounter == old(pushCounter) + if pending == old(pending) then 0 else 1
    {
      if sc.id in explored { return false; }
      var stored := sc.(priority := effective);
      if sc.id in pending {
        var existing := pending[sc.id];
        if effective <= existing.priority { return false; }
        stored := stored.(bonus := Max(existing.bonus, sc.bonus));
        admitted := false;
      } else {
        if sc.depth > effectiveMaxDepth + sc.bonus { return false; }
        if !gates { return false; }
        admitted := true;
      }
      pending := pending[sc.id := stored];
      pushCounter := pushCounter + 1;
      entryCounter := entryCounter[sc.id := pushCounter];
      heap := heap + {Entry(effective, pushCounter, stored)};
    }

    /** Discards outdated heap entries until a current one turns up. Nothing is returned exactly when
        nothing is pending. */
    method PopScenario() returns (found: bool, sc: Scenario)
      requires Valid()
      modifies this`heap, this`pending
      ensures Valid()
      ensures found <==> old(pending) != map[]
      ensures old(pending).Keys <= entryCounter.Keys
      ensures found ==> sc.id in old(pending) && sc == old(pending)[sc.id]
      ensures found ==> forall o :: o in old(pending) ==>
                old(pending)[o].priority < sc.priority ||
                (old(pending)[o].priority == sc.priority && entryCounter[sc.id] <= entryCounter[o])
      ensures entryCounter == old(entryCounter)
      ensures Seen() == if found then old(Seen()).(pending := old(pending) - {sc.id}) else old(Seen())
    {
      while heap != {}
        invariant Valid() && pending == old(pending)
        decreases |heap|
      {
        HasLeast(heap);
        var e :| e in heap && forall o :: o in heap ==> Ahead(e, o);
        var id := e.scenario.id;
        if id !in explored && id in entryCounter && entryCounter[id] == e.counter && id in pending {
          assert e == Entry(pending[id].priority, entryCounter[id], pending[id]);
          found, sc := true, pending[id];
          FirstIsOldestOfBest(heap, entryCounter, pending, id);
          heap := heap - {e};
          pending := pending - {id};
          return;
        }
        heap := heap - {e};
      }
      assert pending == map[];
      found, sc := false, Scenario("", 0.0, 0, 0);
    }

    method MarkAsExplored(id: string)
      requires Valid()
      modifies this`pending, this`explored
      ensures Valid() && Seen() == MarkExplored(old(Seen()), id)
    {
      pending := pending - {id};
      explored := explored + {id};
    }
  }
}
