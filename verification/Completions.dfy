/** What a completed scenario leaves in the frontier, told from its branches: which follow-ons are pending, at what
    depth, with what priority and with how much depth bonus. */
module Completions {
  import opened Common
  import opened Frontier
  import opened Exploration
  import opened ExplorationSafety

  /** The bonus that the children of a scenario carry: the full one for a scenario at or above the drill threshold,
      otherwise what is left of the scenario's own after one more level. */
  ghost predicate Inherits(c: Config, sc: Scenario, bonus: nat) {
    if c.drillThreshold <= sc.priority
    then sc.bonus <= bonus && c.bonus <= bonus && (bonus == sc.bonus || bonus == c.bonus)
    else bonus == if sc.bonus > 0 then sc.bonus - 1 else 0
  }

  /** Branch k is of this id, and from branch `from` on none of the same id is of higher priority. */
  ghost predicate Tops(bs: seq<Branch>, id: string, from: nat, k: nat) {
    && from <= k < |bs| && bs[k].id == id
    && forall j :: from <= j < |bs| && bs[j].id == id ==> bs[j].effective <= bs[k].effective
  }

  /** Branch g is the first of this id that passes the other gates. */
  ghost predicate FirstGated(bs: seq<Branch>, id: string, g: nat) {
    && g < |bs| && bs[g].id == id && bs[g].gates
    && forall j :: 0 <= j < g && bs[j].id == id ==> !bs[j].gates
  }

  lemma TopsGrows(bs: seq<Branch>, b: Branch, id: string, from: nat, k: nat)
    requires Tops(bs, id, from, k)
    ensures if b.id == id && bs[k].effective < b.effective then Tops(bs + [b], id, from, |bs|) else Tops(bs + [b], id, from, k)
  {
    assert forall j :: 0 <= j < |bs| ==> (bs + [b])[j] == bs[j];
  }

  /** A pushed id that was not pending: branch g admits it, branch k gives it its priority. */
  ghost predicate Born(c: Config, sc: Scenario, bs: seq<Branch>, bonus: nat, id: string, child: Scenario) {
    exists g: nat, k: nat :: FirstGated(bs, id, g) && Tops(bs, id, g, k) &&
                             child == Scenario(id, bs[k].effective, sc.depth + 1, bonus)
  }

  lemma BornGrows(c: Config, sc: Scenario, bs: seq<Branch>, bonus: nat, id: string, b: Branch, child: Scenario)
    requires Born(c, sc, bs, bonus, id, child)
    ensures Born(c, sc, bs + [b], bonus, id,
                 if b.id == id && child.priority < b.effective then child.(priority := b.effective) else child)
  {
    var g: nat, k: nat :| FirstGated(bs, id, g) && Tops(bs, id, g, k) &&
                          child == Scenario(id, bs[k].effective, sc.depth + 1, bonus);
    assert forall j :: 0 <= j < |bs| ==> (bs + [b])[j] == bs[j];
    assert FirstGated(bs + [b], id, g);
    TopsGrows(bs, b, id, g, k);
  }

  lemma BornNow(c: Config, sc: Scenario, bs: seq<Branch>, bonus: nat, b: Branch)
    requires b.gates && forall j :: 0 <= j < |bs| && bs[j].id == b.id ==> !bs[j].gates
    ensures Born(c, sc, bs + [b], bonus, b.id, Scenario(b.id, b.effective, sc.depth + 1, bonus))
  {
    assert forall j :: 0 <= j < |bs| ==> (bs + [b])[j] == bs[j];
    assert FirstGated(bs + [b], b.id, |bs|) && Tops(bs + [b], b.id, |bs|, |bs|);
  }

  ghost predicate Proposed(bs: seq<Branch>, id: string) { exists k :: 0 <= k < |bs| && bs[k].id == id && bs[k].gates }

  lemma ProposedOneMore(bs: seq<Branch>, b: Branch, id: string)
    ensures Proposed(bs + [b], id) <==> Proposed(bs, id) || (b.id == id && b.gates)
  {
    assert forall j :: 0 <= j < |bs| ==> (bs + [b])[j] == bs[j];
    assert (bs + [b])[|bs|] == b;
  }

  lemma {:induction false} PushedFresh(c: Config, f: View, sc: Scenario, bs: seq<Branch>, bonus: nat, id: string)
    requires id !in f.pending && id !in f.explored && Inherits(c, sc, bonus)
    ensures var g := PushAll(c, f, sc, bs);
            && g.explored == f.explored && g.maxDepth == f.maxDepth
            && (id in g.pending <==> sc.depth + 1 <= f.maxDepth + bonus && Proposed(bs, id))
            && (id in g.pending ==> Born(c, sc, bs, bonus, id, g.pending[id]))
  {
    if bs != [] {
      var front, b := bs[..|bs| - 1], bs[|bs| - 1];
      var before := PushAll(c, f, sc, front);
      assert bs == front + [b];
      PushedFresh(c, f, sc, front, bonus, id);
      ProposedOneMore(front, b, id);
      if id in before.pending {
        BornGrows(c, sc, front, bonus, id, b, before.pending[id]);
      } else if b.id == id && b.gates && sc.depth + 1 <= f.maxDepth + bonus {
        BornNow(c, sc, front, bonus, b);
      }
    }
  }

  /** The pending scenario taken over by a better branch: its depth is the branch's, its bonus the larger. */
  ghost predicate Upgraded(before: Scenario, sc: Scenario, bonus: nat, b: Branch, after: Scenario) {
    && (after.id, after.priority, after.depth) == (b.id, b.effective, sc.depth + 1)
    && before.bonus <= after.bonus && bonus <= after.bonus && (after.bonus == before.bonus || after.bonus == bonus)
  }

  ghost predicate Beaten(before: Scenario, bs: seq<Branch>, id: string) {
    exists k :: 0 <= k < |bs| && bs[k].id == id && before.priority < bs[k].effective
  }

  /** The best branch takes over the pending scenario if it is of higher priority. */
  ghost predicate TakenOver(before: Scenario, sc: Scenario, bs: seq<Branch>, bonus: nat, id: string, after: Scenario) {
    if Beaten(before, bs, id) then exists k: nat :: Tops(bs, id, 0, k) && Upgraded(before, sc, bonus, bs[k], after)
    else after == before
  }

  lemma BeatenOneMore(before: Scenario, bs: seq<Branch>, b: Branch, id: string)
    ensures Beaten(before, bs + [b], id) <==> Beaten(before, bs, id) || (b.id == id && before.priority < b.effective)
  {
    assert forall j :: 0 <= j < |bs| ==> (bs + [b])[j] == bs[j];
    assert (bs + [b])[|bs|] == b;
  }

  lemma TakenOverGrows(before: Scenario, sc: Scenario, bs: seq<Branch>, bonus: nat, id: string, b: Branch,
                       now: Scenario, after: Scenario)
    requires TakenOver(before, sc, bs, bonus, id, now)
    requires if b.id == id && now.priority < b.effective then Upgraded(now, sc, bonus, b, after) else after == now
    ensures TakenOver(before, sc, bs + [b], bonus, id, after)
  {
    BeatenOneMore(before, bs, b, id);
    if Beaten(before, bs, id) {
      var k: nat :| Tops(bs, id, 0, k) && Upgraded(before, sc, bonus, bs[k], now);
      TopsGrows(bs, b, id, 0, k);
    } else if b.id == id && before.priority < b.effective {
      assert forall j :: 0 <= j < |bs| ==> (bs + [b])[j] == bs[j];
      assert Tops(bs + [b], id, 0, |bs|);
    }
  }

  lemma {:induction false} PushedPending(c: Config, f: View, sc: Scenario, bs: seq<Branch>, bonus: nat, id: string)
    requires id in f.pending && id !in f.explored && Inherits(c, sc, bonus)
    ensures var g := PushAll(c, f, sc, bs);
            g.explored == f.explored && id in g.pending && TakenOver(f.pending[id], sc, bs, bonus, id, g.pending[id])
  {
    if bs != [] {
      var front, b := bs[..|bs| - 1], bs[|bs| - 1];
      assert bs == front + [b];
      PushedPending(c, f, sc, front, bonus, id);
      TakenOverGrows(f.pending[id], sc, front, bonus, id, b,
                     PushAll(c, f, sc, front).pending[id], PushAll(c, f, sc, bs).pending[id]);
    }
  }

  /** A branch to a scenario neither pending nor explored: after the completion it is pending if and only if a branch of
      that id passes the gates and the parent's depth and one is within the cap plus the bonus it inherits; then it
      carries that bonus. */
  lemma FreshFollowOn(c: Config, s: State, i: nat, bs: seq<Branch>, raise: bool, bonus: nat, id: string)
    requires Inv(c, s) && Enabled(c, s, Complete(i, bs, raise)) && Inherits(c, s.inFlight[i].scenario, bonus)
    requires id !in s.frontier.pending && id !in s.frontier.explored && id != s.inFlight[i].scenario.id
    ensures var sc := s.inFlight[i].scenario;
            var pending := Next(c, s, Complete(i, bs, raise)).frontier.pending;
            && (id in pending <==> sc.depth + 1 <= s.frontier.maxDepth + bonus && Proposed(bs, id))
            && (id in pending ==> Born(c, sc, bs, bonus, id, pending[id]))
  {
    PushedFresh(c, s.frontier, s.inFlight[i].scenario, bs, bonus, id);
  }

  /** A branch to a pending scenario: it takes it over if and only if it is of higher priority, whatever its depth. */
  lemma KnownFollowOn(c: Config, s: State, i: nat, bs: seq<Branch>, raise: bool, bonus: nat, id: string)
    requires Inv(c, s) && Enabled(c, s, Complete(i, bs, raise)) && Inherits(c, s.inFlight[i].scenario, bonus)
    requires id in s.frontier.pending && id != s.inFlight[i].scenario.id
    ensures var sc, before := s.inFlight[i].scenario, s.frontier.pending[id];
            var pending := Next(c, s, Complete(i, bs, raise)).frontier.pending;
            id in pending && TakenOver(before, sc, bs, bonus, id, pending[id])
  {
    PushedPending(c, s.frontier, s.inFlight[i].scenario, bs, bonus, id);
  }

  /** When the loop resumes it holds the unfinished tasks in their order. */
  lemma {:induction false} UnfinishedTells(ts: seq<Task>, given: Task -> Option<Task>)
    requires forall t :: given(t) == if t.phase.Finished? then None else Some(t)
    ensures Collects(Unfinished(ts), ts, given)
  {
    if ts != [] {
      UnfinishedTells(ts[..|ts| - 1], given);
      CollectsNext(Unfinished(ts[..|ts| - 1]), ts, given, Unfinished(ts));
    }
  }

  /** Everything else a completion does: the scenario is explored and no longer pending, no explored one comes back, and
      the depth cap opens if and only if asked to. */
  lemma CompletionMarks(c: Config, s: State, i: nat, bs: seq<Branch>, raise: bool)
    requires Inv(c, s) && Enabled(c, s, Complete(i, bs, raise))
    ensures var sc, t := s.inFlight[i].scenario, Next(c, s, Complete(i, bs, raise));
            && t.frontier.explored == s.frontier.explored + {sc.id}
            && t.frontier.maxDepth == (if raise then c.maxDepth else s.frontier.maxDepth)
            && (forall id :: id in t.frontier.explored ==> id !in t.frontier.pending)
            && t.completed == s.completed + [sc] && t.inFlight == s.inFlight[i := Task(sc, Finished)]
            && (t.mode, t.popped, t.skipped) == (s.mode, s.popped, s.skipped)
  {
    NextKeepsInv(c, s, Complete(i, bs, raise));
    assert s.inFlight[i] in s.inFlight;
    PushAllModest(c, s.frontier, s.inFlight[i].scenario, bs);
  }
}
