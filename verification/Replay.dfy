/** The prediction event log and the view a client rebuilds from it (src/vaner/events/predictions.py). */
module Replay {
  import opened Common

  type Id = string

  datatype Readiness = Queued | Grounding | EvidenceGathering | Drafting | Ready | Stale

  datatype Facts = Facts(title: string, source: string, confidence: real, weight: real,
                         hypothesis: string, specificity: string)

  datatype Counts = Counts(tokensUsed: int, budget: int, scenariosComplete: int, evidence: real, modelCalls: int)

  datatype Body =
    | Enrolled(facts: Facts, budget: int)
    | ReadinessChanged(from: Readiness, to: Readiness)
    | Progress(counts: Counts)
    | ArtifactAdded(kind: string)
    | Staled

  datatype Event = Event(id: Id, ts: real, body: Body)

  datatype View = View(facts: Facts, counts: Counts, readiness: Readiness, kinds: set<string>, updatedAt: real)

  /** What a rebuilder holds: the predictions in the order first seen, and the view of each. */
  datatype Book = Book(order: seq<Id>, views: map<Id, View>)

  const Empty := Book([], map[])

  // ---------- One event ----------

  function Fresh(e: Event): View
    requires e.body.Enrolled?
  {
    View(e.body.facts, Counts(0, e.body.budget, 0, 0.0, 0), Queued, {}, e.ts)
  }

  function Absorb(v: View, e: Event): View
    requires !e.body.Enrolled?
  {
    var at := if v.updatedAt < e.ts then e.ts else v.updatedAt;
    match e.body
    case ReadinessChanged(_, to) => v.(updatedAt := at, readiness := to)
    case Progress(counts) => v.(updatedAt := at, counts := counts)
    case ArtifactAdded(kind) => v.(updatedAt := at, kinds := v.kinds + {kind})
    case Staled => v.(updatedAt := at, readiness := Stale)
  }

  function Next(o: Option<View>, e: Event): Option<View> {
    if e.body.Enrolled? then Some(Fresh(e)) else if o.None? then None else Some(Absorb(o.value, e))
  }

  function Lookup(b: Book, k: Id): Option<View> { if k in b.views then Some(b.views[k]) else None }

  function Applied(b: Book, e: Event): Book {
    var o := Next(Lookup(b, e.id), e);
    if o.None? then b
    else Book(if e.id in b.views then b.order else b.order + [e.id], b.views[e.id := o.value])
  }

  function Replayed(b: Book, es: seq<Event>): Book {
    if es == [] then b else Applied(Replayed(b, es[..|es| - 1]), es[|es| - 1])
  }

  function ActiveOf(b: Book, ks: seq<Id>): seq<Id> {
    if ks == [] then []
    else
      var rest, k := ActiveOf(b, ks[..|ks| - 1]), ks[|ks| - 1];
      if k in b.views && !b.views[k].readiness.Stale? then rest + [k] else rest
  }

  // ---------- The rebuilder ----------

  class SnapshotRebuilder {
    var order: seq<Id>
    var views: map<Id, View>

    ghost function Contents(): Book reads this { Book(order, views) }

    constructor ()
      ensures Contents() == Empty
    {
      order, views := [], map[];
    }

    method Apply(e: Event)
      modifies this
      ensures Contents() == Applied(old(Contents()), e)
    {
      if e.body.Enrolled? {
        if e.id !in views {
          order := order + [e.id];
        }
        views := views[e.id := View(e.body.facts, Counts(0, e.body.budget, 0, 0.0, 0), Queued, {}, e.ts)];
        return;
      }
      if e.id !in views {
        return;
      }
      var v := views[e.id];
      if v.updatedAt < e.ts {
        v := v.(updatedAt := e.ts);
      }
      match e.body {
        case ReadinessChanged(_, to) => v := v.(readiness := to);
        case Progress(counts) => v := v.(counts := counts);
        case ArtifactAdded(kind) => v := v.(kinds := v.kinds + {kind});
        case Staled => v := v.(readiness := Stale);
      }
      views := views[e.id := v];
    }

    method ApplyMany(es: seq<Event>)
      modifies this
      ensures Contents() == Replayed(old(Contents()), es)
    {
      for i := 0 to |es|
        invariant Contents() == Replayed(old(Contents()), es[..i])
      {
        assert es[..i + 1][..i] == es[..i];
        Apply(es[i]);
      }
      assert es[..|es|] == es;
    }

    /** The predictions not stale, in order. */
    method Active() returns (ks: seq<Id>)
      ensures ks == ActiveOf(Contents(), order)
    {
      ks := [];
      for i := 0 to |order|
        invariant ks == ActiveOf(Contents(), order[..i])
      {
        assert order[..i + 1][..i] == order[..i];
        if order[i] in views && !views[order[i]].readiness.Stale? {
          ks := ks + [order[i]];
        }
      }
      assert order[..|order|] == order;
    }
  }

  // ---------- What a replay means ----------

  /** The last event of prediction k in the log that satisfies p, or -1. */
  function LastOf(k: Id, es: seq<Event>, p: Body -> bool): (r: int)
    ensures -1 <= r < |es|
    ensures r >= 0 ==> es[r].id == k && p(es[r].body)
    ensures forall j :: r < j < |es| && es[j].id == k ==> !p(es[j].body)
  {
    if es == [] then -1
    else if es[|es| - 1].id == k && p(es[|es| - 1].body) then |es| - 1
    else
      var r := LastOf(k, es[..|es| - 1], p);
      assert forall j :: 0 <= j < |es| - 1 ==> es[..|es| - 1][j] == es[j];
      r
  }

  const Enrols := (b: Body) => b.Enrolled?
  const SetsReadiness := (b: Body) => b.ReadinessChanged? || b.Staled?
  const Counters := (b: Body) => b.Progress?

  /** The artefact kinds of k are those reported after position i. */
  ghost predicate KindsTold(k: Id, es: seq<Event>, i: nat, kinds: set<string>) {
    forall kind :: kind in kinds <==> exists j :: i < j < |es| && es[j].id == k && es[j].body == ArtifactAdded(kind)
  }

  /** t is the greatest time of k's events from position i on. */
  ghost predicate LatestTold(k: Id, es: seq<Event>, i: nat, t: real) {
    && (forall j :: i <= j < |es| && es[j].id == k ==> es[j].ts <= t)
    && (exists j :: i <= j < |es| && es[j].id == k && es[j].ts == t)
  }

  /** View v of prediction k is what the log says since position i, told without replaying anything. */
  ghost predicate Tells(k: Id, es: seq<Event>, i: int, v: View) {
    && 0 <= i < |es| && es[i].id == k && es[i].body.Enrolled?
    && v.facts == es[i].body.facts
    && (var r := LastOf(k, es, SetsReadiness);
        v.readiness == if r <= i then Queued else if es[r].body.Staled? then Stale else es[r].body.to)
    && (var p := LastOf(k, es, Counters);
        v.counts == if p <= i then Counts(0, es[i].body.budget, 0, 0.0, 0) else es[p].body.counts)
    && KindsTold(k, es, i, v.kinds)
    && LatestTold(k, es, i, v.updatedAt)
  }

  lemma LastGrows(k: Id, front: seq<Event>, e: Event, p: Body -> bool)
    ensures LastOf(k, front + [e], p) == if e.id == k && p(e.body) then |front| else LastOf(k, front, p)
  {
    assert (front + [e])[..|front|] == front;
  }

  lemma KindsGrow(k: Id, front: seq<Event>, e: Event, i: nat, kinds: set<string>)
    requires KindsTold(k, front, i, kinds) && i < |front|
    ensures KindsTold(k, front + [e], i, if e.id == k && e.body.ArtifactAdded? then kinds + {e.body.kind} else kinds)
  {
    var es, n := front + [e], |front|;
    assert es[n] == e;
    forall kind | kind in kinds
      ensures exists j :: i < j < |es| && es[j].id == k && es[j].body == ArtifactAdded(kind)
    {
      var j :| i < j < n && front[j].id == k && front[j].body == ArtifactAdded(kind);
      assert es[j] == front[j];
    }
    assert forall j :: i < j < n ==> es[j] == front[j];
  }

  lemma LatestGrows(k: Id, front: seq<Event>, e: Event, i: nat, t: real)
    requires LatestTold(k, front, i, t)
    ensures LatestTold(k, front + [e], i, if e.id == k && t < e.ts then e.ts else t)
  {
    var es, n := front + [e], |front|;
    assert es[n] == e;
    assert forall j :: 0 <= j < n ==> es[j] == front[j];
    var j :| i <= j < n && front[j].id == k && front[j].ts == t;
    assert es[j].id == k && es[j].ts == t;
  }

  /** The view after one more event that does not enrol k still tells the longer log. */
  lemma TellsGrows(k: Id, front: seq<Event>, e: Event, i: int, v: View)
    requires Tells(k, front, i, v)
    requires e.id != k || !e.body.Enrolled?
    ensures Tells(k, front + [e], i, if e.id == k then Absorb(v, e) else v)
  {
    LastGrows(k, front, e, SetsReadiness);
    LastGrows(k, front, e, Counters);
    KindsGrow(k, front, e, i, v.kinds);
    LatestGrows(k, front, e, i, v.updatedAt);
  }

  /** A replayed view is exactly what the log says from the prediction's last enrolment on;
      a prediction never enrolled has none. */
  lemma {:induction false} ReplayMeaning(k: Id, es: seq<Event>)
    ensures var i := LastOf(k, es, Enrols);
            var b := Replayed(Empty, es);
            if i < 0 then k !in b.views else k in b.views && Tells(k, es, i, b.views[k])
  {
    if es != [] {
      var n := |es| - 1;
      var front, e := es[..n], es[n];
      ReplayMeaning(k, front);
      assert es == front + [e];
      assert es[..n] == front;
      LastGrows(k, front, e, Enrols);
      if LastOf(k, front, Enrols) >= 0 && !(e.id == k && e.body.Enrolled?) {
        TellsGrows(k, front, e, LastOf(k, front, Enrols), Replayed(Empty, front).views[k]);
      }
    }
  }

  /** Where prediction k was enrolled for the first time, or -1. */
  function FirstOf(k: Id, es: seq<Event>): (r: int)
    ensures -1 <= r < |es|
    ensures r >= 0 ==> es[r].id == k && es[r].body.Enrolled?
    ensures forall j :: 0 <= j < |es| && (r < 0 || j < r) && es[j].id == k ==> !es[j].body.Enrolled?
  {
    if es == [] then -1
    else
      var n := |es| - 1;
      var r := FirstOf(k, es[..n]);
      assert forall j :: 0 <= j < n ==> es[..n][j] == es[j];
      if r >= 0 then r else if es[n].id == k && es[n].body.Enrolled? then n else -1
  }

  /** The predictions are listed in the order in which they were first enrolled, each once. */
  lemma {:induction false} OrderTells(es: seq<Event>)
    ensures var b := Replayed(Empty, es);
            && (forall k :: k in b.order <==> k in b.views) && (forall k :: k in b.order <==> FirstOf(k, es) >= 0)
            && (forall i, j :: 0 <= i < j < |b.order| ==> FirstOf(b.order[i], es) < FirstOf(b.order[j], es))
  {
    if es != [] {
      var n := |es| - 1;
      var before, after := Replayed(Empty, es[..n]), Replayed(Empty, es);
      OrderTells(es[..n]);
      forall k ensures FirstOf(k, es) == if FirstOf(k, es[..n]) >= 0 then FirstOf(k, es[..n])
                                         else if es[n].id == k && es[n].body.Enrolled? then n else -1 { }
      assert after.order == if es[n].body.Enrolled? && es[n].id !in before.views then before.order + [es[n].id] else before.order;
    }
  }

  /** The active predictions are those of the order that are not stale, in their order. */
  lemma {:induction false} ActiveTells(b: Book, ks: seq<Id>, given: Id -> Option<Id>)
    requires forall k :: given(k) == if k in b.views && !b.views[k].readiness.Stale? then Some(k) else None
    ensures Collects(ActiveOf(b, ks), ks, given)
  {
    if ks != [] {
      var front, k := ks[..|ks| - 1], ks[|ks| - 1];
      ActiveTells(b, front, given);
      CollectsNext(ActiveOf(b, front), ks, given, ActiveOf(b, ks));
    }
  }

  // ---------- Independence and composition ----------

  /** The events of prediction k, in order. */
  function Own(k: Id, es: seq<Event>): seq<Event> {
    if es == [] then []
    else
      var front, e := Own(k, es[..|es| - 1]), es[|es| - 1];
      if e.id == k then front + [e] else front
  }

  function Fold(o: Option<View>, es: seq<Event>): Option<View> {
    if es == [] then o else Next(Fold(o, es[..|es| - 1]), es[|es| - 1])
  }

  /** The view of k is decided by k's own events alone. */
  lemma {:induction false} ViewIsFold(b: Book, k: Id, es: seq<Event>)
    ensures Lookup(Replayed(b, es), k) == Fold(Lookup(b, k), Own(k, es))
  {
    if es != [] {
      var front, e := es[..|es| - 1], es[|es| - 1];
      ViewIsFold(b, k, front);
      if e.id == k {
        var own := Own(k, front);
        assert (own + [e])[..|own|] == own;
      }
    }
  }

  /** Events of different predictions commute: two logs that give every prediction the same events in the same
      order rebuild the same views, however they interleave. */
  lemma {:induction false} InterleavingsAgree(b: Book, es: seq<Event>, fs: seq<Event>)
    requires forall k :: Own(k, es) == Own(k, fs)
    ensures Replayed(b, es).views == Replayed(b, fs).views
  {
    var left, right := Replayed(b, es), Replayed(b, fs);
    forall k
      ensures Lookup(left, k) == Lookup(right, k)
    {
      assert Own(k, es) == Own(k, fs);
      ViewIsFold(b, k, es);
      ViewIsFold(b, k, fs);
    }
    assert forall k :: k in left.views <==> Lookup(left, k).Some?;
    assert forall k :: k in right.views <==> Lookup(right, k).Some?;
    assert forall k :: k in left.views ==> left.views[k] == Lookup(left, k).value;
  }

  /** Replaying a log in two parts is replaying it at once. */
  lemma {:induction false} ReplayComposes(b: Book, xs: seq<Event>, ys: seq<Event>)
    ensures Replayed(b, xs + ys) == Replayed(Replayed(b, xs), ys)
  {
    if ys == [] {
      assert xs + ys == xs;
    } else {
      var zs := xs + ys;
      assert zs[..|zs| - 1] == xs + ys[..|ys| - 1];
      ReplayComposes(b, xs, ys[..|ys| - 1]);
    }
  }

  /** Everything before a prediction's enrolment is forgotten: a part of a log that enrols k rebuilds the same
      view of k on top of any book. */
  lemma {:induction false} EnrolmentForgets(b: Book, c: Book, k: Id, es: seq<Event>)
    requires LastOf(k, es, Enrols) >= 0
    ensures Lookup(Replayed(b, es), k) == Lookup(Replayed(c, es), k) && k in Replayed(b, es).views
  {
    var front, e := es[..|es| - 1], es[|es| - 1];
    if !(e.id == k && e.body.Enrolled?) {
      EnrolmentForgets(b, c, k, front);
    }
  }

  /** A client that joins late knows exactly the predictions enrolled since it joined. */
  lemma LateJoinerKnows(before: seq<Event>, since: seq<Event>, k: Id)
    ensures k in Replayed(Empty, since).views <==> LastOf(k, since, Enrols) >= 0
    ensures k in Replayed(Empty, since).views ==>
            Lookup(Replayed(Empty, since), k) == Lookup(Replayed(Empty, before + since), k)
  {
    ReplayMeaning(k, since);
    ReplayComposes(Empty, before, since);
    if LastOf(k, since, Enrols) >= 0 {
      EnrolmentForgets(Empty, Replayed(Empty, before), k, since);
    }
  }
}
