/** Lifecycle events from successive snapshots of the nodes (internal/noderoll/tracker.go). */
module Tracker {
  /** The phases classify produces. */
  datatype Phase = Ready | Joining | Draining

  datatype EventKind = WentJoining | WentOnline | WentDraining | Terminated

  datatype Event = Event(node: string, kind: EventKind)

  datatype NodeView = NodeView(name: string, phase: Phase)

  /** eventForPhase. */
  function EventFor(p: Phase): EventKind {
    match p case Joining => WentJoining case Ready => WentOnline case Draining => WentDraining
  }

  function PhaseFor(k: EventKind): Phase
    requires k != Terminated
  {
    match k case WentJoining => Joining case WentOnline => Ready case WentDraining => Draining
  }

  ghost predicate DistinctNames(nodes: seq<NodeView>) {
    forall i, j :: 0 <= i < j < |nodes| ==> nodes[i].name != nodes[j].name
  }

  /** The phase of every node of a snapshot. */
  function Phases(nodes: seq<NodeView>): map<string, Phase> {
    if nodes == [] then map[]
    else Phases(nodes[..|nodes| - 1])[nodes[|nodes| - 1].name := nodes[|nodes| - 1].phase]
  }

  // ---- replaying events ----

  function Apply(m: map<string, Phase>, e: Event): map<string, Phase> {
    if e.kind == Terminated then m - {e.node} else m[e.node := PhaseFor(e.kind)]
  }

  function Replay(m: map<string, Phase>, events: seq<Event>): map<string, Phase> {
    if events == [] then m else Apply(Replay(m, events[..|events| - 1]), events[|events| - 1])
  }

  lemma {:induction false} ReplayAppend(m: map<string, Phase>, a: seq<Event>, b: seq<Event>)
    ensures Replay(m, a + b) == Replay(Replay(m, a), b)
  {
    if b == [] {
      assert a + b == a;
    } else {
      assert (a + b)[..|a + b| - 1] == a + b[..|b| - 1];
      ReplayAppend(m, a, b[..|b| - 1]);
    }
  }

  lemma {:induction false} PhasesKeys(nodes: seq<NodeView>)
    ensures Phases(nodes).Keys == set i | 0 <= i < |nodes| :: nodes[i].name
  {
    if nodes != [] {
      var init := nodes[..|nodes| - 1];
      PhasesKeys(init);
      assert (set i | 0 <= i < |nodes| :: nodes[i].name)
          == (set i | 0 <= i < |init| :: init[i].name) + {nodes[|nodes| - 1].name};
    }
  }

  /** The map says of every node of the snapshot what the snapshot says. */
  lemma {:induction false} PhasesAt(nodes: seq<NodeView>, i: nat)
    requires DistinctNames(nodes) && i < |nodes|
    ensures nodes[i].name in Phases(nodes) && Phases(nodes)[nodes[i].name] == nodes[i].phase
  {
    if i < |nodes| - 1 { PhasesAt(nodes[..|nodes| - 1], i); }
  }

  // ---- one diff ----

  predicate Differs(prev: map<string, Phase>, n: NodeView) {
    n.name !in prev || prev[n.name] != n.phase
  }

  /** The events of the nodes that appeared or changed, in snapshot order. */
  function Changed(prev: map<string, Phase>, nodes: seq<NodeView>): seq<Event> {
    if nodes == [] then []
    else
      var n := nodes[|nodes| - 1];
      var before := Changed(prev, nodes[..|nodes| - 1]);
      if Differs(prev, n) then before + [Event(n.name, EventFor(n.phase))] else before
  }

  ghost function NodesOf(events: seq<Event>): set<string> { set i | 0 <= i < |events| :: events[i].node }

  /** One termination for every node that disappeared, in any order. */
  ghost predicate AllGone(gone: seq<Event>, names: set<string>) {
    && (forall i, j :: 0 <= i < j < |gone| ==> gone[i].node != gone[j].node)
    && (forall i :: 0 <= i < |gone| ==> gone[i].kind == Terminated)
    && NodesOf(gone) == names
  }

  /** The events one snapshot adds to those before it: a node that neither appeared, changed nor
      disappeared has none. */
  ghost predicate IsDiff(prev: map<string, Phase>, nodes: seq<NodeView>, events: seq<Event>, gone: seq<Event>) {
    events == Changed(prev, nodes) + gone && AllGone(gone, prev.Keys - Phases(nodes).Keys)
  }

  lemma {:induction false} ReplayChanged(prev: map<string, Phase>, nodes: seq<NodeView>)
    requires DistinctNames(nodes)
    ensures Replay(prev, Changed(prev, nodes)) == prev + Phases(nodes)
  {
    hide Replay, DistinctNames;
    if nodes == [] {
      ReplayNone(prev);
    } else {
      var init, n := nodes[..|nodes| - 1], nodes[|nodes| - 1];
      InitDistinct(nodes);
      ReplayChanged(prev, init);
      var before := prev + Phases(init);
      assert prev + Phases(nodes) == before[n.name := n.phase];
      if Differs(prev, n) {
        var e := Event(n.name, EventFor(n.phase));
        OneMoreReplayed(prev, Changed(prev, init), e);
        assert Apply(before, e) == before[n.name := n.phase];
      } else {
        assert before[n.name := n.phase] == before;
      }
    }
  }

  lemma InitDistinct(nodes: seq<NodeView>)
    requires DistinctNames(nodes) && nodes != []
    ensures DistinctNames(nodes[..|nodes| - 1]) && nodes[|nodes| - 1].name !in Phases(nodes[..|nodes| - 1])
  {
    PhasesKeys(nodes[..|nodes| - 1]);
  }

  lemma OneMoreReplayed(m: map<string, Phase>, events: seq<Event>, e: Event)
    ensures Replay(m, events + [e]) == Apply(Replay(m, events), e)
  {
    assert (events + [e])[..|events|] == events;
  }

  lemma NodesOfStep(events: seq<Event>, e: Event)
    ensures NodesOf(events + [e]) == NodesOf(events) + {e.node}
  {
    var more := events + [e];
    forall n | n in NodesOf(events) + {e.node} ensures n in NodesOf(more) {
      if n == e.node {
        assert more[|events|].node == n;
      } else {
        var i :| 0 <= i < |events| && events[i].node == n;
        assert more[i].node == n;
      }
    }
  }

  lemma {:induction false} ReplayGone(m: map<string, Phase>, gone: seq<Event>)
    requires forall i :: 0 <= i < |gone| ==> gone[i].kind == Terminated
    ensures Replay(m, gone) == m - NodesOf(gone)
  {
    if gone != [] {
      var init, last := gone[..|gone| - 1], gone[|gone| - 1];
      ReplayGone(m, init);
      NodesOfStep(init, last);
      assert gone == init + [last];
      assert m - NodesOf(init) - {last.node} == m - (NodesOf(init) + {last.node});
    }
  }

  ghost predicate Explains(prev: map<string, Phase>, n: NodeView, e: Event) {
    Differs(prev, n) && e == Event(n.name, EventFor(n.phase))
  }

  lemma {:induction false} ChangedIff(prev: map<string, Phase>, nodes: seq<NodeView>, e: Event)
    ensures e in Changed(prev, nodes) <==> exists i :: 0 <= i < |nodes| && Explains(prev, nodes[i], e)
  {
    if nodes != [] {
      var init := nodes[..|nodes| - 1];
      ChangedIff(prev, init, e);
      if i :| 0 <= i < |nodes| && Explains(prev, nodes[i], e) {
        if i < |init| { assert Explains(prev, init[i], e); }
      }
    }
  }

  lemma GoneIff(gone: seq<Event>, names: set<string>, e: Event)
    requires AllGone(gone, names)
    ensures e in gone <==> e.kind == Terminated && e.node in names
  {
    assert e.node in names ==> e.node in NodesOf(gone);
    if i :| 0 <= i < |gone| && gone[i] == e { assert gone[i].node in NodesOf(gone); }
  }

  /** JOINING, ONLINE and DRAINING announce a node that joins, is ready, drains. */
  predicate Announces(k: EventKind, p: Phase) {
    (k == WentJoining && p == Joining) || (k == WentOnline && p == Ready) || (k == WentDraining && p == Draining)
  }

  /** There is an event exactly for the nodes that appeared or changed, with their new phase, and
      for those that disappeared: unchanged nodes have none. */
  lemma DiffIff(prev: map<string, Phase>, nodes: seq<NodeView>, events: seq<Event>, gone: seq<Event>, e: Event)
    requires IsDiff(prev, nodes, events, gone)
    ensures e in events <==>
      if e.kind == Terminated then e.node in prev && e.node !in Phases(nodes)
      else exists i :: 0 <= i < |nodes| && nodes[i].name == e.node && Announces(e.kind, nodes[i].phase)
                       && (e.node !in prev || prev[e.node] != nodes[i].phase)
  {
    hide AllGone, Phases, Changed;
    ChangedIff(prev, nodes, e);
    GoneIff(gone, prev.Keys - Phases(nodes).Keys, e);
    if i :| 0 <= i < |nodes| && nodes[i].name == e.node && Announces(e.kind, nodes[i].phase)
            && (e.node !in prev || prev[e.node] != nodes[i].phase)
    {
      assert Explains(prev, nodes[i], e);
    }
  }

  /** Replaying the events of a snapshot over the previous phases gives its phases, whatever order
      the disappeared nodes were visited in. */
  lemma ReplayDiff(prev: map<string, Phase>, nodes: seq<NodeView>, events: seq<Event>, gone: seq<Event>)
    requires DistinctNames(nodes) && IsDiff(prev, nodes, events, gone)
    ensures Replay(prev, events) == Phases(nodes)
  {
    hide Changed, Replay, DistinctNames, Phases;
    var cur := Phases(nodes);
    ReplayChanged(prev, nodes);
    ReplayAppend(prev, Changed(prev, nodes), gone);
    ReplayGone(prev + cur, gone);
    assert (prev + cur) - (prev.Keys - cur.Keys) == cur;
  }

  function Concat(batches: seq<seq<Event>>): seq<Event> {
    if batches == [] then [] else Concat(batches[..|batches| - 1]) + batches[|batches| - 1]
  }

  /** The round trip over any run: the events of all snapshots after the first, replayed over the
      first, give the phases of the last. */
  lemma {:induction false} ReplayRun(snapshots: seq<seq<NodeView>>, batches: seq<seq<Event>>, gone: seq<seq<Event>>)
    requires |snapshots| == |batches| + 1 == |gone| + 1
    requires forall k :: 0 <= k < |snapshots| ==> DistinctNames(snapshots[k])
    requires forall k {:trigger batches[k]} :: 0 <= k < |batches| ==>
      IsDiff(Phases(snapshots[k]), snapshots[k + 1], batches[k], gone[k])
    ensures Replay(Phases(snapshots[0]), Concat(batches)) == Phases(snapshots[|batches|])
  {
    if batches != [] {
      var n := |batches| - 1;
      ReplayRun(snapshots[..n + 1], batches[..n], gone[..n]);
      ReplayAppend(Phases(snapshots[0]), Concat(batches[..n]), batches[n]);
      ReplayDiff(Phases(snapshots[n]), snapshots[n + 1], batches[n], gone[n]);
    }
  }

  // ---- the tracker ----

  class Tracker {
    var prev: map<string, Phase>
    var seeded: bool
    var events: seq<Event>
    /** The phases of the first snapshot. */
    ghost var baseline: map<string, Phase>

    constructor ()
      ensures Valid() && !seeded && events == []
    {
      prev, seeded, events, baseline := map[], false, [], map[];
    }

    /** The events, replayed over the first snapshot, give the latest one. */
    ghost predicate Valid()
      reads this
    {
      if seeded then Replay(baseline, events) == prev else events == [] && prev == map[]
    }

    /** Observe. */
    method Observe(nodes: seq<NodeView>) returns (ghost gone: seq<Event>)
      requires Valid() && DistinctNames(nodes)
      modifies this
      ensures Valid() && seeded && prev == Phases(nodes)
      ensures !old(seeded) ==> baseline == Phases(nodes) && events == []
      ensures old(seeded) ==> baseline == old(baseline) && old(events) <= events
      ensures old(seeded) ==> IsDiff(old(prev), nodes, events[|old(events)|..], gone)
    {
      hide Phases, Changed, DistinctNames, Replay, AllGone;
      gone := [];
      var cur := PhasesOf(nodes);
      if !seeded {
        prev, seeded, baseline := cur, true, cur;
        ReplayNone(baseline);
        return;
      }
      var changed := Appeared(nodes);
      events := events + changed;
      gone := Disappeared(cur);
      assert events == old(events) + (changed + gone);
      prev := cur;
      ReplayAppend(baseline, old(events), changed + gone);
      ReplayDiff(old(prev), nodes, changed + gone, gone);
    }

    /** The events of the nodes that appeared or changed phase. */
    method Appeared(nodes: seq<NodeView>) returns (changed: seq<Event>)
      ensures changed == Changed(prev, nodes)
    {
      changed := [];
      for i := 0 to |nodes|
        invariant changed == Changed(prev, nodes[..i])
      {
        assert nodes[..i + 1][..i] == nodes[..i];
        var n := nodes[i];
        if n.name in prev && prev[n.name] == n.phase {
          continue;
        }
        changed := changed + [Event(n.name, EventFor(n.phase))];
      }
      assert nodes[..|nodes|] == nodes;
    }

    /** The terminations, in whatever order the map is iterated. */
    method Disappeared(cur: map<string, Phase>) returns (ghost gone: seq<Event>)
      modifies this`events
      ensures events == old(events) + gone && AllGone(gone, prev.Keys - cur.Keys)
    {
      hide AllGone;
      gone := [];
      NoneGone();
      var rest := prev.Keys;
      assert (prev.Keys - cur.Keys) - rest == {};
      while rest != {}
        invariant rest <= prev.Keys && events == old(events) + gone
        invariant AllGone(gone, (prev.Keys - cur.Keys) - rest)
        decreases rest
      {
        var name :| name in rest;
        if name !in cur {
          events := events + [Event(name, Terminated)];
          OneMoreGone(gone, (prev.Keys - cur.Keys) - rest, name);
          gone := gone + [Event(name, Terminated)];
        }
        if name in cur {
          assert (prev.Keys - cur.Keys) - (rest - {name}) == (prev.Keys - cur.Keys) - rest;
        } else {
          assert (prev.Keys - cur.Keys) - (rest - {name}) == (prev.Keys - cur.Keys) - rest + {name};
        }
        rest := rest - {name};
      }
      assert (prev.Keys - cur.Keys) - {} == prev.Keys - cur.Keys;
    }
  }

  /** The map of a snapshot's phases. */
  method PhasesOf(nodes: seq<NodeView>) returns (cur: map<string, Phase>)
    ensures cur == Phases(nodes)
  {
    cur := map[];
    for i := 0 to |nodes|
      invariant cur == Phases(nodes[..i])
    {
      assert nodes[..i + 1][..i] == nodes[..i];
      cur := cur[nodes[i].name := nodes[i].phase];
    }
    assert nodes[..|nodes|] == nodes;
  }

  lemma ReplayNone(m: map<string, Phase>)
    ensures Replay(m, []) == m
  {}

  lemma NoneGone()
    ensures AllGone([], {})
  {}

  lemma OneMoreGone(gone: seq<Event>, names: set<string>, name: string)
    requires AllGone(gone, names) && name !in names
    ensures AllGone(gone + [Event(name, Terminated)], names + {name})
  {
    NodesOfStep(gone, Event(name, Terminated));
    forall i | 0 <= i < |gone| ensures gone[i].node != name {
      assert gone[i].node in NodesOf(gone);
    }
  }
}
