/** What holds of the cluster between two phases of a run: the planner's simulation is a
    lower bound of the live nodegroup versions, and equals them when nothing else was
    in flight. */
module RunState {
  import opened GoStrings
  import opened Versions
  import opened AddonVersions
  import opened AddonOrder
  import opened Eks
  import opened Planner
  import opened Simulation
  import opened Progress
  import opened ControlPlanePhase
  import opened NodegroupPhase
  import opened AddonPhase
  import opened Planning

  /** The planned nodegroups with their simulated versions when hop k starts. */
  function SimStates(inp: PlanInput, k: nat): (states: seq<NodegroupState>)
    requires Plannable(inp) && k <= |Hops(inp)|
    ensures |states| == |inp.nodes|
    ensures forall i :: 0 <= i < |states| ==>
      states[i] == NodegroupState(inp.nodes[i].name, Simulated(inp, k, inp.nodes[i]), inp.nodes[i].customAmi)
  {
    seq(|inp.nodes|, i requires 0 <= i < |inp.nodes| =>
      NodegroupState(inp.nodes[i].name, Simulated(inp, k, inp.nodes[i]), inp.nodes[i].customAmi))
  }

  /** The minor of hop k. */
  function HopTo(inp: PlanInput, k: nat): int
    requires Plannable(inp) && k < |Hops(inp)|
  {
    HopMinor(inp, k);
    Minor(Hops(inp)[k])
  }

  /** The least minor the control plane is at when phase i of a hop starts. */
  function ControlPlaneFloor(inp: PlanInput, k: nat, moved: bool): int
    requires Plannable(inp) && k < |Hops(inp)|
  {
    if moved then HopTo(inp, k) else if k == 0 then Minor(inp.cp) else HopTo(inp, k - 1)
  }

  /** The nodegroups at a hop boundary. */
  ghost predicate NodesAt(inp: PlanInput, k: nat, nodes: map<string, Nodegroup>, exact: bool)
    requires Plannable(inp) && k <= |Hops(inp)|
  {
    && NodesSnapshot(SimStates(inp, k), nodes)
    && NoBlindRolls(nodes) && ReadableIn(SimStates(inp, k), nodes)
    && (exact ==> NodesExact(SimStates(inp, k), nodes) && NodesQuiet(nodes))
  }

  /** The state during hop k; `moved` says whether the control-plane phase is over. */
  ghost predicate InHop(inp: PlanInput, k: nat, moved: bool, w: World, exact: bool)
    requires Plannable(inp) && k < |Hops(inp)|
  {
    && NodesAt(inp, k, w.nodes, exact)
    && AddonsSnapshot(inp.addons, w.addons)
    && Parses(w.cp) && Minor(w.cp) >= ControlPlaneFloor(inp, k, moved)
    && Reach(w) <= HopTo(inp, k) + 1
    && AllPendingUpTo(w.nodes, Hops(inp)[k])
  }

  // ---- the start ----

  lemma HopStarts(inp: PlanInput, w: World, exact: bool)
    requires WellFormed(inp) && ReadFrom(inp, w) && NoBlindRolls(w.nodes) && ReadableIn(inp.nodes, w.nodes)
    requires exact ==> NodesExact(inp.nodes, w.nodes) && NodesQuiet(w.nodes)
    ensures InHop(inp, 0, false, w, exact)
  {
    HopMinor(inp, 0);
    assert SimStates(inp, 0) == inp.nodes;
  }

  // ---- the control plane ----

  /** A nodegroup at or above its simulated version is within reach of an unblocked hop. */
  lemma NodeIsWithinReach(inp: PlanInput, k: nat, i: nat, n: Nodegroup)
    requires WellFormed(inp) && k < |Hops(inp)| && i < |inp.nodes| && !ViolatesAt(inp, k, i)
    requires NoOlder(n.version, Simulated(inp, k, inp.nodes[i]))
    requires Parses(n.version) ==> Parses(Simulated(inp, k, inp.nodes[i]))
    requires n.pending.Some? ==> Parses(n.version)
    ensures Reachable(n, HopTo(inp, k))
  {
    HopMinor(inp, k);
    SimulatedIsSim(inp, k, i);
  }

  /** The control-plane phase of a hop the plan does not block may run. */
  lemma ControlPlaneMayMove(inp: PlanInput, k: nat, w: World, exact: bool)
    requires WellFormed(inp) && k < |Hops(inp)| && InHop(inp, k, false, w, exact)
    requires forall i :: 0 <= i < |inp.nodes| ==> !ViolatesAt(inp, k, i)
    requires !VersionAtLeast(inp.cp, Hops(inp)[k])
    ensures MayMove(w, Hops(inp)[k])
  {
    var states := SimStates(inp, k);
    HopMinor(inp, k);
    forall n | n in w.nodes ensures Reachable(w.nodes[n], HopTo(inp, k)) {
      var i :| 0 <= i < |states| && states[i].name == n;
      assert !ViolatesAt(inp, k, i) && NoOlder(w.nodes[n].version, states[i].version);
      NodeIsWithinReach(inp, k, i, w.nodes[n]);
    }
    if k > 0 { assert HopTo(inp, k - 1) == HopTo(inp, k) - 1; }
  }

  lemma NodesAtLater(inp: PlanInput, k: nat, a: World, b: map<string, Nodegroup>, exact: bool)
    requires Plannable(inp) && k <= |Hops(inp)| && NodesAt(inp, k, a.nodes, exact)
    requires NodesLater(a.nodes, b) && NodesForward(a.nodes, b)
    ensures NodesAt(inp, k, b, exact)
  {
    NodesSnapshotForward(SimStates(inp, k), a.nodes, b);
    if exact { StillExact(SimStates(inp, k), a.nodes, b); }
    ReadableLater(SimStates(inp, k), a.nodes, b);
  }

  lemma PendingUpToLater(a: map<string, Nodegroup>, b: map<string, Nodegroup>, target: string)
    requires AllPendingUpTo(a, target) && NodesLater(a, b)
    ensures AllPendingUpTo(b, target)
  {
    forall n | n in b ensures PendingUpTo(b[n], target) {
      assert PendingUpTo(a[n], target) && NodegroupLater(a[n], b[n]);
    }
  }

  lemma AfterControlPlane(inp: PlanInput, k: nat, a: World, b: World, exact: bool)
    requires WellFormed(inp) && k < |Hops(inp)| && InHop(inp, k, false, a, exact)
    requires NodesLater(a.nodes, b.nodes) && Forward(a, b) && VersionAtLeast(b.cp, Hops(inp)[k])
    requires Reach(b) <= Reach(a) || Reach(b) <= HopTo(inp, k)
    ensures InHop(inp, k, true, b, exact)
  {
    HopMinor(inp, k);
    NodesAtLater(inp, k, a, b.nodes, exact);
    AddonsSnapshotForward(inp.addons, a.addons, b.addons);
    PendingUpToLater(a.nodes, b.nodes, Hops(inp)[k]);
  }

  lemma ControlPlaneSkipped(inp: PlanInput, k: nat, w: World, exact: bool)
    requires WellFormed(inp) && k < |Hops(inp)| && InHop(inp, k, false, w, exact)
    requires VersionAtLeast(inp.cp, Hops(inp)[k])
    ensures InHop(inp, k, true, w, exact)
  {
    HopMinor(inp, k);
  }

  // ---- the addons ----

  lemma AfterAddons(inp: PlanInput, k: nat, a: World, b: World, exact: bool)
    requires WellFormed(inp) && k < |Hops(inp)| && InHop(inp, k, true, a, exact)
    requires Orderly(a) && ControlPlaneLater(a, b) && NodesLater(a.nodes, b.nodes)
    requires AddonsForward(a.addons, b.addons)
    ensures InHop(inp, k, true, b, exact)
  {
    ControlPlaneLaterIsForward(a, b);
    NodesLaterIsForward(a, b.nodes);
    NodesAtLater(inp, k, a, b.nodes, exact);
    AddonsSnapshotForward(inp.addons, a.addons, b.addons);
    PendingUpToLater(a.nodes, b.nodes, Hops(inp)[k]);
  }

  lemma AddonSkipped(a: AddonSummary, lookup: Option<string>, options: PlanOptions, addons: map<string, Addon>,
                     catalog: Catalog, hop: string)
    requires a.name in addons && CompareVersions(addons[a.name].version, a.version) >= 0
    requires lookup.Some? ==> HasVersions(catalog, a.name, hop) && lookup.value == NewestFor(catalog, a.name, hop)
    requires !Matches(a.name, options.skipAddons)
    requires AddonPlanStep(a, lookup, options).status == Completed
    ensures AtNewest(addons, catalog, a.name, hop)
  {
    CompareTransitive(addons[a.name].version, a.version, NewestFor(catalog, a.name, hop));
  }

  /** The plan has no addon work in hop k and is not blocked there: nothing that is not skipped
      is behind the newest version for the hop. */
  lemma AddonsSkipped(inp: PlanInput, k: nat, w: World, catalog: Catalog)
    requires WellFormed(inp) && k < |Hops(inp)| && CatalogAgrees(inp, catalog)
    requires AddonsSnapshot(inp.addons, w.addons)
    requires forall j :: 0 <= j < |inp.addons| && !Matches(inp.addons[j].name, inp.options.skipAddons) ==>
      AddonPlanStep(inp.addons[j], inp.lookups[k][j], inp.options).status == Completed
    ensures AllAtNewest(w.addons, catalog, Hops(inp)[k], inp.options.skipAddons)
  {
    assert LookupsAgree(inp.addons, inp.lookups[k], catalog, Hops(inp)[k]);
    forall a | a in w.addons && !Matches(a, inp.options.skipAddons)
      ensures AtNewest(w.addons, catalog, a, Hops(inp)[k])
    {
      var j :| 0 <= j < |inp.addons| && inp.addons[j].name == a;
      AddonSkipped(inp.addons[j], inp.lookups[k][j], inp.options, w.addons, catalog, Hops(inp)[k]);
    }
  }

  lemma AllAtNewestForward(a: map<string, Addon>, b: map<string, Addon>, catalog: Catalog, hop: string,
                      skip: seq<string>)
    requires AllAtNewest(a, catalog, hop, skip) && AddonsForward(a, b)
    ensures AllAtNewest(b, catalog, hop, skip)
  {
    forall n | n in b && !Matches(n, skip) ensures AtNewest(b, catalog, n, hop) {
      AtNewestForward(a, b, catalog, n, hop);
    }
  }

  // ---- the nodegroups ----

  lemma NodesMayRoll(inp: PlanInput, k: nat, w: World, exact: bool)
    requires WellFormed(inp) && k < |Hops(inp)| && InHop(inp, k, true, w, exact)
    ensures MayRoll(w, Hops(inp)[k])
  {
    HopMinor(inp, k);
  }

  /** The simulation takes the same step as the phase. */
  lemma SimulatedStep(inp: PlanInput, k: nat, ng: NodegroupState)
    requires WellFormed(inp) && k < |Hops(inp)|
    ensures Simulated(inp, k + 1, ng)
         == if Rollable(ng.name, ng.customAmi, inp.options) && !VersionAtLeast(Simulated(inp, k, ng), Hops(inp)[k])
            then Hops(inp)[k] else Simulated(inp, k, ng)
  {
    HopMinor(inp, k);
  }

  lemma NodeAfterRolls(inp: PlanInput, k: nat, ng: NodegroupState, a: Nodegroup, b: Nodegroup, exact: bool)
    requires WellFormed(inp) && k < |Hops(inp)|
    requires ng.customAmi == a.customAmi && NoOlder(a.version, Simulated(inp, k, ng))
    requires Dealt(a, b, Rollable(ng.name, a.customAmi, inp.options), Hops(inp)[k], true, true)
    requires a.pending.Some? ==> Parses(a.version)
    requires Parses(a.version) ==> Parses(Simulated(inp, k, ng))
    requires exact ==> a.version == Simulated(inp, k, ng) && a.pending.None?
    ensures b.customAmi == ng.customAmi && NoOlder(b.version, Simulated(inp, k + 1, ng))
    ensures b.pending.Some? ==> Parses(b.version)
    ensures Parses(b.version) ==> Parses(Simulated(inp, k + 1, ng))
    ensures exact ==> b.version == Simulated(inp, k + 1, ng) && b.pending.None?
  {
    SimulatedStep(inp, k, ng);
    NoOlderTransitive(b.version, a.version, Simulated(inp, k, ng));
  }

  /** What NodesAt says of one nodegroup. */
  ghost predicate NodeAt(s: NodegroupState, nodes: map<string, Nodegroup>, exact: bool) {
    && s.name in nodes && nodes[s.name].customAmi == s.customAmi
    && NoOlder(nodes[s.name].version, s.version)
    && (nodes[s.name].pending.Some? ==> Parses(nodes[s.name].version))
    && (Parses(nodes[s.name].version) ==> Parses(s.version))
    && (exact ==> nodes[s.name].version == s.version && nodes[s.name].pending.None?)
  }

  lemma NodesAtEach(inp: PlanInput, k: nat, nodes: map<string, Nodegroup>, exact: bool, i: nat)
    requires Plannable(inp) && k <= |Hops(inp)| && NodesAt(inp, k, nodes, exact) && i < |inp.nodes|
    ensures NodeAt(SimStates(inp, k)[i], nodes, exact)
  {
    hide Simulated, NoOlder, Parses, Hops, DistinctNames;
    assert SimStates(inp, k)[i].name in nodes;
  }

  lemma AfterNodesAt(inp: PlanInput, k: nat, a: map<string, Nodegroup>, b: map<string, Nodegroup>, exact: bool, i: nat)
    requires WellFormed(inp) && k < |Hops(inp)| && NodesAt(inp, k, a, exact) && i < |inp.nodes|
    requires NodesDealt(a, b, inp.options, Hops(inp)[k], true, true)
    ensures NodeAt(SimStates(inp, k + 1)[i], b, exact)
  {
    hide Simulated, NodesAt, NoOlder, Dealt, Rollable, Hops, Parses;
    var ng := inp.nodes[i];
    NodesAtEach(inp, k, a, exact, i);
    assert Dealt(a[ng.name], b[ng.name], RollableNow(ng.name, a[ng.name], inp.options), Hops(inp)[k], true, true);
    NodeAfterRolls(inp, k, ng, a[ng.name], b[ng.name], exact);
  }

  lemma NodesAtFromEach(inp: PlanInput, k: nat, nodes: map<string, Nodegroup>, exact: bool)
    requires Plannable(inp) && k <= |Hops(inp)|
    requires var states := SimStates(inp, k);
      DistinctNames(states) && Covers(states, nodes) && forall i :: 0 <= i < |states| ==>
        NodeAt(states[i], nodes, exact)
    ensures NodesAt(inp, k, nodes, exact)
  {
    var states := SimStates(inp, k);
    forall n | n in nodes
      ensures nodes[n].pending.Some? ==> Parses(nodes[n].version)
      ensures exact ==> nodes[n].pending.None?
    {
      var i :| 0 <= i < |states| && states[i].name == n;
      assert NodeAt(states[i], nodes, exact);
    }
    forall i | 0 <= i < |states| ensures NodeAt(states[i], nodes, exact) {}
  }

  lemma AfterNodes(inp: PlanInput, k: nat, a: map<string, Nodegroup>, b: map<string, Nodegroup>, exact: bool)
    requires WellFormed(inp) && k < |Hops(inp)| && NodesAt(inp, k, a, exact)
    requires NodesDealt(a, b, inp.options, Hops(inp)[k], true, true)
    ensures NodesAt(inp, k + 1, b, exact)
  {
    hide Simulated, NodeAt, Hops, NoBlindRolls, ReadableIn, NodesExact, NodesQuiet, Dealt;
    var after := SimStates(inp, k + 1);
    NodesCovered(SimStates(inp, k), after, a, b);
    forall i | 0 <= i < |after| ensures NodeAt(after[i], b, exact) {
      AfterNodesAt(inp, k, a, b, exact, i);
    }
    NodesAtFromEach(inp, k + 1, b, exact);
  }

  lemma NodesCovered(before: seq<NodegroupState>, after: seq<NodegroupState>, a: map<string, Nodegroup>,
                     b: map<string, Nodegroup>)
    requires NodesSnapshot(before, a) && a.Keys == b.Keys && |before| == |after|
    requires forall i :: 0 <= i < |before| ==> before[i].name == after[i].name
    ensures Covers(after, b) && DistinctNames(after)
  {
    forall n | n in b ensures exists i :: 0 <= i < |after| && after[i].name == n {
      var i :| 0 <= i < |before| && before[i].name == n;
      assert after[i].name == n;
    }
  }

  lemma NodesSkipped(inp: PlanInput, k: nat, nodes: map<string, Nodegroup>, exact: bool)
    requires WellFormed(inp) && k < |Hops(inp)| && NodesAt(inp, k, nodes, exact)
    requires forall i :: 0 <= i < |inp.nodes| ==>
      NodegroupPlanStep(inp.nodes[i], Hops(inp)[k], inp.options).status != Pending
    ensures NodesAt(inp, k + 1, nodes, exact)
  {
    forall i | 0 <= i < |inp.nodes| ensures SimStates(inp, k + 1)[i] == SimStates(inp, k)[i] {
      assert NodegroupPlanStep(inp.nodes[i], Hops(inp)[k], inp.options).status != Pending;
      if k > 0 { HopMinor(inp, k); }
    }
    assert SimStates(inp, k + 1) == SimStates(inp, k);
  }

  /** From the end of one hop to the start of the next. */
  lemma NextHop(inp: PlanInput, k: nat, w: World, exact: bool)
    requires WellFormed(inp) && k + 1 < |Hops(inp)|
    requires NodesAt(inp, k + 1, w.nodes, exact) && AddonsSnapshot(inp.addons, w.addons)
    requires Parses(w.cp) && VersionAtLeast(w.cp, Hops(inp)[k])
    requires Reach(w) <= HopTo(inp, k) + 1 && AllPendingUpTo(w.nodes, Hops(inp)[k])
    ensures InHop(inp, k + 1, false, w, exact)
  {
    HopMinor(inp, k);
    HopMinor(inp, k + 1);
    PendingUpToNewer(w.nodes, Hops(inp)[k], Hops(inp)[k + 1]);
  }

  lemma PendingUpToNewer(nodes: map<string, Nodegroup>, a: string, b: string)
    requires AllPendingUpTo(nodes, a) && VersionAtLeast(b, a)
    ensures AllPendingUpTo(nodes, b)
  {
    forall n | n in nodes ensures PendingUpTo(nodes[n], b) {
      assert PendingUpTo(nodes[n], a);
    }
  }

  // ---- the end ----

  /** The goal of an upgrade: control plane and rollable nodegroups at the target or newer, and
      no addon that is not skipped behind the newest version for `hop`. */
  ghost predicate Converged(w: World, target: string, hop: string, options: PlanOptions, catalog: Catalog) {
    && VersionAtLeast(w.cp, target)
    && (forall n :: n in w.nodes && Rollable(n, w.nodes[n].customAmi, options) ==>
      VersionAtLeast(w.nodes[n].version, target))
    && AllAtNewest(w.addons, catalog, hop, options.skipAddons)
  }

  lemma SimulatedAtEnd(inp: PlanInput, ng: NodegroupState)
    requires WellFormed(inp)
    ensures Rollable(ng.name, ng.customAmi, inp.options) ==> VersionAtLeast(Simulated(inp, |Hops(inp)|, ng), inp.target)
  {
    hide Hops, Rollable;
    HopMinor(inp, |Hops(inp)| - 1);
  }

  lemma RunConverged(inp: PlanInput, w: World, exact: bool, catalog: Catalog)
    requires WellFormed(inp) && NodesAt(inp, |Hops(inp)|, w.nodes, exact)
    requires VersionAtLeast(w.cp, LastHop(inp)) && AllAtNewest(w.addons, catalog, LastHop(inp), inp.options.skipAddons)
    ensures Converged(w, inp.target, LastHop(inp), inp.options, catalog)
  {
    hide Hops, Rollable, NodesAt, AllAtNewest, MinorVersion;
    HopMinor(inp, |Hops(inp)| - 1);
    forall n | n in w.nodes && Rollable(n, w.nodes[n].customAmi, inp.options)
      ensures VersionAtLeast(w.nodes[n].version, inp.target)
    {
      NodeConverged(inp, w, exact, n);
    }
  }

  lemma NodeConverged(inp: PlanInput, w: World, exact: bool, n: string)
    requires WellFormed(inp) && NodesAt(inp, |Hops(inp)|, w.nodes, exact)
    requires n in w.nodes && Rollable(n, w.nodes[n].customAmi, inp.options)
    ensures VersionAtLeast(w.nodes[n].version, inp.target)
  {
    hide Hops, Rollable, Simulated, NoBlindRolls, ReadableIn, NodesExact, NodesQuiet, DistinctNames, MinorVersion;
    var states := SimStates(inp, |Hops(inp)|);
    var i :| 0 <= i < |states| && states[i].name == n;
    SimulatedAtEnd(inp, inp.nodes[i]);
    assert NoOlder(w.nodes[n].version, states[i].version);
  }
}
