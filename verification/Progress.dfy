/** The one direction in which an orderly cluster moves: versions never go back. */
module Progress {
  import opened GoStrings
  import opened Versions
  import opened AddonVersions
  import opened AddonOrder
  import opened Eks
  import opened Planner
  import opened Simulation

  predicate NodesForward(a: map<string, Nodegroup>, b: map<string, Nodegroup>) {
    && a.Keys == b.Keys
    && forall n :: n in a ==> b[n].customAmi == a[n].customAmi && NoOlder(b[n].version, a[n].version)
  }

  predicate AddonsForward(a: map<string, Addon>, b: map<string, Addon>) {
    && a.Keys == b.Keys
    && forall n :: n in a ==> CompareVersions(b[n].version, a[n].version) >= 0
  }

  /** b is reached from a without any version going back. */
  predicate Forward(a: World, b: World) {
    NoOlder(b.cp, a.cp) && NodesForward(a.nodes, b.nodes) && AddonsForward(a.addons, b.addons)
  }

  /** The highest minor the control plane is at or on its way to. */
  function Reach(w: World): int {
    if w.cpPending.Some? && Parses(w.cpPending.value) then Minor(w.cpPending.value)
    else if Parses(w.cp) then Minor(w.cp) else 0
  }

  lemma ForwardTransitive(a: World, b: World, c: World)
    requires Forward(a, b) && Forward(b, c)
    ensures Forward(a, c)
  {
    forall n | n in a.nodes ensures NoOlder(c.nodes[n].version, a.nodes[n].version) {
      NoOlderTransitive(c.nodes[n].version, b.nodes[n].version, a.nodes[n].version);
    }
    forall n | n in a.addons ensures CompareVersions(c.addons[n].version, a.addons[n].version) >= 0 {
      CompareTransitive(c.addons[n].version, b.addons[n].version, a.addons[n].version);
    }
  }

  /** Time moves an orderly cluster forward and never raises the control plane's reach. */
  lemma LaterIsForward(a: World, b: World)
    requires Orderly(a) && Later(a, b)
    ensures Forward(a, b)
    ensures Parses(a.cp) ==> Reach(b) <= Reach(a)
  {
    forall n | n in a.nodes ensures NoOlder(b.nodes[n].version, a.nodes[n].version) {
      assert OrderlyNodegroup(a.nodes[n], a.cp) && NodegroupLater(a.nodes[n], b.nodes[n]);
    }
    forall n | n in a.addons ensures CompareVersions(b.addons[n].version, a.addons[n].version) >= 0 {
      assert OrderlyAddon(a.addons[n]) && AddonLater(a.addons[n], b.addons[n]);
      CompareFlip(a.addons[n].version, a.addons[n].version);
    }
  }

  lemma NodesLaterIsForward(a: World, b: map<string, Nodegroup>)
    requires Orderly(a) && NodesLater(a.nodes, b)
    ensures NodesForward(a.nodes, b)
  {
    forall n | n in a.nodes ensures NoOlder(b[n].version, a.nodes[n].version) {
      assert OrderlyNodegroup(a.nodes[n], a.cp) && NodegroupLater(a.nodes[n], b[n]);
    }
  }

  lemma ControlPlaneLaterIsForward(a: World, b: World)
    requires OrderlyControlPlane(a) && ControlPlaneLater(a, b) && Parses(a.cp)
    ensures Parses(b.cp) && Minor(b.cp) >= Minor(a.cp) && Reach(b) <= Reach(a)
  {}

  /** Time keeps a cluster orderly. */
  lemma LaterKeepsOrderly(a: World, b: World)
    requires Orderly(a) && Later(a, b)
    ensures Orderly(b)
  {
    hide MinorVersion;
    forall n | n in b.nodes ensures OrderlyNodegroup(b.nodes[n], b.cp) {
      assert OrderlyNodegroup(a.nodes[n], a.cp) && NodegroupLater(a.nodes[n], b.nodes[n]);
    }
    forall n | n in b.addons ensures OrderlyAddon(b.addons[n]) {
      assert OrderlyAddon(a.addons[n]) && AddonLater(a.addons[n], b.addons[n]);
    }
    if b.cpPending.Some? { SkewAtForward(a, b, Minor(b.cpPending.value)); }
  }

  lemma AcceptIsForward(r: Request)
    ensures Forward(r.seen, Accept(r))
  {
    forall n | n in r.seen.addons
      ensures CompareVersions(Accept(r).addons[n].version, r.seen.addons[n].version) >= 0
    {
      CompareFlip(r.seen.addons[n].version, r.seen.addons[n].version);
    }
  }

  lemma SkewAtForward(a: World, b: World, m: int)
    requires Orderly(a) && Later(a, b) && SkewAt(a.nodes, m)
    ensures SkewAt(b.nodes, m)
  {
    forall n | n in b.nodes ensures Reachable(b.nodes[n], m) {
      assert Reachable(a.nodes[n], m) && OrderlyNodegroup(a.nodes[n], a.cp) && NodegroupLater(a.nodes[n], b.nodes[n]);
    }
  }

  // ---- snapshots ----

  ghost predicate NodesSnapshot(nodes: seq<NodegroupState>, w: map<string, Nodegroup>) {
    && DistinctNames(nodes)
    && (forall i :: 0 <= i < |nodes| ==>
          && nodes[i].name in w && w[nodes[i].name].customAmi == nodes[i].customAmi
          && NoOlder(w[nodes[i].name].version, nodes[i].version))
    && (forall n :: n in w ==> exists i :: 0 <= i < |nodes| && nodes[i].name == n)
  }

  ghost predicate AddonsSnapshot(addons: seq<AddonSummary>, w: map<string, Addon>) {
    && (forall j :: 0 <= j < |addons| ==>
          addons[j].name in w && CompareVersions(w[addons[j].name].version, addons[j].version) >= 0)
    && (forall a :: a in w ==> exists j :: 0 <= j < |addons| && addons[j].name == a)
  }

  /** An addon listed with a version at or above that of an earlier moment. */
  predicate AddonSince(a: AddonSummary, earlier: map<string, Addon>) {
    a.name in earlier && CompareVersions(a.version, earlier[a.name].version) >= 0
  }

  /** Every listed addon is; or, unless all were described, it has no version. */
  ghost predicate AddonsSince(addons: seq<AddonSummary>, earlier: map<string, Addon>, described: bool) {
    forall j :: 0 <= j < |addons| ==> AddonSince(addons[j], earlier) || (!described && addons[j].version == "")
  }

  lemma NodesSnapshotForward(nodes: seq<NodegroupState>, a: map<string, Nodegroup>, b: map<string, Nodegroup>)
    requires NodesSnapshot(nodes, a) && NodesForward(a, b)
    ensures NodesSnapshot(nodes, b)
  {
    forall i | 0 <= i < |nodes| ensures NoOlder(b[nodes[i].name].version, nodes[i].version) {
      NoOlderTransitive(b[nodes[i].name].version, a[nodes[i].name].version, nodes[i].version);
    }
  }

  lemma AddonsSnapshotForward(addons: seq<AddonSummary>, a: map<string, Addon>, b: map<string, Addon>)
    requires AddonsSnapshot(addons, a) && AddonsForward(a, b)
    ensures AddonsSnapshot(addons, b)
  {
    forall j | 0 <= j < |addons| ensures CompareVersions(b[addons[j].name].version, addons[j].version) >= 0 {
      CompareTransitive(b[addons[j].name].version, a[addons[j].name].version, addons[j].version);
    }
  }
}
