/** Concrete clusters: the assumptions of a run can be met, a resume can be blocked, and what goes
    wrong without each assumption of the results about runs and reruns. */
module Scenarios {
  import opened GoStrings
  import opened Versions
  import opened AddonVersions
  import opened AddonOrder
  import opened Eks
  import opened Planner
  import opened Simulation
  import opened Progress
  import opened AddonPhase
  import opened Planning
  import opened RunState
  import opened Engine
  import opened Upgrade

  /** A cluster with one nodegroup and no addons. */
  function Cluster(cp: int, workers: Nodegroup): World {
    World(Release(cp), ClusterActive, None, map["workers" := workers], map[])
  }

  /** A nodegroup with no roll in flight. */
  function Idle(version: string): Nodegroup { Nodegroup(version, false, NodegroupActive, 0, None) }

  /** What planning reads of it when insights are unavailable. */
  function Workers(cp: int, target: int, version: string): PlanInput
    requires cp <= target
  {
    var hops := if cp < target then target - cp else 1;
    PlanInput(Release(cp), Release(target), PlanOptions([], []), [NodegroupState("workers", version, false)], [],
              seq(hops, _ => None), seq(hops, _ => []))
  }

  /** The control plane is asked for a version and reaches it. */
  function Move(w: World, m: int): World {
    Step(Accept(ControlPlaneRequest(Release(m), w)), ControlPlaneFinishes)
  }

  lemma ReadableRelease(m: int)
    requires 0 <= m <= 100
    ensures Parses(Release(m)) && Minor(Release(m)) == m
  {
    ReleaseMinor(m);
  }

  lemma Unreadable()
    ensures !Parses("")
  {}

  lemma WorkersBlocked(cp: int, target: int, version: string)
    requires 0 <= cp <= target <= 100
    ensures WellFormed(Workers(cp, target, version))
    ensures SkewBlocked(Workers(cp, target, version)) <==>
              Parses(version) && (if cp < target then cp + 1 else cp) - Minor(version) > KUBELET_SKEW
  {
    hide Release, Parses, Minor;
    var inp := Workers(cp, target, version);
    ReadableRelease(cp);
    ReadableRelease(target);
    SkewBlockedIff(inp);
    assert Rollable(inp.nodes[0].name, inp.nodes[0].customAmi, inp.options);
    assert TooOld(inp, inp.nodes[0]) <==>
      Parses(version) && MustReach(inp, inp.nodes[0]) - Minor(version) > KUBELET_SKEW;
  }

  lemma WorkersHops(cp: int, target: int, version: string)
    requires 0 <= cp < target <= 100
    ensures Plannable(Workers(cp, target, version)) && |Hops(Workers(cp, target, version))| == target - cp
    ensures forall k :: 0 <= k < target - cp ==> Hops(Workers(cp, target, version))[k] == Release(cp + 1 + k)
  {
    hide Release, Parses, Minor;
    ReadableRelease(cp);
    ReadableRelease(target);
  }

  /** Moving one minor up is orderly exactly when the nodegroup, or its roll, is within reach. */
  lemma MoveUp(cp: int, workers: Nodegroup)
    requires 0 <= cp < 100
    ensures OrderlyRequest(ControlPlaneRequest(Release(cp + 1), Cluster(cp, workers))) <==> Reachable(workers, cp + 1)
    ensures Move(Cluster(cp, workers), cp + 1) == Cluster(cp + 1, workers)
  {
    hide Release, Parses, Minor, Reachable;
    var nodes := Cluster(cp, workers).nodes;
    ReadableRelease(cp);
    ReadableRelease(cp + 1);
    assert SkewAt(nodes, cp + 1) <==> Reachable(nodes["workers"], cp + 1);
  }

  lemma ClusterIsRead(cp: int, target: int, version: string)
    requires 0 <= cp <= target <= 100
    ensures var inp, w := Workers(cp, target, version), Cluster(cp, Idle(version));
      && Consistent(w) && Orderly(w) && NoBlindRolls(w.nodes)
      && ReadFrom(inp, w) && Quiet(inp, w) && ReadableIn(inp.nodes, w.nodes)
  {
    hide Release, Parses, Minor, CompareVersions;
    var inp, w := Workers(cp, target, version), Cluster(cp, Idle(version));
    ReadableRelease(cp);
    assert inp.nodes == [NodegroupState("workers", version, false)];
    assert inp.nodes[0].name == "workers";
    assert NodesSnapshot(inp.nodes, w.nodes) && AddonsSnapshot(inp.addons, w.addons);
  }

  lemma WorkersAsk(cp: int, target: int, version: string, catalog: Catalog)
    requires 0 <= cp < target <= 100
    ensures var inp := Workers(cp, target, version);
      && WellFormed(inp) && CatalogAgrees(inp, catalog) && inp.addons == []
      && (forall k :: 0 <= k < |Hops(inp)| ==> !InsightErrorAt(inp, k))
  {
    hide Release, Parses, Minor, HasError, NewestFor, HasVersions;
    WorkersBlocked(cp, target, version);
  }

  /** A run can start: nodes at 1.29 under a control plane at 1.31, on the way to 1.33. */
  lemma RunCanStart(catalog: Catalog)
    ensures var inp, w := Workers(31, 33, Release(29)), Cluster(31, Idle(Release(29)));
      && WellFormed(inp) && Consistent(w)
      && Underway(inp, BeforeMove(0), w, w, true, catalog, [], [w], 0)
  {
    hide InHop, At, Orderly, ReadFrom, NodesExact, NodesQuiet, NoBlindRolls, ReadableIn, SomeStep, PlanOf,
      SkewBlocked;
    var inp, w := Workers(31, 33, Release(29)), Cluster(31, Idle(Release(29)));
    ReadableRelease(29);
    WorkersBlocked(31, 33, Release(29));
    ClusterIsRead(31, 33, Release(29));
    WorkersAsk(31, 33, Release(29), catalog);
    BlockedIff(inp);
    Starts(PlanOf(inp), inp, w, true, catalog, [w]);
  }

  /** Resuming is not unconditional. With nodes at 1.29 and the control plane at 1.31, the plan to 1.33
      is not skew-blocked. Its first move is orderly and leaves the nodes within skew; a run that is
      interrupted there leaves a cluster whose plan to 1.33 is skew-blocked. */
  lemma ResumeCanBeBlocked()
    ensures var first, w := Workers(31, 33, Release(29)), Cluster(31, Idle(Release(29)));
      && WellFormed(first) && ReadFrom(first, w) && Quiet(first, w) && !SkewBlocked(first)
      && Hops(first)[0] == Release(32) && OrderlyRequest(ControlPlaneRequest(Release(32), w))
      && WithinSkew(Move(w, 32))
    ensures var rerun, w := Workers(32, 33, Release(29)), Move(Cluster(31, Idle(Release(29))), 32);
      && WellFormed(rerun) && ReadFrom(rerun, w) && Quiet(rerun, w) && SkewBlocked(rerun)
  {
    hide Release, Parses, Minor, Hops, Quiet, ReadFrom, SkewBlocked, OrderlyRequest, Move, Workers, WellFormed,
      Orderly, NoBlindRolls, ReadableIn, Consistent, Reachable;
    WithinReach(29, 32);
    WorkersBlocked(31, 33, Release(29));
    WorkersBlocked(32, 33, Release(29));
    WorkersHops(31, 33, Release(29));
    ClusterIsRead(31, 33, Release(29));
    ClusterIsRead(32, 33, Release(29));
    MoveUp(31, Idle(Release(29)));
  }

  lemma WithinReach(node: int, cp: int)
    requires 0 <= node <= cp <= 100
    ensures Parses(Release(node)) && Minor(Release(node)) == node
    ensures Reachable(Idle(Release(node)), cp) <==> cp - node <= KUBELET_SKEW
    ensures WithinSkew(Cluster(cp, Idle(Release(node)))) <==> cp - node <= KUBELET_SKEW
  {
    hide Release, MinorVersion;
    ReadableRelease(node);
    ReadableRelease(cp);
    assert Cluster(cp, Idle(Release(node))).nodes["workers"].version == Release(node);
  }

  // ---- without the assumptions of a run ----

  /** A roll without an update ID is not waited for. After the first hop of the same plan, with its roll
      accepted but still running, the next move takes the control plane out of the nodes' reach. */
  lemma NamelessRollBreaksSkew()
    ensures var plan, w := Workers(31, 33, Release(29)), Cluster(32, Idle(Release(29)));
      && WellFormed(plan) && !SkewBlocked(plan) && Hops(plan) == [Release(32), Release(33)]
      && w == Move(Cluster(31, Idle(Release(29))), 32)
      && OrderlyRequest(RollRequest("workers", Release(32), w))
      && !WithinSkew(Move(Accept(RollRequest("workers", Release(32), w)), 33))
  {
    hide Release, Parses, Minor, Hops, SkewBlocked, Workers, MinorVersion;
    ReadableRelease(29);
    ReadableRelease(32);
    ReadableRelease(33);
    WorkersBlocked(31, 33, Release(29));
    WorkersHops(31, 33, Release(29));
    MoveUp(31, Idle(Release(29)));
    var w := Accept(RollRequest("workers", Release(32), Cluster(32, Idle(Release(29)))));
    assert w.nodes["workers"].version == Move(w, 33).nodes["workers"].version == Release(29);
  }

  /** A nodegroup with an unreadable version on its way to 1.28. */
  function Blind(): Nodegroup { Idle("").(pending := Some(Release(28)), status := NodegroupUpdating) }

  /** An attempt that may roll an unreadable nodegroup must be the last. From an idle cluster at 1.28 such a
      roll is accepted; attempts to reach 1.32 are never skew-blocked, and each may move the control
      plane one minor up while the roll runs. When it ends during the last move, the control plane
      arrives four minors above the nodes. */
  lemma BlindRollBreaksSkew()
    ensures Orderly(Cluster(28, Idle(""))) && NoBlindRolls(Cluster(28, Idle("")).nodes)
    ensures var roll := RollRequest("workers", Release(28), Cluster(28, Idle("")));
      OrderlyRequest(roll) && Accept(roll) == Cluster(28, Blind())
    ensures forall cp :: 28 <= cp < 32 ==> WellFormed(Workers(cp, 32, "")) && !SkewBlocked(Workers(cp, 32, ""))
    ensures forall cp :: 28 <= cp < 31 ==>
      && OrderlyRequest(ControlPlaneRequest(Release(cp + 1), Cluster(cp, Blind())))
      && Move(Cluster(cp, Blind()), cp + 1) == Cluster(cp + 1, Blind())
    ensures var moving := Accept(ControlPlaneRequest(Release(32), Cluster(31, Blind())));
      !WithinSkew(Step(Step(moving, RollFinishes("workers")), ControlPlaneFinishes))
  {
    hide Release, Parses, Minor, SkewBlocked, Orderly, Move, Workers, WellFormed, OrderlyRequest, Reachable, WithinSkew;
    BlindRoll();
    ClusterIsRead(28, 32, "");
    forall cp | 28 <= cp < 32 ensures WellFormed(Workers(cp, 32, "")) && !SkewBlocked(Workers(cp, 32, "")) {
      WorkersBlocked(cp, 32, "");
    }
    forall cp | 28 <= cp < 31
      ensures OrderlyRequest(ControlPlaneRequest(Release(cp + 1), Cluster(cp, Blind())))
      ensures Move(Cluster(cp, Blind()), cp + 1) == Cluster(cp + 1, Blind())
    {
      MoveUp(cp, Blind());
    }
  }

  lemma BlindRoll()
    ensures !Parses("")
    ensures var roll := RollRequest("workers", Release(28), Cluster(28, Idle("")));
      OrderlyRequest(roll) && Accept(roll) == Cluster(28, Blind())
    ensures forall cp :: cp < 32 ==> Reachable(Blind(), cp)
    ensures var moving := Accept(ControlPlaneRequest(Release(32), Cluster(31, Blind())));
      !WithinSkew(Step(Step(moving, RollFinishes("workers")), ControlPlaneFinishes))
  {
    hide Release, MinorVersion;
    Unreadable();
    ReadableRelease(28);
    ReadableRelease(32);
    var moving := Accept(ControlPlaneRequest(Release(32), Cluster(31, Blind())));
    assert Step(Step(moving, RollFinishes("workers")), ControlPlaneFinishes).nodes["workers"].version == Release(28);
  }

  // ---- when a rerun after success has work ----

  /** A catalogue page with one version. */
  function Page(version: string): seq<AddonInfo> { [AddonInfo([AddonVersionInfo(version, [])])] }

  lemma PageNewest(version: string)
    ensures Flatten(Page(version)) == [AddonVersionInfo(version, [])] && Newest(Flatten(Page(version))) == version
  {
    NewestIsNewest(Flatten(Page(version)), AddonVersionInfo(version, []));
  }

  /** A converged cluster with one addon, and the plan that finds it at `read` while `newest` is offered. */
  function OneAddon(cp: string, version: string): World {
    World(cp, ClusterActive, None, map[], map["coredns" := Addon(version, AddonActive, 0, None)])
  }

  function Again(target: string, read: string, newest: string): PlanInput {
    PlanInput(target, target, PlanOptions([], []), [], [AddonSummary("coredns", read)], [None], [[Some(newest)]])
  }

  lemma AgainIsRead(target: string, read: string, version: string, newest: string, described: bool, catalog: Catalog)
    requires Parses(target) && (read == version || (read == "" && !described))
    requires catalog("coredns", target) == Page(newest)
    ensures var inp, w := Again(target, read, newest), OneAddon(target, version);
      && WellFormed(inp) && CatalogAgrees(inp, catalog) && ReadSince(inp, w, described)
      && (CompareVersions(read, newest) < 0 ==> SelectAll(PlanOf(inp).hops, IsWork) != [])
  {
    hide CompareVersions, Parses, Minor, Newest, Flatten, SelectAll, PlanOf;
    var inp := Again(target, read, newest);
    PageNewest(newest);
    EmptyIsOldest(version);
    assert Hops(inp) == [target];
    assert LookupsAgree(inp.addons, inp.lookups[0], catalog, target);
    assert AddonDone(inp, 0) <==> CompareVersions(read, newest) >= 0;
    NoWorkIff(inp);
  }

  lemma AddonConverged(target: string, hop: string, version: string, catalog: Catalog)
    requires Parses(target) && catalog("coredns", hop) == Page(version)
    ensures Converged(OneAddon(target, version), target, hop, PlanOptions([], []), catalog)
  {
    hide CompareVersions, Parses, Minor, Newest, Flatten;
    PageNewest(version);
    EmptyIsOldest(version);
  }

  /** An addon that could not be described shows up as work although the cluster has converged. */
  lemma UndescribedIsWork(catalog: Catalog)
    requires catalog("coredns", Release(33)) == Page("v1")
    ensures var target := Release(33);
      var inp, w := Again(target, "", "v1"), OneAddon(target, "v1");
      && WellFormed(inp) && CatalogAgrees(inp, catalog) && ReadSince(inp, w, false)
      && Converged(w, target, target, inp.options, catalog)
      && SelectAll(PlanOf(inp).hops, IsWork) != []
  {
    hide Release, Converged, ReadSince, CatalogAgrees, SelectAll, PlanOf;
    ReadableRelease(33);
    SmallVersions();
    AgainIsRead(Release(33), "", "v1", "v1", false, catalog);
    AddonConverged(Release(33), Release(33), "v1", catalog);
  }

  /** A target not written like the hops: a run from below converges on what is newest for the last hop,
      and the rerun looks the addons up for the target as typed. */
  lemma RespelledTargetIsWork(target: string, catalog: Catalog)
    requires Parses(target) && target != Release(Minor(target))
    requires catalog("coredns", Release(Minor(target))) == Page("v1") && catalog("coredns", target) == Page("v2")
    ensures var inp, w := Again(target, "v1", "v2"), OneAddon(target, "v1");
      && WellFormed(inp) && CatalogAgrees(inp, catalog) && ReadSince(inp, w, true)
      && Converged(w, target, Release(Minor(target)), inp.options, catalog)
      && SelectAll(PlanOf(inp).hops, IsWork) != []
  {
    hide Release, Converged, ReadSince, CatalogAgrees, SelectAll, PlanOf;
    SmallVersions();
    AgainIsRead(target, "v1", "v1", "v2", true, catalog);
    AddonConverged(target, Release(Minor(target)), "v1", catalog);
  }

  lemma SmallVersions()
    ensures CompareVersions("", "v1") < 0 && CompareVersions("v1", "v2") < 0
  {
    assert TrimSpace("v1") == "v1" && TrimSpace("v2") == "v2";
    assert "1"[1..] == "" && "2"[1..] == "" && RunLength("", IsSeparator) == 0;
    assert RunLength("1", IsSeparator) == 1 && RunLength("2", IsSeparator) == 1;
    assert "1"[..1] == "1" && "2"[..1] == "2" && FieldsFunc("", IsSeparator) == [];
    assert FieldsFunc("1", IsSeparator) == ["1"] && FieldsFunc("2", IsSeparator) == ["2"];
    assert Segments("v1") == ["1"] && Segments("v2") == ["2"] && Segments("") == [];
    assert "1"[..0] == [] && "2"[..0] == [];
    assert Atoi("1") == Some(1) && Atoi("2") == Some(2);
  }
}
