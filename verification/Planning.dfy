/** Deriving the plan from the live cluster (internal/services/upgrade/plan.go). */
module Planning {
  import opened GoStrings
  import opened Versions
  import opened AddonVersions
  import opened AddonOrder
  import opened Eks
  import opened Planner
  import opened Simulation
  import opened Progress
  import opened NodegroupPhase
  import opened AddonPhase

  /** checkVersionOffered: only an explicit answer without the target is an error. */
  method CheckVersionOffered(eks: Client, target: string) returns (ok: bool)
    requires eks.Valid()
    modifies eks
    ensures eks.Waited()
    ensures !ok ==> eks.troubles > old(eks.troubles)
    ensures |eks.told| == |old(eks.told)| + 1
    ensures var answer := eks.told[|old(eks.told)|];
      answer.OfferedAnswer? && (ok <==> answer.offered.Err? || target in answer.offered.value)
  {
    var offered := eks.DescribeClusterVersions(target);
    return offered.Err? || target in offered.value;
  }

  /** The hop does not parse, or would leave a nodegroup behind the skew. */
  ghost predicate Skewed(hop: string, nodes: seq<NodegroupState>, sim: map<string, string>) {
    Parses(hop) ==> exists i :: 0 <= i < |nodes| && SkewViolation(nodes[i], sim, hop)
  }

  /** The answer about the insights of a hop holds an error. */
  predicate ToldOfError(a: Answer) {
    a.InsightsAnswer? && a.insights.Ok?
    && exists i :: 0 <= i < |a.insights.value| && a.insights.value[i].status == Some(InsightError)
  }

  /** Readiness is blocked by the skew, without asking; or an answer from index `from` on, about this hop,
      decided: it is blocked exactly when that answer holds an insight with status ERROR. */
  ghost predicate Decided(status: StepStatus, hop: string, skewed: bool, told: seq<Answer>, from: nat) {
    if skewed then status == Blocked
    else exists j :: from <= j < |told| && DecidedBy(status, hop, told[j])
  }

  predicate DecidedBy(status: StepStatus, hop: string, a: Answer) {
    a.InsightsAnswer? && a.version == hop && status == if ToldOfError(a) then Blocked else Pending
  }

  lemma IsDecided(status: StepStatus, hop: string, skewed: bool, told: seq<Answer>, from: nat)
    requires skewed ==> status == Blocked
    requires !skewed ==> from < |told| && DecidedBy(status, hop, told[from])
    ensures Decided(status, hop, skewed, told, from)
  {}

  lemma StillDecided(status: StepStatus, hop: string, skewed: bool, a: seq<Answer>, b: seq<Answer>, from: nat,
                     earlier: nat)
    requires Decided(status, hop, skewed, a, from) && a <= b && earlier <= from
    ensures Decided(status, hop, skewed, b, earlier)
  {
    if !skewed {
      var j :| from <= j < |a| && DecidedBy(status, hop, a[j]);
      assert b[j] == a[j];
    }
  }

  /** From index `from` on, only insights and addon versions were asked for. */
  ghost predicate OnlyLookups(told: seq<Answer>, from: nat) {
    forall k :: from <= k < |told| ==> told[k].InsightsAnswer? || told[k].AddonVersionsAnswer?
  }

  lemma NoLookups(told: seq<Answer>)
    ensures OnlyLookups(told, |told|)
  {}

  lemma MoreLookups(a: seq<Answer>, b: seq<Answer>, from: nat)
    requires a <= b && OnlyLookups(a, from) && OnlyLookups(b, |a|)
    ensures OnlyLookups(b, from)
  {
    forall k | from <= k < |b| ensures b[k].InsightsAnswer? || b[k].AddonVersionsAnswer? {
      if k < |a| { assert b[k] == a[k]; }
    }
  }

  /** readinessStep. Insights are only asked for when the skew check passes; unavailable ones
      do not block. */
  method ReadinessStep(eks: Client, hop: string, nodes: seq<NodegroupState>, sim: map<string, string>)
    returns (step: PlanStep, ghost insights: Option<seq<Insight>>)
    requires eks.Valid()
    modifies eks
    ensures eks.Waited()
    ensures step == PlanStep(Readiness, "", hop, ReadinessStatus(hop, nodes, sim, insights))
    ensures OnlyLookups(eks.told, |old(eks.told)|)
    ensures Skewed(hop, nodes, sim) ==> step.status == Blocked && eks.told == old(eks.told)
    ensures !Skewed(hop, nodes, sim) ==> |eks.told| == |old(eks.told)| + 1
    ensures !Skewed(hop, nodes, sim) ==>
      var answer := eks.told[|old(eks.told)|];
      && answer.InsightsAnswer? && answer.version == hop
      && insights == (if answer.insights.Ok? then Some(answer.insights.value) else None)
      && (step.status == Blocked <==>
            answer.insights.Ok?
            && exists i :: 0 <= i < |answer.insights.value| && answer.insights.value[i].status == Some(InsightError))
  {
    hide MinorVersion;
    insights := None;
    var blocked := PlanStep(Readiness, "", hop, Blocked);
    if !Parses(hop) {
      return blocked, insights;
    }
    var violations := SkewViolations(hop, nodes, sim);
    if violations != [] {
      return blocked, insights;
    }
    var answer := eks.ListInsights(hop);
    if answer.Err? {
      return PlanStep(Readiness, "", hop, Pending), insights;
    }
    insights := Some(answer.value);
    var errors := InsightErrors(answer.value);
    return if errors != [] then blocked else PlanStep(Readiness, "", hop, Pending), insights;
  }

  method SkewViolations(hop: string, nodes: seq<NodegroupState>, sim: map<string, string>) returns (r: seq<string>)
    requires Parses(hop)
    ensures r != [] <==> exists i :: 0 <= i < |nodes| && SkewViolation(nodes[i], sim, hop)
  {
    hide Minor, Parses;
    r := [];
    for i := 0 to |nodes|
      invariant r != [] <==> exists j :: 0 <= j < i && SkewViolation(nodes[j], sim, hop)
    {
      if SkewViolation(nodes[i], sim, hop) {
        r := r + [nodes[i].name];
      }
    }
  }

  method InsightErrors(insights: seq<Insight>) returns (r: seq<string>)
    ensures r != [] <==> HasError(insights)
  {
    r := [];
    for i := 0 to |insights|
      invariant r != [] <==> exists j :: 0 <= j < i && insights[j].status == Some(InsightError)
    {
      if insights[i].status == Some(InsightError) {
        r := r + [insights[i].name];
      }
    }
  }

  ghost predicate LookupsAgree(addons: seq<AddonSummary>, lookups: seq<Option<string>>, catalog: Catalog, hop: string) {
    && |lookups| == |addons|
    && forall j :: 0 <= j < |addons| && lookups[j].Some? ==>
         HasVersions(catalog, addons[j].name, hop) && lookups[j].value == NewestFor(catalog, addons[j].name, hop)
  }

  /** What the step for an addon says: manual when a non-empty pattern of the skip list is part of the name;
      otherwise an answer from index `from` on, about this addon and hop, decided: blocked when it is an
      error or lists nothing, else completed or pending as the listed newest version is not or is
      newer than the one read. */
  ghost predicate AddonDecided(step: PlanStep, a: AddonSummary, hop: string, options: PlanOptions, told: seq<Answer>,
                               from: nat)
  {
    && step.kind == AddonStep && step.target == a.name
    && if Matches(a.name, options.skipAddons) then step.status == Manual
       else exists j :: from <= j < |told| && AddonDecidedBy(step, a, hop, told[j])
  }

  predicate AddonDecidedBy(step: PlanStep, a: AddonSummary, hop: string, answer: Answer) {
    && answer.AddonVersionsAnswer? && answer.name == a.name && answer.version == hop
    && if answer.infos.Err? || Flatten(answer.infos.value) == [] then step.status == Blocked
       else
         && step.version == Newest(Flatten(answer.infos.value))
         && step.status == if CompareVersions(step.version, a.version) > 0 then Pending else Completed
  }

  ghost predicate AddonsDecided(steps: seq<PlanStep>, addons: seq<AddonSummary>, hop: string, options: PlanOptions,
                                told: seq<Answer>, from: nat)
  {
    |steps| == |addons| && forall i :: 0 <= i < |addons| ==> AddonDecided(steps[i], addons[i], hop, options, told, from)
  }

  lemma AddonStillDecided(step: PlanStep, a: AddonSummary, hop: string, options: PlanOptions, told: seq<Answer>,
                          more: seq<Answer>, from: nat, earlier: nat)
    requires AddonDecided(step, a, hop, options, told, from) && told <= more && earlier <= from
    ensures AddonDecided(step, a, hop, options, more, earlier)
  {
    hide AddonDecidedBy, Matches;
    if !Matches(a.name, options.skipAddons) {
      var j :| from <= j < |told| && AddonDecidedBy(step, a, hop, told[j]);
      assert more[j] == told[j];
    }
  }

  lemma OneMoreAddonDecided(steps: seq<PlanStep>, addons: seq<AddonSummary>, i: nat, hop: string, options: PlanOptions,
                            told: seq<Answer>, more: seq<Answer>, from: nat, step: PlanStep)
    requires i < |addons| && AddonsDecided(steps, addons[..i], hop, options, told, from) && told <= more
    requires from <= |told| && AddonDecided(step, addons[i], hop, options, more, |told|)
    ensures AddonsDecided(steps + [step], addons[..i + 1], hop, options, more, from)
  {
    hide AddonDecided;
    forall j | 0 <= j < i + 1 ensures AddonDecided((steps + [step])[j], addons[..i + 1][j], hop, options, more, from) {
      if j < i {
        assert addons[..i][j] == addons[j];
        AddonStillDecided(steps[j], addons[j], hop, options, told, more, from, from);
      } else {
        AddonStillDecided(step, addons[i], hop, options, more, more, |told|, from);
      }
    }
  }

  /** addonSteps. */
  method AddonStepsFor(eks: Client, addons: seq<AddonSummary>, hop: string, options: PlanOptions)
    returns (steps: seq<PlanStep>, ghost lookups: seq<Option<string>>)
    requires eks.Valid()
    modifies eks
    ensures eks.Waited()
    ensures LookupsAgree(addons, lookups, eks.catalog, hop) && steps == AddonSteps(addons, lookups, options)
    ensures AddonsDecided(steps, addons, hop, options, eks.told, |old(eks.told)|)
    ensures OnlyLookups(eks.told, |old(eks.told)|)
  {
    hide AddonDecided, OnlyLookups, MinorVersion;
    NoLookups(eks.told);
    steps, lookups := [], [];
    for i := 0 to |addons|
      invariant eks.Waited() && |steps| == i
      invariant AddonsDecided(steps, addons[..i], hop, options, eks.told, |old(eks.told)|)
      invariant OnlyLookups(eks.told, |old(eks.told)|)
      invariant AddonsPlanned(addons[..i], steps, lookups, eks.catalog, hop, options)
    {
      ghost var before, told := eks.w, eks.told;
      var step;
      ghost var lookup;
      step, lookup := StepForAddon(eks, addons[i], hop, options);
      MoreLookups(told, eks.told, |old(eks.told)|);
      OneMoreAddonDecided(steps, addons, i, hop, options, told, eks.told, |old(eks.told)|, step);
      LaterTransitive(old(eks.w), before, eks.w);
      OneMoreAddon(addons, i, steps, lookups, eks.catalog, hop, options, lookup);
      steps, lookups := steps + [step], lookups + [lookup];
    }
    assert addons[..|addons|] == addons;
  }

  ghost predicate AddonsPlanned(addons: seq<AddonSummary>, steps: seq<PlanStep>, lookups: seq<Option<string>>,
                                catalog: Catalog, hop: string, options: PlanOptions)
  {
    LookupsAgree(addons, lookups, catalog, hop) && steps == AddonSteps(addons, lookups, options)
  }

  lemma OneMoreAddon(addons: seq<AddonSummary>, i: nat, steps: seq<PlanStep>, lookups: seq<Option<string>>,
                     catalog: Catalog, hop: string, options: PlanOptions, lookup: Option<string>)
    requires i < |addons| && AddonsPlanned(addons[..i], steps, lookups, catalog, hop, options)
    requires lookup.Some? ==>
      HasVersions(catalog, addons[i].name, hop) && lookup.value == NewestFor(catalog, addons[i].name, hop)
    ensures AddonsPlanned(
      addons[..i + 1], steps + [AddonPlanStep(addons[i], lookup, options)], lookups + [lookup], catalog, hop, options)
  {
    hide CompareVersions, Matches;
    assert addons[..i + 1][..i] == addons[..i] && (lookups + [lookup])[..i] == lookups;
  }

  method StepForAddon(eks: Client, a: AddonSummary, hop: string, options: PlanOptions)
    returns (step: PlanStep, ghost lookup: Option<string>)
    requires eks.Valid()
    modifies eks
    ensures eks.Waited()
    ensures lookup.Some? ==>
      HasVersions(eks.catalog, a.name, hop) && lookup.value == NewestFor(eks.catalog, a.name, hop)
    ensures step == AddonPlanStep(a, lookup, options)
    ensures AddonDecided(step, a, hop, options, eks.told, |old(eks.told)|)
    ensures OnlyLookups(eks.told, |old(eks.told)|)
  {
    hide CompareVersions, Newest, Flatten;
    lookup := None;
    step := PlanStep(AddonStep, a.name, "", Manual);
    var skip := MatchesAny(a.name, options.skipAddons);
    if skip {
      return;
    }
    var chosen := LookUp(eks, a.name, hop);
    lookup := chosen;
    ghost var answer := eks.told[|old(eks.told)|];
    if chosen.None? {
      step := step.(status := Blocked);
      assert AddonDecidedBy(step, a, hop, answer);
    } else {
      CompareFlip(a.version, chosen.value);
      step := step.(version := chosen.value,
                    status := if CompareVersions(a.version, chosen.value) >= 0 then Completed else Pending);
      assert AddonDecidedBy(step, a, hop, answer);
    }
  }

  method StepForNodegroup(ng: NodegroupState, hop: string, options: PlanOptions) returns (step: PlanStep)
    ensures step == NodegroupPlanStep(ng, hop, options)
    ensures step.kind == NodegroupStep && step.target == ng.name && step.version == hop
    ensures step.status == Completed <==> Parses(ng.version) && Parses(hop) && Minor(ng.version) >= Minor(hop)
    ensures step.status == Manual <==>
      step.status != Completed && (ng.customAmi || Matches(ng.name, options.skipNodegroups))
    ensures step.status == Pending <==>
      step.status != Completed && !ng.customAmi && !Matches(ng.name, options.skipNodegroups)
  {
    step := PlanStep(NodegroupStep, ng.name, hop, Pending);
    if VersionAtLeast(ng.version, hop) {
      return step.(status := Completed);
    }
    var skip := MatchesAny(ng.name, options.skipNodegroups);
    if skip || ng.customAmi {
      return step.(status := Manual);
    }
  }

  /** nodegroupSteps. */
  method NodegroupStepsFor(nodes: seq<NodegroupState>, hop: string, options: PlanOptions) returns (steps: seq<PlanStep>)
    ensures steps == NodegroupSteps(nodes, hop, options)
  {
    steps := [];
    for i := 0 to |nodes|
      invariant steps == NodegroupSteps(nodes[..i], hop, options)
    {
      assert nodes[..i + 1][..i] == nodes[..i];
      var step := StepForNodegroup(nodes[i], hop, options);
      steps := steps + [step];
    }
    assert nodes[..|nodes|] == nodes;
  }

  /** Advancing the simulation after a hop. */
  method AdvanceSimulation(sim: map<string, string>, nodes: seq<NodegroupState>, hop: string, options: PlanOptions)
    returns (r: map<string, string>)
    ensures r == Advance(sim, nodes, hop, options)
  {
    r := sim;
    for i := 0 to |nodes|
      invariant r == Advance(sim, nodes[..i], hop, options)
    {
      assert nodes[..i + 1][..i] == nodes[..i];
      var ng := nodes[i];
      var skip := MatchesAny(ng.name, options.skipNodegroups);
      if !ng.customAmi && !skip && ng.name in r && !VersionAtLeast(r[ng.name], hop) {
        r := r[ng.name := hop];
      }
    }
    assert nodes[..|nodes|] == nodes;
  }

  method SnapshotOf(nodes: seq<NodegroupState>) returns (sim: map<string, string>)
    ensures sim == Snapshot(nodes)
  {
    sim := map[];
    for i := 0 to |nodes|
      invariant sim == Snapshot(nodes[..i])
    {
      assert nodes[..i + 1][..i] == nodes[..i];
      sim := sim[nodes[i].name := nodes[i].version];
    }
    assert nodes[..|nodes|] == nodes;
  }

  // ---- the plan ----

  /** The snapshot lags the cluster, never leads it: whatever planning read, the live versions
      are at or above it, and the control plane is at most one minor ahead. */
  ghost predicate ReadFrom(inp: PlanInput, w: World) {
    && NodesSnapshot(inp.nodes, w.nodes) && AddonsSnapshot(inp.addons, w.addons)
    && Parses(inp.cp) && NoOlder(w.cp, inp.cp) && Parses(w.cp)
    && Reach(w) <= Minor(inp.cp) + 1 && AllPendingUpTo(w.nodes, inp.cp)
  }

  /** No roll is in flight for a nodegroup whose version cannot be read. */
  ghost predicate NoBlindRolls(nodes: map<string, Nodegroup>) {
    forall n :: n in nodes && nodes[n].pending.Some? ==> Parses(nodes[n].version)
  }

  /** A nodegroup with a readable version was read with a readable version. */
  ghost predicate ReadableIn(nodes: seq<NodegroupState>, w: map<string, Nodegroup>) {
    forall i :: 0 <= i < |nodes| && nodes[i].name in w && Parses(w[nodes[i].name].version) ==> Parses(nodes[i].version)
  }

  lemma ReadableLater(nodes: seq<NodegroupState>, a: map<string, Nodegroup>, b: map<string, Nodegroup>)
    requires ReadableIn(nodes, a) && NoBlindRolls(a) && NodesLater(a, b)
    ensures ReadableIn(nodes, b) && NoBlindRolls(b)
  {
    forall n | n in b
      ensures Parses(b[n].version) ==> Parses(a[n].version)
      ensures b[n].pending.Some? ==> Parses(b[n].version)
    {
      assert NodegroupLater(a[n], b[n]);
    }
  }

  /** The versions read are at or above those of an earlier moment. */
  ghost predicate NodesSince(nodes: seq<NodegroupState>, a: map<string, Nodegroup>) {
    forall i :: 0 <= i < |nodes| ==>
      nodes[i].name in a && nodes[i].customAmi == a[nodes[i].name].customAmi
        && NoOlder(nodes[i].version, a[nodes[i].name].version)
  }

  ghost predicate NodesQuiet(nodes: map<string, Nodegroup>) {
    forall n :: n in nodes ==> nodes[n].pending.None?
  }

  /** The nodegroup versions the planner read are the live ones. */
  ghost predicate NodesExact(nodes: seq<NodegroupState>, w: map<string, Nodegroup>) {
    forall i :: 0 <= i < |nodes| ==> nodes[i].name in w && w[nodes[i].name].version == nodes[i].version
  }

  ghost predicate CatalogAgrees(inp: PlanInput, catalog: Catalog)
    requires Plannable(inp)
  {
    && |inp.lookups| == |Hops(inp)|
    && forall k :: 0 <= k < |Hops(inp)| ==> LookupsAgree(inp.addons, inp.lookups[k], catalog, Hops(inp)[k])
  }

  /** What a snapshot of the nodegroups and addons, read while the cluster went from w0 to w,
      says about them. `good`: the cluster was orderly. */
  ghost predicate Snapped(inp: PlanInput, w0: World, w: World, good: bool) {
    && (good ==> ReadFrom(inp, w))
    && (NodesQuiet(w0.nodes) ==> NodesExact(inp.nodes, w.nodes) && NodesQuiet(w.nodes))
    && (NoBlindRolls(w0.nodes) ==> ReadableIn(inp.nodes, w.nodes) && NoBlindRolls(w.nodes))
  }

  /** Nothing was read older than it was at an earlier moment; `described`: every addon could be described. */
  ghost predicate ReadSince(inp: PlanInput, w0: World, described: bool) {
    NoOlder(inp.cp, w0.cp) && NodesSince(inp.nodes, w0.nodes) && AddonsSince(inp.addons, w0.addons, described)
  }

  /** BuildPlan. The plan is the specified plan of what was read, and planning changes nothing; it fails
      only after trouble or when no chain of hops leads to the target. */
  method BuildPlan(eks: Client, target: string, options: PlanOptions) returns (r: Result<Plan>, ghost inp: PlanInput)
    requires eks.Valid()
    modifies eks
    ensures eks.Waited()
    ensures r.Ok? ==> WellFormed(inp) && inp.target == target && inp.options == options && r.value == PlanOf(inp)
    ensures r.Ok? ==> CatalogAgrees(inp, eks.catalog)
    ensures r.Ok? ==> HopsDecided(inp, r.value.hops, eks.told, |old(eks.told)|)
    ensures r.Ok? ==> Snapped(inp, old(eks.w), eks.w, old(eks.Sound()))
    ensures r.Ok? && old(eks.Sound()) ==> ReadSince(inp, old(eks.w), eks.troubles == old(eks.troubles))
    ensures r.Err? ==> eks.troubles > old(eks.troubles) || Unplannable(eks.history, |old(eks.history)| - 1, target)
    ensures Told(eks.told, |old(eks.told)|, target, r.Err?)
  {
    hide Told, OnlyLookups, Snapped, CatalogAgrees, HopsDecided, HopsBuilt, MinorVersion, Unplannable, PlanOf,
      Orderly, AddonsSince, NodesSince;
    ghost var good := eks.Sound();
    inp := PlanInput("", target, options, [], [], [], []);
    var read := ReadCluster(eks, target, options);
    if read.Err? {
      return Err, inp;
    }
    var snap := read.value;
    ghost var w1, troubles, told, read0 := eks.w, eks.troubles, |eks.told|, eks.told;
    var planned;
    ghost var insights, lookups;
    planned, insights, lookups := PlanHops(eks, snap);
    LaterTransitive(old(eks.w), w1, eks.w);
    LookupsDoNotStop(read0, eks.told, |old(eks.told)|, target);
    inp := snap.(insights := insights, lookups := lookups);
    SameDecided(snap, inp, planned, told, eks.told, |old(eks.told)|);
    AllHopsBuilt(snap, inp, planned, eks.catalog);
    StillSnapped(snap, inp, old(eks.w), w1, eks.w, good);
    if good {
      NotDescribed(inp.addons, old(eks.w.addons), troubles == old(eks.troubles), eks.troubles == old(eks.troubles));
    }
    return Ok(Plan(snap.cp, target, planned)), inp;
  }

  /** The loop over the hops, with the simulation advancing hop by hop. */
  method PlanHops(eks: Client, snap: PlanInput)
    returns (planned: seq<Hop>, ghost insights: seq<Option<seq<Insight>>>, ghost lookups: seq<seq<Option<string>>>)
    requires eks.Valid() && Plannable(snap)
    modifies eks
    ensures eks.Waited()
    ensures |planned| == |Hops(snap)| && HopsBuilt(snap, planned, insights, lookups, eks.catalog)
    ensures HopsDecided(snap, planned, eks.told, |old(eks.told)|)
    ensures OnlyLookups(eks.told, |old(eks.told)|)
  {
    hide OnlyLookups, MinorVersion;
    NoLookups(eks.told);
    hide MinorVersion;
    var hops := PlannedHops(snap);
    var sim := SnapshotOf(snap.nodes);
    planned, insights, lookups := [], [], [];
    for k := 0 to |hops|
      invariant eks.Waited()
      invariant sim == SimAt(snap, k)
      invariant |planned| == k && HopsBuilt(snap, planned, insights, lookups, eks.catalog)
      invariant HopsDecided(snap, planned, eks.told, |old(eks.told)|)
      invariant OnlyLookups(eks.told, |old(eks.told)|)
    {
      var hop;
      ghost var ins, lks;
      ghost var before, told := eks.w, eks.told;
      hop, ins, lks := PlanHop(eks, snap, k, hops[k], sim, if k == 0 then snap.cp else hops[k - 1]);
      LaterTransitive(old(eks.w), before, eks.w);
      OneMoreHop(snap, planned, insights, lookups, eks.catalog, hop, ins, lks);
      MoreLookups(told, eks.told, |old(eks.told)|);
      OneMoreDecided(snap, planned, hop, told, eks.told, |old(eks.told)|);
      planned, insights, lookups := planned + [hop], insights + [ins], lookups + [lks];
      sim := AdvanceSimulation(sim, snap.nodes, hops[k], snap.options);
      SimStep(snap, k);
    }
  }

  /** The readiness of every hop planned so far is the specified answer to the skew or to the insights. */
  ghost predicate HopsDecided(snap: PlanInput, planned: seq<Hop>, told: seq<Answer>, from: nat)
    requires Plannable(snap)
  {
    && |planned| <= |Hops(snap)|
    && forall k :: 0 <= k < |planned| ==> HopDecided(snap, k, planned[k], told, from)
  }

  ghost predicate HopDecided(snap: PlanInput, k: nat, hop: Hop, told: seq<Answer>, from: nat)
    requires Plannable(snap) && k < |Hops(snap)|
  {
    && |hop.steps| == 2 + |snap.addons| + |snap.nodes|
    && AddonsDecided(AddonPart(snap, hop), snap.addons, Hops(snap)[k], snap.options, told, from)
    && Decided(hop.steps[0].status, Hops(snap)[k], Skewed(Hops(snap)[k], snap.nodes, SimAt(snap, k)), told, from)
  }

  /** The addon steps of a hop. */
  function AddonPart(snap: PlanInput, hop: Hop): seq<PlanStep>
    requires |hop.steps| >= 2 + |snap.addons|
  {
    hop.steps[2..2 + |snap.addons|]
  }

  lemma AllStillDecided(steps: seq<PlanStep>, addons: seq<AddonSummary>, hop: string, options: PlanOptions,
                        told: seq<Answer>, more: seq<Answer>, from: nat, earlier: nat)
    requires AddonsDecided(steps, addons, hop, options, told, from) && told <= more && earlier <= from
    ensures AddonsDecided(steps, addons, hop, options, more, earlier)
  {
    hide AddonDecided;
    forall i | 0 <= i < |addons| ensures AddonDecided(steps[i], addons[i], hop, options, more, earlier) {
      AddonStillDecided(steps[i], addons[i], hop, options, told, more, from, earlier);
    }
  }

  lemma SameDecided(snap: PlanInput, inp: PlanInput, planned: seq<Hop>, later: nat, told: seq<Answer>, from: nat)
    requires Plannable(snap) && HopsDecided(snap, planned, told, later) && from <= later
    requires inp == snap.(insights := inp.insights, lookups := inp.lookups)
    ensures HopsDecided(inp, planned, told, from)
  {
    hide Decided, Skewed, HopsBetween, MinorVersion;
    forall k | 0 <= k < |planned| ensures HopDecided(inp, k, planned[k], told, from) {
      assert HopDecided(snap, k, planned[k], told, later);
      assert SimAt(inp, k) == SimAt(snap, k) && Hops(inp) == Hops(snap);
      AllStillDecided(AddonPart(snap, planned[k]), snap.addons, Hops(snap)[k], snap.options, told, told, later, from);
      StillDecided(planned[k].steps[0].status, Hops(inp)[k], Skewed(Hops(inp)[k], inp.nodes, SimAt(inp, k)), told, told,
                   later, from);
    }
  }

  lemma OneMoreDecided(snap: PlanInput, planned: seq<Hop>, hop: Hop, a: seq<Answer>, b: seq<Answer>, from: nat)
    requires Plannable(snap) && HopsDecided(snap, planned, a, from) && |planned| < |Hops(snap)| && a <= b
    requires from <= |a| && HopDecided(snap, |planned|, hop, b, |a|)
    ensures HopsDecided(snap, planned + [hop], b, from)
  {
    hide Decided, Skewed, SimAt, Hops, Plannable;
    forall k | 0 <= k <= |planned| ensures HopDecided(snap, k, (planned + [hop])[k], b, from) {
      var skewed := Skewed(Hops(snap)[k], snap.nodes, SimAt(snap, k));
      if k < |planned| {
        assert HopDecided(snap, k, planned[k], a, from);
        StillDecided(planned[k].steps[0].status, Hops(snap)[k], skewed, a, b, from, from);
        AllStillDecided(AddonPart(snap, planned[k]), snap.addons, Hops(snap)[k], snap.options, a, b, from, from);
      } else {
        AllStillDecided(AddonPart(snap, hop), snap.addons, Hops(snap)[k], snap.options, b, b, |a|, from);
        StillDecided(hop.steps[0].status, Hops(snap)[k], skewed, b, b, |a|, from);
      }
    }
  }

  ghost predicate HopBuilt(snap: PlanInput, k: nat, hop: Hop, insights: Option<seq<Insight>>,
                           lookups: seq<Option<string>>, catalog: Catalog)
    requires Plannable(snap) && k < |Hops(snap)|
  {
    LookupsAgree(snap.addons, lookups, catalog, Hops(snap)[k]) && hop == HopWith(snap, k, insights, lookups)
  }

  ghost predicate HopsBuilt(snap: PlanInput, planned: seq<Hop>, insights: seq<Option<seq<Insight>>>,
                            lookups: seq<seq<Option<string>>>, catalog: Catalog)
    requires Plannable(snap)
  {
    && |planned| == |insights| == |lookups| <= |Hops(snap)|
    && forall k {:trigger planned[k]} :: 0 <= k < |planned| ==>
      HopBuilt(snap, k, planned[k], insights[k], lookups[k], catalog)
  }

  lemma OneMoreHop(snap: PlanInput, planned: seq<Hop>, insights: seq<Option<seq<Insight>>>,
                   lookups: seq<seq<Option<string>>>, catalog: Catalog,
                   hop: Hop, ins: Option<seq<Insight>>, lks: seq<Option<string>>)
    requires Plannable(snap) && HopsBuilt(snap, planned, insights, lookups, catalog) && |planned| < |Hops(snap)|
    requires HopBuilt(snap, |planned|, hop, ins, lks, catalog)
    ensures HopsBuilt(snap, planned + [hop], insights + [ins], lookups + [lks], catalog)
  {
    hide HopBuilt, Hops, MinorVersion;
    var p, q, r := planned + [hop], insights + [ins], lookups + [lks];
    forall k | 0 <= k < |p| ensures HopBuilt(snap, k, p[k], q[k], r[k], catalog) {
      if k < |planned| {
        assert HopBuilt(snap, k, planned[k], insights[k], lookups[k], catalog);
        assert p[k] == planned[k] && q[k] == insights[k] && r[k] == lookups[k];
      }
    }
  }

  lemma HopMatches(snap: PlanInput, inp: PlanInput, k: nat)
    requires WellFormed(inp) && k < |Hops(inp)|
    requires inp == snap.(insights := inp.insights, lookups := inp.lookups)
    ensures HopWith(snap, k, inp.insights[k], inp.lookups[k]) == HopAt(inp, k)
  {
    assert SimAt(snap, k) == SimAt(inp, k);
  }

  lemma AllHopsBuilt(snap: PlanInput, inp: PlanInput, planned: seq<Hop>, catalog: Catalog)
    requires Plannable(snap) && DistinctNames(snap.nodes) && |planned| == |Hops(snap)|
    requires inp == snap.(insights := inp.insights, lookups := inp.lookups)
    requires HopsBuilt(snap, planned, inp.insights, inp.lookups, catalog)
    ensures WellFormed(inp) && CatalogAgrees(inp, catalog) && PlanOf(inp) == Plan(snap.cp, snap.target, planned)
  {
    forall k | 0 <= k < |inp.lookups| ensures |inp.lookups[k]| == |inp.addons| {
      assert HopBuilt(snap, k, planned[k], inp.insights[k], inp.lookups[k], catalog);
    }
    forall k | 0 <= k < |planned| ensures planned[k] == HopAt(inp, k) {
      assert HopBuilt(snap, k, planned[k], inp.insights[k], inp.lookups[k], catalog);
      HopMatches(snap, inp, k);
    }
    forall k | 0 <= k < |planned| ensures LookupsAgree(inp.addons, inp.lookups[k], catalog, Hops(inp)[k]) {
      assert HopBuilt(snap, k, planned[k], inp.insights[k], inp.lookups[k], catalog);
    }
  }

  /** A plan towards the target exists for a control plane at cp. */
  predicate CanPlan(cp: string, target: string) {
    Parses(cp) && Parses(target) && Minor(cp) <= Minor(target)
  }

  /** An answer at which planning stops: the cluster or a nodegroup cannot be described, no chain of hops leads
      to the target, the target is not among the versions offered, or a listing failed. */
  predicate StopsPlanning(a: Answer, target: string) {
    match a
    case ClusterAnswer(c) => c.Err? || !CanPlan(c.value.0, target)
    case OfferedAnswer(o) => o.Ok? && target !in o.value
    case NodegroupsAnswer(r) => r.Err?
    case NodegroupAnswer(_, r) => r.Err?
    case AddonsAnswer(r) => r.Err?
    case _ => false
  }

  /** No answer from index `from` on stops planning, or the last one does, according to `failed`. */
  ghost predicate Told(told: seq<Answer>, from: nat, target: string, failed: bool) {
    if failed then from < |told| && StopsPlanning(told[|told| - 1], target)
    else forall k :: from <= k < |told| ==> !StopsPlanning(told[k], target)
  }

  lemma NodegroupsDoNotStop(told: seq<Answer>, from: nat, target: string, failed: bool)
    requires NodegroupsTold(told, from, failed)
    ensures Told(told, from, target, failed)
  {
    forall k | from <= k < |told| ensures StopsPlanning(told[k], target) <==> failed && k == |told| - 1 {
      assert k < |told| - 1 ==> OfNodegroups(told[k], false);
    }
  }

  lemma LookupsDoNotStop(a: seq<Answer>, b: seq<Answer>, from: nat, target: string)
    requires a <= b && from <= |a| && Told(a, from, target, false) && OnlyLookups(b, |a|)
    ensures Told(b, from, target, false)
  {
    ToldMore(a, b, from, target, false);
  }

  lemma ToldMore(a: seq<Answer>, b: seq<Answer>, from: nat, target: string, failed: bool)
    requires a <= b && from <= |a| && Told(a, from, target, false) && Told(b, |a|, target, failed)
    ensures Told(b, from, target, failed)
  {
    forall k | from <= k < |a| ensures b[k] == a[k] {}
  }

  /** At some moment from index `from` on, no plan towards the target existed. */
  ghost predicate Unplannable(history: seq<World>, from: nat, target: string) {
    exists i :: from <= i < |history| && !CanPlan(history[i].cp, target)
  }

  lemma UnplannableNow(history: seq<World>, from: nat, target: string)
    requires from < |history| && !CanPlan(history[|history| - 1].cp, target)
    ensures Unplannable(history, from, target)
  {}

  /** The control-plane version, and whether a plan from it towards the target exists and is offered. */
  method ReadVersion(eks: Client, target: string) returns (r: Result<string>, ghost read: World)
    requires eks.Valid()
    modifies eks
    ensures eks.Waited()
    ensures r.Ok? ==> CanPlan(r.value, target) && read.cp == r.value && Later(old(eks.w), read) && Later(read, eks.w)
    ensures r.Err? ==> eks.troubles > old(eks.troubles) || Unplannable(eks.history, |old(eks.history)| - 1, target)
    ensures Told(eks.told, |old(eks.told)|, target, r.Err?)
  {
    hide MinorVersion, Later, Orderly, Unplannable;
    var cluster := eks.DescribeCluster();
    read := eks.w;
    if cluster.Err? {
      return Err, read;
    }
    var current := cluster.value.0;
    var hops := ExpandHops(current, target);
    if hops.Err? {
      UnplannableNow(eks.history, |old(eks.history)| - 1, target);
      return Err, read;
    }
    var offered := CheckVersionOffered(eks, target);
    LaterTransitive(old(eks.w), read, eks.w);
    return if offered then Ok(current) else Err, read;
  }

  /** Everything the planner reads before it looks at the hops. */
  method ReadCluster(eks: Client, target: string, options: PlanOptions) returns (r: Result<PlanInput>)
    requires eks.Valid()
    modifies eks
    ensures eks.Waited()
    ensures r.Ok? ==>
      && r.value == PlanInput(r.value.cp, target, options, r.value.nodes, r.value.addons, [], [])
      && Plannable(r.value) && DistinctNames(r.value.nodes)
    ensures r.Ok? ==> Snapped(r.value, old(eks.w), eks.w, old(eks.Sound()))
    ensures r.Ok? && old(eks.Sound()) ==> ReadSince(r.value, old(eks.w), eks.troubles == old(eks.troubles))
    ensures r.Err? ==> eks.troubles > old(eks.troubles) || Unplannable(eks.history, |old(eks.history)| - 1, target)
    ensures Told(eks.told, |old(eks.told)|, target, r.Err?)
  {
    hide Orderly, Snapped, ReadSince, ListedBetween, Covers, AddonsSnapshot, AddonsSince, Unplannable, DistinctNames,
      MinorVersion, Told;
    ghost var w0, good := eks.w, eks.Sound();
    var version;
    ghost var w1;
    version, w1 := ReadVersion(eks, target);
    if version.Err? {
      return Err;
    }
    var current := version.value;
    ghost var w2, told2 := eks.w, eks.told;
    var nodes;
    ghost var listed;
    nodes, listed := ListNodegroupStates(eks);
    ghost var w3, told3 := eks.w, eks.told;
    NodegroupsDoNotStop(told3, |told2|, target, nodes.Err?);
    ToldMore(told2, told3, |old(eks.told)|, target, nodes.Err?);
    LaterTransitive(w0, w1, w2);
    LaterTransitive(w0, w2, w3);
    if nodes.Err? {
      return Err;
    }
    ghost var troubles := eks.troubles;
    var addons := ReadAddons(eks, target);
    LaterTransitive(w0, w3, eks.w);
    ToldMore(told3, eks.told, |old(eks.told)|, target, addons.Err?);
    if addons.Err? {
      return Err;
    }
    var inp := PlanInput(current, target, options, nodes.value, addons.value, [], []);
    if good { NotDescribed(inp.addons, w3.addons, eks.troubles == troubles, eks.troubles == old(eks.troubles)); }
    ReadIsSnapped(inp, w0, w1, w2, w3, eks.w, listed, good, eks.troubles == old(eks.troubles));
    return Ok(inp);
  }

  /** The addons in dependency order. */
  method ReadAddons(eks: Client, ghost target: string) returns (r: Result<seq<AddonSummary>>)
    requires eks.Valid()
    modifies eks
    ensures eks.Waited()
    ensures r.Ok? && old(eks.Sound()) ==> AddonsSnapshot(r.value, eks.w.addons)
    ensures r.Ok? && old(eks.Sound()) ==> AddonsSince(r.value, old(eks.w.addons), eks.troubles == old(eks.troubles))
    ensures r.Err? ==> eks.troubles > old(eks.troubles)
    ensures Told(eks.told, |old(eks.told)|, target, r.Err?)
  {
    hide Orderly, AddonsSnapshot, AddonsSince, InTurn, Free, DependenciesFirst, Acyclic, Others, Ready, NamesTold,
      MinorVersion;
    var list := ListAddons(eks);
    if list.Err? {
      return Err;
    }
    var addons;
    ghost var n;
    addons, n := SortByDependency(list.value, ADDON_DEPENDENCIES);
    if old(eks.Sound()) {
      SortedSnapshot(list.value, addons, eks.w.addons);
      SortedSince(list.value, addons, old(eks.w.addons), eks.troubles == old(eks.troubles));
    }
    return Ok(addons);
  }

  lemma NotDescribed(addons: seq<AddonSummary>, earlier: map<string, Addon>, described: bool, all: bool)
    requires AddonsSince(addons, earlier, described) && (all ==> described)
    ensures AddonsSince(addons, earlier, all)
  {}

  lemma ReadIsSnapped(inp: PlanInput, w0: World, w1: World, w2: World, w3: World, w4: World,
                      listed: seq<Nodegroup>, good: bool, described: bool)
    requires Later(w0, w1) && Later(w0, w2) && Later(w1, w2) && Later(w2, w3) && Later(w3, w4) && Later(w0, w3)
    requires inp.cp == w1.cp && Parses(inp.cp)
    requires ListedBetween(inp.nodes, listed, w2.nodes, w3.nodes) && DistinctNames(inp.nodes)
    requires Covers(inp.nodes, w3.nodes)
    requires good ==>
      Orderly(w0) && AddonsSnapshot(inp.addons, w4.addons) && AddonsSince(inp.addons, w3.addons, described)
    ensures Snapped(inp, w0, w4, good) && (good ==> ReadSince(inp, w0, described))
  {
    hide Orderly, ReadFrom, NodesSince, NodesQuiet, NodesExact, NoBlindRolls, ReadableIn, ListedBetween, Covers,
      AddonsSnapshot, DistinctNames;
    if good {
      LaterTransitive(w1, w2, w3);
      LaterTransitive(w1, w3, w4);
      LaterKeepsOrderly(w0, w1);
      LaterKeepsOrderly(w0, w2);
      LaterKeepsOrderly(w0, w3);
      ReadIsBehind(inp, w1, w2, w3, w4, listed);
      ReadIsSince(inp, w0, w1, w2, w3, listed, described);
    }
    if NoBlindRolls(w0.nodes) { ReadIsReadable(inp.nodes, listed, w0.nodes, w2.nodes, w3.nodes, w4.nodes); }
    if NodesQuiet(w0.nodes) { QuietIsExact(inp.nodes, listed, w0.nodes, w2.nodes, w3.nodes, w4.nodes); }
  }

  lemma ReadIsReadable(nodes: seq<NodegroupState>, listed: seq<Nodegroup>, w0: map<string, Nodegroup>,
                       w2: map<string, Nodegroup>, w3: map<string, Nodegroup>, w4: map<string, Nodegroup>)
    requires NoBlindRolls(w0) && NodesLater(w0, w2) && NodesLater(w3, w4)
    requires ListedBetween(nodes, listed, w2, w3) && NodesLater(w2, w3)
    ensures ReadableIn(nodes, w4) && NoBlindRolls(w4)
  {
    ReadableLater([], w0, w2);
    ReadableLater([], w2, w3);
    forall i | 0 <= i < |nodes| && Parses(w3[nodes[i].name].version) ensures Parses(nodes[i].version) {
      assert ListedAt(nodes[i], listed[i], w2, w3);
      assert w2[nodes[i].name].pending.Some? ==> Parses(w2[nodes[i].name].version);
    }
    ReadableLater(nodes, w3, w4);
  }

  lemma QuietIsExact(nodes: seq<NodegroupState>, listed: seq<Nodegroup>, w0: map<string, Nodegroup>,
                     w2: map<string, Nodegroup>, w3: map<string, Nodegroup>, w4: map<string, Nodegroup>)
    requires NodesQuiet(w0) && NodesLater(w0, w2) && NodesLater(w3, w4) && NodesLater(w2, w3)
    requires ListedBetween(nodes, listed, w2, w3)
    ensures NodesExact(nodes, w4) && NodesQuiet(w4)
  {
    forall n | n in w4 ensures w4[n].pending.None? && w4[n].version == w0[n].version {
      assert NodegroupLater(w0[n], w2[n]) && NodegroupLater(w2[n], w3[n]) && NodegroupLater(w3[n], w4[n]);
    }
    forall i | 0 <= i < |nodes| ensures nodes[i].name in w4 && w4[nodes[i].name].version == nodes[i].version {
      assert ListedAt(nodes[i], listed[i], w2, w3);
      assert NodegroupLater(w0[nodes[i].name], w2[nodes[i].name]);
    }
  }

  lemma ReadIsBehind(inp: PlanInput, w1: World, w2: World, w3: World, w4: World, listed: seq<Nodegroup>)
    requires Orderly(w1) && Orderly(w2) && Orderly(w3) && Later(w1, w4) && Later(w2, w3) && Later(w3, w4)
    requires inp.cp == w1.cp && Parses(inp.cp)
    requires ListedBetween(inp.nodes, listed, w2.nodes, w3.nodes) && DistinctNames(inp.nodes)
    requires Covers(inp.nodes, w3.nodes)
    requires AddonsSnapshot(inp.addons, w4.addons)
    ensures ReadFrom(inp, w4)
  {
    LaterIsForward(w1, w4);
    NodesLaterIsForward(w3, w4.nodes);
    ListedIsSnapshot(inp.nodes, listed, w2, w3.nodes);
    NodesSnapshotForward(inp.nodes, w3.nodes, w4.nodes);
    PendingStays(w1, w4);
  }

  lemma ListedIsSnapshot(nodes: seq<NodegroupState>, listed: seq<Nodegroup>, w2: World, w3: map<string, Nodegroup>)
    requires Orderly(w2) && ListedBetween(nodes, listed, w2.nodes, w3) && DistinctNames(nodes) && Covers(nodes, w3)
    ensures NodesSnapshot(nodes, w3)
  {
    forall i | 0 <= i < |nodes|
      ensures nodes[i].name in w3 && w3[nodes[i].name].customAmi == nodes[i].customAmi
      ensures NoOlder(w3[nodes[i].name].version, nodes[i].version)
    {
      assert ListedAt(nodes[i], listed[i], w2.nodes, w3);
      assert OrderlyNodegroup(w2.nodes[nodes[i].name], w2.cp);
    }
  }

  lemma PendingStays(a: World, b: World)
    requires Orderly(a) && Later(a, b)
    ensures AllPendingUpTo(b.nodes, a.cp)
  {
    forall n | n in b.nodes ensures PendingUpTo(b.nodes[n], a.cp) {
      assert NodegroupLater(a.nodes[n], b.nodes[n]) && OrderlyNodegroup(a.nodes[n], a.cp);
    }
  }

  lemma ReadIsSince(inp: PlanInput, w0: World, w1: World, w2: World, w3: World, listed: seq<Nodegroup>, described: bool)
    requires Orderly(w0) && Orderly(w2) && Later(w0, w1) && Later(w0, w2) && Later(w0, w3) && inp.cp == w1.cp
    requires ListedBetween(inp.nodes, listed, w2.nodes, w3.nodes) && AddonsSince(inp.addons, w3.addons, described)
    ensures ReadSince(inp, w0, described)
  {
    hide Orderly, Later, ListedBetween, AddonsSince, NodesSince;
    LaterIsForward(w0, w1);
    LaterIsForward(w0, w3);
    ListedIsSince(inp.nodes, w0, w2, w3.nodes, listed);
    AddonsSinceEarlier(inp.addons, w0.addons, w3.addons, described);
  }

  lemma AddonsSinceEarlier(addons: seq<AddonSummary>, a: map<string, Addon>, b: map<string, Addon>, described: bool)
    requires AddonsSince(addons, b, described) && AddonsForward(a, b)
    ensures AddonsSince(addons, a, described)
  {
    hide CompareVersions;
    forall j | 0 <= j < |addons| && AddonSince(addons[j], b) ensures AddonSince(addons[j], a) {
      CompareTransitive(addons[j].version, b[addons[j].name].version, a[addons[j].name].version);
    }
  }

  lemma ListedIsSince(nodes: seq<NodegroupState>, w0: World, w2: World, w3: map<string, Nodegroup>,
                      listed: seq<Nodegroup>)
    requires Orderly(w0) && Orderly(w2) && Later(w0, w2) && ListedBetween(nodes, listed, w2.nodes, w3)
    ensures NodesSince(nodes, w0.nodes)
  {
    forall i | 0 <= i < |nodes|
      ensures nodes[i].name in w0.nodes && nodes[i].customAmi == w0.nodes[nodes[i].name].customAmi
      ensures NoOlder(nodes[i].version, w0.nodes[nodes[i].name].version)
    {
      var n := nodes[i].name;
      assert ListedAt(nodes[i], listed[i], w2.nodes, w3);
      LaterIsForward(w0, w2);
      assert OrderlyNodegroup(w2.nodes[n], w2.cp);
      NoOlderTransitive(nodes[i].version, w2.nodes[n].version, w0.nodes[n].version);
    }
  }

  lemma SortedSnapshot(list: seq<AddonSummary>, sorted: seq<AddonSummary>, addons: map<string, Addon>)
    requires AddonsSnapshot(list, addons) && multiset(sorted) == multiset(list)
    ensures AddonsSnapshot(sorted, addons)
  {
    forall j | 0 <= j < |sorted|
      ensures sorted[j].name in addons && CompareVersions(addons[sorted[j].name].version, sorted[j].version) >= 0
    {
      assert sorted[j] in multiset(sorted);
      assert sorted[j] in list;
    }
    forall a | a in addons ensures exists j :: 0 <= j < |sorted| && sorted[j].name == a {
      var i :| 0 <= i < |list| && list[i].name == a;
      assert list[i] in multiset(list);
      var j :| 0 <= j < |sorted| && sorted[j] == list[i];
    }
  }

  lemma SortedSince(list: seq<AddonSummary>, sorted: seq<AddonSummary>, earlier: map<string, Addon>, described: bool)
    requires AddonsSince(list, earlier, described) && multiset(sorted) == multiset(list)
    ensures AddonsSince(sorted, earlier, described)
  {
    forall j | 0 <= j < |sorted| ensures AddonSince(sorted[j], earlier) || (!described && sorted[j].version == "") {
      assert sorted[j] in multiset(sorted);
      assert sorted[j] in list;
    }
  }

  lemma StillReadFrom(inp: PlanInput, a: World, b: World)
    requires Orderly(a) && Later(a, b) && ReadFrom(inp, a)
    ensures ReadFrom(inp, b)
  {
    LaterIsForward(a, b);
    NodesSnapshotForward(inp.nodes, a.nodes, b.nodes);
    AddonsSnapshotForward(inp.addons, a.addons, b.addons);
    forall n | n in b.nodes ensures PendingUpTo(b.nodes[n], inp.cp) {
      assert NodegroupLater(a.nodes[n], b.nodes[n]) && PendingUpTo(a.nodes[n], inp.cp);
    }
  }

  lemma StillExact(nodes: seq<NodegroupState>, a: map<string, Nodegroup>, b: map<string, Nodegroup>)
    requires NodesExact(nodes, a) && NodesQuiet(a) && NodesLater(a, b)
    ensures NodesExact(nodes, b) && NodesQuiet(b)
  {
    forall n | n in b ensures b[n].pending.None? && b[n].version == a[n].version {
      assert NodegroupLater(a[n], b[n]);
    }
  }

  lemma StillSnapped(snap: PlanInput, inp: PlanInput, w0: World, a: World, b: World, good: bool)
    requires inp == snap.(insights := inp.insights, lookups := inp.lookups)
    requires Snapped(snap, w0, a, good) && Later(a, b) && (good ==> Orderly(a))
    ensures Snapped(inp, w0, b, good)
  {
    if good { StillReadFrom(snap, a, b); }
    if NodesQuiet(w0.nodes) { StillExact(snap.nodes, a.nodes, b.nodes); }
    if NoBlindRolls(w0.nodes) { ReadableLater(snap.nodes, a.nodes, b.nodes); }
  }

  /** The hop targets as expandHops and its same-version case produce them. */
  method PlannedHops(inp: PlanInput) returns (hops: seq<string>)
    requires Plannable(inp)
    ensures hops == Hops(inp)
  {
    var r := ExpandHops(inp.cp, inp.target);
    hops := r.value;
    if |hops| == 0 {
      hops := [inp.target];
    }
  }

  method PlanHop(eks: Client, inp: PlanInput, k: nat, to: string, sim: map<string, string>, from: string)
    returns (hop: Hop, ghost insights: Option<seq<Insight>>, ghost lookups: seq<Option<string>>)
    requires eks.Valid() && Plannable(inp) && k < |Hops(inp)|
    requires to == Hops(inp)[k] && sim == SimAt(inp, k) && from == From(inp, k)
    modifies eks
    ensures eks.Waited()
    ensures LookupsAgree(inp.addons, lookups, eks.catalog, to)
    ensures hop == HopWith(inp, k, insights, lookups)
    ensures HopDecided(inp, k, hop, eks.told, |old(eks.told)|)
    ensures OnlyLookups(eks.told, |old(eks.told)|)
  {
    hide MinorVersion, AddonsDecided, Decided, LookupsAgree, Orderly, NodegroupSteps, AddonSteps, ControlPlaneStatus;
    var readiness, addonSteps, nodegroupSteps;
    readiness, insights := ReadinessStep(eks, to, inp.nodes, sim);
    ghost var skewed := Skewed(to, inp.nodes, sim);
    IsDecided(readiness.status, to, skewed, eks.told, |old(eks.told)|);
    ghost var before, told := eks.w, eks.told;
    addonSteps, lookups := AddonStepsFor(eks, inp.addons, to, inp.options);
    LaterTransitive(old(eks.w), before, eks.w);
    nodegroupSteps := NodegroupStepsFor(inp.nodes, to, inp.options);
    MoreLookups(told, eks.told, |old(eks.told)|);
    StillDecided(readiness.status, to, skewed, told, eks.told, |old(eks.told)|, |old(eks.told)|);
    AllStillDecided(addonSteps, inp.addons, to, inp.options, eks.told, eks.told, |told|, |old(eks.told)|);
    hop := Hop(from, to,
               [readiness, PlanStep(ControlPlane, "", to, ControlPlaneStatus(inp.cp, to))]
               + addonSteps + nodegroupSteps);
    assert hop.steps[2..2 + |inp.addons|] == addonSteps;
  }
}
