/** The upgrade plan: hops, steps and the simulated nodegroup versions
    (internal/services/upgrade/plan.go, types.go, service.go). */
module Planner {
  import opened GoStrings
  import opened Versions
  import opened AddonVersions
  import opened AddonOrder
  import opened Eks

  datatype StepKind = Readiness | ControlPlane | AddonStep | NodegroupStep

  datatype StepStatus = Pending | Completed | Blocked | Manual

  datatype PlanStep = PlanStep(kind: StepKind, target: string, version: string, status: StepStatus)

  datatype Hop = Hop(from: string, to: string, steps: seq<PlanStep>)

  datatype Plan = Plan(current: string, target: string, hops: seq<Hop>)

  datatype PlanOptions = PlanOptions(skipAddons: seq<string>, skipNodegroups: seq<string>)

  /** The per-nodegroup snapshot the planner works from. */
  datatype NodegroupState = NodegroupState(name: string, version: string, customAmi: bool)

  /** What planning read: one snapshot of the cluster, and per hop the insights and
      the newest addon versions, where the lookups succeeded. */
  datatype PlanInput = PlanInput(
    cp: string, target: string, options: PlanOptions,
    nodes: seq<NodegroupState>, addons: seq<AddonSummary>,
    insights: seq<Option<seq<Insight>>>, lookups: seq<seq<Option<string>>>)

  // ---- skip lists ----

  predicate Matches(name: string, patterns: seq<string>) {
    exists i :: 0 <= i < |patterns| && patterns[i] != "" && Contains(name, patterns[i])
  }

  /** A name matches when it is a text around some pattern that is not empty. */
  lemma MatchesIff(name: string, patterns: seq<string>)
    ensures Matches(name, patterns) <==>
      exists i, u, v :: 0 <= i < |patterns| && patterns[i] != "" && name == u + patterns[i] + v
  {
    hide Contains;
    forall i | 0 <= i < |patterns| { ContainsIff(name, patterns[i]); }
  }

  /** matchesAny. */
  method MatchesAny(name: string, patterns: seq<string>) returns (r: bool)
    ensures r == Matches(name, patterns)
  {
    for i := 0 to |patterns|
      invariant forall j :: 0 <= j < i ==> patterns[j] == "" || !Contains(name, patterns[j])
    {
      if patterns[i] != "" && Contains(name, patterns[i]) {
        return true;
      }
    }
    return false;
  }

  predicate Rollable(name: string, customAmi: bool, options: PlanOptions) {
    !customAmi && !Matches(name, options.skipNodegroups)
  }

  // ---- hops and the simulation ----

  predicate Plannable(inp: PlanInput) {
    Parses(inp.cp) && Parses(inp.target) && Minor(inp.cp) <= Minor(inp.target)
  }

  /** The hop targets; a cluster already at the target gets one same-version hop. */
  function HopsBetween(cp: string, target: string): (hops: seq<string>)
    requires Parses(cp) && Parses(target) && Minor(cp) <= Minor(target)
    ensures |hops| > 0
  {
    var n := Minor(target) - Minor(cp);
    if n == 0 then [target] else seq(n, i requires 0 <= i < n => Release(Minor(cp) + 1 + i))
  }

  function Hops(inp: PlanInput): (hops: seq<string>)
    requires Plannable(inp)
    ensures |hops| > 0
  {
    HopsBetween(inp.cp, inp.target)
  }

  function LastHop(inp: PlanInput): string
    requires Plannable(inp)
  {
    Hops(inp)[|Hops(inp)| - 1]
  }

  /** One hop of the simulation: rollable nodegroups below the hop reach it. */
  function Advance(sim: map<string, string>, nodes: seq<NodegroupState>, hop: string,
                   options: PlanOptions): map<string, string> {
    if nodes == [] then sim
    else
      var before := Advance(sim, nodes[..|nodes| - 1], hop, options);
      var ng := nodes[|nodes| - 1];
      if Rollable(ng.name, ng.customAmi, options) && ng.name in before && !VersionAtLeast(before[ng.name], hop)
      then before[ng.name := hop] else before
  }

  function Snapshot(nodes: seq<NodegroupState>): map<string, string> {
    if nodes == [] then map[]
    else Snapshot(nodes[..|nodes| - 1])[nodes[|nodes| - 1].name := nodes[|nodes| - 1].version]
  }

  function Simulate(nodes: seq<NodegroupState>, hops: seq<string>, options: PlanOptions): map<string, string> {
    if hops == [] then Snapshot(nodes)
    else Advance(Simulate(nodes, hops[..|hops| - 1], options), nodes, hops[|hops| - 1], options)
  }

  /** The simulated versions when hop k starts. */
  function SimAt(inp: PlanInput, k: nat): map<string, string>
    requires Plannable(inp) && k <= |Hops(inp)|
  {
    Simulate(inp.nodes, Hops(inp)[..k], inp.options)
  }

  // ---- steps ----

  /** Moving the control plane to the hop would leave this nodegroup behind the skew. */
  predicate SkewViolation(ng: NodegroupState, sim: map<string, string>, hop: string)
    requires Parses(hop)
  {
    ng.name in sim && Parses(sim[ng.name]) && Minor(hop) - Minor(sim[ng.name]) > KUBELET_SKEW
  }

  predicate HasError(insights: seq<Insight>) {
    exists i :: 0 <= i < |insights| && insights[i].status == Some(InsightError)
  }

  function ReadinessStatus(hop: string, nodes: seq<NodegroupState>, sim: map<string, string>,
                           insights: Option<seq<Insight>>): StepStatus
  {
    if !Parses(hop) then Blocked
    else if exists i :: 0 <= i < |nodes| && SkewViolation(nodes[i], sim, hop) then Blocked
    else if insights.Some? && HasError(insights.value) then Blocked
    else Pending
  }

  function ControlPlaneStatus(live: string, hop: string): StepStatus {
    if VersionAtLeast(live, hop) then Completed else Pending
  }

  function AddonPlanStep(a: AddonSummary, lookup: Option<string>, options: PlanOptions): PlanStep {
    if Matches(a.name, options.skipAddons) then PlanStep(AddonStep, a.name, "", Manual)
    else match lookup
      case None => PlanStep(AddonStep, a.name, "", Blocked)
      case Some(chosen) =>
        PlanStep(AddonStep, a.name, chosen, if CompareVersions(a.version, chosen) >= 0 then Completed else Pending)
  }

  function NodegroupPlanStep(ng: NodegroupState, hop: string, options: PlanOptions): PlanStep {
    PlanStep(NodegroupStep, ng.name, hop,
      if VersionAtLeast(ng.version, hop) then Completed
      else if Rollable(ng.name, ng.customAmi, options) then Pending
      else Manual)
  }

  function AddonSteps(addons: seq<AddonSummary>, lookups: seq<Option<string>>,
                      options: PlanOptions): (steps: seq<PlanStep>)
    requires |lookups| == |addons|
    ensures |steps| == |addons|
  {
    if addons == [] then []
    else
      var n := |addons| - 1;
      AddonSteps(addons[..n], lookups[..n], options) + [AddonPlanStep(addons[n], lookups[n], options)]
  }

  function NodegroupSteps(nodes: seq<NodegroupState>, hop: string, options: PlanOptions): (steps: seq<PlanStep>)
    ensures |steps| == |nodes|
  {
    if nodes == [] then []
    else
      var n := |nodes| - 1;
      NodegroupSteps(nodes[..n], hop, options) + [NodegroupPlanStep(nodes[n], hop, options)]
  }

  lemma {:induction false} AddonStepsAt(addons: seq<AddonSummary>, lookups: seq<Option<string>>,
                      options: PlanOptions, j: nat)
    requires |lookups| == |addons| && j < |addons|
    ensures AddonSteps(addons, lookups, options)[j] == AddonPlanStep(addons[j], lookups[j], options)
  {
    var n := |addons| - 1;
    if j < n { AddonStepsAt(addons[..n], lookups[..n], options, j); }
  }

  lemma {:induction false} NodegroupStepsAt(nodes: seq<NodegroupState>, hop: string, options: PlanOptions, i: nat)
    requires i < |nodes|
    ensures NodegroupSteps(nodes, hop, options)[i] == NodegroupPlanStep(nodes[i], hop, options)
  {
    var n := |nodes| - 1;
    if i < n { NodegroupStepsAt(nodes[..n], hop, options, i); }
  }

  predicate WellFormed(inp: PlanInput) {
    && Plannable(inp)
    && |inp.insights| == |inp.lookups| == |Hops(inp)|
    && (forall k :: 0 <= k < |inp.lookups| ==> |inp.lookups[k]| == |inp.addons|)
    && (forall i, j :: 0 <= i < j < |inp.nodes| ==> inp.nodes[i].name != inp.nodes[j].name)
  }

  function From(inp: PlanInput, k: nat): string
    requires Plannable(inp) && k < |Hops(inp)|
  {
    if k == 0 then inp.cp else Hops(inp)[k - 1]
  }

  /** Hop k, given the answers the planner got for it. */
  function HopWith(inp: PlanInput, k: nat, insights: Option<seq<Insight>>, lookups: seq<Option<string>>): Hop
    requires Plannable(inp) && k < |Hops(inp)| && |lookups| == |inp.addons|
  {
    var to := Hops(inp)[k];
    Hop(From(inp, k), to,
        [PlanStep(Readiness, "", to, ReadinessStatus(to, inp.nodes, SimAt(inp, k), insights)),
         PlanStep(ControlPlane, "", to, ControlPlaneStatus(inp.cp, to))]
        + AddonSteps(inp.addons, lookups, inp.options)
        + NodegroupSteps(inp.nodes, to, inp.options))
  }

  function HopAt(inp: PlanInput, k: nat): Hop
    requires WellFormed(inp) && k < |Hops(inp)|
  {
    HopWith(inp, k, inp.insights[k], inp.lookups[k])
  }

  /** The plan for what was read. */
  function PlanOf(inp: PlanInput): Plan
    requires WellFormed(inp)
  {
    Plan(inp.cp, inp.target, seq(|Hops(inp)|, k requires 0 <= k < |Hops(inp)| => HopAt(inp, k)))
  }

  // ---- blockers and pending steps ----

  function Select(steps: seq<PlanStep>, p: PlanStep -> bool): seq<PlanStep> {
    if steps == [] then []
    else Select(steps[..|steps| - 1], p) + if p(steps[|steps| - 1]) then [steps[|steps| - 1]] else []
  }

  function SelectAll(hops: seq<Hop>, p: PlanStep -> bool): seq<PlanStep> {
    if hops == [] then [] else SelectAll(hops[..|hops| - 1], p) + Select(hops[|hops| - 1].steps, p)
  }

  predicate IsBlocked(s: PlanStep) { s.status == Blocked }

  predicate IsWork(s: PlanStep) { s.status == Pending && s.kind != Readiness }

  /** Some step of some hop satisfies p. */
  ghost predicate SomeStep(plan: Plan, p: PlanStep -> bool) {
    exists k, i :: 0 <= k < |plan.hops| && 0 <= i < |plan.hops[k].steps| && p(plan.hops[k].steps[i])
  }

  lemma {:induction false} SelectEmpty(steps: seq<PlanStep>, p: PlanStep -> bool)
    ensures Select(steps, p) == [] <==> forall i :: 0 <= i < |steps| ==> !p(steps[i])
  {
    if steps != [] { SelectEmpty(steps[..|steps| - 1], p); }
  }

  lemma {:induction false} SelectIff(steps: seq<PlanStep>, p: PlanStep -> bool, s: PlanStep)
    ensures s in Select(steps, p) <==> s in steps && p(s)
  {
    if steps != [] {
      SelectIff(steps[..|steps| - 1], p, s);
      assert steps == steps[..|steps| - 1] + [steps[|steps| - 1]];
    }
  }

  lemma {:induction false} SelectAllEmpty(hops: seq<Hop>, p: PlanStep -> bool)
    ensures SelectAll(hops, p) == [] <==>
              forall k, i :: 0 <= k < |hops| && 0 <= i < |hops[k].steps| ==> !p(hops[k].steps[i])
  {
    if hops != [] {
      SelectAllEmpty(hops[..|hops| - 1], p);
      SelectEmpty(hops[|hops| - 1].steps, p);
    }
  }

  /** Blockers. */
  method Blockers(plan: Plan) returns (r: seq<PlanStep>)
    ensures r == SelectAll(plan.hops, IsBlocked)
    ensures r != [] <==> SomeStep(plan, IsBlocked)
  {
    r := [];
    for k := 0 to |plan.hops|
      invariant r == SelectAll(plan.hops[..k], IsBlocked)
    {
      var steps := plan.hops[k].steps;
      ghost var before := r;
      for i := 0 to |steps|
        invariant r == before + Select(steps[..i], IsBlocked)
      {
        assert steps[..i + 1][..i] == steps[..i];
        if steps[i].status == Blocked {
          r := r + [steps[i]];
        }
      }
      assert steps[..|steps|] == steps;
      assert plan.hops[..k + 1][..k] == plan.hops[..k];
    }
    assert plan.hops[..|plan.hops|] == plan.hops;
    SelectAllEmpty(plan.hops, IsBlocked);
  }

  /** PendingSteps. */
  method PendingSteps(plan: Plan) returns (n: nat)
    ensures n == |SelectAll(plan.hops, IsWork)|
    ensures n > 0 <==> SomeStep(plan, IsWork)
  {
    n := 0;
    for k := 0 to |plan.hops|
      invariant n == |SelectAll(plan.hops[..k], IsWork)|
    {
      var steps := plan.hops[k].steps;
      ghost var before := n;
      for i := 0 to |steps|
        invariant n == before + |Select(steps[..i], IsWork)|
      {
        assert steps[..i + 1][..i] == steps[..i];
        if steps[i].status == Pending && steps[i].kind != Readiness {
          n := n + 1;
        }
      }
      assert steps[..|steps|] == steps;
      assert plan.hops[..k + 1][..k] == plan.hops[..k];
    }
    assert plan.hops[..|plan.hops|] == plan.hops;
    SelectAllEmpty(plan.hops, IsWork);
  }
}
