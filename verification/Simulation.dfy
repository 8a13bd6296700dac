/** What the planner's simulation means: closed forms of the simulated versions, the exact
    condition under which a plan is blocked, and when nothing is left to do. */
module Simulation {
  import opened GoStrings
  import opened Versions
  import opened AddonVersions
  import opened AddonOrder
  import opened Eks
  import opened Planner

  // ---- hops ----

  /** Hop k is one minor above hop k - 1, and the last hop is the target's minor. */
  lemma HopMinor(inp: PlanInput, k: nat)
    requires Plannable(inp) && k < |Hops(inp)|
    ensures Parses(Hops(inp)[k])
    ensures Minor(inp.cp) < Minor(inp.target) ==> Minor(Hops(inp)[k]) == Minor(inp.cp) + 1 + k
    ensures Minor(inp.cp) == Minor(inp.target) ==> |Hops(inp)| == 1 && Minor(Hops(inp)[k]) == Minor(inp.cp)
    ensures k == |Hops(inp)| - 1 ==> Minor(Hops(inp)[k]) == Minor(inp.target)
    ensures k > 0 ==> Parses(Hops(inp)[k - 1]) && Minor(Hops(inp)[k]) == Minor(Hops(inp)[k - 1]) + 1
  {
    hide MinorVersion, Release;
    if Minor(inp.cp) < Minor(inp.target) {
      ReleaseMinor(Minor(inp.cp) + 1 + k);
      if k > 0 { ReleaseMinor(Minor(inp.cp) + k); }
    }
  }

  // ---- the simulated versions ----

  ghost predicate DistinctNames(nodes: seq<NodegroupState>) {
    forall i, j :: 0 <= i < j < |nodes| ==> nodes[i].name != nodes[j].name
  }

  lemma {:induction false} SnapshotAt(nodes: seq<NodegroupState>, i: nat)
    requires DistinctNames(nodes) && i < |nodes|
    ensures nodes[i].name in Snapshot(nodes) && Snapshot(nodes)[nodes[i].name] == nodes[i].version
  {
    if i < |nodes| - 1 { SnapshotAt(nodes[..|nodes| - 1], i); }
  }

  lemma {:induction false} AdvanceElsewhere(sim: map<string, string>, nodes: seq<NodegroupState>, hop: string,
                                            options: PlanOptions, n: string)
    requires forall i :: 0 <= i < |nodes| ==> nodes[i].name != n
    ensures n in Advance(sim, nodes, hop, options) <==> n in sim
    ensures n in sim ==> Advance(sim, nodes, hop, options)[n] == sim[n]
  {
    if nodes != [] { AdvanceElsewhere(sim, nodes[..|nodes| - 1], hop, options, n); }
  }

  lemma {:induction false} AdvanceAt(sim: map<string, string>, nodes: seq<NodegroupState>, hop: string,
                                     options: PlanOptions, i: nat)
    requires DistinctNames(nodes) && i < |nodes| && nodes[i].name in sim
    ensures nodes[i].name in Advance(sim, nodes, hop, options)
    ensures Advance(sim, nodes, hop, options)[nodes[i].name]
         == if Rollable(nodes[i].name, nodes[i].customAmi, options) && !VersionAtLeast(sim[nodes[i].name], hop)
            then hop else sim[nodes[i].name]
  {
    var init := nodes[..|nodes| - 1];
    if i < |nodes| - 1 {
      AdvanceAt(sim, init, hop, options, i);
    } else {
      AdvanceElsewhere(sim, init, hop, options, nodes[i].name);
    }
  }

  lemma SimStep(inp: PlanInput, k: nat)
    requires Plannable(inp) && k < |Hops(inp)|
    ensures SimAt(inp, k + 1) == Advance(SimAt(inp, k), inp.nodes, Hops(inp)[k], inp.options)
  {
    assert Hops(inp)[..k + 1][..k] == Hops(inp)[..k];
  }

  /** A rollable nodegroup sits at the previous hop unless it started at or above it; every
      other nodegroup never moves. */
  function Simulated(inp: PlanInput, k: nat, ng: NodegroupState): string
    requires Plannable(inp) && k <= |Hops(inp)|
  {
    if k > 0 && Rollable(ng.name, ng.customAmi, inp.options) && !VersionAtLeast(ng.version, Hops(inp)[k - 1])
    then Hops(inp)[k - 1] else ng.version
  }

  lemma {:induction false} SimulatedIsSim(inp: PlanInput, k: nat, i: nat)
    requires WellFormed(inp) && k <= |Hops(inp)| && i < |inp.nodes|
    ensures inp.nodes[i].name in SimAt(inp, k)
    ensures SimAt(inp, k)[inp.nodes[i].name] == Simulated(inp, k, inp.nodes[i])
  {
    hide MinorVersion;
    if k == 0 {
      SnapshotAt(inp.nodes, i);
    } else {
      SimulatedIsSim(inp, k - 1, i);
      SimStep(inp, k - 1);
      AdvanceAt(SimAt(inp, k - 1), inp.nodes, Hops(inp)[k - 1], inp.options, i);
      HopMinor(inp, k - 1);
    }
  }

  // ---- when a plan is blocked ----

  /** Some hop of the plan would leave a nodegroup behind the kubelet skew. */
  ghost predicate SkewBlocked(inp: PlanInput)
    requires WellFormed(inp)
  {
    exists k, i :: 0 <= k < |Hops(inp)| && 0 <= i < |inp.nodes| && ViolatesAt(inp, k, i)
  }

  ghost predicate ViolatesAt(inp: PlanInput, k: nat, i: nat)
    requires WellFormed(inp) && k < |Hops(inp)| && i < |inp.nodes|
  {
    HopMinor(inp, k);
    SkewViolation(inp.nodes[i], SimAt(inp, k), Hops(inp)[k])
  }

  /** The minor a nodegroup must be within reach of: the first hop if the run will roll it,
      the target if nobody will. */
  function MustReach(inp: PlanInput, ng: NodegroupState): int
    requires Plannable(inp)
  {
    if Rollable(ng.name, ng.customAmi, inp.options) && Minor(inp.cp) < Minor(inp.target) then Minor(inp.cp) + 1
    else Minor(inp.target)
  }

  predicate TooOld(inp: PlanInput, ng: NodegroupState)
    requires Plannable(inp)
  {
    Parses(ng.version) && MustReach(inp, ng) - Minor(ng.version) > KUBELET_SKEW
  }

  lemma ViolationIsTooOld(inp: PlanInput, k: nat, i: nat)
    requires WellFormed(inp) && k < |Hops(inp)| && i < |inp.nodes|
    ensures ViolatesAt(inp, k, i) ==> TooOld(inp, inp.nodes[i])
  {
    SimulatedIsSim(inp, k, i);
    HopMinor(inp, k);
    HopMinor(inp, |Hops(inp)| - 1);
  }

  /** The skew gate is exact: hop by hop it blocks precisely when some readable nodegroup is
      more than three minors below the first hop (if it will be rolled) or the target (if not). */
  lemma SkewBlockedIff(inp: PlanInput)
    requires WellFormed(inp)
    ensures SkewBlocked(inp) <==> exists i :: 0 <= i < |inp.nodes| && TooOld(inp, inp.nodes[i])
  {
    if SkewBlocked(inp) {
      var k, i :| 0 <= k < |Hops(inp)| && 0 <= i < |inp.nodes| && ViolatesAt(inp, k, i);
      ViolationIsTooOld(inp, k, i);
    }
    if i :| 0 <= i < |inp.nodes| && TooOld(inp, inp.nodes[i]) {
      var ng := inp.nodes[i];
      var k := if Rollable(ng.name, ng.customAmi, inp.options) then 0 else |Hops(inp)| - 1;
      SimulatedIsSim(inp, k, i);
      HopMinor(inp, k);
      assert ViolatesAt(inp, k, i);
    }
  }

  /** Readiness of hop k is blocked by skew or by an insight error. */
  lemma ReadinessBlocked(inp: PlanInput, k: nat)
    requires WellFormed(inp) && k < |Hops(inp)|
    ensures PlanOf(inp).hops[k].steps[0].status == Blocked <==>
              || (exists i :: 0 <= i < |inp.nodes| && ViolatesAt(inp, k, i))
              || InsightErrorAt(inp, k)
  {
    hide SimAt, AddonSteps, NodegroupSteps, HopsBetween, MinorVersion, SkewViolation;
    HopMinor(inp, k);
    var sim := SimAt(inp, k);
    if i :| 0 <= i < |inp.nodes| && SkewViolation(inp.nodes[i], sim, Hops(inp)[k]) {
      assert ViolatesAt(inp, k, i);
    }
  }

  predicate Unavailable(inp: PlanInput, k: nat, j: nat)
    requires WellFormed(inp) && k < |Hops(inp)| && j < |inp.addons|
  {
    !Matches(inp.addons[j].name, inp.options.skipAddons) && inp.lookups[k][j].None?
  }

  lemma StepsOf(inp: PlanInput, k: nat)
    requires WellFormed(inp) && k < |Hops(inp)|
    ensures var steps := PlanOf(inp).hops[k].steps;
      && |steps| == 2 + |inp.addons| + |inp.nodes|
      && steps[0].kind == Readiness
      && steps[1] == PlanStep(ControlPlane, "", Hops(inp)[k], ControlPlaneStatus(inp.cp, Hops(inp)[k]))
      && (forall i :: 2 <= i < 2 + |inp.addons| ==>
            steps[i] == AddonPlanStep(inp.addons[i - 2], inp.lookups[k][i - 2], inp.options))
      && (forall i :: 2 + |inp.addons| <= i < |steps| ==>
            steps[i] == NodegroupPlanStep(inp.nodes[i - 2 - |inp.addons|], Hops(inp)[k], inp.options))
  {
    hide AddonSteps, NodegroupSteps, AddonPlanStep, NodegroupPlanStep, SimAt, ReadinessStatus, ControlPlaneStatus,
      HopsBetween, MinorVersion;
    forall j | 0 <= j < |inp.addons| { AddonStepsAt(inp.addons, inp.lookups[k], inp.options, j); }
    forall i | 0 <= i < |inp.nodes| { NodegroupStepsAt(inp.nodes, Hops(inp)[k], inp.options, i); }
  }

  /** A hop starts where the one before it ends, and its steps say what they are about: the control plane and
      every nodegroup go to the hop, every addon to the version looked up. */
  lemma StepsSay(inp: PlanInput, k: nat)
    requires WellFormed(inp) && k < |Hops(inp)|
    ensures var plan := PlanOf(inp);
      && plan.current == inp.cp && plan.target == inp.target
      && plan.hops[k].to == Hops(inp)[k] && plan.hops[k].from == if k == 0 then inp.cp else plan.hops[k - 1].to
    ensures var h := PlanOf(inp).hops[k];
      && |h.steps| == 2 + |inp.addons| + |inp.nodes|
      && h.steps[0].kind == Readiness && h.steps[0].version == h.to
      && h.steps[1].kind == ControlPlane && h.steps[1].version == h.to
      && h.steps[1].status == if VersionAtLeast(inp.cp, h.to) then Completed else Pending
    ensures forall j :: 0 <= j < |inp.addons| ==>
      var st, a, found := PlanOf(inp).hops[k].steps[2 + j], inp.addons[j], inp.lookups[k][j];
      && st.kind == AddonStep && st.target == a.name
      && (st.status == Manual <==> Matches(a.name, inp.options.skipAddons))
      && (st.status == Blocked <==> st.status != Manual && found.None?)
      && (st.status == Completed <==>
            st.status != Manual && found.Some? && CompareVersions(a.version, found.value) >= 0)
      && (st.status == Pending || st.status == Completed ==> found == Some(st.version))
    ensures forall i :: 0 <= i < |inp.nodes| ==>
      var h, ng := PlanOf(inp).hops[k], inp.nodes[i];
      var st := h.steps[2 + |inp.addons| + i];
      && st.kind == NodegroupStep && st.target == ng.name && st.version == h.to
      && st.status == if VersionAtLeast(ng.version, h.to) then Completed
                      else if ng.customAmi || Matches(ng.name, inp.options.skipNodegroups) then Manual else Pending
  {
    hide VersionAtLeast, Matches, CompareVersions, HopsBetween, SimAt, ReadinessStatus, AddonSteps, NodegroupSteps;
    StepsOf(inp, k);
  }

  ghost predicate InsightErrorAt(inp: PlanInput, k: nat)
    requires WellFormed(inp) && k < |Hops(inp)|
  {
    inp.insights[k].Some?
    && exists i :: 0 <= i < |inp.insights[k].value| && inp.insights[k].value[i].status == Some(InsightError)
  }

  /** A plan is blocked exactly when the skew gate, an insight error or a missing addon
      version blocks it. */
  lemma BlockedIff(inp: PlanInput)
    requires WellFormed(inp)
    ensures SomeStep(PlanOf(inp), IsBlocked) <==>
              || SkewBlocked(inp)
              || (exists k, i :: 0 <= k < |Hops(inp)| && inp.insights[k].Some? && 0 <= i < |inp.insights[k].value|
                                && inp.insights[k].value[i].status == Some(InsightError))
              || (exists k, j :: 0 <= k < |Hops(inp)| && 0 <= j < |inp.addons| && Unavailable(inp, k, j))
  {
    hide ViolatesAt, SimAt, ReadinessStatus, AddonSteps, NodegroupSteps, NodegroupPlanStep, HopsBetween, HasError,
      MinorVersion;
    var plan := PlanOf(inp);
    if SomeStep(plan, IsBlocked) {
      var k, i :| 0 <= k < |plan.hops| && 0 <= i < |plan.hops[k].steps| && IsBlocked(plan.hops[k].steps[i]);
      BlockedStepHasCause(inp, k, i);
      if InsightErrorAt(inp, k) {
        var j :| 0 <= j < |inp.insights[k].value| && inp.insights[k].value[j].status == Some(InsightError);
      }
    }
    if k, i :| 0 <= k < |Hops(inp)| && inp.insights[k].Some? && 0 <= i < |inp.insights[k].value|
               && inp.insights[k].value[i].status == Some(InsightError)
    {
      assert InsightErrorAt(inp, k);
      ReadinessBlocked(inp, k);
      assert IsBlocked(plan.hops[k].steps[0]);
    }
    forall k, i | 0 <= k < |Hops(inp)| && 0 <= i < |inp.nodes| && ViolatesAt(inp, k, i)
      ensures SomeStep(plan, IsBlocked)
    {
      ReadinessBlocked(inp, k);
      assert IsBlocked(plan.hops[k].steps[0]);
    }
    forall k, j | 0 <= k < |Hops(inp)| && 0 <= j < |inp.addons| && Unavailable(inp, k, j)
      ensures SomeStep(plan, IsBlocked)
    {
      StepsOf(inp, k);
      assert IsBlocked(plan.hops[k].steps[2 + j]);
    }
  }

  lemma BlockedStepHasCause(inp: PlanInput, k: nat, i: nat)
    requires WellFormed(inp) && k < |Hops(inp)| && i < |PlanOf(inp).hops[k].steps|
    requires IsBlocked(PlanOf(inp).hops[k].steps[i])
    ensures || (exists j :: 0 <= j < |inp.nodes| && ViolatesAt(inp, k, j))
            || InsightErrorAt(inp, k)
            || (exists j :: 0 <= j < |inp.addons| && Unavailable(inp, k, j))
  {
    hide ViolatesAt, SimAt, ReadinessStatus, AddonSteps, NodegroupSteps, HopsBetween, HasError, Rollable, Matches,
      MinorVersion, CompareVersions;
    var step := PlanOf(inp).hops[k].steps[i];
    StepsOf(inp, k);
    if i == 0 {
      ReadinessBlocked(inp, k);
    } else if 2 <= i < 2 + |inp.addons| {
      assert step == AddonPlanStep(inp.addons[i - 2], inp.lookups[k][i - 2], inp.options);
      assert Unavailable(inp, k, i - 2);
    }
  }

  // ---- resuming ----

  /** If every readable nodegroup is at or above target - 3, the skew gate blocks no plan,
      wherever an earlier run left the control plane. */
  lemma NeverSkewBlocked(inp: PlanInput)
    requires WellFormed(inp)
    requires forall i :: 0 <= i < |inp.nodes| && Parses(inp.nodes[i].version) ==>
               Minor(inp.target) - Minor(inp.nodes[i].version) <= KUBELET_SKEW
    ensures !SkewBlocked(inp)
  {
    SkewBlockedIff(inp);
  }

  /** After an unblocked plan, a rerun that finds the control plane moved from c to c' is
      skew-blocked exactly when some nodegroup the run still has to roll is more than three
      minors below the rerun's first hop. */
  lemma ResumeBlockedIff(first: PlanInput, rerun: PlanInput)
    requires WellFormed(first) && WellFormed(rerun) && !SkewBlocked(first)
    requires first.target == rerun.target && first.options == rerun.options
    requires |first.nodes| == |rerun.nodes|
    requires forall i :: 0 <= i < |first.nodes| ==>
      && first.nodes[i].name == rerun.nodes[i].name && first.nodes[i].customAmi == rerun.nodes[i].customAmi
      && NoOlder(rerun.nodes[i].version, first.nodes[i].version)
      && (Parses(rerun.nodes[i].version) && !Parses(first.nodes[i].version) ==>
            Rollable(first.nodes[i].name, first.nodes[i].customAmi, first.options))
    ensures SkewBlocked(rerun) <==>
      exists i :: 0 <= i < |rerun.nodes| && TooOld(rerun, rerun.nodes[i])
               && Rollable(rerun.nodes[i].name, rerun.nodes[i].customAmi, rerun.options)
  {
    SkewBlockedIff(first);
    SkewBlockedIff(rerun);
    forall i | 0 <= i < |rerun.nodes| && !Rollable(rerun.nodes[i].name, rerun.nodes[i].customAmi, rerun.options)
      ensures !TooOld(rerun, rerun.nodes[i])
    {
      assert !TooOld(first, first.nodes[i]);
    }
  }
}
