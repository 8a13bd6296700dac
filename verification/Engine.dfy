/** The sequencing engine: phases in order, a confirmation before each, a halt and a report
    at the first failure (internal/services/upgrade/engine.go). */
module Engine {
  import opened GoStrings
  import opened Versions
  import opened AddonVersions
  import opened AddonOrder
  import opened Eks
  import opened Planner
  import opened Simulation
  import opened Progress
  import opened ControlPlanePhase
  import opened NodegroupPhase
  import opened AddonPhase
  import opened Planning
  import opened RunState

  datatype ExecuteOptions = ExecuteOptions(yes: bool, canPrompt: bool, options: PlanOptions, customGate: bool)

  /** What the label of a phase says: its kind, the hop, and how many steps are pending. */
  datatype Label =
    | ControlPlaneLabel(from: string, to: string)
    | AddonsLabel(to: string, updates: nat)
    | NodegroupsLabel(to: string, nodegroups: nat)

  /** How far an execution got. */
  datatype Report = Report(completed: seq<Label>, failedAt: Option<Label>, remaining: seq<Label>)

  datatype Exit = Finished | RefusedBlocked | NoPrompt | Declined | Failed | Interrupted

  /** One confirm-and-execute unit within a hop, with its pending steps. */
  datatype RunPhase = RunPhase(name: Label, kind: StepKind, hop: string, steps: seq<PlanStep>)

  // ---- phases ----

  function PendingOf(steps: seq<PlanStep>, kind: StepKind): seq<PlanStep> {
    Select(steps, (s: PlanStep) => s.status == Pending && s.kind == kind)
  }

  function PhasesOf(hop: Hop): seq<RunPhase> {
    var cp, addons, nodes := PendingOf(hop.steps, ControlPlane), PendingOf(hop.steps, AddonStep),
      PendingOf(hop.steps, NodegroupStep);
    [RunPhase(ControlPlaneLabel(hop.from, hop.to), ControlPlane, hop.to, cp),
     RunPhase(AddonsLabel(hop.to, |addons|), AddonStep, hop.to, addons),
     RunPhase(NodegroupsLabel(hop.to, |nodes|), NodegroupStep, hop.to, nodes)]
  }

  function Phases(hops: seq<Hop>): (phases: seq<RunPhase>)
    ensures |phases| == 3 * |hops|
  {
    if hops == [] then [] else Phases(hops[..|hops| - 1]) + PhasesOf(hops[|hops| - 1])
  }

  lemma {:induction false} PhaseAt(hops: seq<Hop>, k: nat)
    requires k < |hops|
    ensures Phases(hops)[3 * k] == PhasesOf(hops[k])[0]
    ensures Phases(hops)[3 * k + 1] == PhasesOf(hops[k])[1]
    ensures Phases(hops)[3 * k + 2] == PhasesOf(hops[k])[2]
    ensures var h, ph := hops[k], Phases(hops)[3 * k];
      ph.name == ControlPlaneLabel(h.from, h.to) && ph.kind == ControlPlane && ph.hop == h.to
    ensures var h, ph := hops[k], Phases(hops)[3 * k + 1];
      ph.name == AddonsLabel(h.to, |ph.steps|) && ph.kind == AddonStep && ph.hop == h.to
    ensures var h, ph := hops[k], Phases(hops)[3 * k + 2];
      ph.name == NodegroupsLabel(h.to, |ph.steps|) && ph.kind == NodegroupStep && ph.hop == h.to
  {
    if k < |hops| - 1 { PhaseAt(hops[..|hops| - 1], k); }
  }

  /** The steps of a phase are the pending ones of its kind and hop. */
  lemma PhaseHas(hops: seq<Hop>, k: nat, j: nat, s: PlanStep)
    requires k < |hops| && j < 3
    ensures var ph := Phases(hops)[3 * k + j];
      s in ph.steps <==> s in hops[k].steps && s.status == Pending && s.kind == ph.kind
  {
    hide Phases, Select;
    PhaseAt(hops, k);
    assert PendingOf(hops[k].steps, PhasesOf(hops[k])[j].kind) == PhasesOf(hops[k])[j].steps;
    PendingOfIff(hops[k].steps, PhasesOf(hops[k])[j].kind, s);
  }

  lemma PendingOfIff(steps: seq<PlanStep>, kind: StepKind, s: PlanStep)
    ensures s in PendingOf(steps, kind) <==> s in steps && s.status == Pending && s.kind == kind
  {
    SelectIff(steps, (st: PlanStep) => st.status == Pending && st.kind == kind, s);
  }

  /** phases. */
  method FlattenPhases(plan: Plan) returns (phases: seq<RunPhase>)
    ensures phases == Phases(plan.hops)
  {
    phases := [];
    for k := 0 to |plan.hops|
      invariant phases == Phases(plan.hops[..k])
    {
      assert plan.hops[..k + 1][..k] == plan.hops[..k];
      var hop := plan.hops[k];
      var cp, addons, nodes := SplitSteps(hop.steps);
      phases := phases + [
        RunPhase(ControlPlaneLabel(hop.from, hop.to), ControlPlane, hop.to, cp),
        RunPhase(AddonsLabel(hop.to, |addons|), AddonStep, hop.to, addons),
        RunPhase(NodegroupsLabel(hop.to, |nodes|), NodegroupStep, hop.to, nodes)];
    }
    assert plan.hops[..|plan.hops|] == plan.hops;
  }

  method SplitSteps(steps: seq<PlanStep>) returns (cp: seq<PlanStep>, addons: seq<PlanStep>, nodes: seq<PlanStep>)
    ensures cp == PendingOf(steps, ControlPlane) && addons == PendingOf(steps, AddonStep)
    ensures nodes == PendingOf(steps, NodegroupStep)
  {
    cp, addons, nodes := [], [], [];
    for i := 0 to |steps|
      invariant cp == PendingOf(steps[..i], ControlPlane)
      invariant addons == PendingOf(steps[..i], AddonStep)
      invariant nodes == PendingOf(steps[..i], NodegroupStep)
    {
      assert steps[..i + 1][..i] == steps[..i];
      var st := steps[i];
      if st.status == Pending {
        match st.kind {
          case ControlPlane => cp := cp + [st];
          case AddonStep => addons := addons + [st];
          case NodegroupStep => nodes := nodes + [st];
          case Readiness =>
        }
      }
    }
    assert steps[..|steps|] == steps;
  }

  /** The labels of the phases with pending steps. */
  function PendingLabels(phases: seq<RunPhase>): seq<Label> {
    if phases == [] then []
    else
      var n := |phases| - 1;
      PendingLabels(phases[..n]) + if phases[n].steps == [] then [] else [phases[n].name]
  }

  lemma {:induction false} PendingLabelsAppend(a: seq<RunPhase>, b: seq<RunPhase>)
    ensures PendingLabels(a + b) == PendingLabels(a) + PendingLabels(b)
  {
    if b == [] {
      assert a + b == a;
    } else {
      assert (a + b)[..|a + b| - 1] == a + b[..|b| - 1];
      PendingLabelsAppend(a, b[..|b| - 1]);
    }
  }

  lemma NoLabels(phases: seq<RunPhase>)
    ensures PendingLabels(phases[..0]) == []
  {}

  lemma PendingLabelsStep(phases: seq<RunPhase>, i: nat)
    requires i < |phases|
    ensures PendingLabels(phases[..i + 1]) == PendingLabels(phases[..i])
      + if phases[i].steps == [] then [] else [phases[i].name]
  {
    assert phases[..i + 1][..i] == phases[..i];
  }

  /** pendingLabels. */
  method CollectLabels(phases: seq<RunPhase>) returns (labels: seq<Label>)
    ensures labels == PendingLabels(phases)
  {
    labels := [];
    for i := 0 to |phases|
      invariant labels == PendingLabels(phases[..i])
    {
      PendingLabelsStep(phases, i);
      if phases[i].steps != [] {
        labels := labels + [phases[i].name];
      }
    }
    assert phases[..|phases|] == phases;
  }

  // ---- the run ----

  /** The plan is the planner's own, and what it read still describes the cluster. */
  ghost predicate Planned(plan: Plan, inp: PlanInput, eks: Client, options: PlanOptions)
    reads eks
  {
    && WellFormed(inp) && plan == PlanOf(inp) && inp.options == options
    && CatalogAgrees(inp, eks.catalog)
    && ReadFrom(inp, eks.w) && NoBlindRolls(eks.w.nodes) && ReadableIn(inp.nodes, eks.w.nodes)
  }

  /** Which phase of which hop is next. */
  datatype Position = BeforeMove(k: nat) | BeforeAddons(k: nat) | BeforeRolls(k: nat) | AtEnd

  function Index(p: Position, hops: nat): nat {
    match p
    case BeforeMove(k) => 3 * k
    case BeforeAddons(k) => 3 * k + 1
    case BeforeRolls(k) => 3 * k + 2
    case AtEnd => 3 * hops
  }

  function Next(p: Position, hops: nat): Position {
    match p
    case BeforeMove(k) => BeforeAddons(k)
    case BeforeAddons(k) => BeforeRolls(k)
    case BeforeRolls(k) => if k + 1 < hops then BeforeMove(k + 1) else AtEnd
    case AtEnd => AtEnd
  }

  /** The state of a planned run at a position. */
  ghost predicate At(inp: PlanInput, p: Position, w: World, exact: bool, catalog: Catalog)
    requires WellFormed(inp)
  {
    var n := |Hops(inp)|;
    match p
    case BeforeMove(k) => k < n && InHop(inp, k, false, w, exact)
    case BeforeAddons(k) => k < n && InHop(inp, k, true, w, exact)
    case BeforeRolls(k) =>
      k < n && InHop(inp, k, true, w, exact) && AllAtNewest(w.addons, catalog, Hops(inp)[k], inp.options.skipAddons)
    case AtEnd =>
      && NodesAt(inp, n, w.nodes, exact) && VersionAtLeast(w.cp, Hops(inp)[n - 1])
      && AllAtNewest(w.addons, catalog, Hops(inp)[n - 1], inp.options.skipAddons)
  }

  lemma PendingOfEmpty(steps: seq<PlanStep>, kind: StepKind)
    ensures PendingOf(steps, kind) == [] <==>
              forall i :: 0 <= i < |steps| ==> !(steps[i].status == Pending && steps[i].kind == kind)
  {
    SelectEmpty(steps, (s: PlanStep) => s.status == Pending && s.kind == kind);
  }

  lemma PendingOfAll(steps: seq<PlanStep>)
    requires Select(steps, IsWork) == []
    ensures PendingOf(steps, ControlPlane) == [] && PendingOf(steps, AddonStep) == []
    ensures PendingOf(steps, NodegroupStep) == []
  {
    SelectEmpty(steps, IsWork);
    PendingOfEmpty(steps, ControlPlane);
    PendingOfEmpty(steps, AddonStep);
    PendingOfEmpty(steps, NodegroupStep);
    assert forall i :: 0 <= i < |steps| ==> !IsWork(steps[i]);
  }

  /** A plan without pending steps has no phase to run. */
  lemma {:induction false} NoWorkNoPhases(hops: seq<Hop>)
    requires SelectAll(hops, IsWork) == []
    ensures forall i :: 0 <= i < |Phases(hops)| ==> Phases(hops)[i].steps == []
  {
    if hops != [] {
      NoWorkNoPhases(hops[..|hops| - 1]);
      PendingOfAll(hops[|hops| - 1].steps);
    }
  }

  // ---- which phases have work ----

  ghost predicate Unblocked(inp: PlanInput)
    requires WellFormed(inp)
  {
    !SomeStep(PlanOf(inp), IsBlocked)
  }

  lemma UnblockedReach(inp: PlanInput, k: nat)
    requires WellFormed(inp) && k < |Hops(inp)| && Unblocked(inp)
    ensures forall i :: 0 <= i < |inp.nodes| ==> !ViolatesAt(inp, k, i)
  {
    BlockedIff(inp);
  }

  lemma NoControlPlaneWork(inp: PlanInput, k: nat)
    requires WellFormed(inp) && k < |Hops(inp)|
    ensures PendingOf(PlanOf(inp).hops[k].steps, ControlPlane) == [] <==> VersionAtLeast(inp.cp, Hops(inp)[k])
  {
    hide HopAt, PendingOf, Hops, VersionAtLeast, Matches, Rollable, CompareVersions;
    var steps := PlanOf(inp).hops[k].steps;
    StepsOf(inp, k);
    PendingOfEmpty(steps, ControlPlane);
  }

  lemma NoAddonWork(inp: PlanInput, k: nat)
    requires WellFormed(inp) && k < |Hops(inp)| && Unblocked(inp)
    requires PendingOf(PlanOf(inp).hops[k].steps, AddonStep) == []
    ensures forall j :: 0 <= j < |inp.addons| && !Matches(inp.addons[j].name, inp.options.skipAddons) ==>
      AddonPlanStep(inp.addons[j], inp.lookups[k][j], inp.options).status == Completed
  {
    var plan := PlanOf(inp);
    var steps := plan.hops[k].steps;
    StepsOf(inp, k);
    PendingOfEmpty(steps, AddonStep);
    forall j | 0 <= j < |inp.addons| && !Matches(inp.addons[j].name, inp.options.skipAddons)
      ensures AddonPlanStep(inp.addons[j], inp.lookups[k][j], inp.options).status == Completed
    {
      assert steps[2 + j] == AddonPlanStep(inp.addons[j], inp.lookups[k][j], inp.options);
      assert !IsBlocked(steps[2 + j]);
    }
  }

  lemma NoNodegroupWork(inp: PlanInput, k: nat)
    requires WellFormed(inp) && k < |Hops(inp)|
    requires PendingOf(PlanOf(inp).hops[k].steps, NodegroupStep) == []
    ensures forall i :: 0 <= i < |inp.nodes| ==>
      NodegroupPlanStep(inp.nodes[i], Hops(inp)[k], inp.options).status != Pending
  {
    var steps := PlanOf(inp).hops[k].steps;
    StepsOf(inp, k);
    PendingOfEmpty(steps, NodegroupStep);
    forall i | 0 <= i < |inp.nodes|
      ensures NodegroupPlanStep(inp.nodes[i], Hops(inp)[k], inp.options).status != Pending
    {
      assert steps[2 + |inp.addons| + i] == NodegroupPlanStep(inp.nodes[i], Hops(inp)[k], inp.options);
    }
  }

  // ---- from phase to phase ----

  lemma AfterRolling(inp: PlanInput, k: nat, a: World, b: World, exact: bool, catalog: Catalog)
    requires WellFormed(inp) && k < |Hops(inp)| && InHop(inp, k, true, a, exact)
    requires AllAtNewest(a.addons, catalog, Hops(inp)[k], inp.options.skipAddons)
    requires NodesAt(inp, k + 1, b.nodes, exact)
    requires ControlPlaneLater(a, b) && OrderlyControlPlane(a) && AddonsForward(a.addons, b.addons)
    requires AllPendingUpTo(b.nodes, Hops(inp)[k])
    ensures At(inp, Next(BeforeRolls(k), |Hops(inp)|), b, exact, catalog)
  {
    hide InHop, NodesAt, AllAtNewest, At, Hops, HopTo;
    StillAtHop(inp, k, a, b, exact);
    AllAtNewestForward(a.addons, b.addons, catalog, Hops(inp)[k], inp.options.skipAddons);
    HopEnds(inp, k, b, exact, catalog);
  }

  lemma HopEnds(inp: PlanInput, k: nat, w: World, exact: bool, catalog: Catalog)
    requires WellFormed(inp) && k < |Hops(inp)| && NodesAt(inp, k + 1, w.nodes, exact)
    requires AddonsSnapshot(inp.addons, w.addons) && AllPendingUpTo(w.nodes, Hops(inp)[k])
    requires VersionAtLeast(w.cp, Hops(inp)[k]) && Reach(w) <= HopTo(inp, k) + 1
    requires AllAtNewest(w.addons, catalog, Hops(inp)[k], inp.options.skipAddons)
    ensures At(inp, Next(BeforeRolls(k), |Hops(inp)|), w, exact, catalog)
  {
    hide MinorVersion, InHop, NodesAt, AllAtNewest, Hops, HopTo, AddonsSnapshot, AllPendingUpTo, Reach;
    if k + 1 < |Hops(inp)| {
      NextHop(inp, k, w, exact);
    } else {
      Ends(inp, w, exact, catalog);
    }
  }

  lemma Ends(inp: PlanInput, w: World, exact: bool, catalog: Catalog)
    requires WellFormed(inp)
    requires var n := |Hops(inp)|;
      && NodesAt(inp, n, w.nodes, exact) && VersionAtLeast(w.cp, Hops(inp)[n - 1])
      && AllAtNewest(w.addons, catalog, Hops(inp)[n - 1], inp.options.skipAddons)
    ensures At(inp, AtEnd, w, exact, catalog)
  {}

  lemma StillAtHop(inp: PlanInput, k: nat, a: World, b: World, exact: bool)
    requires WellFormed(inp) && k < |Hops(inp)| && InHop(inp, k, true, a, exact)
    requires ControlPlaneLater(a, b) && OrderlyControlPlane(a) && AddonsForward(a.addons, b.addons)
    ensures AddonsSnapshot(inp.addons, b.addons)
    ensures VersionAtLeast(b.cp, Hops(inp)[k]) && Reach(b) <= HopTo(inp, k) + 1
  {
    HopMinor(inp, k);
    ControlPlaneLaterIsForward(a, b);
    AddonsSnapshotForward(inp.addons, a.addons, b.addons);
  }

  lemma SameAddonsForward(addons: map<string, Addon>)
    ensures AddonsForward(addons, addons)
  {
    forall n | n in addons { CompareFlip(addons[n].version, addons[n].version); }
  }

  /** The kind of the phase that is next. */
  function KindAt(p: Position): StepKind {
    if p.BeforeMove? then ControlPlane else if p.BeforeAddons? then AddonStep else NodegroupStep
  }

  function PhaseOf(hop: Hop, p: Position): RunPhase {
    match p
    case BeforeMove(_) => PhasesOf(hop)[0]
    case BeforeAddons(_) => PhasesOf(hop)[1]
    case _ => PhasesOf(hop)[2]
  }

  lemma PhasesOfHop(hop: Hop, p: Position)
    ensures PhaseOf(hop, p).hop == hop.to && PhaseOf(hop, p).kind == KindAt(p)
    ensures PhaseOf(hop, p).steps == PendingOf(hop.steps, KindAt(p))
  {}

  lemma PhaseAtPosition(hops: seq<Hop>, p: Position)
    requires !p.AtEnd? && p.k < |hops|
    ensures Phases(hops)[Index(p, |hops|)] == PhaseOf(hops[p.k], p)
  {
    hide Phases, PhasesOf;
    PhaseAt(hops, p.k);
  }

  lemma PhaseIs(inp: PlanInput, p: Position)
    requires WellFormed(inp) && !p.AtEnd? && p.k < |Hops(inp)|
    ensures var ph := Phases(PlanOf(inp).hops)[Index(p, |Hops(inp)|)];
      && ph.hop == Hops(inp)[p.k] && ph.kind == KindAt(p)
      && ph.steps == PendingOf(PlanOf(inp).hops[p.k].steps, ph.kind)
  {
    hide PhaseOf, Phases, PendingOf;
    PhaseAtPosition(PlanOf(inp).hops, p);
    PhasesOfHop(PlanOf(inp).hops[p.k], p);
  }

  /** A phase without pending steps is skipped, and the run is where it would be after it. */
  lemma SkipPhase(inp: PlanInput, p: Position, w: World, exact: bool, catalog: Catalog)
    requires WellFormed(inp) && !p.AtEnd? && p.k < |Hops(inp)| && Unblocked(inp) && CatalogAgrees(inp, catalog)
    requires Orderly(w) && At(inp, p, w, exact, catalog)
    requires Phases(PlanOf(inp).hops)[Index(p, |Hops(inp)|)].steps == []
    ensures At(inp, Next(p, |Hops(inp)|), w, exact, catalog)
  {
    PhaseIs(inp, p);
    match p
    case BeforeMove(k) => SkipMove(inp, k, w, exact);
    case BeforeAddons(k) => SkipAddons(inp, k, w, catalog);
    case BeforeRolls(k) => SkipRolls(inp, k, w, exact, catalog);
  }

  lemma SkipMove(inp: PlanInput, k: nat, w: World, exact: bool)
    requires WellFormed(inp) && k < |Hops(inp)| && InHop(inp, k, false, w, exact)
    requires PendingOf(PlanOf(inp).hops[k].steps, ControlPlane) == []
    ensures InHop(inp, k, true, w, exact)
  {
    NoControlPlaneWork(inp, k);
    ControlPlaneSkipped(inp, k, w, exact);
  }

  lemma SkipAddons(inp: PlanInput, k: nat, w: World, catalog: Catalog)
    requires WellFormed(inp) && k < |Hops(inp)| && Unblocked(inp) && CatalogAgrees(inp, catalog)
    requires AddonsSnapshot(inp.addons, w.addons)
    requires PendingOf(PlanOf(inp).hops[k].steps, AddonStep) == []
    ensures AllAtNewest(w.addons, catalog, Hops(inp)[k], inp.options.skipAddons)
  {
    NoAddonWork(inp, k);
    AddonsSkipped(inp, k, w, catalog);
  }

  lemma SkipRolls(inp: PlanInput, k: nat, w: World, exact: bool, catalog: Catalog)
    requires WellFormed(inp) && k < |Hops(inp)| && InHop(inp, k, true, w, exact) && OrderlyControlPlane(w)
    requires AllAtNewest(w.addons, catalog, Hops(inp)[k], inp.options.skipAddons)
    requires PendingOf(PlanOf(inp).hops[k].steps, NodegroupStep) == []
    ensures At(inp, Next(BeforeRolls(k), |Hops(inp)|), w, exact, catalog)
  {
    NoNodegroupWork(inp, k);
    NodesSkipped(inp, k, w.nodes, exact);
    SameAddonsForward(w.addons);
    AfterRolling(inp, k, w, w, exact, catalog);
  }

  // ---- running a phase ----

  /** What a planned run relies on and keeps. `exact`: nothing was in flight when planned. */
  ghost predicate Going(inp: PlanInput, p: Position, w: World, exact: bool, catalog: Catalog) {
    && WellFormed(inp) && Unblocked(inp) && CatalogAgrees(inp, catalog)
    && Orderly(w) && At(inp, p, w, exact, catalog)
  }

  lemma AddonPhaseForward(a: World, b: World)
    requires Orderly(a) && ControlPlaneLater(a, b) && NodesLater(a.nodes, b.nodes) && AddonsForward(a.addons, b.addons)
    ensures Forward(a, b)
  {
    NodesLaterIsForward(a, b.nodes);
  }

  lemma NodegroupPhaseForward(a: World, b: World)
    requires Orderly(a) && ControlPlaneLater(a, b) && NodesForward(a.nodes, b.nodes) && AddonsLater(a.addons, b.addons)
    ensures Forward(a, b)
  {
    var c := b.(nodes := a.nodes);
    assert NodesLater(a.nodes, c.nodes);
    LaterIsForward(a, c);
  }

  /** The request is one this phase makes. */
  predicate RequestOf(ph: RunPhase, r: Request) {
    match r
    case ControlPlaneRequest(t, _) => ph.kind == ControlPlane && t == ph.hop
    case AddonRequest(_, _, _) => ph.kind == AddonStep
    case RollRequest(_, t, _) => ph.kind == NodegroupStep && t == ph.hop
  }

  /** The log grew by requests of this phase only. */
  ghost predicate OnlyFrom(ph: RunPhase, before: seq<Request>, log: seq<Request>) {
    before <= log && forall k :: |before| <= k < |log| ==> RequestOf(ph, log[k])
  }

  /** The phase is the one the plan has next, and it has work. */
  ghost predicate IsNext(ph: RunPhase, inp: PlanInput, p: Position)
    requires WellFormed(inp)
  {
    && !p.AtEnd? && p.k < |Hops(inp)|
    && ph.hop == Hops(inp)[p.k] && ph.kind == KindAt(p)
    && ph.steps == PendingOf(PlanOf(inp).hops[p.k].steps, ph.kind) && ph.steps != []
  }

  /** What a phase must be given for its failures to have a cause outside: update IDs for the control
      plane, the built-in gate for nodegroups, a control plane exactly at the hop for addons. */
  ghost predicate Accountable(ph: RunPhase, w: World, namesUpdates: bool, customGate: bool) {
    match ph.kind
    case ControlPlane => namesUpdates && Parses(ph.hop)
    case NodegroupStep => !customGate
    case AddonStep => StaysAt(w, ph.hop)
    case Readiness => true
  }

  /** Request k heeds the options: no skipped addon is updated, no skipped nodegroup rolled, and none without
      having passed the gate. */
  ghost predicate HeedsAt(log: seq<Request>, k: nat, rec: Record, from: nat, heard: nat, opts: ExecuteOptions)
    requires k < |log|
  {
    match log[k]
    case ControlPlaneRequest(_, _) => true
    case AddonRequest(a, _, _) => !Matches(a, opts.options.skipAddons)
    case RollRequest(n, _, _) =>
      !Matches(n, opts.options.skipNodegroups) && GatedRoll(log, k, rec, from, heard, opts.customGate)
  }

  /** So do all requests of the run. */
  ghost predicate Heeds(before: seq<Request>, log: seq<Request>, rec: Record, from: nat, heard: nat,
                        opts: ExecuteOptions)
  {
    before <= log && forall k :: |before| <= k < |log| ==> HeedsAt(log, k, rec, from, heard, opts)
  }

  lemma NothingToHeed(log: seq<Request>, rec: Record, from: nat, heard: nat, opts: ExecuteOptions)
    ensures Heeds(log, log, rec, from, heard, opts)
  {}

  lemma RollsHeed(before: seq<Request>, log: seq<Request>, rec: Record, from: nat, heard: nat, opts: ExecuteOptions,
                  target: string)
    requires OnlyRolls(before, log, opts.options, target)
    requires GatedRolls(before, log, rec, from, heard, opts.customGate)
    ensures Heeds(before, log, rec, from, heard, opts)
  {
    hide GatedRoll, Matches;
    forall k | |before| <= k < |log| ensures HeedsAt(log, k, rec, from, heard, opts) {
      assert log[k].RollRequest? && GatedRoll(log, k, rec, from, heard, opts.customGate);
    }
  }

  /** What was heeded stays heeded as the run goes on. */
  lemma HeedsOn(log0: seq<Request>, a: seq<Request>, b: seq<Request>, recA: Record, recB: Record, from: nat, heard: nat,
                later: nat, heardLater: nat, opts: ExecuteOptions)
    requires Heeds(log0, a, recA, from, heard, opts) && Heeds(a, b, recB, later, heardLater, opts)
    requires recA.history <= recB.history && recA.told <= recB.told && from <= later && heard <= heardLater
    ensures Heeds(log0, b, recB, from, heard, opts)
  {
    hide GatedRoll, Matches;
    forall k | |log0| <= k < |b| ensures HeedsAt(b, k, recB, from, heard, opts) {
      if k < |a| {
        assert HeedsAt(a, k, recA, from, heard, opts) && b[k] == a[k];
        if a[k].RollRequest? { GatedOn(a, b, k, recA, recB, from, from, heard, heard, opts.customGate); }
      } else {
        assert HeedsAt(b, k, recB, later, heardLater, opts);
        if b[k].RollRequest? { GatedOn(b, b, k, recB, recB, from, later, heard, heardLater, opts.customGate); }
      }
    }
  }

  lemma GatedOn(a: seq<Request>, b: seq<Request>, k: nat, recA: Record, recB: Record, from: nat, later: nat, heard: nat,
                heardLater: nat, custom: bool)
    requires k < |a| <= |b| && b[k] == a[k] && a[k].RollRequest? && GatedRoll(a, k, recA, later, heardLater, custom)
    requires recA.history <= recB.history && recA.told <= recB.told && from <= later && heard <= heardLater
    ensures GatedRoll(b, k, recB, from, heard, custom)
  {
    hide Later, HealthyIn;
    var r := a[k];
    if custom {
      var j :| heardLater <= j < |recA.told| && recA.told[j].GateAnswer? && recA.told[j].name == r.name
               && recA.told[j].passed && recA.told[j].requests <= k;
      assert recB.told[j] == recA.told[j];
    } else {
      var i :| later <= i < |recA.history| && HealthyIn(recA.history[i], r.name) && Later(recA.history[i], r.seen);
      assert recB.history[i] == recA.history[i];
    }
  }

  /** The control-plane phase of a run. */
  method RunMove(eks: Client, ph: RunPhase, ghost inp: PlanInput, ghost p: Position, ghost exact: bool,
                 ghost good: bool)
    returns (ok: bool)
    requires eks.Valid() && ph.kind == ControlPlane
    requires good ==> eks.Sound() && Going(inp, p, eks.w, exact, eks.catalog) && IsNext(ph, inp, p)
    modifies eks
    ensures eks.Valid() && eks.patience <= old(eks.patience) && old(eks.history) <= eks.history
    ensures old(eks.troubles) <= eks.troubles
    ensures !ok && Accountable(ph, old(eks.w), eks.namesUpdates, false) ==> eks.troubles > old(eks.troubles)
    ensures OnlyFrom(ph, old(eks.log), eks.log) && old(eks.told) <= eks.told
    ensures NodesLater(old(eks.w.nodes), eks.w.nodes)
    ensures good ==> eks.Sound() && Forward(old(eks.w), eks.w)
    ensures good && ok ==> Going(inp, Next(p, |Hops(inp)|), eks.w, exact, eks.catalog)
  {
    hide InHop, Orderly, CatalogAgrees, Unblocked, Forward, NodesLater, AddonsLater, AllAtNewest, PendingOf,
      WellFormed;
    if good { MoveMayRun(inp, p.k, eks.w, exact); }
    ok := UpgradeControlPlane(eks, ph.hop);
    if good && ok {
      AfterControlPlane(inp, p.k, old(eks.w), eks.w, exact);
    }
  }

  lemma MoveMayRun(inp: PlanInput, k: nat, w: World, exact: bool)
    requires WellFormed(inp) && k < |Hops(inp)| && Unblocked(inp) && InHop(inp, k, false, w, exact)
    requires PendingOf(PlanOf(inp).hops[k].steps, ControlPlane) != []
    ensures MayMove(w, Hops(inp)[k])
  {
    UnblockedReach(inp, k);
    NoControlPlaneWork(inp, k);
    ControlPlaneMayMove(inp, k, w, exact);
  }

  /** The addon phase of a run. */
  method RunAddons(eks: Client, ph: RunPhase, options: PlanOptions, ghost inp: PlanInput, ghost p: Position,
                   ghost exact: bool, ghost good: bool)
    returns (ok: bool)
    requires eks.Valid() && ph.kind == AddonStep
    requires good ==>
      eks.Sound() && Going(inp, p, eks.w, exact, eks.catalog) && IsNext(ph, inp, p) && options == inp.options
    modifies eks
    ensures eks.Valid() && eks.patience <= old(eks.patience) && old(eks.history) <= eks.history
    ensures old(eks.troubles) <= eks.troubles
    ensures !ok && Accountable(ph, old(eks.w), eks.namesUpdates, false) ==> eks.troubles > old(eks.troubles)
    ensures OnlyFrom(ph, old(eks.log), eks.log) && old(eks.told) <= eks.told
    ensures forall k :: |old(eks.log)| <= k < |eks.log| ==> !Matches(eks.log[k].name, options.skipAddons)
    ensures NodesLater(old(eks.w.nodes), eks.w.nodes)
    ensures good ==> eks.Sound() && Forward(old(eks.w), eks.w)
    ensures good && ok ==> Going(inp, Next(p, |Hops(inp)|), eks.w, exact, eks.catalog)
  {
    hide InHop, Orderly, CatalogAgrees, Unblocked, Forward, NodesLater, AddonsForward, AllAtNewest, PendingOf,
      WellFormed, DependencySafe, SerialRequests, UpdatesInOrder, Matches;
    ok := UpgradeAddons(eks, ph.hop, options.skipAddons);
    if good {
      AddonPhaseForward(old(eks.w), eks.w);
      if ok { AfterAddons(inp, p.k, old(eks.w), eks.w, exact); }
    }
  }

  /** The nodegroup phase of a run. */
  method RunRolls(eks: Client, ph: RunPhase, opts: ExecuteOptions, ghost inp: PlanInput, ghost p: Position,
                  ghost exact: bool, ghost good: bool)
    returns (ok: bool)
    requires eks.Valid() && ph.kind == NodegroupStep && (good ==> eks.namesUpdates)
    requires good ==>
      eks.Sound() && Going(inp, p, eks.w, exact, eks.catalog) && IsNext(ph, inp, p) && opts.options == inp.options
    modifies eks
    ensures eks.Valid() && eks.patience <= old(eks.patience) && old(eks.history) <= eks.history
    ensures old(eks.troubles) <= eks.troubles
    ensures !ok && Accountable(ph, old(eks.w), eks.namesUpdates, opts.customGate) ==> eks.troubles > old(eks.troubles)
    ensures OnlyFrom(ph, old(eks.log), eks.log) && old(eks.told) <= eks.told
    ensures Heeds(old(eks.log), eks.log, Record(eks.history, eks.told), |old(eks.history)| - 1, |old(eks.told)|, opts)
    ensures OthersLater(old(eks.w.nodes), eks.w.nodes, opts.options)
    ensures good ==> eks.Sound() && Forward(old(eks.w), eks.w)
    ensures good && ok ==> Going(inp, Next(p, |Hops(inp)|), eks.w, exact, eks.catalog)
  {
    hide InHop, Orderly, CatalogAgrees, Unblocked, Forward, NodesForward, AddonsLater, AllAtNewest, AllPendingUpTo,
      NodesDealt, NodesTouched, OthersLater, PendingOf, WellFormed, MayRoll, NodesAt, Heeds, GatedRolls, SerialRolls,
      RollsInOrder;
    if good { NodesMayRoll(inp, p.k, eks.w, exact); }
    ok := UpgradeNodegroups(eks, ph.hop, opts.options, opts.customGate);
    RollsHeed(old(eks.log), eks.log, Record(eks.history, eks.told), |old(eks.history)| - 1, |old(eks.told)|, opts,
              ph.hop);
    TouchedIsOthers(old(eks.w.nodes), eks.w.nodes, opts.options, ph.hop);
    if good {
      NodegroupPhaseForward(old(eks.w), eks.w);
      if ok { RollsDone(inp, p.k, old(eks.w), eks.w, exact, eks.catalog); }
    }
  }

  lemma RollsDone(inp: PlanInput, k: nat, a: World, b: World, exact: bool, catalog: Catalog)
    requires WellFormed(inp) && k < |Hops(inp)| && InHop(inp, k, true, a, exact) && Orderly(a)
    requires AllAtNewest(a.addons, catalog, Hops(inp)[k], inp.options.skipAddons)
    requires ControlPlaneLater(a, b) && AddonsLater(a.addons, b.addons)
    requires NodesDealt(a.nodes, b.nodes, inp.options, Hops(inp)[k], true, true)
    requires AllPendingUpTo(b.nodes, Hops(inp)[k])
    ensures At(inp, Next(BeforeRolls(k), |Hops(inp)|), b, exact, catalog)
  {
    hide At, NodesAt, AllAtNewest, NodesDealt, AllPendingUpTo, Hops;
    AfterNodes(inp, k, a.nodes, b.nodes, exact);
    AddonsLaterIsForward(a, b.addons);
    AfterRolling(inp, k, a, b, exact, catalog);
  }

  lemma AddonsLaterIsForward(a: World, b: map<string, Addon>)
    requires Orderly(a) && AddonsLater(a.addons, b)
    ensures AddonsForward(a.addons, b)
  {
    var c := a.(addons := b);
    assert Later(a, c);
    LaterIsForward(a, c);
  }

  /** Running a phase. */
  method Run(eks: Client, ph: RunPhase, opts: ExecuteOptions, ghost inp: PlanInput, ghost p: Position,
             ghost exact: bool, ghost good: bool)
    returns (ok: bool)
    requires eks.Valid() && ph.kind != Readiness && (good ==> eks.namesUpdates)
    requires good ==>
      eks.Sound() && Going(inp, p, eks.w, exact, eks.catalog) && IsNext(ph, inp, p) && opts.options == inp.options
    modifies eks
    ensures eks.Valid() && eks.patience <= old(eks.patience) && old(eks.history) <= eks.history
    ensures old(eks.troubles) <= eks.troubles
    ensures !ok && Accountable(ph, old(eks.w), eks.namesUpdates, opts.customGate) ==> eks.troubles > old(eks.troubles)
    ensures OnlyFrom(ph, old(eks.log), eks.log) && old(eks.told) <= eks.told
    ensures Heeds(old(eks.log), eks.log, Record(eks.history, eks.told), |old(eks.history)| - 1, |old(eks.told)|, opts)
    ensures OthersLater(old(eks.w.nodes), eks.w.nodes, opts.options)
    ensures good ==> eks.Sound() && Forward(old(eks.w), eks.w)
    ensures good && ok ==> Going(inp, Next(p, |Hops(inp)|), eks.w, exact, eks.catalog)
  {
    hide Going, IsNext, Forward, Orderly, NodesLater, OthersLater, Matches, GatedRoll;
    match ph.kind {
      case ControlPlane =>
        ok := RunMove(eks, ph, inp, p, exact, good);
        LaterIsOthers(old(eks.w.nodes), eks.w.nodes, opts.options);
      case AddonStep =>
        ok := RunAddons(eks, ph, opts.options, inp, p, exact, good);
        LaterIsOthers(old(eks.w.nodes), eks.w.nodes, opts.options);
      case NodegroupStep => ok := RunRolls(eks, ph, opts, inp, p, exact, good);
    }
  }

  // ---- the engine ----

  /** The phases with pending steps among the first i, in order. */
  function PendingBefore(phases: seq<RunPhase>, i: nat): seq<nat>
    requires i <= |phases|
  {
    if i == 0 then [] else PendingBefore(phases, i - 1) + if phases[i - 1].steps == [] then [] else [i - 1]
  }

  /** Where the requests of the phase that ran j-th end. */
  function EndOf(marks: seq<nat>, j: nat, end: nat): nat { if j + 1 < |marks| then marks[j + 1] else end }

  ghost predicate PhaseRequests(phases: seq<RunPhase>, i: nat, log: seq<Request>, from: nat, to: nat) {
    i < |phases| && from <= to <= |log| && forall k :: from <= k < to ==> RequestOf(phases[i], log[k])
  }

  /** Every request of the run comes from a phase that ran, phase by phase: those of the phase that ran
      j-th lie between mark j and the next one. */
  ghost predicate RequestsFrom(phases: seq<RunPhase>, ran: seq<nat>, marks: seq<nat>, before: seq<Request>,
                               log: seq<Request>) {
    && before <= log && |marks| == |ran|
    && (if ran == [] then log == before else marks[0] == |before|)
    && forall j :: 0 <= j < |ran| ==> PhaseRequests(phases, ran[j], log, marks[j], EndOf(marks, j, |log|))
  }

  lemma OneMorePhase(phases: seq<RunPhase>, ran: seq<nat>, marks: seq<nat>, i: nat, before: seq<Request>,
                     log: seq<Request>, after: seq<Request>)
    requires i < |phases| && RequestsFrom(phases, ran, marks, before, log) && OnlyFrom(phases[i], log, after)
    ensures before <= after && RequestsFrom(phases, ran + [i], marks + [|log|], before, after)
  {
    var ran2, marks2 := ran + [i], marks + [|log|];
    forall j | 0 <= j < |ran2|
      ensures PhaseRequests(phases, ran2[j], after, marks2[j], EndOf(marks2, j, |after|))
    {
      if j < |ran| {
        assert PhaseRequests(phases, ran[j], log, marks[j], EndOf(marks, j, |log|));
        assert EndOf(marks2, j, |after|) == EndOf(marks, j, |log|);
      }
    }
  }

  // ---- confirmations ----

  /** One answer of the operator: to which label, and how many requests had been submitted by then. */
  datatype Confirmation = Confirmation(about: Label, yes: bool, requests: nat)

  /** The operator at the prompt. */
  class Operator {
    ghost var answers: seq<Confirmation>

    constructor ()
      ensures answers == []
    {
      answers := [];
    }

    method Confirm(about: Label, ghost requests: nat) returns (yes: bool)
      modifies this
      ensures answers == old(answers) + [Confirmation(about, yes, requests)]
    {
      yes := *;
      answers := answers + [Confirmation(about, yes, requests)];
    }
  }

  /** What a run leaves behind: the phases that ran, how many requests there were when each of them
      began, and what the operator was asked. */
  datatype Trail = Trail(ran: seq<nat>, marks: seq<nat>, asked: seq<Confirmation>)

  /** With --yes nobody was asked. Without it, every phase that ran has its own yes, given to its label
      before its first request and after the last request of the phase before it, and nothing else was
      agreed to; a run that was declined ends with the one no, given to the label of the phase it
      stopped at. */
  ghost predicate Confirmed(t: Trail, phases: seq<RunPhase>, yes: bool, declined: bool, stop: nat, requests: nat) {
    if yes then t.asked == [] && !declined
    else
      && |t.marks| == |t.ran| && |t.asked| == |t.ran| + (if declined then 1 else 0)
      && (forall j :: 0 <= j < |t.ran| ==>
            t.ran[j] < |phases| && t.asked[j] == Confirmation(phases[t.ran[j]].name, true, t.marks[j]))
      && (declined ==> stop < |phases| && t.asked[|t.ran|] == Confirmation(phases[stop].name, false, requests))
  }

  /** Some phase has pending steps. */
  ghost predicate AnyWork(phases: seq<RunPhase>) { exists i :: 0 <= i < |phases| && phases[i].steps != [] }

  /** The trail of the first i phases. */
  ghost predicate Tracked(t: Trail, phases: seq<RunPhase>, opts: ExecuteOptions, i: nat, before: seq<Request>,
                          log: seq<Request>)
  {
    && i <= |phases| && t.ran == PendingBefore(phases, i) && RequestsFrom(phases, t.ran, t.marks, before, log)
    && Confirmed(t, phases, opts.yes, false, 0, |log|)
    && (!opts.yes && !opts.canPrompt ==> t.ran == [] && t.asked == [] && !AnyWork(phases[..i]))
  }

  /** The trail of a run that ended. */
  ghost predicate Left(t: Trail, phases: seq<RunPhase>, opts: ExecuteOptions, exit: Exit, stop: nat,
                       before: seq<Request>, log: seq<Request>)
  {
    && RequestsFrom(phases, t.ran, t.marks, before, log)
    && Confirmed(t, phases, opts.yes, exit == Declined, stop, |log|)
    && (exit == NoPrompt <==> !opts.yes && !opts.canPrompt && AnyWork(phases))
    && (!opts.yes && !opts.canPrompt ==> t.ran == [] && t.asked == [])
  }

  /** The trail once phase i has run as well. */
  function OneMore(t: Trail, phases: seq<RunPhase>, yes: bool, i: nat, requests: nat): Trail
    requires i < |phases|
  {
    Trail(t.ran + [i], t.marks + [requests],
          if yes then t.asked else t.asked + [Confirmation(phases[i].name, true, requests)])
  }

  lemma TrackStarts(phases: seq<RunPhase>, opts: ExecuteOptions, log: seq<Request>)
    ensures Tracked(Trail([], [], []), phases, opts, 0, log, log)
  {
    NoRequests(phases, log);
  }

  lemma AnyWorkAt(phases: seq<RunPhase>, i: nat)
    requires i < |phases|
    ensures AnyWork(phases[..i + 1]) <==> AnyWork(phases[..i]) || phases[i].steps != []
    ensures phases[i].steps != [] ==> AnyWork(phases)
  {
    if j :| 0 <= j < i && phases[..i][j].steps != [] { assert phases[..i + 1][j].steps != []; }
    if phases[i].steps != [] { assert phases[..i + 1][i].steps != []; }
  }

  lemma TrackSkips(t: Trail, phases: seq<RunPhase>, opts: ExecuteOptions, i: nat, before: seq<Request>,
                   log: seq<Request>)
    requires Tracked(t, phases, opts, i, before, log) && i < |phases| && phases[i].steps == []
    ensures Tracked(t, phases, opts, i + 1, before, log)
  {
    hide RequestsFrom, Confirmed, AnyWork;
    AnyWorkAt(phases, i);
  }

  lemma TrackRuns(t: Trail, phases: seq<RunPhase>, opts: ExecuteOptions, i: nat, before: seq<Request>,
                  log: seq<Request>, after: seq<Request>)
    requires Tracked(t, phases, opts, i, before, log) && i < |phases| && phases[i].steps != []
    requires opts.yes || opts.canPrompt
    requires OnlyFrom(phases[i], log, after)
    ensures before <= after && Tracked(OneMore(t, phases, opts.yes, i, |log|), phases, opts, i + 1, before, after)
  {
    hide AnyWork, OnlyFrom;
    OneMorePhase(phases, t.ran, t.marks, i, before, log, after);
  }

  /** Phase i ended the run, or there was none left. */
  lemma TrackEnds(t: Trail, phases: seq<RunPhase>, opts: ExecuteOptions, i: nat, stop: nat, exit: Exit,
                  before: seq<Request>, log: seq<Request>)
    requires Tracked(t, phases, opts, i, before, log) && (i == |phases| || opts.yes || opts.canPrompt)
    requires exit != Declined && exit != NoPrompt
    ensures Left(t, phases, opts, exit, stop, before, log)
  {
    hide RequestsFrom, AnyWork;
    assert phases[..|phases|] == phases;
  }

  lemma TrackNoPrompt(t: Trail, phases: seq<RunPhase>, opts: ExecuteOptions, i: nat, before: seq<Request>,
                      log: seq<Request>)
    requires Tracked(t, phases, opts, i, before, log) && i < |phases| && phases[i].steps != []
    requires !opts.yes && !opts.canPrompt
    ensures Left(t, phases, opts, NoPrompt, i, before, log)
  {
    hide RequestsFrom;
    AnyWorkAt(phases, i);
  }

  /** The operator said no to phase i. */
  lemma TrackNo(t: Trail, phases: seq<RunPhase>, opts: ExecuteOptions, i: nat, before: seq<Request>,
                log: seq<Request>)
    requires Tracked(t, phases, opts, i, before, log) && i < |phases| && !opts.yes && opts.canPrompt
    ensures Left(t.(asked := t.asked + [Confirmation(phases[i].name, false, |log|)]), phases, opts, Declined, i, before,
                 log)
  {
    hide RequestsFrom, AnyWork;
  }

  /** The label announces this request. */
  predicate Announces(about: Label, r: Request) {
    match r
    case ControlPlaneRequest(t, _) => about.ControlPlaneLabel? && about.to == t
    case AddonRequest(_, _, _) => about.AddonsLabel?
    case RollRequest(_, t, _) => about.NodegroupsLabel? && about.to == t
  }

  /** When request k was submitted the operator had said yes to a label that announces it. */
  ghost predicate AgreedTo(answers: seq<Confirmation>, r: Request, k: nat) {
    exists j :: 0 <= j < |answers| && answers[j].yes && answers[j].requests <= k && Announces(answers[j].about, r)
  }

  ghost predicate AllAgreedTo(answers: seq<Confirmation>, before: seq<Request>, log: seq<Request>) {
    forall k :: |before| <= k < |log| ==> AgreedTo(answers, log[k], k)
  }

  lemma NothingAgreed(log: seq<Request>)
    ensures AllAgreedTo([], log, log)
  {}

  predicate Labelled(ph: RunPhase) {
    match ph.kind
    case ControlPlane => ph.name.ControlPlaneLabel? && ph.name.to == ph.hop
    case AddonStep => ph.name.AddonsLabel? && ph.name.to == ph.hop
    case NodegroupStep => ph.name.NodegroupsLabel? && ph.name.to == ph.hop
    case Readiness => false
  }

  lemma {:induction false} PhasesLabelled(hops: seq<Hop>, i: nat)
    requires i < 3 * |hops|
    ensures Labelled(Phases(hops)[i])
  {
    if i < 3 * (|hops| - 1) { PhasesLabelled(hops[..|hops| - 1], i); }
  }

  /** Request k belongs to a phase that ran. */
  lemma {:induction false} PhaseOfRequest(phases: seq<RunPhase>, ran: seq<nat>, marks: seq<nat>, before: seq<Request>,
                                          log: seq<Request>, k: nat, j: nat)
    returns (r: nat)
    requires RequestsFrom(phases, ran, marks, before, log) && j < |ran| && marks[j] <= k < |log|
    ensures j <= r < |ran| && marks[r] <= k < EndOf(marks, r, |log|)
    decreases |ran| - j
  {
    if k < EndOf(marks, j, |log|) {
      r := j;
    } else {
      r := PhaseOfRequest(phases, ran, marks, before, log, k, j + 1);
    }
  }

  /** Without --yes nothing is requested that the operator did not agree to before. */
  lemma OnlyWhatWasAgreed(t: Trail, phases: seq<RunPhase>, declined: bool, stop: nat, before: seq<Request>,
                          log: seq<Request>)
    requires Confirmed(t, phases, false, declined, stop, |log|) && RequestsFrom(phases, t.ran, t.marks, before, log)
    requires forall i :: 0 <= i < |phases| ==> Labelled(phases[i])
    ensures AllAgreedTo(t.asked, before, log)
  {
    hide RequestOf, Announces, Labelled;
    forall k | |before| <= k < |log| ensures AgreedTo(t.asked, log[k], k) {
      var j := PhaseOfRequest(phases, t.ran, t.marks, before, log, k, 0);
      assert PhaseRequests(phases, t.ran[j], log, t.marks[j], EndOf(t.marks, j, |log|));
      LabelAnnounces(phases[t.ran[j]], log[k]);
      assert t.asked[j] == Confirmation(phases[t.ran[j]].name, true, t.marks[j]);
    }
  }

  lemma LabelAnnounces(ph: RunPhase, r: Request)
    requires Labelled(ph) && RequestOf(ph, r)
    ensures Announces(ph.name, r)
  {}

  /** Where an execution stopped and what its report says about it: phase `stop` failed or was
      declined, or stop is the number of phases. `ran` lists the phases that were run. */
  ghost predicate Stopped(report: Report, exit: Exit, phases: seq<RunPhase>, ran: seq<nat>, stop: nat) {
    && stop <= |phases| && (exit != Finished ==> stop < |phases| && phases[stop].steps != [])
    && report.completed == PendingLabels(phases[..stop])
    && match exit
       case Finished => stop == |phases| && report.failedAt.None? && report.remaining == []
         && ran == PendingBefore(phases, stop)
       case Declined =>
         report.failedAt.None? && report.remaining == PendingLabels(phases[stop..])
           && ran == PendingBefore(phases, stop)
       case NoPrompt => report.failedAt.None? && report.remaining == [] && ran == PendingBefore(phases, stop)
       case RefusedBlocked => false
       case _ =>
         && report.failedAt == Some(phases[stop].name) && report.remaining == PendingLabels(phases[stop + 1..])
         && ran == PendingBefore(phases, stop + 1)
  }

  /** A phase failed or was cut short. */
  predicate Halts(exit: Exit) { exit == Failed || exit == Interrupted }

  /** Report conservation: completed, then the failed phase if any, then what remains are
      exactly the phases with pending steps, in order. */
  lemma ReportAccounts(report: Report, exit: Exit, phases: seq<RunPhase>, ran: seq<nat>, stop: nat)
    requires Stopped(report, exit, phases, ran, stop) && exit != NoPrompt
    ensures report.completed + (if report.failedAt.None? then [] else [report.failedAt.value]) + report.remaining
         == PendingLabels(phases)
  {
    hide PendingBefore, PendingLabels;
    SplitLabels(phases, stop);
    if stop < |phases| {
      PendingLabelsStep(phases, stop);
      SplitLabels(phases, stop + 1);
    } else {
      assert phases[..stop] == phases;
    }
  }

  lemma SplitLabels(phases: seq<RunPhase>, i: nat)
    requires i <= |phases|
    ensures PendingLabels(phases[..i]) + PendingLabels(phases[i..]) == PendingLabels(phases)
  {
    assert phases[..i] + phases[i..] == phases;
    PendingLabelsAppend(phases[..i], phases[i..]);
  }

  /** The simulation matched the cluster at every hop boundary the run passed. */
  ghost predicate BoundariesMatch(inp: PlanInput, starts: seq<World>, history: seq<World>, exact: bool)
    requires Plannable(inp)
  {
    && |starts| <= |Hops(inp)| + 1
    && forall k :: 0 <= k < |starts| ==> starts[k] in history && NodesAt(inp, k, starts[k].nodes, exact)
  }

  lemma {:induction false} PhaseKind(hops: seq<Hop>, i: nat)
    requires i < 3 * |hops|
    ensures Phases(hops)[i].kind != Readiness
  {
    if i < 3 * (|hops| - 1) { PhaseKind(hops[..|hops| - 1], i); }
  }

  lemma BoundariesLater(inp: PlanInput, starts: seq<World>, a: seq<World>, b: seq<World>, exact: bool)
    requires Plannable(inp) && BoundariesMatch(inp, starts, a, exact) && a <= b
    ensures BoundariesMatch(inp, starts, b, exact)
  {
    hide NodesAt, Hops;
    forall k | 0 <= k < |starts| ensures starts[k] in b {
      var i :| 0 <= i < |a| && a[i] == starts[k];
      assert b[i] == starts[k];
    }
  }

  /** The worlds at the hop boundaries passed once phase p has been reached. */
  ghost function Passed(starts: seq<World>, p: Position, w: World): seq<World> {
    if p.BeforeMove? || p.AtEnd? then starts + [w] else starts
  }

  lemma OneMoreBoundary(inp: PlanInput, w: World, exact: bool, starts: seq<World>, history: seq<World>)
    requires Plannable(inp) && |starts| <= |Hops(inp)| && NodesAt(inp, |starts|, w.nodes, exact) && w in history
    requires BoundariesMatch(inp, starts, history, exact)
    ensures BoundariesMatch(inp, starts + [w], history, exact)
  {
    hide NodesAt, Hops, Plannable;
    forall k | 0 <= k <= |starts|
      ensures (starts + [w])[k] in history && NodesAt(inp, k, (starts + [w])[k].nodes, exact)
    {
      if k < |starts| { assert (starts + [w])[k] == starts[k]; }
    }
  }

  /** The nodegroups at a position between two hops match the simulation. */
  lemma AtBoundary(inp: PlanInput, p: Position, w: World, exact: bool, catalog: Catalog)
    requires WellFormed(inp) && At(inp, p, w, exact, catalog) && (p.BeforeMove? || p.AtEnd?)
    ensures NodesAt(inp, if p.AtEnd? then |Hops(inp)| else p.k, w.nodes, exact)
  {
    hide NodesAt, Hops;
  }

  lemma Boundary(inp: PlanInput, p: Position, w: World, exact: bool, catalog: Catalog, starts: seq<World>,
                 history: seq<World>)
    requires Going(inp, p, w, exact, catalog) && w in history
    requires BoundariesMatch(inp, starts, history, exact) && |starts| == (Index(p, |Hops(inp)|) + 2) / 3
    ensures BoundariesMatch(inp, Passed(starts, p, w), history, exact)
    ensures |Passed(starts, p, w)| == (Index(p, |Hops(inp)|) + 3) / 3
  {
    hide NodesAt, Hops, Orderly, CatalogAgrees, Unblocked, AllAtNewest, InHop, BoundariesMatch;
    if p.BeforeMove? || p.AtEnd? {
      AtBoundary(inp, p, w, exact, catalog);
      assert |starts| == if p.AtEnd? then |Hops(inp)| else p.k;
      OneMoreBoundary(inp, w, exact, starts, history);
    }
  }

  lemma NextPhase(inp: PlanInput, p: Position, w: World, exact: bool, catalog: Catalog, i: nat)
    requires Going(inp, p, w, exact, catalog) && Index(p, |Hops(inp)|) == i < 3 * |Hops(inp)|
    ensures Index(Next(p, |Hops(inp)|), |Hops(inp)|) == i + 1
    ensures var ph := Phases(PlanOf(inp).hops)[i];
      if ph.steps == [] then Going(inp, Next(p, |Hops(inp)|), w, exact, catalog) else IsNext(ph, inp, p)
  {
    hide InHop, Orderly, CatalogAgrees, Unblocked, AllAtNewest, NodesAt, PendingOf, Hops;
    PhaseIs(inp, p);
    if Phases(PlanOf(inp).hops)[i].steps == [] { SkipPhase(inp, p, w, exact, catalog); }
  }

  lemma Ended(inp: PlanInput, p: Position, w: World, exact: bool, catalog: Catalog)
    requires Going(inp, p, w, exact, catalog) && Index(p, |Hops(inp)|) == 3 * |Hops(inp)|
    ensures p.AtEnd? && Converged(w, inp.target, LastHop(inp), inp.options, catalog)
  {
    hide InHop, Orderly, CatalogAgrees, Unblocked, AllAtNewest, NodesAt, Hops, Converged;
    RunConverged(inp, w, exact, catalog);
  }

  /** What a planned run relies on: an orderly cluster, answers that carry update IDs, and a
      plan that is the planner's own for a snapshot that still describes the cluster. */
  ghost predicate Ready(plan: Plan, inp: PlanInput, eks: Client, options: PlanOptions)
    reads eks
  {
    eks.Sound() && eks.namesUpdates && Planned(plan, inp, eks, options)
  }

  lemma NoRequests(phases: seq<RunPhase>, log: seq<Request>)
    ensures RequestsFrom(phases, [], [], log, log)
  {}

  /** What holds after the first i phases. */
  ghost predicate Underway(inp: PlanInput, p: Position, w0: World, w: World, exact: bool, catalog: Catalog,
                           starts: seq<World>, history: seq<World>, i: nat)
  {
    && Forward(w0, w) && Going(inp, p, w, exact, catalog) && Index(p, |Hops(inp)|) == i
    && BoundariesMatch(inp, starts, history, exact) && |starts| == (i + 2) / 3
  }

  /** The nodegroup versions the planner read are the live ones, and no roll is in flight. */
  ghost predicate Quiet(inp: PlanInput, w: World) {
    NodesExact(inp.nodes, w.nodes) && NodesQuiet(w.nodes)
  }

  lemma Starts(plan: Plan, inp: PlanInput, w: World, exact: bool, catalog: Catalog, history: seq<World>)
    requires WellFormed(inp) && plan == PlanOf(inp) && !SomeStep(plan, IsBlocked) && CatalogAgrees(inp, catalog)
    requires Orderly(w)
    requires ReadFrom(inp, w) && NoBlindRolls(w.nodes) && ReadableIn(inp.nodes, w.nodes) && exact == Quiet(inp, w)
    ensures Underway(inp, BeforeMove(0), w, w, exact, catalog, [], history, 0) && |plan.hops| == |Hops(inp)|
  {
    hide InHop, Orderly, CatalogAgrees, ReadFrom, NodesExact, NodesQuiet, ReadableIn, NoBlindRolls;
    HopStarts(inp, w, exact);
    SameAddonsForward(w.addons);
  }

  /** Reaching phase i: the boundary is recorded, and a phase without pending steps is over. */
  lemma Reached(inp: PlanInput, phases: seq<RunPhase>, p: Position, w0: World, w: World, exact: bool,
                catalog: Catalog, starts: seq<World>, history: seq<World>, i: nat)
    requires PhasesOfPlan(phases, inp) && i < |phases| && w in history
    requires Underway(inp, p, w0, w, exact, catalog, starts, history, i)
    ensures WellFormed(inp) && Plannable(inp) && Going(inp, p, w, exact, catalog)
    ensures KeptUp(inp, Passed(starts, p, w), w0, w, history, exact) && |Passed(starts, p, w)| == (i + 3) / 3
    ensures if phases[i].steps == [] then
        Underway(inp, NextOf(inp, p), w0, w, exact, catalog, Passed(starts, p, w), history, i + 1)
      else IsNext(phases[i], inp, p) && Index(NextOf(inp, p), |Hops(inp)|) == i + 1
  {
    hide At, Forward, Hops, Orderly, CatalogAgrees, Unblocked, BoundariesMatch, PendingOf, PlanOf, IsNext;
    Boundary(inp, p, w, exact, catalog, starts, history);
    NextPhase(inp, p, w, exact, catalog, i);
  }

  /** Going on after a phase that ran. */
  lemma Continues(inp: PlanInput, w0: World, a: World, b: World, starts: seq<World>, before: seq<World>,
                  after: seq<World>, exact: bool)
    requires KeptUp(inp, starts, w0, a, before, exact) && Forward(a, b) && before <= after
    ensures KeptUp(inp, starts, w0, b, after, exact)
  {
    hide Forward, BoundariesMatch;
    ForwardTransitive(w0, a, b);
    BoundariesLater(inp, starts, before, after, exact);
  }

  lemma StillUnderway(inp: PlanInput, q: Position, w0: World, w: World, exact: bool, catalog: Catalog,
                      starts: seq<World>, history: seq<World>, i: nat)
    requires Plannable(inp) && Going(inp, q, w, exact, catalog) && Index(q, |Hops(inp)|) == i
    requires KeptUp(inp, starts, w0, w, history, exact) && |starts| == (i + 2) / 3
    ensures Underway(inp, q, w0, w, exact, catalog, starts, history, i)
  {}

  lemma Finishes(inp: PlanInput, phases: seq<RunPhase>, p: Position, w0: World, w: World, exact: bool,
                 catalog: Catalog, starts: seq<World>, history: seq<World>)
    requires PhasesOfPlan(phases, inp) && w in history
    requires Underway(inp, p, w0, w, exact, catalog, starts, history, |phases|)
    ensures KeptUp(inp, Passed(starts, p, w), w0, w, history, exact)
    ensures Arrived(inp, Passed(starts, p, w), w, catalog)
  {
    hide At, Forward, Orderly, CatalogAgrees, Unblocked, BoundariesMatch, Converged, NodesAt;
    Boundary(inp, p, w, exact, catalog, starts, history);
    Ended(inp, p, w, exact, catalog);
  }

  lemma CurrentIsInHistory(eks: Client)
    requires eks.Valid()
    ensures eks.w in eks.history
  {}

  lemma SameIsForward(w: World)
    ensures Forward(w, w)
  {
    SameAddonsForward(w.addons);
  }

  /** How a phase went: it has no pending steps, nobody could be asked, the operator said no, or it ran. */
  datatype Verdict = NothingPending | CannotAsk | SaidNo | WentWell | WentWrong

  /** One phase with pending steps: the confirmation, then the run. */
  method ConfirmAndRun(eks: Client, operator: Operator, phases: seq<RunPhase>, i: nat, opts: ExecuteOptions,
                       ghost inp: PlanInput, ghost p: Position, ghost exact: bool, ghost good: bool,
                       ghost before: Trail, ghost answers: seq<Confirmation>, ghost log0: seq<Request>)
    returns (verdict: Verdict, ghost trail: Trail)
    requires eks.Valid() && i < |phases| && phases[i].steps != [] && phases[i].kind != Readiness
    requires good ==>
      && eks.namesUpdates && eks.Sound() && Going(inp, p, eks.w, exact, eks.catalog) && IsNext(phases[i], inp, p)
      && opts.options == inp.options
    requires Tracked(before, phases, opts, i, log0, eks.log) && operator.answers == answers + before.asked
    modifies eks, operator
    ensures eks.Valid() && eks.patience <= old(eks.patience) && old(eks.history) <= eks.history
    ensures old(eks.troubles) <= eks.troubles && operator.answers == answers + trail.asked
    ensures old(eks.told) <= eks.told
    ensures Heeds(old(eks.log), eks.log, Record(eks.history, eks.told), |old(eks.history)| - 1, |old(eks.told)|, opts)
    ensures verdict != NothingPending
    ensures verdict == CannotAsk ==> trail == before && Left(trail, phases, opts, NoPrompt, i, log0, eks.log)
    ensures verdict == SaidNo ==> trail.ran == before.ran && Left(trail, phases, opts, Declined, i, log0, eks.log)
    ensures verdict == CannotAsk || verdict == SaidNo ==>
      eks.w == old(eks.w) && eks.log == old(eks.log) && eks.history == old(eks.history)
    ensures verdict == WentWell || verdict == WentWrong ==>
      && trail.ran == before.ran + [i] && Tracked(trail, phases, opts, i + 1, log0, eks.log)
      && (opts.yes || opts.canPrompt)
    ensures verdict == WentWrong && Accountable(phases[i], old(eks.w), eks.namesUpdates, opts.customGate) ==>
      eks.troubles > old(eks.troubles)
    ensures OthersLater(old(eks.w.nodes), eks.w.nodes, opts.options)
    ensures good ==> eks.Sound() && Forward(old(eks.w), eks.w)
    ensures good && verdict == WentWell ==> Going(inp, Next(p, |Hops(inp)|), eks.w, exact, eks.catalog)
  {
    hide Tracked, Left, Going, Forward, Orderly, Hops, PlanOf, IsNext, OnlyFrom, OthersLater, MinorVersion, Accountable,
      RequestOf, Heeds;
    NothingToHeed(eks.log, Record(eks.history, eks.told), |eks.history| - 1, |eks.told|, opts);
    trail := before;
    SameIsForward(eks.w);
    SameIsOthers(eks.w.nodes, opts.options);
    if !opts.yes {
      if !opts.canPrompt {
        TrackNoPrompt(trail, phases, opts, i, log0, eks.log);
        return CannotAsk, trail;
      }
      var confirmed := operator.Confirm(phases[i].name, |eks.log|);
      if !confirmed {
        TrackNo(trail, phases, opts, i, log0, eks.log);
        trail := trail.(asked := trail.asked + [Confirmation(phases[i].name, false, |eks.log|)]);
        return SaidNo, trail;
      }
    }
    ghost var log := eks.log;
    var ok := Run(eks, phases[i], opts, inp, p, exact, good);
    TrackRuns(trail, phases, opts, i, log0, log, eks.log);
    trail := OneMore(trail, phases, opts.yes, i, |log|);
    return if ok then WentWell else WentWrong, trail;
  }

  /** The phases are those of the plan. */
  ghost predicate PhasesOfPlan(phases: seq<RunPhase>, inp: PlanInput) {
    WellFormed(inp) && phases == Phases(PlanOf(inp).hops) && |phases| == 3 * |Hops(inp)|
  }

  /** The phase that failed is one whose failures have a cause outside. */
  ghost predicate Explained(phases: seq<RunPhase>, stop: nat, namesUpdates: bool, customGate: bool) {
    && namesUpdates && !customGate && stop < |phases|
    && phases[stop].kind != AddonStep && Parses(phases[stop].hop)
  }

  lemma IsExplained(phases: seq<RunPhase>, i: nat, w: World, namesUpdates: bool, customGate: bool)
    requires i < |phases|
    ensures Explained(phases, i, namesUpdates, customGate) ==> Accountable(phases[i], w, namesUpdates, customGate)
  {}

  /** No version went back, and the simulation matched at every hop boundary passed. */
  ghost predicate KeptUp(inp: PlanInput, starts: seq<World>, w0: World, w: World, history: seq<World>, exact: bool) {
    Plannable(inp) && Forward(w0, w) && BoundariesMatch(inp, starts, history, exact)
  }

  /** The run passed every hop boundary, and the cluster has converged. */
  ghost predicate Arrived(inp: PlanInput, starts: seq<World>, w: World, catalog: Catalog) {
    Plannable(inp) && |starts| == |Hops(inp)| + 1 && Converged(w, inp.target, LastHop(inp), inp.options, catalog)
  }

  function NextOf(inp: PlanInput, p: Position): Position
    requires Plannable(inp)
  {
    Next(p, |Hops(inp)|)
  }

  /** Stopped, from its parts. */
  lemma Stops(report: Report, exit: Exit, phases: seq<RunPhase>, ran: seq<nat>, stop: nat)
    requires stop <= |phases| && (exit != Finished ==> stop < |phases| && phases[stop].steps != [])
    requires report.completed == PendingLabels(phases[..stop])
    requires exit == Finished ==> stop == |phases|
    requires exit == Finished || exit == NoPrompt || exit == Declined ==>
      report.failedAt.None? && ran == PendingBefore(phases, stop)
    requires exit == Finished || exit == NoPrompt ==> report.remaining == []
    requires exit == Declined ==> report.remaining == PendingLabels(phases[stop..])
    requires exit == Failed || exit == Interrupted ==>
      && report.failedAt == Some(phases[stop].name) && report.remaining == PendingLabels(phases[stop + 1..])
      && ran == PendingBefore(phases, stop + 1)
    requires exit != RefusedBlocked
    ensures Stopped(report, exit, phases, ran, stop)
  {}

  /** One phase of the loop: the boundary before it, then its confirmation and run unless it has no
      pending steps. */
  method Advance(eks: Client, operator: Operator, phases: seq<RunPhase>, i: nat, opts: ExecuteOptions,
                 ghost inp: PlanInput, ghost p: Position, ghost starts: seq<World>, ghost exact: bool, ghost good: bool,
                 ghost before: Trail, ghost answers: seq<Confirmation>, ghost w0: World, ghost log0: seq<Request>)
    returns (verdict: Verdict, ghost trail: Trail, ghost q: Position, ghost passed: seq<World>)
    requires eks.Valid() && i < |phases| && phases[i].kind != Readiness
    requires good ==>
      && eks.Sound() && eks.namesUpdates && opts.options == inp.options && PhasesOfPlan(phases, inp)
      && Underway(inp, p, w0, eks.w, exact, eks.catalog, starts, eks.history, i)
    requires Tracked(before, phases, opts, i, log0, eks.log) && operator.answers == answers + before.asked
    requires OthersLater(w0.nodes, eks.w.nodes, opts.options)
    modifies eks, operator
    ensures eks.Valid() && eks.patience <= old(eks.patience) && old(eks.history) <= eks.history
    ensures old(eks.troubles) <= eks.troubles && operator.answers == answers + trail.asked
    ensures old(eks.told) <= eks.told
    ensures Heeds(old(eks.log), eks.log, Record(eks.history, eks.told), |old(eks.history)| - 1, |old(eks.told)|, opts)
    ensures OthersLater(w0.nodes, eks.w.nodes, opts.options)
    ensures verdict == NothingPending <==> phases[i].steps == []
    ensures verdict == NothingPending ==> trail == before && Tracked(trail, phases, opts, i + 1, log0, eks.log)
    ensures verdict == CannotAsk ==> trail == before && Left(trail, phases, opts, NoPrompt, i, log0, eks.log)
    ensures verdict == SaidNo ==> trail.ran == before.ran && Left(trail, phases, opts, Declined, i, log0, eks.log)
    ensures verdict != WentWell && verdict != WentWrong ==> eks.w == old(eks.w) && eks.history == old(eks.history)
    ensures verdict == WentWell || verdict == WentWrong ==>
      && trail.ran == before.ran + [i] && Tracked(trail, phases, opts, i + 1, log0, eks.log)
      && (opts.yes || opts.canPrompt)
    ensures verdict == WentWrong && Explained(phases, i, eks.namesUpdates, opts.customGate) ==>
      eks.troubles > old(eks.troubles)
    ensures good ==> eks.Sound() && KeptUp(inp, passed, w0, eks.w, eks.history, exact)
    ensures good && (verdict == NothingPending || verdict == WentWell) ==>
      Underway(inp, q, w0, eks.w, exact, eks.catalog, passed, eks.history, i + 1)
  {
    hide Tracked, Left, KeptUp, PhasesOfPlan, Explained, Accountable, Underway, Passed, Going, Forward, Orderly, Hops,
      PlanOf, IsNext, Phases, Index, OthersLater, MinorVersion, Heeds;
    NothingToHeed(eks.log, Record(eks.history, eks.told), |eks.history| - 1, |eks.told|, opts);
    q, passed, trail := p, starts, before;
    if good {
      CurrentIsInHistory(eks);
      Reached(inp, phases, p, w0, eks.w, exact, eks.catalog, starts, eks.history, i);
      passed, q := Passed(starts, p, eks.w), NextOf(inp, p);
    }
    if phases[i].steps == [] {
      TrackSkips(trail, phases, opts, i, log0, eks.log);
      return NothingPending, trail, q, passed;
    }
    ghost var w, history := eks.w, eks.history;
    verdict, trail := ConfirmAndRun(eks, operator, phases, i, opts, inp, p, exact, good, trail, answers, log0);
    OthersTransitive(w0.nodes, w.nodes, eks.w.nodes, opts.options);
    IsExplained(phases, i, w, eks.namesUpdates, opts.customGate);
    if good {
      Continues(inp, w0, w, eks.w, passed, history, eks.history, exact);
      if verdict == WentWell { StillUnderway(inp, q, w0, eks.w, exact, eks.catalog, passed, eks.history, i + 1); }
    }
  }

  /** The loop over the phases. */
  method RunPhases(eks: Client, operator: Operator, phases: seq<RunPhase>, opts: ExecuteOptions,
                   ghost inp: PlanInput, ghost exact: bool, ghost good: bool)
    returns (report: Report, exit: Exit, ghost trail: Trail, ghost stop: nat, ghost starts: seq<World>)
    requires eks.Valid() && forall i :: 0 <= i < |phases| ==> phases[i].kind != Readiness
    requires good ==>
      && eks.Sound() && eks.namesUpdates && opts.options == inp.options && PhasesOfPlan(phases, inp)
      && Underway(inp, BeforeMove(0), eks.w, eks.w, exact, eks.catalog, [], eks.history, 0)
    modifies eks, operator
    ensures eks.Valid() && eks.patience <= old(eks.patience) && old(eks.history) <= eks.history
    ensures old(eks.troubles) <= eks.troubles
    ensures exit != RefusedBlocked && Stopped(report, exit, phases, trail.ran, stop)
    ensures operator.answers == old(operator.answers) + trail.asked
    ensures Left(trail, phases, opts, exit, stop, old(eks.log), eks.log)
    ensures exit == Interrupted ==> eks.patience == 0
    ensures exit == Failed ==> eks.patience > 0
    ensures trail.ran == [] ==> eks.w == old(eks.w) && eks.history == old(eks.history)
    ensures old(eks.told) <= eks.told
    ensures Heeds(old(eks.log), eks.log, Record(eks.history, eks.told), |old(eks.history)| - 1, |old(eks.told)|, opts)
    ensures Halts(exit) && Explained(phases, stop, eks.namesUpdates, opts.customGate) ==>
      eks.troubles > old(eks.troubles)
    ensures OthersLater(old(eks.w.nodes), eks.w.nodes, opts.options)
    ensures good ==> eks.Sound() && KeptUp(inp, starts, old(eks.w), eks.w, eks.history, exact)
    ensures good && exit == Finished ==> Arrived(inp, starts, eks.w, eks.catalog)
  {
    hide Tracked, Left, Stopped, KeptUp, Arrived, PhasesOfPlan, Explained, Accountable, Underway, Passed, RequestOf,
      Going, Forward, Orderly, BoundariesMatch, Hops, PlanOf, IsNext, Converged, OnlyFrom, Phases, Index, OthersLater,
      MinorVersion, PendingLabels, CatalogAgrees, AllAtNewest, WellFormed, Plannable, OneMore, Client.Sound,
      SafeHistory, OrderlyRequest, Heeds;
    NothingToHeed(eks.log, Record(eks.history, eks.told), |eks.history| - 1, |eks.told|, opts);
    trail, stop, starts := Trail([], [], []), 0, [];
    ghost var answers, w0, log0 := operator.answers, eks.w, eks.log;
    report := Report([], None, []);
    ghost var p := BeforeMove(0);
    TrackStarts(phases, opts, eks.log);
    TrackedRan(trail, phases, opts, 0, eks.log, eks.log);
    SameIsOthers(eks.w.nodes, opts.options);
    NoLabels(phases);
    for i := 0 to |phases|
      invariant eks.Valid() && eks.patience <= old(eks.patience) && old(eks.history) <= eks.history
      invariant old(eks.troubles) <= eks.troubles && old(eks.told) <= eks.told
      invariant Heeds(log0, eks.log, Record(eks.history, eks.told), |old(eks.history)| - 1, |old(eks.told)|, opts)
      invariant report == Report(PendingLabels(phases[..i]), None, []) && trail.ran == PendingBefore(phases, i)
      invariant trail.ran == [] ==> eks.w == old(eks.w) && eks.history == old(eks.history)
      invariant OthersLater(old(eks.w.nodes), eks.w.nodes, opts.options)
      invariant operator.answers == answers + trail.asked
      invariant Tracked(trail, phases, opts, i, log0, eks.log)
      invariant good ==> eks.Sound() && Underway(inp, p, w0, eks.w, exact, eks.catalog, starts, eks.history, i)
    {
      PendingLabelsStep(phases, i);
      ghost var log, rec := eks.log, Record(eks.history, eks.told);
      var verdict;
      verdict, trail, p, starts :=
        Advance(eks, operator, phases, i, opts, inp, p, starts, exact, good, trail, answers, w0, log0);
      HeedsOn(log0, log, eks.log, rec, Record(eks.history, eks.told), |old(eks.history)| - 1, |old(eks.told)|,
        |rec.history| - 1, |rec.told|, opts);
      match verdict {
        case NothingPending =>
        case CannotAsk =>
          Stops(report, NoPrompt, phases, trail.ran, i);
          return report, NoPrompt, trail, i, starts;
        case SaidNo =>
          var remaining := CollectLabels(phases[i..]);
          report := report.(remaining := remaining);
          Stops(report, Declined, phases, trail.ran, i);
          return report, Declined, trail, i, starts;
        case WentWell =>
          report := report.(completed := report.completed + [phases[i].name]);
        case WentWrong =>
          var remaining := CollectLabels(phases[i + 1..]);
          report := report.(failedAt := Some(phases[i].name), remaining := remaining);
          exit := if eks.patience == 0 then Interrupted else Failed;
          TrackEnds(trail, phases, opts, i + 1, i, exit, log0, eks.log);
          Stops(report, exit, phases, trail.ran, i);
          return report, exit, trail, i, starts;
      }
    }
    if good {
      CurrentIsInHistory(eks);
      Finishes(inp, phases, p, w0, eks.w, exact, eks.catalog, starts, eks.history);
      starts := Passed(starts, p, eks.w);
    }
    assert phases[..|phases|] == phases;
    TrackEnds(trail, phases, opts, |phases|, |phases|, Finished, log0, eks.log);
    Stops(report, Finished, phases, trail.ran, |phases|);
    return report, Finished, trail, |phases|, starts;
  }

  lemma TrackedRan(t: Trail, phases: seq<RunPhase>, opts: ExecuteOptions, i: nat, before: seq<Request>,
                   log: seq<Request>)
    requires Tracked(t, phases, opts, i, before, log)
    ensures i <= |phases| && t.ran == PendingBefore(phases, i)
  {}

  /** What the trail of a run says in plain terms. */
  lemma LeftBehind(t: Trail, phases: seq<RunPhase>, opts: ExecuteOptions, exit: Exit, stop: nat, before: seq<Request>,
                   log: seq<Request>)
    requires Left(t, phases, opts, exit, stop, before, log)
    requires forall i :: 0 <= i < |phases| ==> Labelled(phases[i])
    ensures before <= log && (t.ran == [] ==> log == before)
    ensures opts.yes ==> t.asked == []
    ensures !opts.yes ==> AllAgreedTo(t.asked, before, log)
  {
    hide Labelled, AllAgreedTo;
    if !opts.yes { OnlyWhatWasAgreed(t, phases, exit == Declined, stop, before, log); }
  }

  /** Execute. Phases run in plan order until one fails or is declined, without --yes each only after the
      operator agreed to it, and the report accounts for every phase with pending steps. A ready run
      keeps the cluster orderly with every control-plane move within skew, only moves forward, and its
      simulation matches the cluster at every hop boundary; if it finishes, the cluster has converged. */
  method Execute(eks: Client, operator: Operator, plan: Plan, opts: ExecuteOptions, ghost inp: PlanInput)
    returns (report: Report, exit: Exit, ghost trail: Trail, ghost stop: nat, ghost starts: seq<World>)
    requires eks.Valid()
    modifies eks, operator
    ensures eks.Valid() && eks.patience <= old(eks.patience) && old(eks.history) <= eks.history
    ensures old(eks.troubles) <= eks.troubles
    ensures exit == RefusedBlocked <==> SomeStep(plan, IsBlocked)
    ensures exit == RefusedBlocked ==> trail == Trail([], [], []) && report == Report([], None, [])
    ensures exit != RefusedBlocked ==> Stopped(report, exit, Phases(plan.hops), trail.ran, stop)
    ensures operator.answers == old(operator.answers) + trail.asked && (opts.yes ==> trail.asked == [])
    ensures exit != RefusedBlocked ==> Left(trail, Phases(plan.hops), opts, exit, stop, old(eks.log), eks.log)
    ensures !opts.yes ==> AllAgreedTo(trail.asked, old(eks.log), eks.log)
    ensures old(eks.told) <= eks.told
    ensures Heeds(old(eks.log), eks.log, Record(eks.history, eks.told), |old(eks.history)| - 1, |old(eks.told)|, opts)
    ensures exit == Interrupted ==> eks.patience == 0
    ensures exit == Failed ==> eks.patience > 0
    ensures old(eks.log) <= eks.log
    ensures trail.ran == [] ==> eks.w == old(eks.w) && eks.log == old(eks.log) && eks.history == old(eks.history)
    ensures Halts(exit) && eks.namesUpdates && !opts.customGate ==>
      var ph := Phases(plan.hops)[stop];
      ph.kind != AddonStep && Parses(ph.hop) ==> eks.troubles > old(eks.troubles)
    ensures OthersLater(old(eks.w.nodes), eks.w.nodes, opts.options)
    ensures old(Ready(plan, inp, eks, opts.options)) && exit != RefusedBlocked ==>
      && eks.Sound() && Forward(old(eks.w), eks.w)
      && BoundariesMatch(inp, starts, eks.history, old(Quiet(inp, eks.w)))
    ensures old(Ready(plan, inp, eks, opts.options)) && exit == Finished ==>
      && |starts| == |Hops(inp)| + 1
      && Converged(eks.w, inp.target, LastHop(inp), inp.options, eks.catalog)
  {
    hide Forward, Orderly, BoundariesMatch, Left, NodesExact, NodesQuiet, Hops, PlanOf, Underway, ReadFrom,
      CatalogAgrees, NoBlindRolls, ReadableIn, Converged, Phases, SomeStep, OthersLater, AllAgreedTo, MinorVersion,
      Labelled, Heeds;
    NothingToHeed(eks.log, Record(eks.history, eks.told), |eks.history| - 1, |eks.told|, opts);
    var blockers := Blockers(plan);
    if blockers != [] {
      trail, stop, starts := Trail([], [], []), 0, [];
      NothingAgreed(eks.log);
      SameIsOthers(eks.w.nodes, opts.options);
      return Report([], None, []), RefusedBlocked, trail, stop, starts;
    }
    ghost var good, exact := Ready(plan, inp, eks, opts.options), Quiet(inp, eks.w);
    var phases := FlattenPhases(plan);
    forall i | 0 <= i < |phases| { PhaseKind(plan.hops, i); }
    if good { Starts(plan, inp, eks.w, exact, eks.catalog, eks.history); }
    report, exit, trail, stop, starts := RunPhases(eks, operator, phases, opts, inp, exact, good);
    forall i | 0 <= i < |phases| { PhasesLabelled(plan.hops, i); }
    LeftBehind(trail, phases, opts, exit, stop, old(eks.log), eks.log);
  }
}
