/** The upgrade command and its reruns: planning, the refusals, and the run
    (internal/commands/cluster/upgrade.go). */
module Upgrade {
  import opened GoStrings
  import opened Versions
  import opened AddonVersions
  import opened AddonOrder
  import opened Eks
  import opened Planner
  import opened Simulation
  import opened Progress
  import opened NodegroupPhase
  import opened AddonPhase
  import opened Planning
  import opened RunState
  import opened Engine

  datatype Outcome = PlanFailed | PlanBlocked | DryRun | NothingToDo | Executed(report: Report, exit: Exit)

  /** The outcomes that say the cluster is where it should be. */
  predicate Succeeded(o: Outcome) {
    o.NothingToDo? || (o.Executed? && o.exit == Finished)
  }

  /** Exactly which outcome a plan leads to. */
  ghost predicate Follows(o: Outcome, plan: Plan, dryRun: bool) {
    && (o.PlanBlocked? <==> SomeStep(plan, IsBlocked))
    && (o.DryRun? <==> !SomeStep(plan, IsBlocked) && dryRun)
    && (o.NothingToDo? <==> !SomeStep(plan, IsBlocked) && !dryRun && !SomeStep(plan, IsWork))
    && (o.Executed? <==> !SomeStep(plan, IsBlocked) && !dryRun && SomeStep(plan, IsWork))
  }

  /** Every nodegroup is readable and within the kubelet skew of a minor. */
  ghost predicate AllWithin(nodes: map<string, Nodegroup>, m: int) {
    forall n :: n in nodes ==> Parses(nodes[n].version) && m - Minor(nodes[n].version) <= KUBELET_SKEW
  }

  /** runUpgrade. Whatever happens, a sound cluster stays sound (every control-plane move left every
      readable nodegroup within skew, every request was orderly) and nothing goes back; success
      means convergence; and while every nodegroup is within skew of the target the skew gate
      blocks nothing. Without a run, nothing is requested. */
  method RunUpgrade(eks: Client, operator: Operator, target: string, opts: ExecuteOptions, dryRun: bool)
    returns (outcome: Outcome, ghost inp: PlanInput)
    requires eks.Valid()
    modifies eks, operator
    ensures eks.Valid() && old(eks.history) <= eks.history && old(eks.log) <= eks.log
    ensures old(eks.troubles) <= eks.troubles
    ensures !outcome.Executed? ==> eks.log == old(eks.log) && Later(old(eks.w), eks.w)
    ensures !outcome.PlanFailed? ==>
      WellFormed(inp) && inp.target == target && inp.options == opts.options && CatalogAgrees(inp, eks.catalog)
    ensures !outcome.PlanFailed? ==> Follows(outcome, PlanOf(inp), dryRun)
    ensures dryRun ==> !outcome.Executed? && eks.log == old(eks.log)
    ensures old(operator.answers) <= operator.answers
    ensures !outcome.Executed? || opts.yes ==> operator.answers == old(operator.answers)
    ensures !opts.yes ==> AllAgreedTo(operator.answers[|old(operator.answers)|..], old(eks.log), eks.log)
    ensures old(eks.told) <= eks.told
    ensures Heeds(old(eks.log), eks.log, Record(eks.history, eks.told), |old(eks.history)| - 1, |old(eks.told)|, opts)
    ensures outcome.PlanFailed? ==>
      eks.troubles > old(eks.troubles) || Unplannable(eks.history, |old(eks.history)| - 1, target)
    ensures outcome.NothingToDo? ==> SelectAll(PlanOf(inp).hops, IsWork) == []
    ensures outcome.Executed? ==> outcome.exit != RefusedBlocked
    ensures OthersLater(old(eks.w.nodes), eks.w.nodes, opts.options)
    ensures old(eks.Sound()) && eks.namesUpdates && old(NoBlindRolls(eks.w.nodes)) ==>
      eks.Sound() && Forward(old(eks.w), eks.w)
    ensures old(eks.Sound()) && eks.namesUpdates && old(NoBlindRolls(eks.w.nodes)) && Succeeded(outcome) ==>
      Converged(eks.w, target, LastHop(inp), opts.options, eks.catalog)
    ensures old(eks.Sound()) && Parses(target) && old(AllWithin(eks.w.nodes, Minor(target))) && !outcome.PlanFailed? ==>
      !SkewBlocked(inp)
  {
    hide Orderly, Forward, NoBlindRolls, AllWithin, Converged, PlanOf, SomeStep, SelectAll, CatalogAgrees, Later,
      SkewBlocked, ReadFrom, NodesSince, AddonsSince, NodesExact, NodesQuiet, ReadableIn, LastHop, Unplannable,
      WellFormed, OthersLater, Heeds, MinorVersion, Follows, IsWork, IsBlocked, Matches, HopsDecided, Told,
      StopsPlanning, GatedRoll, AgreedTo, Hops;
    ghost var w0, sound := eks.w, eks.Sound();
    ghost var good := sound && eks.namesUpdates && NoBlindRolls(w0.nodes);
    var r;
    r, inp := BuildPlan(eks, target, opts.options);
    ghost var rec := Record(eks.history, eks.told);
    NothingToHeed(eks.log, rec, |old(eks.history)| - 1, |old(eks.told)|, opts);
    if good { LaterIsForward(w0, eks.w); }
    TimeOnly(w0, eks.w, opts.options);
    if r.Err? {
      return PlanFailed, inp;
    }
    if sound && Parses(target) && AllWithin(w0.nodes, Minor(target)) { WithinNeverBlocked(inp, w0.nodes); }
    ghost var w1 := eks.w;
    outcome := Proceed(eks, operator, r.value, opts, dryRun, inp);
    HeedsOn(old(eks.log), old(eks.log), eks.log, rec, Record(eks.history, eks.told), |old(eks.history)| - 1,
            |old(eks.told)|, |rec.history| - 1, |rec.told|, opts);
    OthersTransitive(w0.nodes, w1.nodes, eks.w.nodes, opts.options);
    if good { ForwardTransitive(w0, w1, eks.w); }
  }

  /** From the plan on: the refusals and the run. */
  method Proceed(eks: Client, operator: Operator, plan: Plan, opts: ExecuteOptions, dryRun: bool, ghost inp: PlanInput)
    returns (outcome: Outcome)
    requires eks.Valid() && WellFormed(inp) && plan == PlanOf(inp) && inp.options == opts.options
    requires CatalogAgrees(inp, eks.catalog)
    modifies eks, operator
    ensures eks.Valid() && old(eks.history) <= eks.history && old(eks.log) <= eks.log
    ensures old(eks.troubles) <= eks.troubles
    ensures !outcome.PlanFailed? && Follows(outcome, plan, dryRun)
    ensures dryRun ==> !outcome.Executed? && eks.log == old(eks.log)
    ensures old(operator.answers) <= operator.answers
    ensures !outcome.Executed? || opts.yes ==> operator.answers == old(operator.answers)
    ensures !opts.yes ==> AllAgreedTo(operator.answers[|old(operator.answers)|..], old(eks.log), eks.log)
    ensures old(eks.told) <= eks.told
    ensures Heeds(old(eks.log), eks.log, Record(eks.history, eks.told), |old(eks.history)| - 1, |old(eks.told)|, opts)
    ensures !outcome.Executed? ==> eks.log == old(eks.log) && eks.w == old(eks.w)
    ensures outcome.NothingToDo? ==> SelectAll(PlanOf(inp).hops, IsWork) == []
    ensures outcome.Executed? ==> outcome.exit != RefusedBlocked
    ensures OthersLater(old(eks.w.nodes), eks.w.nodes, opts.options)
    ensures old(Engine.Ready(plan, inp, eks, opts.options)) ==>
      && eks.Sound() && Forward(old(eks.w), eks.w)
      && (Succeeded(outcome) ==> Converged(eks.w, inp.target, LastHop(inp), opts.options, eks.catalog))
  {
    hide Orderly, Forward, NoBlindRolls, Converged, PlanOf, SomeStep, SelectAll, CatalogAgrees, ReadFrom,
      NodesExact, NodesQuiet, ReadableIn, BoundariesMatch, Stopped, RequestsFrom, LastHop, WellFormed, OthersLater,
      Heeds;
    NothingToHeed(eks.log, Record(eks.history, eks.told), |eks.history| - 1, |eks.told|, opts);
    ghost var good := Engine.Ready(plan, inp, eks, opts.options);
    SameIsForward(eks.w);
    SameIsOthers(eks.w.nodes, opts.options);
    var blockers := Blockers(plan);
    if blockers != [] {
      return PlanBlocked;
    }
    if dryRun {
      return DryRun;
    }
    var pending := PendingSteps(plan);
    if pending == 0 {
      if good { NoWorkConverged(inp, eks.w, eks.catalog); }
      return NothingToDo;
    }
    var report, exit;
    ghost var trail, stop, starts;
    report, exit, trail, stop, starts := Execute(eks, operator, plan, opts, inp);
    return Executed(report, exit);
  }

  lemma TimeOnly(a: World, b: World, options: PlanOptions)
    requires Later(a, b)
    ensures OthersLater(a.nodes, b.nodes, options)
  {
    LaterIsOthers(a.nodes, b.nodes, options);
  }

  lemma WithinNeverBlocked(inp: PlanInput, nodes: map<string, Nodegroup>)
    requires WellFormed(inp) && NodesSince(inp.nodes, nodes) && AllWithin(nodes, Minor(inp.target))
    ensures !SkewBlocked(inp)
  {
    NeverSkewBlocked(inp);
  }

  lemma NoWorkAt(inp: PlanInput, k: nat)
    requires WellFormed(inp) && k < |Hops(inp)| && SelectAll(PlanOf(inp).hops, IsWork) == []
    ensures var steps := PlanOf(inp).hops[k].steps;
      PendingOf(steps, ControlPlane) == [] && PendingOf(steps, AddonStep) == [] && PendingOf(steps, NodegroupStep) == []
  {
    hide PendingOf, HopAt, Hops, IsWork;
    SelectAllEmpty(PlanOf(inp).hops, IsWork);
    SelectEmpty(PlanOf(inp).hops[k].steps, IsWork);
    PendingOfAll(PlanOf(inp).hops[k].steps);
  }

  lemma NoNodegroupBehind(inp: PlanInput, k: nat, nodes: map<string, Nodegroup>)
    requires WellFormed(inp) && k < |Hops(inp)| && NodesSnapshot(inp.nodes, nodes)
    requires forall i :: 0 <= i < |inp.nodes| ==>
      NodegroupPlanStep(inp.nodes[i], Hops(inp)[k], inp.options).status != Pending
    ensures forall n :: n in nodes && Rollable(n, nodes[n].customAmi, inp.options) ==>
      VersionAtLeast(nodes[n].version, Hops(inp)[k])
  {
    hide Hops, DistinctNames, Matches;
    forall n | n in nodes && Rollable(n, nodes[n].customAmi, inp.options)
      ensures VersionAtLeast(nodes[n].version, Hops(inp)[k])
    {
      var i :| 0 <= i < |inp.nodes| && inp.nodes[i].name == n;
      assert NodegroupPlanStep(inp.nodes[i], Hops(inp)[k], inp.options).status != Pending;
    }
  }

  /** A plan that is neither blocked nor has work describes a converged cluster. */
  lemma NoWorkConverged(inp: PlanInput, w: World, catalog: Catalog)
    requires WellFormed(inp) && CatalogAgrees(inp, catalog) && ReadFrom(inp, w)
    requires !SomeStep(PlanOf(inp), IsBlocked) && SelectAll(PlanOf(inp).hops, IsWork) == []
    ensures Converged(w, inp.target, LastHop(inp), inp.options, catalog)
  {
    hide CatalogAgrees, PendingOf, HopAt, Hops, IsWork, SomeStep, NodesSnapshot, AddonsSnapshot, AllAtNewest,
      PlanOf, NodegroupPlanStep, AddonPlanStep, Rollable, SelectAll;
    var k := |Hops(inp)| - 1;
    HopMinor(inp, k);
    NoWorkAt(inp, k);
    NoControlPlaneWork(inp, k);
    NoAddonWork(inp, k);
    AddonsSkipped(inp, k, w, catalog);
    NoNodegroupWork(inp, k);
    NoNodegroupBehind(inp, k, w.nodes);
  }

  // ---- rerunning ----

  lemma ForwardKeepsWithin(a: World, b: World, m: int)
    requires Forward(a, b)
    ensures AllWithin(a.nodes, m) ==> AllWithin(b.nodes, m)
  {
    if AllWithin(a.nodes, m) {
      forall n | n in b.nodes ensures Parses(b.nodes[n].version) && m - Minor(b.nodes[n].version) <= KUBELET_SKEW {
        assert NoOlder(b.nodes[n].version, a.nodes[n].version) && Parses(a.nodes[n].version);
      }
    }
  }

  /** One invocation of the command. */
  datatype Attempt = Attempt(target: string, opts: ExecuteOptions, dryRun: bool)

  /** What the skew gate said in one attempt; planned is false when no plan came about. */
  datatype Gate = Gate(target: string, planned: bool, skewBlocked: bool)

  /** A cluster whose nodegroups were all within skew of the target did not trip the gate. */
  ghost predicate NeverGated(g: Gate, w0: World) {
    g.planned && Parses(g.target) && AllWithin(w0.nodes, Minor(g.target)) ==> !g.skewBlocked
  }

  /** From attempt `from` on, no attempt starts with a roll in flight for a nodegroup whose version cannot
      be read, and none but the last may roll such a nodegroup. */
  ghost predicate Sighted(nodes: map<string, Nodegroup>, attempts: seq<Attempt>, from: nat) {
    from < |attempts| ==>
      && NoBlindRolls(nodes)
      && forall n, i ::
           n in nodes && from <= i < |attempts| - 1 && RollableNow(n, nodes[n], attempts[i].opts.options) ==>
             Parses(nodes[n].version)
  }

  lemma StillSighted(a: map<string, Nodegroup>, b: map<string, Nodegroup>, attempts: seq<Attempt>, i: nat)
    requires i < |attempts| && Sighted(a, attempts, i)
    requires NodesForward(a, b) && OthersLater(a, b, attempts[i].opts.options)
    ensures Sighted(b, attempts, i + 1)
  {
    if i + 1 < |attempts| {
      forall n | n in b && !Parses(b[n].version) ensures b[n].pending.None? && b[n].version == a[n].version {
        assert NoOlder(b[n].version, a[n].version);
        assert !RollableNow(n, a[n], attempts[i].opts.options);
      }
    }
  }

  /** The operator's loop: the command again and again, whatever each attempt ended with and
      however it was cut short. Over all of it every control-plane move left every nodegroup within
      skew and every request was orderly; and an attempt is never skew-blocked when every nodegroup
      started within skew of its target. */
  method Rerun(eks: Client, operator: Operator, attempts: seq<Attempt>)
    returns (outcomes: seq<Outcome>, ghost gates: seq<Gate>)
    requires eks.Valid()
    modifies eks, operator
    ensures eks.Valid() && |outcomes| == |gates| == |attempts| && old(eks.troubles) <= eks.troubles
    ensures forall i :: 0 <= i < |gates| ==>
      gates[i].target == attempts[i].target && gates[i].planned == !outcomes[i].PlanFailed?
    ensures old(eks.Sound()) && eks.namesUpdates && old(Sighted(eks.w.nodes, attempts, 0)) ==>
      && eks.Sound() && Forward(old(eks.w), eks.w) && old(eks.history) <= eks.history
      && forall i :: 0 <= i < |gates| ==> NeverGated(gates[i], old(eks.w))
  {
    hide Orderly, Forward, AllWithin, Sighted, Converged, PlanOf, SomeStep, SelectAll, CatalogAgrees, Later,
      SkewBlocked, WellFormed, OthersLater, MinorVersion;
    ghost var w0, good := eks.w, eks.Sound() && eks.namesUpdates && Sighted(eks.w.nodes, attempts, 0);
    outcomes, gates := [], [];
    SameIsForward(eks.w);
    for i := 0 to |attempts|
      invariant eks.Valid() && |outcomes| == |gates| == i && old(eks.history) <= eks.history
      invariant old(eks.troubles) <= eks.troubles
      invariant forall j :: 0 <= j < i ==>
        gates[j].target == attempts[j].target && gates[j].planned == !outcomes[j].PlanFailed?
      invariant good ==> eks.Sound() && Forward(w0, eks.w) && Sighted(eks.w.nodes, attempts, i)
      invariant good ==> forall j :: 0 <= j < i ==> NeverGated(gates[j], w0)
    {
      var attempt := attempts[i];
      ghost var w := eks.w;
      if good { SightedNow(w.nodes, attempts, i); }
      var outcome;
      ghost var inp;
      outcome, inp := RunUpgrade(eks, operator, attempt.target, attempt.opts, attempt.dryRun);
      ghost var gate := Gate(attempt.target, !outcome.PlanFailed?, !outcome.PlanFailed? && SkewBlocked(inp));
      if good {
        if Parses(attempt.target) { ForwardKeepsWithin(w0, w, Minor(attempt.target)); }
        ForwardTransitive(w0, w, eks.w);
        SightedAfter(w, eks.w, attempts, i);
      }
      outcomes, gates := outcomes + [outcome], gates + [gate];
    }
  }

  lemma SightedNow(nodes: map<string, Nodegroup>, attempts: seq<Attempt>, i: nat)
    requires i < |attempts| && Sighted(nodes, attempts, i)
    ensures NoBlindRolls(nodes)
  {}

  lemma SightedAfter(a: World, b: World, attempts: seq<Attempt>, i: nat)
    requires i < |attempts| && Sighted(a.nodes, attempts, i) && Forward(a, b)
    requires OthersLater(a.nodes, b.nodes, attempts[i].opts.options)
    ensures Sighted(b.nodes, attempts, i + 1)
  {
    StillSighted(a.nodes, b.nodes, attempts, i);
  }

  // ---- the plan after convergence ----

  /** The addon is skipped, cannot be looked up, or was read at the newest version or newer. */
  predicate AddonDone(inp: PlanInput, j: nat)
    requires WellFormed(inp) && j < |inp.addons|
  {
    || Matches(inp.addons[j].name, inp.options.skipAddons) || inp.lookups[0][j].None?
    || CompareVersions(inp.addons[j].version, inp.lookups[0][j].value) >= 0
  }

  predicate NodegroupDone(inp: PlanInput, i: nat)
    requires i < |inp.nodes|
  {
    var ng := inp.nodes[i];
    Rollable(ng.name, ng.customAmi, inp.options) ==> VersionAtLeast(ng.version, inp.target)
  }

  /** Every addon that was read without a version is done. */
  ghost predicate UndescribedDone(inp: PlanInput)
    requires WellFormed(inp)
  {
    forall j :: 0 <= j < |inp.addons| && inp.addons[j].version == "" ==> AddonDone(inp, j)
  }

  lemma SameVersionHop(inp: PlanInput)
    requires WellFormed(inp) && Minor(inp.cp) == Minor(inp.target)
    ensures Hops(inp) == [inp.target] && |PlanOf(inp).hops| == 1
    ensures SelectAll(PlanOf(inp).hops, IsWork) == Select(PlanOf(inp).hops[0].steps, IsWork)
  {
    hide HopAt;
    var hops := PlanOf(inp).hops;
    assert hops[..0] == [];
    assert SelectAll(hops, IsWork) == SelectAll(hops[..0], IsWork) + Select(hops[0].steps, IsWork);
  }

  lemma WorkAddon(inp: PlanInput, j: nat)
    requires WellFormed(inp) && j < |inp.addons|
    ensures IsWork(AddonPlanStep(inp.addons[j], inp.lookups[0][j], inp.options)) <==> !AddonDone(inp, j)
  {
    hide Matches, CompareVersions, Hops;
  }

  lemma WorkNodegroup(inp: PlanInput, i: nat)
    requires i < |inp.nodes|
    ensures IsWork(NodegroupPlanStep(inp.nodes[i], inp.target, inp.options)) <==> !NodegroupDone(inp, i)
  {
    hide Rollable, VersionAtLeast;
  }

  lemma WorkAt(inp: PlanInput, i: nat)
    requires WellFormed(inp) && Minor(inp.cp) == Minor(inp.target) && i < |PlanOf(inp).hops[0].steps|
    ensures |PlanOf(inp).hops[0].steps| == 2 + |inp.addons| + |inp.nodes|
    ensures IsWork(PlanOf(inp).hops[0].steps[i]) <==>
              || (2 <= i < 2 + |inp.addons| && !AddonDone(inp, i - 2))
              || (i >= 2 + |inp.addons| && !NodegroupDone(inp, i - 2 - |inp.addons|))
  {
    hide PlanOf, Rollable, Matches, Hops, AddonPlanStep, NodegroupPlanStep, AddonDone, NodegroupDone, MinorVersion,
      CompareVersions;
    SameVersionHop(inp);
    StepsOf(inp, 0);
    if 2 <= i < 2 + |inp.addons| {
      WorkAddon(inp, i - 2);
    } else if i >= 2 + |inp.addons| {
      WorkNodegroup(inp, i - 2 - |inp.addons|);
    }
  }

  /** A same-version plan has no pending step exactly when every rollable nodegroup was read at
      the target or newer and every addon is done. */
  lemma NoWorkIff(inp: PlanInput)
    requires WellFormed(inp) && Minor(inp.cp) == Minor(inp.target)
    ensures SelectAll(PlanOf(inp).hops, IsWork) == [] <==>
              && (forall i :: 0 <= i < |inp.nodes| ==> NodegroupDone(inp, i))
              && (forall j :: 0 <= j < |inp.addons| ==> AddonDone(inp, j))
  {
    hide PlanOf, Hops, Select, SelectAll, IsWork, NodegroupDone, AddonDone;
    SameVersionHop(inp);
    var steps := PlanOf(inp).hops[0].steps;
    SelectEmpty(steps, IsWork);
    StepsOf(inp, 0);
    forall i | 0 <= i < |steps| { WorkAt(inp, i); }
    forall j | 0 <= j < |inp.addons| ensures IsWork(steps[2 + j]) <==> !AddonDone(inp, j) { WorkAt(inp, 2 + j); }
    forall i | 0 <= i < |inp.nodes| ensures IsWork(steps[2 + |inp.addons| + i]) <==> !NodegroupDone(inp, i) {
      WorkAt(inp, 2 + |inp.addons| + i);
    }
  }

  /** A plan made after convergence, from a reading no older: nothing is left to do, unless an addon
      that is not up to date in the planner's eyes was read without a version. */
  lemma RerunIsNoOp(inp: PlanInput, w: World, catalog: Catalog, described: bool)
    requires WellFormed(inp) && CatalogAgrees(inp, catalog) && ReadSince(inp, w, described)
    requires Converged(w, inp.target, inp.target, inp.options, catalog)
    ensures Minor(inp.cp) == Minor(inp.target)
    ensures SelectAll(PlanOf(inp).hops, IsWork) == [] <==> UndescribedDone(inp)
    ensures described ==> SelectAll(PlanOf(inp).hops, IsWork) == []
  {
    hide SelectAll, PlanOf, Rollable, Matches, CompareVersions;
    assert Hops(inp) == [inp.target];
    forall i | 0 <= i < |inp.nodes| ensures NodegroupDone(inp, i) {
      assert NoOlder(inp.nodes[i].version, w.nodes[inp.nodes[i].name].version);
    }
    forall j | 0 <= j < |inp.addons| && AddonSince(inp.addons[j], w.addons) ensures AddonDone(inp, j) {
      AddonIsDone(inp, j, w, catalog);
    }
    NoWorkIff(inp);
  }

  lemma AddonIsDone(inp: PlanInput, j: nat, w: World, catalog: Catalog)
    requires WellFormed(inp) && CatalogAgrees(inp, catalog) && Hops(inp) == [inp.target] && j < |inp.addons|
    requires AllAtNewest(w.addons, catalog, inp.target, inp.options.skipAddons) && AddonSince(inp.addons[j], w.addons)
    ensures AddonDone(inp, j)
  {
    hide Matches, CompareVersions, HasVersions, NewestFor, Hops;
    var a := inp.addons[j];
    assert LookupsAgree(inp.addons, inp.lookups[0], catalog, Hops(inp)[0]);
    if !Matches(a.name, inp.options.skipAddons) && inp.lookups[0][j].Some? {
      assert AtNewest(w.addons, catalog, a.name, inp.target);
      CompareTransitive(a.version, w.addons[a.name].version, inp.lookups[0][j].value);
    }
  }

  lemma ConvergedForward(a: World, b: World, target: string, hop: string, options: PlanOptions, catalog: Catalog)
    requires Converged(a, target, hop, options, catalog) && Forward(a, b)
    ensures Converged(b, target, hop, options, catalog)
  {
    hide AllAtNewest, AddonsForward, Rollable;
    AllAtNewestForward(a.addons, b.addons, catalog, hop, options.skipAddons);
  }

  /** The last hop of a plan is the target as typed exactly when the cluster was at its minor already
      or the target is written the way the hops are written. */
  lemma LastHopIsTarget(inp: PlanInput)
    requires WellFormed(inp)
    ensures EndsAt(inp, inp.target) <==>
      Minor(inp.cp) == Minor(inp.target) || inp.target == Release(Minor(inp.target))
  {
    hide Release;
  }

  /** The plan the next invocation makes for a converged cluster: it has no pending step exactly when no
      addon that could not be described shows up as work, and none when planning met no trouble. */
  method NextPlan(eks: Client, target: string, options: PlanOptions) returns (plan: Result<Plan>, ghost inp: PlanInput)
    requires eks.Valid()
    modifies eks
    ensures eks.Waited()
    ensures plan.Ok? ==> WellFormed(inp) && inp.target == target && plan.value == PlanOf(inp)
    ensures old(eks.Sound()) && old(Converged(eks.w, target, target, options, eks.catalog)) && plan.Ok? ==>
      && (SelectAll(plan.value.hops, IsWork) == [] <==> UndescribedDone(inp))
      && (eks.troubles == old(eks.troubles) ==> SelectAll(plan.value.hops, IsWork) == [])
  {
    hide Orderly, Converged, PlanOf, SelectAll, CatalogAgrees, Later, ReadSince, Snapped, UndescribedDone, Unplannable;
    ghost var w, good := eks.w, eks.Sound() && Converged(eks.w, target, target, options, eks.catalog);
    plan, inp := BuildPlan(eks, target, options);
    if good && plan.Ok? { RerunIsNoOp(inp, w, eks.catalog, eks.troubles == old(eks.troubles)); }
  }

  /** The last hop of the plan is the target as typed; LastHopIsTarget says when. */
  predicate EndsAt(inp: PlanInput, target: string) { Plannable(inp) && LastHop(inp) == target }

  /** The command to success, whatever is run after it, and the plan the next invocation makes. */
  method PlanAgain(eks: Client, operator: Operator, attempt: Attempt, later: seq<Attempt>)
    returns (outcome: Outcome, plan: Result<Plan>, ghost first: PlanInput, ghost inp: PlanInput, ghost trouble: bool)
    requires eks.Valid()
    modifies eks, operator
    ensures eks.Valid() && (!outcome.PlanFailed? ==> WellFormed(first))
    ensures trouble ==> eks.troubles > old(eks.troubles)
    ensures plan.Ok? ==> WellFormed(inp) && inp.target == attempt.target && plan.value == PlanOf(inp)
    ensures old(eks.Sound()) && eks.namesUpdates && old(Sighted(eks.w.nodes, [attempt] + later, 0)) ==>
      Succeeded(outcome) && plan.Ok? && EndsAt(first, attempt.target) ==>
        && (SelectAll(plan.value.hops, IsWork) == [] <==> UndescribedDone(inp))
        && (!trouble ==> SelectAll(plan.value.hops, IsWork) == [])
  {
    hide Orderly, Forward, Sighted, Converged, PlanOf, SomeStep, SelectAll, CatalogAgrees, Later, SkewBlocked,
      OthersLater, LastHop, ReadSince, Snapped, UndescribedDone, NeverGated, Unplannable;
    ghost var w0, good := eks.w, eks.Sound() && eks.namesUpdates && Sighted(eks.w.nodes, [attempt] + later, 0);
    if good { SightedNow(w0.nodes, [attempt] + later, 0); }
    outcome, first := RunUpgrade(eks, operator, attempt.target, attempt.opts, attempt.dryRun);
    ghost var w1 := eks.w;
    if good { SightedTail(w0, w1, attempt, later); }
    var outcomes;
    ghost var gates;
    outcomes, gates := Rerun(eks, operator, later);
    if good && Succeeded(outcome) && EndsAt(first, attempt.target) {
      ConvergedForward(w1, eks.w, attempt.target, attempt.target, attempt.opts.options, eks.catalog);
    }
    ghost var troubles := eks.troubles;
    plan, inp := NextPlan(eks, attempt.target, attempt.opts.options);
    trouble := eks.troubles > troubles;
  }

  lemma SightedTail(a: World, b: World, attempt: Attempt, later: seq<Attempt>)
    requires Sighted(a.nodes, [attempt] + later, 0) && Forward(a, b)
    requires OthersLater(a.nodes, b.nodes, attempt.opts.options)
    ensures Sighted(b.nodes, later, 0)
  {
    hide MinorVersion, OthersLater, AddonsForward;
    var attempts := [attempt] + later;
    StillSighted(a.nodes, b.nodes, attempts, 0);
    forall n, i | n in b.nodes && 0 <= i < |later| - 1 && RollableNow(n, b.nodes[n], later[i].opts.options)
      ensures Parses(b.nodes[n].version)
    {
      assert attempts[i + 1] == later[i];
    }
  }
}
