/** The nodegroup phase: serial version rolls behind a health gate
    (internal/services/upgrade/nodegroups.go, service.go). */
module NodegroupPhase {
  import opened GoStrings
  import opened Versions
  import opened Eks
  import opened Planner
  import opened Progress
  import opened Simulation
  import opened ControlPlanePhase

  // ---- reading the nodegroups ----

  /** Each listed state was true of its nodegroup at some moment between a and b. */
  ghost predicate ListedBetween(states: seq<NodegroupState>, listed: seq<Nodegroup>,
                                a: map<string, Nodegroup>, b: map<string, Nodegroup>)
  {
    && |states| == |listed|
    && forall j :: 0 <= j < |states| ==> ListedAt(states[j], listed[j], a, b)
  }

  ghost predicate ListedAt(s: NodegroupState, l: Nodegroup, a: map<string, Nodegroup>, b: map<string, Nodegroup>) {
    && s.name in a && s.name in b
    && s.version == l.version && s.customAmi == l.customAmi
    && NodegroupLater(a[s.name], l) && NodegroupLater(l, b[s.name])
  }

  lemma ListedLater(states: seq<NodegroupState>, listed: seq<Nodegroup>,
                    a: map<string, Nodegroup>, b: map<string, Nodegroup>, c: map<string, Nodegroup>)
    requires ListedBetween(states, listed, a, b) && NodesLater(b, c)
    ensures ListedBetween(states, listed, a, c)
  {
    forall j | 0 <= j < |states| ensures ListedAt(states[j], listed[j], a, c) {
      assert ListedAt(states[j], listed[j], a, b);
    }
  }

  lemma NothingListed(a: map<string, Nodegroup>, b: map<string, Nodegroup>)
    ensures ListedBetween([], [], a, b)
  {}

  lemma OneMoreListed(states: seq<NodegroupState>, listed: seq<Nodegroup>, a: map<string, Nodegroup>,
                      b: map<string, Nodegroup>,
                      name: string, ng: Nodegroup)
    requires ListedBetween(states, listed, a, b) && NodesLater(a, b) && name in b && b[name] == ng
    ensures ListedBetween(states + [NodegroupState(name, ng.version, ng.customAmi)], listed + [ng], a, b)
  {
    var s2, l2 := states + [NodegroupState(name, ng.version, ng.customAmi)], listed + [ng];
    forall j | 0 <= j < |s2| ensures ListedAt(s2[j], l2[j], a, b) {
      if j < |states| { assert ListedAt(states[j], listed[j], a, b); } else { assert NodegroupLater(a[name], b[name]); }
    }
  }

  /** An answer about nodegroups; `failed` says that it is an error. */
  predicate OfNodegroups(a: Answer, failed: bool) {
    (a.NodegroupsAnswer? && a.nodegroups.Err? == failed) || (a.NodegroupAnswer? && a.nodegroup.Err? == failed)
  }

  /** From index `from` on only nodegroups were asked for, and only the last call may have failed. */
  ghost predicate NodegroupsTold(told: seq<Answer>, from: nat, failed: bool) {
    && from < |told| && OfNodegroups(told[|told| - 1], failed)
    && forall k :: from <= k < |told| - 1 ==> OfNodegroups(told[k], false)
  }

  lemma OneMoreTold(told: seq<Answer>, from: nat, a: Answer, failed: bool)
    requires from == |told| || NodegroupsTold(told, from, false)
    requires from <= |told| && OfNodegroups(a, failed)
    ensures NodegroupsTold(told + [a], from, failed)
  {}

  /** The answer describes a nodegroup as the state has it. */
  predicate Describes(a: Answer, s: NodegroupState) {
    && a.NodegroupAnswer? && a.name == s.name && a.nodegroup.Ok? && a.nodegroup.value.Some?
    && a.nodegroup.value.value.version == s.version && a.nodegroup.value.value.customAmi == s.customAmi
  }

  /** From index `from` on the cluster's nodegroups were listed, then described one by one in that order. */
  ghost predicate Listing(told: seq<Answer>, from: nat, states: seq<NodegroupState>) {
    && from + |states| < |told| && told[from].NodegroupsAnswer? && told[from].nodegroups.Ok?
    && |told[from].nodegroups.value| == |states|
    && forall i :: 0 <= i < |states| ==>
         states[i].name == told[from].nodegroups.value[i] && Describes(told[from + 1 + i], states[i])
  }

  lemma ListingGrows(told: seq<Answer>, more: seq<Answer>, from: nat, states: seq<NodegroupState>)
    requires Listing(told, from, states) && told <= more
    ensures Listing(more, from, states)
  {}

  /** The first of the listed names have been described. */
  ghost predicate Described(told: seq<Answer>, from: nat, names: seq<string>, states: seq<NodegroupState>) {
    && |told| == from + 1 + |states| && told[from] == NodegroupsAnswer(Ok(names)) && |states| <= |names|
    && forall j :: 0 <= j < |states| ==> states[j].name == names[j] && Describes(told[from + 1 + j], states[j])
  }

  lemma NoneDescribed(told: seq<Answer>, names: seq<string>)
    ensures Described(told + [NodegroupsAnswer(Ok(names))], |told|, names, [])
  {}

  lemma OneMoreDescribed(told: seq<Answer>, from: nat, names: seq<string>, states: seq<NodegroupState>, ng: Nodegroup)
    requires Described(told, from, names, states) && |states| < |names|
    ensures var name := names[|states|];
      Described(told + [NodegroupAnswer(name, Ok(Some(ng)))], from, names,
                states + [NodegroupState(name, ng.version, ng.customAmi)])
  {}

  lemma AllDescribed(told: seq<Answer>, from: nat, names: seq<string>, states: seq<NodegroupState>)
    requires Described(told, from, names, states) && |states| == |names|
    ensures Listing(told, from, states)
  {}

  /** listNodegroupStates: every nodegroup of the cluster, once; fails exactly at the first failed call. */
  method ListNodegroupStates(eks: Client) returns (r: Result<seq<NodegroupState>>, ghost listed: seq<Nodegroup>)
    requires eks.Valid()
    modifies eks
    ensures eks.Waited()
    ensures r.Ok? ==> ListedBetween(r.value, listed, old(eks.w.nodes), eks.w.nodes)
    ensures r.Ok? ==> DistinctNames(r.value) && Covers(r.value, eks.w.nodes)
    ensures r.Err? ==> eks.troubles > old(eks.troubles)
    ensures NodegroupsTold(eks.told, |old(eks.told)|, r.Err?)
    ensures r.Ok? ==> Listing(eks.told, |old(eks.told)|, r.value)
  {
    hide Orderly, ControlPlaneLater, AddonsLater, ListedBetween, Described, Listing, MinorVersion, NodegroupsTold,
      AddonLater, NodegroupLater, ListedAt;
    listed := [];
    var names := eks.ListNodegroups();
    OneMoreTold(old(eks.told), |old(eks.told)|, NodegroupsAnswer(names), names.Err?);
    if names.Err? {
      return Err, listed;
    }
    ghost var w0 := eks.w;
    var states: seq<NodegroupState> := [];
    NothingListed(old(eks.w.nodes), eks.w.nodes);
    NoneDescribed(old(eks.told), names.value);
    for i := 0 to |names.value|
      invariant eks.Waited() && eks.w.nodes.Keys == w0.nodes.Keys
      invariant |states| == i && forall j :: 0 <= j < i ==> states[j].name == names.value[j]
      invariant ListedBetween(states, listed, old(eks.w.nodes), eks.w.nodes)
      invariant NodegroupsTold(eks.told, |old(eks.told)|, false)
      invariant Described(eks.told, |old(eks.told)|, names.value, states)
    {
      ghost var before, told := eks.w, eks.told;
      assert names.value[i] in names.value;
      var d := eks.DescribeNodegroup(names.value[i]);
      OneMoreTold(told, |old(eks.told)|, NodegroupAnswer(names.value[i], d), d.Err?);
      LaterTransitive(old(eks.w), before, eks.w);
      ListedLater(states, listed, old(eks.w.nodes), before.nodes, eks.w.nodes);
      if d.Err? {
        return Err, listed;
      }
      if d.value.Some? {
        var ng := d.value.value;
        OneMoreListed(states, listed, old(eks.w.nodes), eks.w.nodes, names.value[i], ng);
        OneMoreDescribed(told, |old(eks.told)|, names.value, states, ng);
        states := states + [NodegroupState(names.value[i], ng.version, ng.customAmi)];
        listed := listed + [ng];
      }
    }
    AllDescribed(eks.told, |old(eks.told)|, names.value, states);
    CoversAll(states, names.value, eks.w.nodes);
    return Ok(states), listed;
  }

  ghost predicate Covers(states: seq<NodegroupState>, nodes: map<string, Nodegroup>) {
    forall n :: n in nodes ==> exists j :: 0 <= j < |states| && states[j].name == n
  }

  lemma CoversAll(states: seq<NodegroupState>, names: seq<string>, nodes: map<string, Nodegroup>)
    requires Lists(names, nodes.Keys) && |states| == |names|
    requires forall j :: 0 <= j < |names| ==> states[j].name == names[j]
    ensures Covers(states, nodes) && DistinctNames(states)
  {
    forall n | n in nodes ensures exists j :: 0 <= j < |states| && states[j].name == n {
      var j :| 0 <= j < |names| && names[j] == n;
      assert states[j].name == n;
    }
  }

  // ---- one roll ----

  /** The pre-flight gate: the caller's own, or ACTIVE without health issues. */
  method Gate(eks: Client, name: string, custom: bool) returns (ok: bool)
    requires eks.Valid()
    modifies eks
    ensures eks.Waited()
    ensures ok && !custom ==>
      name in eks.w.nodes && eks.w.nodes[name].status == NodegroupActive && eks.w.nodes[name].issues == 0
    ensures !ok && !custom ==> eks.troubles > old(eks.troubles)
    ensures custom ==> eks.told == old(eks.told) + [GateAnswer(name, ok, |eks.log|)]
  {
    if custom {
      LaterSame(eks.w);
      ok := eks.AskGate(name);
      return;
    }
    var d := eks.DescribeNodegroup(name);
    if d.Err? || d.value.None? {
      return false;
    }
    var ng := d.value.value;
    return ng.status == NodegroupActive && ng.issues == 0;
  }

  /** rollNodegroup: one request; success with an update ID means the roll was applied. */
  method RollNodegroup(eks: Client, name: string, target: string)
    returns (ok: bool, ghost seen: World, ghost accepted: bool)
    requires eks.Valid()
    modifies eks
    ensures eks.Valid() && eks.patience <= old(eks.patience) && old(eks.history) <= eks.history
    ensures old(eks.troubles) <= eks.troubles && old(eks.told) <= eks.told
    ensures Later(old(eks.w), seen)
    ensures accepted ==> name in seen.nodes && seen.nodes[name].pending.None?
    ensures Later(if accepted then Accept(RollRequest(name, target, seen)) else seen, eks.w)
    ensures eks.log == old(eks.log) + [RollRequest(name, target, seen)]
    ensures ok ==> accepted
    ensures !ok ==> eks.troubles > old(eks.troubles)
    ensures ok && eks.namesUpdates ==> Applied(eks.w, RollChange(name, target))
    ensures old(eks.Sound()) && OrderlyRequest(RollRequest(name, target, seen)) ==> eks.Sound()
  {
    var answer;
    answer, seen, accepted := eks.UpdateNodegroupVersion(name, target);
    if answer.Err? {
      return false, seen, accepted;
    }
    if answer.value.Some? {
      var done := WaitForUpdate(eks, answer.value.value);
      return done, seen, accepted;
    }
    return true, seen, accepted;
  }

  // ---- the phase, nodegroup by nodegroup ----

  predicate PendingUpTo(n: Nodegroup, target: string) {
    n.pending.Some? ==> VersionAtLeast(target, n.pending.value)
  }

  /** The phase may run: the control plane is at the target or newer, by at most one
      minor, and no roll in flight goes beyond the target. */
  predicate MayRoll(w: World, target: string) {
    && VersionAtLeast(w.cp, target) && Reach(w) <= Minor(target) + 1
    && forall n :: n in w.nodes ==> PendingUpTo(w.nodes[n], target)
  }

  /** Where a roll can leave a nodegroup: at its version, or at one it was asked to reach. */
  predicate Touched(a: Nodegroup, b: Nodegroup, target: string) {
    && b.customAmi == a.customAmi
    && (b.version == a.version || a.pending == Some(b.version) || b.version == target)
    && (b.pending.None? || b.pending == a.pending || b.pending == Some(target))
  }

  predicate Settled(a: Nodegroup, b: Nodegroup, rollable: bool, target: string) {
    && b.pending.None?
    && b.version == if rollable && !VersionAtLeast(a.version, target) then target else a.version
  }

  /** The state of a nodegroup the phase has dealt with. `good`: the cluster was orderly and
      the phase allowed to run; `named`: answers carry update IDs. */
  predicate Dealt(a: Nodegroup, b: Nodegroup, rollable: bool, target: string, good: bool, named: bool) {
    && (if rollable then Touched(a, b, target) else NodegroupLater(a, b))
    && (good ==> NoOlder(b.version, a.version) && PendingUpTo(b, target))
    && (good && named && rollable ==> VersionAtLeast(b.version, target))
    && (named && a.pending.None? ==> Settled(a, b, rollable, target))
  }

  lemma DealtLater(a: Nodegroup, b: Nodegroup, c: Nodegroup, rollable: bool, target: string, good: bool,
                   named: bool, cp: string)
    requires Dealt(a, b, rollable, target, good, named) && NodegroupLater(b, c)
    requires good ==> OrderlyNodegroup(b, cp)
    ensures Dealt(a, c, rollable, target, good, named)
  {
    if good { NoOlderTransitive(c.version, b.version, a.version); }
  }

  /** A nodegroup the phase passes over: already at the target, skipped or custom. */
  lemma DealtByPassing(a: Nodegroup, l: Nodegroup, b: Nodegroup, rollable: bool, target: string, good: bool,
                      named: bool, cp: string)
    requires NodegroupLater(a, l) && NodegroupLater(l, b)
    requires VersionAtLeast(l.version, target) || !rollable
    requires good ==> OrderlyNodegroup(a, cp) && PendingUpTo(a, target)
    ensures Dealt(a, b, rollable, target, good, named)
  {}

  /** A nodegroup whose roll went through. */
  lemma DealtByRolling(a: Nodegroup, l: Nodegroup, s: Nodegroup, b: Nodegroup, target: string, good: bool,
                      named: bool, cp: string)
    requires NodegroupLater(a, l) && NodegroupLater(l, s) && s.pending.None?
    requires NodegroupLater(s.(pending := Some(target), status := NodegroupUpdating), b)
    requires named ==> b.version == target && b.pending.None?
    requires !VersionAtLeast(l.version, target)
    requires good ==> Parses(target) && OrderlyNodegroup(a, cp) && PendingUpTo(a, target)
    ensures Dealt(a, b, true, target, good, named)
    ensures good ==> NoOlder(target, s.version)
  {}

  /** A roll that was accepted or not but did not go through. */
  lemma RollIsForward(a: Nodegroup, l: Nodegroup, s: Nodegroup, target: string, cp: string)
    requires NodegroupLater(a, l) && NodegroupLater(l, s)
    requires !VersionAtLeast(l.version, target) && Parses(target)
    requires OrderlyNodegroup(a, cp) && PendingUpTo(a, target)
    ensures NoOlder(target, s.version) && NoOlder(s.version, a.version) && PendingUpTo(s, target)
  {}

  function RollableNow(n: string, ng: Nodegroup, options: PlanOptions): bool {
    Rollable(n, ng.customAmi, options)
  }

  /** Only rollable nodegroups are touched. */
  ghost predicate NodesTouched(a: map<string, Nodegroup>, b: map<string, Nodegroup>, options: PlanOptions,
                      target: string) {
    && a.Keys == b.Keys
    && forall n :: n in a ==>
         if RollableNow(n, a[n], options) then Touched(a[n], b[n], target) else NodegroupLater(a[n], b[n])
  }

  /** What the options keep from rolling changed by nothing but what was in flight. */
  ghost predicate OthersLater(a: map<string, Nodegroup>, b: map<string, Nodegroup>, options: PlanOptions) {
    && a.Keys == b.Keys
    && forall n :: n in a && !RollableNow(n, a[n], options) ==> NodegroupLater(a[n], b[n])
  }

  lemma TouchedIsOthers(a: map<string, Nodegroup>, b: map<string, Nodegroup>, options: PlanOptions, target: string)
    requires NodesTouched(a, b, options, target)
    ensures OthersLater(a, b, options)
  {}

  lemma LaterIsOthers(a: map<string, Nodegroup>, b: map<string, Nodegroup>, options: PlanOptions)
    requires NodesLater(a, b)
    ensures OthersLater(a, b, options)
  {}

  lemma SameIsOthers(nodes: map<string, Nodegroup>, options: PlanOptions)
    ensures OthersLater(nodes, nodes, options)
  {}

  lemma OthersTransitive(a: map<string, Nodegroup>, b: map<string, Nodegroup>, c: map<string, Nodegroup>,
                         options: PlanOptions)
    requires OthersLater(a, b, options) && OthersLater(b, c, options)
    ensures OthersLater(a, c, options)
  {
    forall n | n in a && !RollableNow(n, a[n], options) ensures NodegroupLater(a[n], c[n]) {
      assert NodegroupLater(a[n], b[n]) && NodegroupLater(b[n], c[n]);
    }
  }

  ghost predicate NodesDealt(a: map<string, Nodegroup>, b: map<string, Nodegroup>, options: PlanOptions, target: string,
                             good: bool, named: bool)
  {
    && a.Keys == b.Keys
    && forall n :: n in a ==> Dealt(a[n], b[n], RollableNow(n, a[n], options), target, good, named)
  }

  ghost predicate AllPendingUpTo(nodes: map<string, Nodegroup>, target: string) {
    forall n :: n in nodes ==> PendingUpTo(nodes[n], target)
  }

  ghost predicate AllOrderly(nodes: map<string, Nodegroup>, cp: string) {
    forall n :: n in nodes ==> OrderlyNodegroup(nodes[n], cp)
  }

  /** What one run of the phase works from: the world it found, what it listed, its target;
      `good` if the cluster was orderly and the phase allowed to run, `named` if answers
      carry update IDs. */
  datatype Phase = Phase(w0: World, states: seq<NodegroupState>, listed: seq<Nodegroup>,
                         options: PlanOptions, target: string, good: bool, named: bool)

  ghost predicate ValidPhase(ph: Phase) {
    && |ph.states| == |ph.listed|
    && DistinctNames(ph.states) && Covers(ph.states, ph.w0.nodes)
    && (forall j :: 0 <= j < |ph.states| ==>
          ph.states[j].name in ph.w0.nodes && ph.w0.nodes[ph.states[j].name].customAmi == ph.states[j].customAmi)
    && (ph.good ==> Orderly(ph.w0) && MayRoll(ph.w0, ph.target))
  }

  ghost predicate DealtAt(ph: Phase, n: string, b: map<string, Nodegroup>)
    requires n in ph.w0.nodes && n in b
  {
    Dealt(ph.w0.nodes[n], b[n], RollableNow(n, ph.w0.nodes[n], ph.options), ph.target, ph.good, ph.named)
  }

  /** After i of the listed nodegroups: those are dealt with, the others as listed. */
  ghost predicate NodesInPhase(ph: Phase, i: nat, nodes: map<string, Nodegroup>)
    requires ValidPhase(ph)
  {
    && i <= |ph.states| && nodes.Keys == ph.w0.nodes.Keys
    && (forall j :: 0 <= j < i ==> DealtAt(ph, ph.states[j].name, nodes))
    && (forall j :: i <= j < |ph.states| ==> ListedAt(ph.states[j], ph.listed[j], ph.w0.nodes, nodes))
  }

  ghost predicate InPhase(ph: Phase, i: nat, w: World) {
    && ValidPhase(ph) && NodesInPhase(ph, i, w.nodes)
    && ControlPlaneLater(ph.w0, w) && AddonsLater(ph.w0.addons, w.addons)
    && (ph.good ==> Orderly(w))
  }

  lemma DealtStays(ph: Phase, n: string, b: World, c: World)
    requires n in ph.w0.nodes && n in b.nodes && DealtAt(ph, n, b.nodes) && NodesLater(b.nodes, c.nodes)
    requires ph.good ==> Orderly(b)
    ensures DealtAt(ph, n, c.nodes)
  {
    hide Dealt, Rollable, NodegroupLater, MinorVersion;
    if ph.good { assert OrderlyNodegroup(b.nodes[n], b.cp); }
    DealtLater(ph.w0.nodes[n], b.nodes[n], c.nodes[n], RollableNow(n, ph.w0.nodes[n], ph.options), ph.target,
      ph.good, ph.named, b.cp);
  }

  lemma InPhaseLater(ph: Phase, i: nat, b: World, c: World)
    requires InPhase(ph, i, b) && Later(b, c)
    ensures InPhase(ph, i, c)
  {
    hide MinorVersion, Dealt, NoOlder, PendingUpTo, RollableNow, OrderlyAddon, OrderlyControlPlane, AddonLater;
    AddonsLaterTransitive(ph.w0.addons, b.addons, c.addons);
    if ph.good { LaterKeepsOrderly(b, c); }
    forall j | 0 <= j < i ensures DealtAt(ph, ph.states[j].name, c.nodes) {
      assert DealtAt(ph, ph.states[j].name, b.nodes);
      DealtStays(ph, ph.states[j].name, b, c);
    }
    forall j | i <= j < |ph.states| ensures ListedAt(ph.states[j], ph.listed[j], ph.w0.nodes, c.nodes) {
      assert ListedAt(ph.states[j], ph.listed[j], ph.w0.nodes, b.nodes);
    }
  }

  /** What a nodegroup may have become at any moment of the phase. */
  ghost predicate RolledSo(ph: Phase, a: Nodegroup, b: Nodegroup, n: string) {
    && b.customAmi == a.customAmi
    && (if RollableNow(n, a, ph.options) then Touched(a, b, ph.target) else NodegroupLater(a, b))
    && (ph.good ==> NoOlder(b.version, a.version) && PendingUpTo(b, ph.target))
  }

  /** What the phase has done so far touched only rollable nodegroups, moved an orderly cluster
      only forward, and after the last nodegroup all are dealt with. */
  lemma InPhaseResult(ph: Phase, i: nat, w: World)
    requires InPhase(ph, i, w)
    ensures NodesTouched(ph.w0.nodes, w.nodes, ph.options, ph.target)
    ensures ph.good ==> NodesForward(ph.w0.nodes, w.nodes) && AllPendingUpTo(w.nodes, ph.target)
    ensures i == |ph.states| ==> NodesDealt(ph.w0.nodes, w.nodes, ph.options, ph.target, ph.good, ph.named)
  {
    hide Orderly, NoOlder, RollableNow, Touched, NodegroupLater, PendingUpTo, ListedAt, Dealt;
    forall n | n in ph.w0.nodes
      ensures RolledSo(ph, ph.w0.nodes[n], w.nodes[n], n)
      ensures i == |ph.states| ==> DealtAt(ph, n, w.nodes)
    {
      var j :| 0 <= j < |ph.states| && ph.states[j].name == n;
      InPhaseResultAt(ph, i, w.nodes, j);
    }
    assert i == |ph.states| ==> forall n :: n in ph.w0.nodes ==> DealtAt(ph, n, w.nodes);
  }

  lemma InPhaseResultAt(ph: Phase, i: nat, nodes: map<string, Nodegroup>, j: nat)
    requires ValidPhase(ph) && NodesInPhase(ph, i, nodes) && j < |ph.states|
    ensures RolledSo(ph, ph.w0.nodes[ph.states[j].name], nodes[ph.states[j].name], ph.states[j].name)
    ensures i == |ph.states| ==> DealtAt(ph, ph.states[j].name, nodes)
  {
    hide Rollable, MinorVersion;
    var n := ph.states[j].name;
    StartedOrderly(ph, n);
    if j < i {
      assert DealtAt(ph, n, nodes);
    } else {
      assert ListedAt(ph.states[j], ph.listed[j], ph.w0.nodes, nodes);
    }
  }

  lemma StartedOrderly(ph: Phase, n: string)
    requires ValidPhase(ph) && n in ph.w0.nodes
    ensures ph.good ==> OrderlyNodegroup(ph.w0.nodes[n], ph.w0.cp) && PendingUpTo(ph.w0.nodes[n], ph.target)
    ensures ph.good ==> Parses(ph.target)
  {}

  /** A nodegroup already at the target, skipped or custom is passed over. */
  lemma PassOver(ph: Phase, i: nat, nodes: map<string, Nodegroup>)
    requires ValidPhase(ph) && NodesInPhase(ph, i, nodes) && i < |ph.states|
    requires var ng := ph.states[i];
      VersionAtLeast(ng.version, ph.target) || Matches(ng.name, ph.options.skipNodegroups) || ng.customAmi
    ensures NodesInPhase(ph, i + 1, nodes)
  {
    var n := ph.states[i].name;
    assert ListedAt(ph.states[i], ph.listed[i], ph.w0.nodes, nodes);
    StartedOrderly(ph, n);
    DealtByPassing(ph.w0.nodes[n], ph.listed[i], nodes[n], RollableNow(n, ph.w0.nodes[n], ph.options),
                   ph.target, ph.good, ph.named, ph.w0.cp);
  }

  ghost predicate Rolling(ph: Phase, i: nat, s: World) {
    && InPhase(ph, i, s) && i < |ph.states|
    && RollableNow(ph.states[i].name, ph.w0.nodes[ph.states[i].name], ph.options)
    && !VersionAtLeast(ph.states[i].version, ph.target)
  }

  function RollOf(ph: Phase, i: nat, s: World): Request
    requires i < |ph.states|
  {
    RollRequest(ph.states[i].name, ph.target, s)
  }

  /** The roll request of the phase is orderly. */
  lemma RollIsOrderly(ph: Phase, i: nat, s: World)
    requires Rolling(ph, i, s) && ph.good
    ensures OrderlyRequest(RollOf(ph, i, s))
  {
    var n := ph.states[i].name;
    assert ListedAt(ph.states[i], ph.listed[i], ph.w0.nodes, s.nodes);
    assert OrderlyNodegroup(ph.w0.nodes[n], ph.w0.cp) && PendingUpTo(ph.w0.nodes[n], ph.target);
    RollIsForward(ph.w0.nodes[n], ph.listed[i], s.nodes[n], ph.target, ph.w0.cp);
  }

  /** What a roll may have done to nodegroup m by the time the nodegroups are b. */
  lemma AfterRollAt(ph: Phase, i: nat, s: map<string, Nodegroup>, b: map<string, Nodegroup>, cp: string,
                    accepted: bool, m: string)
    requires ValidPhase(ph) && i < |ph.states| && m in ph.w0.nodes && m in s && m in b
    requires var n := ph.states[i].name;
      && RollableNow(n, ph.w0.nodes[n], ph.options)
      && NodegroupLater(
           if accepted && m == n then s[m].(pending := Some(ph.target), status := NodegroupUpdating) else s[m], b[m])
      && (ph.good && m == n && accepted ==> NoOlder(ph.target, s[m].version))
    requires if RollableNow(m, ph.w0.nodes[m], ph.options) then Touched(ph.w0.nodes[m], s[m], ph.target)
             else NodegroupLater(ph.w0.nodes[m], s[m])
    requires ph.good ==>
      OrderlyNodegroup(s[m], cp) && PendingUpTo(s[m], ph.target) && NoOlder(s[m].version, ph.w0.nodes[m].version)
    ensures if RollableNow(m, ph.w0.nodes[m], ph.options) then Touched(ph.w0.nodes[m], b[m], ph.target)
            else NodegroupLater(ph.w0.nodes[m], b[m])
    ensures ph.good ==> NoOlder(b[m].version, ph.w0.nodes[m].version) && PendingUpTo(b[m], ph.target)
  {
    if ph.good { NoOlderTransitive(b[m].version, s[m].version, ph.w0.nodes[m].version); }
  }

  lemma AfterRollOf(ph: Phase, i: nat, s: World, b: World, accepted: bool, m: string)
    requires Rolling(ph, i, s) && m in ph.w0.nodes && m in b.nodes
    requires NodesLater((if accepted then Accept(RollOf(ph, i, s)) else s).nodes, b.nodes)
    ensures RolledSo(ph, ph.w0.nodes[m], b.nodes[m], m)
  {
    hide ValidPhase, NodesInPhase, ControlPlaneLater, AddonsLater, NodesForward, NodegroupLater, Rollable;
    var w := if accepted then Accept(RollOf(ph, i, s)) else s;
    InPhaseResult(ph, i, s);
    if ph.good {
      RollIsOrderly(ph, i, s);
      assert OrderlyNodegroup(s.nodes[m], s.cp) && PendingUpTo(s.nodes[m], ph.target);
    }
    assert NodegroupLater(w.nodes[m], b.nodes[m]);
    assert NodesForward(ph.w0.nodes, s.nodes) ==> NoOlder(s.nodes[m].version, ph.w0.nodes[m].version) by {
      ForwardAt(ph.w0.nodes, s.nodes, m);
    }
    AfterRollAt(ph, i, s.nodes, b.nodes, s.cp, accepted, m);
  }

  lemma ForwardAt(a: map<string, Nodegroup>, b: map<string, Nodegroup>, m: string)
    requires m in a && m in b
    ensures NodesForward(a, b) ==> NoOlder(b[m].version, a[m].version)
  {}

  /** Whatever becomes of a roll, it touches its own nodegroup only. */
  lemma AfterRoll(ph: Phase, i: nat, s: World, b: World, accepted: bool)
    requires Rolling(ph, i, s)
    requires Later(if accepted then Accept(RollOf(ph, i, s)) else s, b)
    ensures ControlPlaneLater(ph.w0, b) && AddonsLater(ph.w0.addons, b.addons)
    ensures NodesTouched(ph.w0.nodes, b.nodes, ph.options, ph.target)
    ensures ph.good ==> NodesForward(ph.w0.nodes, b.nodes) && AllPendingUpTo(b.nodes, ph.target)
  {
    hide ValidPhase, Touched, Orderly, NodegroupLater, NoOlder, PendingUpTo, AddonLater, AddonsLater, RollableNow;
    AddonsLaterTransitive(ph.w0.addons, s.addons, b.addons);
    forall m | m in ph.w0.nodes ensures RolledSo(ph, ph.w0.nodes[m], b.nodes[m], m) {
      AfterRollOf(ph, i, s, b, accepted, m);
    }
  }

  /** A nodegroup other than the one rolled is as it was, but later. */
  lemma OtherNodegroup(ph: Phase, i: nat, j: nat, s: map<string, Nodegroup>, b: map<string, Nodegroup>, cp: string)
    requires ValidPhase(ph) && NodesInPhase(ph, i, s) && i < |ph.states| && j < |ph.states| && i != j
    requires var n := ph.states[i].name;
      n in s && NodesLater(s[n := s[n].(pending := Some(ph.target), status := NodegroupUpdating)], b)
    requires ph.good ==> AllOrderly(s, cp)
    ensures j < i ==> DealtAt(ph, ph.states[j].name, b)
    ensures j > i ==> ListedAt(ph.states[j], ph.listed[j], ph.w0.nodes, b)
  {
    var n, m := ph.states[i].name, ph.states[j].name;
    assert m != n && NodegroupLater(s[m], b[m]);
    if j < i {
      assert DealtAt(ph, m, s);
      if ph.good { assert OrderlyNodegroup(s[m], cp); }
      DealtLater(ph.w0.nodes[m], s[m], b[m], RollableNow(m, ph.w0.nodes[m], ph.options), ph.target, ph.good,
        ph.named, cp);
    } else {
      assert ListedAt(ph.states[j], ph.listed[j], ph.w0.nodes, s);
    }
  }

  lemma RolledHere(ph: Phase, i: nat, s: map<string, Nodegroup>, b: map<string, Nodegroup>)
    requires ValidPhase(ph) && NodesInPhase(ph, i, s) && i < |ph.states|
    requires var n := ph.states[i].name;
      && n in s && s[n].pending.None? && RollableNow(n, ph.w0.nodes[n], ph.options)
      && !VersionAtLeast(ph.states[i].version, ph.target)
      && n in b && NodegroupLater(s[n].(pending := Some(ph.target), status := NodegroupUpdating), b[n])
      && (ph.named ==> b[n].version == ph.target && b[n].pending.None?)
    ensures DealtAt(ph, ph.states[i].name, b)
  {
    var n, a := ph.states[i].name, ph.w0.nodes;
    assert ListedAt(ph.states[i], ph.listed[i], a, s);
    StartedOrderly(ph, n);
    DealtByRolling(a[n], ph.listed[i], s[n], b[n], ph.target, ph.good, ph.named, ph.w0.cp);
  }

  /** After a roll that went through, one more nodegroup is dealt with. */
  lemma Rolled(ph: Phase, i: nat, s: World, b: World)
    requires Rolling(ph, i, s) && s.nodes[ph.states[i].name].pending.None?
    requires Later(Accept(RollOf(ph, i, s)), b) && (ph.good ==> Orderly(b))
    requires ph.named ==> Applied(b, RollChange(ph.states[i].name, ph.target))
    ensures InPhase(ph, i + 1, b)
  {
    AddonsLaterTransitive(ph.w0.addons, s.addons, b.addons);
    RolledHere(ph, i, s.nodes, b.nodes);
    forall j | 0 <= j < |ph.states| && j != i
      ensures j < i ==> DealtAt(ph, ph.states[j].name, b.nodes)
      ensures j > i ==> ListedAt(ph.states[j], ph.listed[j], ph.w0.nodes, b.nodes)
    {
      OtherNodegroup(ph, i, j, s.nodes, b.nodes, s.cp);
    }
  }

  /** The phase requests nothing but rolls to its target of nodegroups that are not skipped. */
  ghost predicate OnlyRolls(before: seq<Request>, after: seq<Request>, options: PlanOptions, target: string) {
    && before <= after
    && forall k :: |before| <= k < |after| ==>
         && after[k].RollRequest? && after[k].target == target
         && !Matches(after[k].name, options.skipNodegroups)
  }

  predicate HealthyIn(w: World, n: string) {
    n in w.nodes && w.nodes[n].status == NodegroupActive && w.nodes[n].issues == 0
  }

  /** What a run saw and was told. */
  datatype Record = Record(history: seq<World>, told: seq<Answer>)

  /** The nodegroup had been ACTIVE without issues, with nothing but time between that and the request. */
  ghost predicate SeenHealthy(history: seq<World>, from: nat, r: Request)
    requires r.RollRequest?
  {
    exists i :: from <= i < |history| && HealthyIn(history[i], r.name) && Later(history[i], r.seen)
  }

  /** The caller's gate had let the nodegroup pass before request k. */
  ghost predicate LetPass(told: seq<Answer>, heard: nat, n: string, k: nat) {
    exists j ::
      heard <= j < |told| && told[j].GateAnswer? && told[j].name == n && told[j].passed && told[j].requests <= k
  }

  /** Every roll was requested after the gate had let its nodegroup pass: the built-in one, by seeing it
      ACTIVE without issues during the phase, or the caller's own. */
  ghost predicate GatedRolls(before: seq<Request>, log: seq<Request>, rec: Record, from: nat, heard: nat,
                             custom: bool)
  {
    forall k :: |before| <= k < |log| && log[k].RollRequest? ==> GatedRoll(log, k, rec, from, heard, custom)
  }

  ghost predicate GatedRoll(log: seq<Request>, k: nat, rec: Record, from: nat, heard: nat, custom: bool)
    requires k < |log| && log[k].RollRequest?
  {
    if custom then LetPass(rec.told, heard, log[k].name, k) else SeenHealthy(rec.history, from, log[k])
  }

  // ---- which nodegroups roll, in which order ----

  /** The listed nodegroups that are behind the target, not skipped and without a custom AMI, in listing order. */
  ghost function Due(states: seq<NodegroupState>, options: PlanOptions, target: string): seq<string> {
    if states == [] then []
    else
      var init, ng := states[..|states| - 1], states[|states| - 1];
      Due(init, options, target)
      + if VersionAtLeast(ng.version, target) || Matches(ng.name, options.skipNodegroups) || ng.customAmi then []
        else [ng.name]
  }

  ghost function RolledNames(log: seq<Request>): seq<string> {
    if log == [] then []
    else RolledNames(log[..|log| - 1]) + if log[|log| - 1].RollRequest? then [log[|log| - 1].name] else []
  }

  /** Rolls are requested for the nodegroups that are due, in listing order, one request each: for all
      of them unless the phase failed. */
  ghost predicate RollsInOrder(told: seq<Answer>, heard: nat, rolls: seq<string>, options: PlanOptions, target: string,
                               ok: bool)
  {
    exists states :: Listing(told, heard, states)
                     && rolls <= Due(states, options, target) && (ok ==> rolls == Due(states, options, target))
  }

  lemma RolledNamesStep(before: seq<Request>, log: seq<Request>, r: Request)
    requires before <= log
    ensures RolledNames((log + [r])[|before|..])
         == RolledNames(log[|before|..]) + if r.RollRequest? then [r.name] else []
  {
    assert (log + [r])[|before|..] == log[|before|..] + [r];
    assert (log[|before|..] + [r])[..|log| - |before|] == log[|before|..];
  }

  lemma DueStep(states: seq<NodegroupState>, options: PlanOptions, target: string, i: nat)
    requires i < |states|
    ensures Due(states[..i + 1], options, target) == Due(states[..i], options, target)
      + if VersionAtLeast(states[i].version, target) || Matches(states[i].name, options.skipNodegroups)
           || states[i].customAmi then [] else [states[i].name]
  {
    assert states[..i + 1][..i] == states[..i];
  }

  lemma {:induction false} DueIsPrefix(states: seq<NodegroupState>, options: PlanOptions, target: string, i: nat)
    requires i <= |states|
    ensures Due(states[..i], options, target) <= Due(states, options, target)
  {
    if i == |states| {
      assert states[..i] == states;
    } else {
      DueIsPrefix(states[..|states| - 1], options, target, i);
      assert states[..|states| - 1][..i] == states[..i];
    }
  }

  /** After i of the listed nodegroups, those of them that are due have been asked to roll. */
  ghost predicate InOrder(rl: RollLog, told: seq<Answer>, states: seq<NodegroupState>, log: seq<Request>, i: nat) {
    && Listing(told, rl.heard, states) && rl.log0 <= log && i <= |states|
    && RolledNames(log[|rl.log0|..]) == Due(states[..i], rl.options, rl.target)
  }

  lemma NoneRolled(rl: RollLog, told: seq<Answer>, states: seq<NodegroupState>)
    requires Listing(told, rl.heard, states)
    ensures InOrder(rl, told, states, rl.log0, 0)
  {
    assert rl.log0[|rl.log0|..] == [];
  }

  lemma NotDue(rl: RollLog, told: seq<Answer>, states: seq<NodegroupState>, log: seq<Request>, i: nat)
    requires InOrder(rl, told, states, log, i) && i < |states|
    requires VersionAtLeast(states[i].version, rl.target) || Matches(states[i].name, rl.options.skipNodegroups)
             || states[i].customAmi
    ensures InOrder(rl, told, states, log, i + 1)
  {
    DueStep(states, rl.options, rl.target, i);
  }

  lemma IsDue(rl: RollLog, told: seq<Answer>, more: seq<Answer>, states: seq<NodegroupState>, log: seq<Request>,
              after: seq<Request>, i: nat)
    requires InOrder(rl, told, states, log, i) && i < |states| && told <= more
    requires !VersionAtLeast(states[i].version, rl.target) && !Matches(states[i].name, rl.options.skipNodegroups)
    requires !states[i].customAmi
    requires after == log || exists seen :: after == log + [RollRequest(states[i].name, rl.target, seen)]
    ensures InOrder(rl, more, states, after, if after == log then i else i + 1)
  {
    hide VersionAtLeast, Matches;
    DueStep(states, rl.options, rl.target, i);
    ListingGrows(told, more, rl.heard, states);
    if seen :| after == log + [RollRequest(states[i].name, rl.target, seen)] {
      RolledNamesStep(rl.log0, log, RollRequest(states[i].name, rl.target, seen));
    }
  }

  lemma InOrderSoFar(rl: RollLog, told: seq<Answer>, states: seq<NodegroupState>, log: seq<Request>, i: nat, ok: bool)
    requires InOrder(rl, told, states, log, i) && (ok ==> i == |states|)
    ensures rl.log0 <= log
    ensures RollsInOrder(told, rl.heard, RolledNames(log[|rl.log0|..]), rl.options, rl.target, ok)
  {
    DueIsPrefix(states, rl.options, rl.target, i);
    assert states[..|states|] == states;
  }

  predicate RolledIn(nodes: map<string, Nodegroup>, n: string, target: string) {
    n in nodes && nodes[n].version == target && nodes[n].pending.None?
  }

  /** Every earlier roll of the phase was over, with its nodegroup at the target, when the later one
      was requested; no nodegroup is rolled twice. */
  ghost predicate SerialRolls(before: seq<Request>, log: seq<Request>, target: string) {
    forall k, l :: |before| <= k < l < |log| && log[k].RollRequest? && log[l].RollRequest? ==>
      log[k].name != log[l].name && RolledIn(log[l].seen.nodes, log[k].name, target)
  }

  /** The requests of one run of the phase so far: `from` and `heard` are where its history and answers
      start, `custom` says that the caller's own gate is used, `named` that answers carry update IDs. */
  datatype RollLog = RollLog(log0: seq<Request>, from: nat, heard: nat, options: PlanOptions, target: string,
                      custom: bool, named: bool)

  ghost predicate RollsOk(rl: RollLog, log: seq<Request>, rec: Record, rolled: set<string>) {
    && OnlyRolls(rl.log0, log, rl.options, rl.target)
    && (forall k :: |rl.log0| <= k < |log| ==> log[k].RollRequest? && log[k].name in rolled)
    && GatedRolls(rl.log0, log, rec, rl.from, rl.heard, rl.custom)
    && (rl.named ==> SerialRolls(rl.log0, log, rl.target))
  }

  ghost predicate AllRolled(rl: RollLog, nodes: map<string, Nodegroup>, rolled: set<string>) {
    forall n :: n in rolled ==> RolledIn(nodes, n, rl.target)
  }

  lemma RolledLater(rl: RollLog, a: map<string, Nodegroup>, b: map<string, Nodegroup>, rolled: set<string>)
    requires AllRolled(rl, a, rolled) && NodesLater(a, b)
    ensures AllRolled(rl, b, rolled)
  {
    forall n | n in rolled ensures RolledIn(b, n, rl.target) {
      assert RolledIn(a, n, rl.target) && NodegroupLater(a[n], b[n]);
    }
  }

  lemma RecordGrows(rl: RollLog, log: seq<Request>, a: Record, b: Record, rolled: set<string>)
    requires RollsOk(rl, log, a, rolled) && a.history <= b.history && a.told <= b.told
    ensures RollsOk(rl, log, b, rolled)
  {
    hide Later;
    forall k | |rl.log0| <= k < |log| && log[k].RollRequest?
      ensures GatedRoll(log, k, b, rl.from, rl.heard, rl.custom)
    {
      GatedStill(log, k, a, b, rl.from, rl.heard, rl.custom);
    }
  }

  lemma GatedStill(log: seq<Request>, k: nat, a: Record, b: Record, from: nat, heard: nat, custom: bool)
    requires k < |log| && log[k].RollRequest? && GatedRoll(log, k, a, from, heard, custom)
    requires a.history <= b.history && a.told <= b.told
    ensures GatedRoll(log, k, b, from, heard, custom)
  {
    hide Later, HealthyIn;
    var n := log[k].name;
    if custom {
      var j :| heard <= j < |a.told| && a.told[j].GateAnswer? && a.told[j].name == n && a.told[j].passed
               && a.told[j].requests <= k;
      assert b.told[j] == a.told[j];
    } else {
      var i :| from <= i < |a.history| && HealthyIn(a.history[i], n) && Later(a.history[i], log[k].seen);
      assert b.history[i] == a.history[i];
    }
  }

  /** One more roll, requested while all earlier ones were over. */
  lemma RollLogged(rl: RollLog, log: seq<Request>, rec: Record, rolled: set<string>, name: string, seen: World)
    requires RollsOk(rl, log, rec, rolled) && name !in rolled && !Matches(name, rl.options.skipNodegroups)
    requires rl.named ==> AllRolled(rl, seen.nodes, rolled)
    requires GatedRoll(log + [RollRequest(name, rl.target, seen)], |log|, rec, rl.from, rl.heard, rl.custom)
    ensures RollsOk(rl, log + [RollRequest(name, rl.target, seen)], rec, rolled + {name})
  {
    hide Later, HealthyIn, LetPass, SeenHealthy;
    var after := log + [RollRequest(name, rl.target, seen)];
    forall k | |rl.log0| <= k < |after| && after[k].RollRequest?
      ensures GatedRoll(after, k, rec, rl.from, rl.heard, rl.custom)
    {
      if k < |log| { assert GatedRoll(log, k, rec, rl.from, rl.heard, rl.custom) && after[k] == log[k]; }
    }
    if rl.named {
      forall k, l | |rl.log0| <= k < l < |after| && after[k].RollRequest? && after[l].RollRequest?
        ensures after[k].name != after[l].name && RolledIn(after[l].seen.nodes, after[k].name, rl.target)
      {
        if l < |log| { assert log[k].RollRequest? && log[l].RollRequest?; } else { assert log[k].name in rolled; }
      }
    }
  }

  /** The roll is over: it changed no other nodegroup. */
  lemma RollIsOver(rl: RollLog, rolled: set<string>, name: string, seen: World, w: World)
    requires AllRolled(rl, seen.nodes, rolled) && name !in rolled
    requires NodesLater(Accept(RollRequest(name, rl.target, seen)).nodes, w.nodes) && RolledIn(w.nodes, name, rl.target)
    ensures AllRolled(rl, w.nodes, rolled + {name})
  {
    var v := Accept(RollRequest(name, rl.target, seen)).nodes;
    forall n | n in rolled ensures RolledIn(w.nodes, n, rl.target) {
      assert RolledIn(seen.nodes, n, rl.target) && v[n] == seen.nodes[n] && NodegroupLater(v[n], w.nodes[n]);
    }
  }

  /** The nodegroups still to come have not been rolled. */
  ghost predicate NotYet(states: seq<NodegroupState>, i: nat, rolled: set<string>) {
    forall j :: i <= j < |states| ==> states[j].name !in rolled
  }

  /** UpgradeNodegroups. Only rollable nodegroups are asked to roll, each to the target, after the gate
      saw it healthy and with every earlier roll over; after success every nodegroup has been dealt
      with; an orderly cluster whose control plane is at the target stays orderly and only moves
      forward. */
  method UpgradeNodegroups(eks: Client, target: string, options: PlanOptions, customGate: bool) returns (ok: bool)
    requires eks.Valid()
    modifies eks
    ensures eks.Valid() && eks.patience <= old(eks.patience) && old(eks.history) <= eks.history
    ensures old(eks.troubles) <= eks.troubles
    ensures ControlPlaneLater(old(eks.w), eks.w) && AddonsLater(old(eks.w.addons), eks.w.addons)
    ensures NodesTouched(old(eks.w.nodes), eks.w.nodes, options, target)
    ensures OnlyRolls(old(eks.log), eks.log, options, target)
    ensures GatedRolls(old(eks.log), eks.log, Record(eks.history, eks.told), |old(eks.history)| - 1, |old(eks.told)|,
                       customGate)
    ensures !ok ==> eks.troubles > old(eks.troubles) || (customGate && Refused(eks.told, |old(eks.told)|))
    ensures eks.namesUpdates ==> SerialRolls(old(eks.log), eks.log, target)
    ensures old(eks.told) <= eks.told
    ensures ok || eks.log != old(eks.log) ==>
      RollsInOrder(eks.told, |old(eks.told)|, RolledNames(eks.log[|old(eks.log)|..]), options, target, ok)
    ensures ok ==> NodesDealt(old(eks.w.nodes), eks.w.nodes, options, target,
                              old(eks.Sound()) && MayRoll(old(eks.w), target), eks.namesUpdates)
    ensures old(eks.Sound()) && MayRoll(old(eks.w), target) ==>
      && eks.Sound() && NodesForward(old(eks.w.nodes), eks.w.nodes) && AllPendingUpTo(eks.w.nodes, target)
  {
    hide NodesTouched, NodesDealt, Orderly, MayRoll, AllPendingUpTo, NodesForward, NodesInPhase, OnlyRolls,
      GatedRolls, SerialRolls, RollsOk, AllRolled, NotYet, InPhase, Rolling, ListedBetween, Covers, Later, Matches,
      MinorVersion, NodegroupsTold, Listing, RolledNames, RollsInOrder, InOrder, VersionAtLeast;
    ghost var w0 := eks.w;
    ghost var good := eks.Sound() && MayRoll(w0, target);
    ghost var rl := RollLog(eks.log, |eks.history| - 1, |eks.told|, options, target, customGate, eks.namesUpdates);
    var r;
    ghost var listed;
    r, listed := ListNodegroupStates(eks);
    NothingLogged(rl, Record(eks.history, eks.told), eks.w.nodes);
    if r.Err? {
      NothingRolled(w0, eks.w, options, target, good);
      RollsDone(rl, eks.log, Record(eks.history, eks.told), {});
      return false;
    }
    var states := r.value;
    ghost var ph := Phase(w0, states, listed, options, target, good, eks.namesUpdates);
    ghost var rolled: set<string> := {};
    PhaseStarts(ph, eks.w);
    NoneYet(states);
    NoneRolled(rl, eks.told, states);
    for i := 0 to |states|
      invariant eks.Valid() && eks.patience <= old(eks.patience) && old(eks.history) <= eks.history
      invariant old(eks.troubles) <= eks.troubles && old(eks.told) <= eks.told
      invariant Standing(ph, rl, eks.w, eks.log, Record(eks.history, eks.told), rolled, i)
      invariant good ==> eks.Sound()
    {
      var done;
      done, rolled := Visit(eks, states[i], target, options, customGate, ph, i, rl, rolled);
      if !done {
        RollsDone(rl, eks.log, Record(eks.history, eks.told), rolled);
        return false;
      }
    }
    PhaseEnds(ph, eks.w);
    RollsDone(rl, eks.log, Record(eks.history, eks.told), rolled);
    InOrderSoFar(rl, eks.told, states, eks.log, |states|, true);
    return true;
  }

  /** Where the phase stands after i of the listed nodegroups. */
  ghost predicate Standing(ph: Phase, rl: RollLog, w: World, log: seq<Request>, rec: Record, rolled: set<string>,
                           i: nat)
  {
    && InPhase(ph, i, w) && RollsOk(rl, log, rec, rolled) && NotYet(ph.states, i, rolled)
    && (rl.named ==> AllRolled(rl, w.nodes, rolled)) && InOrder(rl, rec.told, ph.states, log, i)
  }

  /** One listed nodegroup: passed over, or gated and rolled. */
  method Visit(eks: Client, ng: NodegroupState, target: string, options: PlanOptions, customGate: bool,
               ghost ph: Phase, ghost i: nat, ghost rl: RollLog, ghost rolled: set<string>)
    returns (ok: bool, ghost nowRolled: set<string>)
    requires eks.Valid() && i < |ph.states| && ng == ph.states[i]
    requires target == ph.target == rl.target && options == ph.options == rl.options
    requires ph.named == eks.namesUpdates == rl.named && (ph.good ==> eks.Sound())
    requires rl.custom == customGate && rl.from < |eks.history| && rl.heard <= |eks.told|
    requires Standing(ph, rl, eks.w, eks.log, Record(eks.history, eks.told), rolled, i)
    modifies eks
    ensures eks.Valid() && eks.patience <= old(eks.patience) && old(eks.history) <= eks.history
    ensures old(eks.troubles) <= eks.troubles && old(eks.told) <= eks.told
    ensures ph.good ==> eks.Sound()
    ensures ok ==> Standing(ph, rl, eks.w, eks.log, Record(eks.history, eks.told), nowRolled, i + 1)
    ensures !ok ==> Ended(ph, eks.w) && RollsOk(rl, eks.log, Record(eks.history, eks.told), nowRolled)
    ensures !ok ==> RollsInOrder(eks.told, rl.heard, RolledNames(eks.log[|rl.log0|..]), options, target, false)
                    && rl.log0 <= eks.log
    ensures !ok ==> eks.troubles > old(eks.troubles) || (customGate && Refused(eks.told, |old(eks.told)|))
  {
    hide InPhase, RollsOk, NotYet, AllRolled, InOrder, Rolling, Ended, RollsInOrder, RolledNames, Matches,
      DistinctNames, VersionAtLeast, MinorVersion, Orderly, Refused;
    var skip := MatchesAny(ng.name, options.skipNodegroups);
    NamesDiffer(ph, i, eks.w);
    StillToCome(ph.states, i, rolled);
    if VersionAtLeast(ng.version, target) || skip || ng.customAmi {
      PassedOver(ph, i, eks.w);
      NotDue(rl, eks.told, ph.states, eks.log, i);
      return true, rolled;
    }
    RollsNext(ph, i, eks.w);
    ghost var log, told := eks.log, eks.told;
    ok, nowRolled := GateAndRoll(eks, ng.name, target, customGate, ph, i, rl, rolled);
    IsDue(rl, told, eks.told, ph.states, log, eks.log, i);
    if !ok { InOrderSoFar(rl, eks.told, ph.states, eks.log, if eks.log == log then i else i + 1, false); }
  }

  lemma NamesDiffer(ph: Phase, i: nat, w: World)
    requires InPhase(ph, i, w)
    ensures DistinctNames(ph.states)
  {}

  lemma PhaseEnds(ph: Phase, w: World)
    requires InPhase(ph, |ph.states|, w)
    ensures Ended(ph, w) && NodesDealt(ph.w0.nodes, w.nodes, ph.options, ph.target, ph.good, ph.named)
  {
    hide Orderly, NodesInPhase, NodesTouched, NodesForward, AllPendingUpTo, NodesDealt;
    InPhaseResult(ph, |ph.states|, w);
  }

  lemma PassedOver(ph: Phase, i: nat, w: World)
    requires InPhase(ph, i, w) && i < |ph.states|
    requires var ng := ph.states[i];
      VersionAtLeast(ng.version, ph.target) || Matches(ng.name, ph.options.skipNodegroups) || ng.customAmi
    ensures InPhase(ph, i + 1, w)
  {
    hide Orderly, NodesInPhase, Matches;
    PassOver(ph, i, w.nodes);
  }

  lemma RollsNext(ph: Phase, i: nat, w: World)
    requires InPhase(ph, i, w) && i < |ph.states|
    requires var ng := ph.states[i];
      !VersionAtLeast(ng.version, ph.target) && !Matches(ng.name, ph.options.skipNodegroups) && !ng.customAmi
    ensures Rolling(ph, i, w)
  {
    hide Orderly, NodesInPhase, Matches;
  }

  lemma NothingLogged(rl: RollLog, rec: Record, nodes: map<string, Nodegroup>)
    ensures RollsOk(rl, rl.log0, rec, {}) && AllRolled(rl, nodes, {})
  {}

  lemma NoneYet(states: seq<NodegroupState>)
    ensures NotYet(states, 0, {})
  {}

  lemma StillToCome(states: seq<NodegroupState>, i: nat, rolled: set<string>)
    requires i < |states| && NotYet(states, i, rolled) && DistinctNames(states)
    ensures states[i].name !in rolled
    ensures NotYet(states, i + 1, rolled) && NotYet(states, i + 1, rolled + {states[i].name})
  {}

  lemma RollsDone(rl: RollLog, log: seq<Request>, rec: Record, rolled: set<string>)
    requires RollsOk(rl, log, rec, rolled)
    ensures OnlyRolls(rl.log0, log, rl.options, rl.target)
    ensures GatedRolls(rl.log0, log, rec, rl.from, rl.heard, rl.custom)
    ensures rl.named ==> SerialRolls(rl.log0, log, rl.target)
  {}

  /** One nodegroup of the phase: the gate, then the roll. */
  method GateAndRoll(eks: Client, name: string, target: string, customGate: bool, ghost ph: Phase, ghost i: nat,
                     ghost rl: RollLog, ghost rolled: set<string>)
    returns (ok: bool, ghost nowRolled: set<string>)
    requires eks.Valid() && Rolling(ph, i, eks.w) && name == ph.states[i].name && target == ph.target == rl.target
    requires ph.named == eks.namesUpdates == rl.named && (ph.good ==> eks.Sound())
    requires RollsOk(rl, eks.log, Record(eks.history, eks.told), rolled)
    requires rl.named ==> AllRolled(rl, eks.w.nodes, rolled)
    requires name !in rolled && !Matches(name, rl.options.skipNodegroups)
    requires rl.custom == customGate && rl.from < |eks.history| && rl.heard <= |eks.told|
    modifies eks
    ensures eks.Valid() && eks.patience <= old(eks.patience) && old(eks.history) <= eks.history
    ensures old(eks.troubles) <= eks.troubles
    ensures ph.good ==> eks.Sound()
    ensures RollsOk(rl, eks.log, Record(eks.history, eks.told), nowRolled)
    ensures ok ==> InPhase(ph, i + 1, eks.w) && nowRolled == rolled + {name}
    ensures ok || eks.log != old(eks.log) ==>
      exists seen :: eks.log == old(eks.log) + [RollRequest(name, target, seen)]
    ensures ok && rl.named ==> AllRolled(rl, eks.w.nodes, nowRolled)
    ensures Ended(ph, eks.w)
    ensures !ok ==> eks.troubles > old(eks.troubles) || (customGate && Refused(eks.told, |old(eks.told)|))
    ensures old(eks.told) <= eks.told
  {
    hide RollsOk, AllRolled, NodesTouched, Orderly, NodesForward, AllPendingUpTo, InPhase, NodesLater, AddonsLater,
      ControlPlaneLater, NodesInPhase, SeenHealthy, MinorVersion;
    nowRolled := rolled;
    var gated := Gate(eks, name, customGate);
    InPhaseLater(ph, i, old(eks.w), eks.w);
    ghost var rec := Record(eks.history, eks.told);
    RecordGrows(rl, old(eks.log), old(Record(eks.history, eks.told)), rec, rolled);
    if rl.named { RolledLater(rl, old(eks.w.nodes), eks.w.nodes, rolled); }
    if !gated {
      InPhaseEnds(ph, i, eks.w);
      return false, nowRolled;
    }
    ghost var w := eks.w;
    ghost var seen, accepted;
    ok, seen, accepted := RollNodegroup(eks, name, target);
    InPhaseLater(ph, i, w, seen);
    if rl.named { RolledLater(rl, w.nodes, seen.nodes, rolled); }
    PassedNow(eks.log, rec, w, rl.from, rl.heard, customGate);
    RollLogged(rl, old(eks.log), rec, rolled, name, seen);
    nowRolled := rolled + {name};
    RecordGrows(rl, eks.log, rec, Record(eks.history, eks.told), nowRolled);
    if ph.good { RollIsOrderly(ph, i, seen); }
    AfterRoll(ph, i, seen, eks.w, accepted);
    if ok {
      Rolled(ph, i, seen, eks.w);
      if rl.named { RollIsOver(rl, rolled, name, seen, eks.w); }
    }
  }

  /** The gate has just let the nodegroup of the last request pass. */
  lemma PassedNow(log: seq<Request>, rec: Record, w: World, from: nat, heard: nat, custom: bool)
    requires log != [] && log[|log| - 1].RollRequest? && from < |rec.history| && rec.history[|rec.history| - 1] == w
    requires var r := log[|log| - 1];
      if custom then
        heard < |rec.told| && rec.told[|rec.told| - 1] == GateAnswer(r.name, true, |log| - 1)
      else HealthyIn(w, r.name) && Later(w, r.seen)
    ensures GatedRoll(log, |log| - 1, rec, from, heard, custom)
  {}

  /** The caller's gate refused a nodegroup, and nothing was asked after that. */
  ghost predicate Refused(told: seq<Answer>, heard: nat) {
    heard < |told| && told[|told| - 1].GateAnswer? && !told[|told| - 1].passed
  }

  /** What the phase guarantees wherever it stops. */
  ghost predicate Ended(ph: Phase, w: World) {
    && ControlPlaneLater(ph.w0, w) && AddonsLater(ph.w0.addons, w.addons)
    && NodesTouched(ph.w0.nodes, w.nodes, ph.options, ph.target)
    && (ph.good ==> NodesForward(ph.w0.nodes, w.nodes) && AllPendingUpTo(w.nodes, ph.target))
  }

  lemma InPhaseEnds(ph: Phase, i: nat, w: World)
    requires InPhase(ph, i, w)
    ensures Ended(ph, w)
  {
    hide Orderly, NodesInPhase, NodesTouched, NodesForward, AllPendingUpTo, ControlPlaneLater, AddonsLater, NodesDealt,
      ValidPhase;
    InPhaseResult(ph, i, w);
  }

  lemma NothingRolled(a: World, b: World, options: PlanOptions, target: string, good: bool)
    requires Later(a, b)
    requires good ==> Orderly(a) && MayRoll(a, target)
    ensures ControlPlaneLater(a, b) && AddonsLater(a.addons, b.addons)
    ensures NodesTouched(a.nodes, b.nodes, options, target)
    ensures good ==> NodesForward(a.nodes, b.nodes) && AllPendingUpTo(b.nodes, target)
  {
    hide ControlPlaneLater, AddonsLater, OrderlyAddon, MinorVersion;
    if good { LaterIsForward(a, b); }
  }

  lemma PhaseStarts(ph: Phase, w: World)
    requires Later(ph.w0, w) && (ph.good ==> Orderly(ph.w0) && Orderly(w) && MayRoll(ph.w0, ph.target))
    requires ListedBetween(ph.states, ph.listed, ph.w0.nodes, w.nodes)
    requires DistinctNames(ph.states) && Covers(ph.states, w.nodes)
    ensures InPhase(ph, 0, w)
  {
    forall j | 0 <= j < |ph.states|
      ensures ph.states[j].name in ph.w0.nodes && ph.w0.nodes[ph.states[j].name].customAmi == ph.states[j].customAmi
      ensures ListedAt(ph.states[j], ph.listed[j], ph.w0.nodes, w.nodes)
    {
      assert ListedAt(ph.states[j], ph.listed[j], ph.w0.nodes, w.nodes);
    }
  }
}
