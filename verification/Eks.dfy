/** The cluster the orchestrator drives, as EKS presents it: accepted updates run in
    the background, calls may fail or lose their response, and only accepted requests
    and time change anything. */
module Eks {
  import opened GoStrings
  import opened Versions
  import opened AddonVersions

  datatype ClusterStatus =
    ClusterActive | ClusterUpdating | ClusterFailed | ClusterCreating | ClusterDeleting | ClusterPending

  datatype NodegroupStatus = NodegroupActive | NodegroupUpdating | NodegroupDegraded | NodegroupOther

  datatype AddonStatus =
    AddonActive | AddonCreating | AddonUpdating | AddonDegraded | AddonDeleting
    | AddonCreateFailed | AddonUpdateFailed | AddonDeleteFailed

  /** A nodegroup; `pending` is the version of the roll in flight, if any. */
  datatype Nodegroup = Nodegroup(version: string, customAmi: bool, status: NodegroupStatus, issues: nat,
                                 pending: Option<string>)

  datatype Addon = Addon(version: string, status: AddonStatus, issues: nat, pending: Option<string>)

  datatype World = World(cp: string, status: ClusterStatus, cpPending: Option<string>,
                         nodes: map<string, Nodegroup>, addons: map<string, Addon>)

  /** Whatever has an update in flight says UPDATING. */
  predicate Consistent(w: World) {
    && (w.cpPending.Some? ==> w.status == ClusterUpdating)
    && (forall n :: n in w.nodes && w.nodes[n].pending.Some? ==> w.nodes[n].status == NodegroupUpdating)
    && (forall a :: a in w.addons && w.addons[a].pending.Some? ==> w.addons[a].status == AddonUpdating)
  }

  // ---- what happens in the background ----

  datatype Event =
    | ControlPlaneFinishes
    | ControlPlaneFails(clusterStatus: ClusterStatus)
    | ClusterStatusChanges(clusterStatus: ClusterStatus)
    | RollFinishes(name: string)
    | RollFails(name: string, nodegroupStatus: NodegroupStatus)
    | NodegroupHealth(name: string, nodegroupStatus: NodegroupStatus, issues: nat)
    | AddonFinishes(name: string)
    | AddonFails(name: string)
    | AddonHealth(name: string, addonStatus: AddonStatus, issues: nat)

  function StepNodegroup(n: Nodegroup, e: Event): Nodegroup {
    match e
    case RollFinishes(_) =>
      if n.pending.Some? then n.(version := n.pending.value, pending := None, status := NodegroupActive) else n
    case RollFails(_, s) =>
      if n.pending.Some? then n.(pending := None, status := s) else n
    case NodegroupHealth(_, s, i) =>
      if n.pending.Some? then n.(issues := i) else n.(status := s, issues := i)
    case _ => n
  }

  function StepAddon(a: Addon, e: Event): Addon {
    match e
    case AddonFinishes(_) =>
      if a.pending.Some? then a.(version := a.pending.value, pending := None, status := AddonActive) else a
    case AddonFails(_) =>
      if a.pending.Some? then a.(pending := None, status := AddonUpdateFailed) else a
    case AddonHealth(_, s, i) =>
      if a.pending.Some? || a.status == AddonUpdateFailed then a.(issues := i) else a.(status := s, issues := i)
    case _ => a
  }

  /** One background event; an event that does not apply changes nothing. */
  function Step(w: World, e: Event): World {
    match e
    case ControlPlaneFinishes =>
      if w.cpPending.Some? then w.(cp := w.cpPending.value, cpPending := None, status := ClusterActive) else w
    case ControlPlaneFails(s) =>
      if w.cpPending.Some? then w.(cpPending := None, status := s) else w
    case ClusterStatusChanges(s) =>
      if w.cpPending.Some? then w else w.(status := s)
    case RollFinishes(n) => WithNodegroup(w, n, e)
    case RollFails(n, _) => WithNodegroup(w, n, e)
    case NodegroupHealth(n, _, _) => WithNodegroup(w, n, e)
    case AddonFinishes(a) => WithAddon(w, a, e)
    case AddonFails(a) => WithAddon(w, a, e)
    case AddonHealth(a, _, _) => WithAddon(w, a, e)
  }

  function WithNodegroup(w: World, n: string, e: Event): World {
    if n in w.nodes then w.(nodes := w.nodes[n := StepNodegroup(w.nodes[n], e)]) else w
  }

  function WithAddon(w: World, a: string, e: Event): World {
    if a in w.addons then w.(addons := w.addons[a := StepAddon(w.addons[a], e)]) else w
  }

  // ---- what time can do ----

  predicate NodegroupLater(a: Nodegroup, b: Nodegroup) {
    && a.customAmi == b.customAmi
    && (|| (b.version == a.version && (b.pending == a.pending || b.pending.None?))
        || (a.pending == Some(b.version) && b.pending.None?))
  }

  predicate AddonLater(a: Addon, b: Addon) {
    && (|| (b.version == a.version && b.pending == a.pending)
        || (b.version == a.version && b.pending.None? && a.pending.Some? && b.status == AddonUpdateFailed)
        || (a.pending == Some(b.version) && b.pending.None?))
    && (a.pending.None? && a.status == AddonUpdateFailed ==> b.status == AddonUpdateFailed)
  }

  predicate NodesLater(a: map<string, Nodegroup>, b: map<string, Nodegroup>) {
    a.Keys == b.Keys && forall n :: n in a ==> NodegroupLater(a[n], b[n])
  }

  predicate AddonsLater(a: map<string, Addon>, b: map<string, Addon>) {
    a.Keys == b.Keys && forall n :: n in a ==> AddonLater(a[n], b[n])
  }

  predicate ControlPlaneLater(a: World, b: World) {
    || (b.cp == a.cp && (b.cpPending == a.cpPending || b.cpPending.None?))
    || (a.cpPending == Some(b.cp) && b.cpPending.None?)
  }

  /** b can follow a while only background events happen. */
  predicate Later(a: World, b: World) {
    ControlPlaneLater(a, b) && NodesLater(a.nodes, b.nodes) && AddonsLater(a.addons, b.addons)
  }

  lemma NodegroupStepIsLater(n: Nodegroup, e: Event)
    ensures NodegroupLater(n, StepNodegroup(n, e)) && NodegroupLater(n, n)
    ensures (n.pending.Some? ==> n.status == NodegroupUpdating) ==>
      (StepNodegroup(n, e).pending.Some? ==> StepNodegroup(n, e).status == NodegroupUpdating)
  {}

  lemma AddonStepIsLater(a: Addon, e: Event)
    ensures AddonLater(a, a)
    ensures (a.pending.Some? ==> a.status == AddonUpdating) ==>
      && AddonLater(a, StepAddon(a, e))
      && (StepAddon(a, e).pending.Some? ==> StepAddon(a, e).status == AddonUpdating)
  {}

  lemma StepIsLater(w: World, e: Event)
    requires Consistent(w)
    ensures Consistent(Step(w, e)) && Later(w, Step(w, e))
  {
    hide StepNodegroup, StepAddon, NodegroupLater, AddonLater;
    forall n | n in w.nodes { NodegroupStepIsLater(w.nodes[n], e); }
    forall a | a in w.addons { AddonStepIsLater(w.addons[a], e); }
  }

  lemma AddonsLaterTransitive(a: map<string, Addon>, b: map<string, Addon>, c: map<string, Addon>)
    requires AddonsLater(a, b) && AddonsLater(b, c)
    ensures AddonsLater(a, c)
  {
    forall n | n in a ensures AddonLater(a[n], c[n]) {
      assert AddonLater(a[n], b[n]) && AddonLater(b[n], c[n]);
    }
  }

  lemma NodesLaterTransitive(a: map<string, Nodegroup>, b: map<string, Nodegroup>, c: map<string, Nodegroup>)
    requires NodesLater(a, b) && NodesLater(b, c)
    ensures NodesLater(a, c)
  {
    forall n | n in a ensures NodegroupLater(a[n], c[n]) {
      assert NodegroupLater(a[n], b[n]) && NodegroupLater(b[n], c[n]);
    }
  }

  lemma LaterSame(w: World)
    ensures Later(w, w)
  {}

  lemma LaterTransitive(a: World, b: World, c: World)
    requires Later(a, b) && Later(b, c)
    ensures Later(a, c)
  {
    NodesLaterTransitive(a.nodes, b.nodes, c.nodes);
    AddonsLaterTransitive(a.addons, b.addons, c.addons);
  }

  // ---- safety of a world ----

  /** Every nodegroup with a readable version is within the kubelet skew of the control plane. */
  predicate WithinSkew(w: World) {
    && Parses(w.cp)
    && forall n :: n in w.nodes && Parses(w.nodes[n].version) ==>
         Minor(w.cp) - Minor(w.nodes[n].version) <= KUBELET_SKEW
  }

  /** The minor a nodegroup is known to be at or on its way to: its version, or the roll in
      flight when the version is unreadable. */
  function KnownMinor(n: Nodegroup): Option<int> {
    if Parses(n.version) then MinorVersion(n.version)
    else if n.pending.Some? then MinorVersion(n.pending.value)
    else None
  }

  predicate Reachable(n: Nodegroup, m: int) {
    KnownMinor(n).Some? ==> m - KnownMinor(n).value <= KUBELET_SKEW
  }

  /** A control plane at minor m leaves no nodegroup behind the kubelet skew. */
  predicate SkewAt(nodes: map<string, Nodegroup>, m: int) {
    forall n :: n in nodes ==> Reachable(nodes[n], m)
  }

  predicate OrderlyControlPlane(w: World) {
    w.cpPending.Some? ==>
      && Parses(w.cp) && Parses(w.cpPending.value)
      && Minor(w.cpPending.value) == Minor(w.cp) + 1
      && SkewAt(w.nodes, Minor(w.cpPending.value))
  }

  predicate OrderlyNodegroup(n: Nodegroup, cp: string) {
    n.pending.Some? ==> VersionAtLeast(cp, n.pending.value) && NoOlder(n.pending.value, n.version)
  }

  predicate OrderlyAddon(a: Addon) {
    a.pending.Some? ==> CompareVersions(a.pending.value, a.version) >= 0
  }

  /** Everything in flight moves forward, and a control-plane update in flight goes
      exactly one minor up without leaving any nodegroup behind the kubelet skew. A
      cluster with nothing in flight qualifies. */
  predicate Orderly(w: World) {
    && OrderlyControlPlane(w)
    && (forall n :: n in w.nodes ==> OrderlyNodegroup(w.nodes[n], w.cp))
    && (forall a :: a in w.addons ==> OrderlyAddon(w.addons[a]))
  }

  /** No step in the history moved the control plane out of reach of a nodegroup. */
  ghost predicate SafeHistory(history: seq<World>) {
    forall i :: 0 < i < |history| && history[i].cp != history[i - 1].cp ==> WithinSkew(history[i])
  }

  lemma NodegroupStepKeepsOrderly(n: Nodegroup, e: Event, cp: string, m: int)
    requires OrderlyNodegroup(n, cp)
    ensures OrderlyNodegroup(StepNodegroup(n, e), cp)
    ensures Reachable(n, m) ==> Reachable(StepNodegroup(n, e), m)
  {
    hide MinorVersion;
  }

  lemma ControlPlaneStepKeepsOrderly(w: World, e: Event)
    requires Orderly(w) && (e.ControlPlaneFinishes? || e.ControlPlaneFails? || e.ClusterStatusChanges?)
    ensures Orderly(Step(w, e))
    ensures Step(w, e).cp != w.cp ==> WithinSkew(Step(w, e))
  {
    var v := Step(w, e);
    forall n | n in w.nodes ensures OrderlyNodegroup(w.nodes[n], v.cp) {
      assert OrderlyNodegroup(w.nodes[n], w.cp);
    }
    if w.cpPending.Some? {
      forall n | n in w.nodes ensures Reachable(w.nodes[n], Minor(w.cpPending.value)) {}
    }
  }

  lemma NodegroupStepInWorld(w: World, n: string, e: Event)
    requires Orderly(w) && n in w.nodes
    ensures Orderly(WithNodegroup(w, n, e))
  {
    hide StepNodegroup, Reachable, OrderlyAddon, OrderlyNodegroup;
    var m := if w.cpPending.Some? && Parses(w.cpPending.value) then Minor(w.cpPending.value) else 0;
    NodegroupStepKeepsOrderly(w.nodes[n], e, w.cp, m);
  }

  lemma AddonStepInWorld(w: World, a: string, e: Event)
    requires Orderly(w) && a in w.addons
    ensures Orderly(WithAddon(w, a, e))
  {
    hide Reachable, OrderlyNodegroup;
    assert OrderlyAddon(w.addons[a]);
  }

  lemma StepKeepsOrderly(w: World, e: Event)
    requires Orderly(w)
    ensures Orderly(Step(w, e))
    ensures Step(w, e).cp != w.cp ==> WithinSkew(Step(w, e))
  {
    hide Orderly, WithinSkew, StepNodegroup, StepAddon;
    if e.ControlPlaneFinishes? || e.ControlPlaneFails? || e.ClusterStatusChanges? {
      ControlPlaneStepKeepsOrderly(w, e);
    } else if e.RollFinishes? || e.RollFails? || e.NodegroupHealth? {
      if e.name in w.nodes { NodegroupStepInWorld(w, e.name, e); }
    } else {
      if e.name in w.addons { AddonStepInWorld(w, e.name, e); }
    }
  }

  // ---- requests ----

  /** A mutating request and the world it was submitted to. */
  datatype Request =
    | ControlPlaneRequest(target: string, seen: World)
    | RollRequest(name: string, target: string, seen: World)
    | AddonRequest(name: string, version: string, seen: World)

  /** The control plane is asked one minor up and within skew; a roll never goes beyond the
      control plane nor backwards; an addon is only asked to move to a newer version. */
  predicate OrderlyRequest(r: Request) {
    match r
    case ControlPlaneRequest(t, w) =>
      && Parses(t) && Parses(w.cp) && Minor(t) == Minor(w.cp) + 1
      && SkewAt(w.nodes, Minor(t))
    case RollRequest(n, t, w) =>
      && VersionAtLeast(w.cp, t)
      && n in w.nodes && !w.nodes[n].customAmi && NoOlder(t, w.nodes[n].version)
      && (w.cpPending.Some? && Parses(w.cpPending.value) ==> Minor(w.cpPending.value) - Minor(t) <= KUBELET_SKEW)
    case AddonRequest(a, v, w) =>
      a in w.addons && CompareVersions(v, w.addons[a].version) > 0
  }

  /** The world once a request is accepted. */
  function Accept(r: Request): World {
    var w := r.seen;
    match r
    case ControlPlaneRequest(t, _) =>
      w.(cpPending := Some(t), status := ClusterUpdating)
    case RollRequest(n, t, _) =>
      if n !in w.nodes then w
      else w.(nodes := w.nodes[n := w.nodes[n].(pending := Some(t), status := NodegroupUpdating)])
    case AddonRequest(a, v, _) =>
      if a !in w.addons then w
      else w.(addons := w.addons[a := w.addons[a].(pending := Some(v), status := AddonUpdating)])
  }

  lemma AcceptKeepsOrderly(r: Request)
    requires Consistent(r.seen)
    ensures Consistent(Accept(r)) && Accept(r).cp == r.seen.cp
    ensures Orderly(r.seen) && OrderlyRequest(r) ==> Orderly(Accept(r))
  {
    hide MinorVersion;
    var w, v := r.seen, Accept(r);
    if Orderly(w) && OrderlyRequest(r) {
      match r
      case ControlPlaneRequest(t, _) =>
      case RollRequest(n, t, _) =>
        if w.cpPending.Some? {
          forall x | x in v.nodes ensures Reachable(v.nodes[x], Minor(w.cpPending.value)) {
            assert Reachable(w.nodes[x], Minor(w.cpPending.value));
          }
        }
      case AddonRequest(a, ver, _) =>
    }
  }

  // ---- the API ----

  datatype UpdateStatus = InProgress | Successful | UpdateFailed | Cancelled

  datatype Change = ControlPlaneChange(version: string) | RollChange(name: string, version: string)

  /** A finished, successful update left its target at the requested version. */
  predicate Applied(w: World, c: Change) {
    match c
    case ControlPlaneChange(v) => w.cp == v && w.cpPending.None?
    case RollChange(n, v) => n in w.nodes && w.nodes[n].version == v && w.nodes[n].pending.None?
  }

  predicate InFlight(w: World, c: Change) {
    match c
    case ControlPlaneChange(_) => w.cpPending.Some?
    case RollChange(n, _) => n in w.nodes && w.nodes[n].pending.Some?
  }

  datatype InsightStatus = InsightPassing | InsightWarning | InsightError | InsightUnknown

  datatype Insight = Insight(name: string, status: Option<InsightStatus>)

  // ---- answers that report trouble ----

  predicate BadCluster(r: Result<(string, ClusterStatus)>) { r.Err? || r.value.1 == ClusterFailed }

  predicate BadNodegroup(r: Result<Option<Nodegroup>>) {
    r.Err? || r.value.None? || r.value.value.status != NodegroupActive || r.value.value.issues > 0
  }

  predicate BadAddon(r: Result<Option<Addon>>) {
    r.Err? || r.value.None? || r.value.value.status != AddonActive || r.value.value.issues > 0
  }

  predicate BadVersions(r: Result<seq<AddonInfo>>) { r.Err? || Flatten(r.value) == [] }

  predicate BadUpdate(r: Result<Option<UpdateStatus>>) {
    r.Err? || r.value.None? || r.value.value == UpdateFailed || r.value.value == Cancelled
  }

  /** What the API, the context, or a gate of the caller's answered; a gate's answer says how many requests
      had been submitted by then. */
  datatype Answer =
    | ClusterAnswer(cluster: Result<(string, ClusterStatus)>)
    | OfferedAnswer(offered: Result<seq<string>>)
    | InsightsAnswer(version: string, insights: Result<seq<Insight>>)
    | NodegroupsAnswer(nodegroups: Result<seq<string>>)
    | NodegroupAnswer(name: string, nodegroup: Result<Option<Nodegroup>>)
    | AddonsAnswer(addons: Result<seq<string>>)
    | AddonAnswer(name: string, addon: Result<Option<Addon>>)
    | AddonVersionsAnswer(name: string, version: string, infos: Result<seq<AddonInfo>>)
    | UpdateAnswer(id: nat, update: Result<Option<UpdateStatus>>)
    | GateAnswer(name: string, passed: bool, requests: nat)
    | ContextEnded
    | DeadlinePassed

  /** The client, bound to one cluster and to the caller's context. */
  class Client {
    var w: World
    /** How many more polls the context allows; at zero it is done. */
    var patience: nat
    /** The accepted updates, by update ID. */
    var issued: seq<Change>
    /** Which addon versions exist for a Kubernetes version. */
    const catalog: (string, string) -> seq<AddonInfo>
    /** Whether every accepted request is answered with an update ID. */
    const namesUpdates: bool
    /** Every world the cluster went through, and every mutating request submitted. */
    ghost var history: seq<World>
    ghost var log: seq<Request>
    /** Every answer so far, and how many of them reported trouble. */
    ghost var told: seq<Answer>
    ghost var troubles: nat

    constructor (w: World, patience: nat, catalog: (string, string) -> seq<AddonInfo>, namesUpdates: bool)
      requires Consistent(w)
      ensures Valid() && this.w == w && this.catalog == catalog && this.namesUpdates == namesUpdates
      ensures history == [w] && log == [] && told == []
      ensures Orderly(w) ==> Sound()
    {
      this.w, this.patience, this.catalog, this.namesUpdates := w, patience, catalog, namesUpdates;
      issued, history, log, told, troubles := [], [w], [], [], 0;
    }

    ghost predicate Valid()
      reads this`w, this`history
    {
      Consistent(w) && history != [] && history[|history| - 1] == w
    }

    /** The cluster is orderly, every control-plane move so far left every nodegroup
        within skew, and every request so far was orderly. */
    ghost predicate Sound()
      reads this`w, this`history, this`log
    {
      && Valid() && Orderly(w) && SafeHistory(history)
      && forall r :: r in log ==> OrderlyRequest(r)
    }

    /** Nothing happened but time. */
    twostate predicate Waited()
      reads this
    {
      && Valid() && Later(old(w), w) && old(history) <= history
      && log == old(log) && issued == old(issued)
      && patience <= old(patience) && old(troubles) <= troubles && old(told) <= told
      && (old(Sound()) ==> Sound())
    }

    /** Counts an answer that reports trouble. */
    ghost method Note(bad: bool)
      modifies this`troubles
      ensures troubles == old(troubles) + if bad then 1 else 0
    {
      troubles := troubles + if bad then 1 else 0;
    }

    /** Records an answer. */
    ghost method Hear(a: Answer, bad: bool)
      modifies this`troubles, this`told
      ensures troubles == old(troubles) + (if bad then 1 else 0) && told == old(told) + [a]
    {
      told := told + [a];
      Note(bad);
    }

    method Elapse()
      requires Valid()
      modifies this
      ensures Waited() && troubles == old(troubles) && told == old(told)
    {
      var n: int := *;
      var i := 0;
      while i < n
        invariant Waited() && patience == old(patience) && troubles == old(troubles) && told == old(told)
      {
        i := i + 1;
        var e: Event := *;
        StepIsLater(w, e);
        LaterTransitive(old(w), w, Step(w, e));
        if Orderly(w) { StepKeepsOrderly(w, e); }
        w := Step(w, e);
        history := history + [w];
      }
      var p: nat := *;
      if p < patience {
        patience := p;
      }
    }

    /** A polling tick: false when the context is done instead. */
    method Tick() returns (ok: bool)
      modifies this`patience, this`troubles, this`told
      ensures patience <= old(patience) && old(troubles) <= troubles
      ensures if ok then patience < old(patience) else troubles > old(troubles)
      ensures told == if ok then old(told) else old(told) + [ContextEnded]
    {
      if patience == 0 {
        Hear(ContextEnded, true);
        return false;
      }
      patience := patience - 1;
      return true;
    }

    /** Whether a deadline of its own has passed. */
    method TimedOut() returns (r: bool)
      modifies this`troubles, this`told
      ensures troubles >= old(troubles) && (r ==> troubles > old(troubles))
      ensures told == if r then old(told) + [DeadlinePassed] else old(told)
    {
      r := *;
      if r {
        Hear(DeadlinePassed, true);
      }
    }

    /** The caller's own gate for a nodegroup. */
    method AskGate(name: string) returns (passed: bool)
      modifies this`troubles, this`told
      ensures told == old(told) + [GateAnswer(name, passed, |log|)] && troubles == old(troubles)
    {
      passed := *;
      Hear(GateAnswer(name, passed, |log|), false);
    }

    method DescribeCluster() returns (r: Result<(string, ClusterStatus)>)
      requires Valid()
      modifies this
      ensures Waited() && told == old(told) + [ClusterAnswer(r)]
      ensures BadCluster(r) ==> troubles > old(troubles)
      ensures r.Ok? ==> r.value == (w.cp, w.status)
    {
      Elapse();
      var fails: bool := *;
      r := if fails || patience == 0 then Err else Ok((w.cp, w.status));
      Hear(ClusterAnswer(r), BadCluster(r));
    }

    /** The offered versions, for checkVersionOffered. */
    method DescribeClusterVersions(ghost target: string) returns (r: Result<seq<string>>)
      requires Valid()
      modifies this
      ensures Waited() && told == old(told) + [OfferedAnswer(r)]
      ensures r.Err? || target !in r.value ==> troubles > old(troubles)
    {
      Elapse();
      var fails: bool := *;
      var offered: seq<string> := *;
      r := if fails || patience == 0 then Err else Ok(offered);
      Hear(OfferedAnswer(r), r.Err? || target !in offered);
    }

    method ListInsights(k8sVersion: string) returns (r: Result<seq<Insight>>)
      requires Valid()
      modifies this
      ensures Waited() && told == old(told) + [InsightsAnswer(k8sVersion, r)]
      ensures r.Err? ==> troubles > old(troubles)
    {
      Elapse();
      var fails: bool := *;
      var insights: seq<Insight> := *;
      r := if fails || patience == 0 then Err else Ok(insights);
      Hear(InsightsAnswer(k8sVersion, r), r.Err?);
    }

    method ListNodegroups() returns (r: Result<seq<string>>)
      requires Valid()
      modifies this
      ensures Waited() && told == old(told) + [NodegroupsAnswer(r)]
      ensures r.Err? ==> troubles > old(troubles)
      ensures r.Ok? ==> Lists(r.value, w.nodes.Keys)
    {
      Elapse();
      var fails: bool := *;
      var names := Enumerate(w.nodes.Keys);
      r := if fails || patience == 0 then Err else Ok(names);
      Hear(NodegroupsAnswer(r), r.Err?);
    }

    method DescribeNodegroup(name: string) returns (r: Result<Option<Nodegroup>>)
      requires Valid()
      modifies this
      ensures Waited() && told == old(told) + [NodegroupAnswer(name, r)]
      ensures BadNodegroup(r) ==> troubles > old(troubles)
      ensures r.Ok? ==> r.value == if name in w.nodes then Some(w.nodes[name]) else None
    {
      Elapse();
      var fails: bool := *;
      r := if fails || patience == 0 then Err
        else Ok(if name in w.nodes then Some(w.nodes[name]) else None);
      Hear(NodegroupAnswer(name, r), BadNodegroup(r));
    }

    method ListAddons() returns (r: Result<seq<string>>)
      requires Valid()
      modifies this
      ensures Waited() && told == old(told) + [AddonsAnswer(r)]
      ensures r.Err? ==> troubles > old(troubles)
      ensures r.Ok? ==> Lists(r.value, w.addons.Keys)
    {
      Elapse();
      var fails: bool := *;
      var names := Enumerate(w.addons.Keys);
      r := if fails || patience == 0 then Err else Ok(names);
      Hear(AddonsAnswer(r), r.Err?);
    }

    method DescribeAddon(name: string) returns (r: Result<Option<Addon>>)
      requires Valid()
      modifies this
      ensures Waited() && told == old(told) + [AddonAnswer(name, r)]
      ensures BadAddon(r) ==> troubles > old(troubles)
      ensures r.Ok? ==> r.value == if name in w.addons then Some(w.addons[name]) else None
    {
      Elapse();
      var fails: bool := *;
      r := if fails || patience == 0 then Err
        else Ok(if name in w.addons then Some(w.addons[name]) else None);
      Hear(AddonAnswer(name, r), BadAddon(r));
    }

    method DescribeAddonVersions(name: string, k8sVersion: string) returns (r: Result<seq<AddonInfo>>)
      requires Valid()
      modifies this
      ensures Waited() && told == old(told) + [AddonVersionsAnswer(name, k8sVersion, r)]
      ensures BadVersions(r) ==> troubles > old(troubles)
      ensures r.Ok? ==> r.value == catalog(name, k8sVersion)
    {
      Elapse();
      var fails: bool := *;
      r := if fails || patience == 0 then Err else Ok(catalog(name, k8sVersion));
      Hear(AddonVersionsAnswer(name, k8sVersion, r), BadVersions(r));
    }

    /** An update that no longer runs has either been applied or not succeeded. */
    method DescribeUpdate(id: nat) returns (r: Result<Option<UpdateStatus>>)
      requires Valid() && id < |issued|
      modifies this
      ensures Waited() && told == old(told) + [UpdateAnswer(id, r)]
      ensures BadUpdate(r) ==> troubles > old(troubles)
      ensures r == Ok(Some(Successful)) ==> Applied(w, issued[id])
    {
      Elapse();
      var fails, empty, failed, cancelled: bool := *, *, *, *;
      r :=
        if fails || patience == 0 then Err
        else if empty then Ok(None)
        else Ok(Some(
          if InFlight(w, issued[id]) then InProgress
          else if Applied(w, issued[id]) && !failed then Successful
          else if cancelled then Cancelled else UpdateFailed));
      Hear(UpdateAnswer(id, r), BadUpdate(r));
    }

    /** UpdateClusterVersion behind the retry wrapper: an error does not say whether the
        request was accepted. */
    method UpdateClusterVersion(t: string) returns (r: Result<Option<nat>>, ghost seen: World, ghost accepted: bool)
      requires Valid()
      modifies this
      ensures Valid() && Later(old(w), seen) && patience <= old(patience) && old(history) <= history
      ensures told == old(told) && old(troubles) <= troubles && (r.Err? ==> troubles > old(troubles))
      ensures w == if accepted then Accept(ControlPlaneRequest(t, seen)) else seen
      ensures accepted ==> seen.cpPending.None? && |old(history)| < |history|
      ensures log == old(log) + [ControlPlaneRequest(t, seen)]
      ensures r.Ok? ==> accepted
      ensures old(issued) <= issued && Named(r, ControlPlaneChange(t))
      ensures old(Sound()) && OrderlyRequest(ControlPlaneRequest(t, seen)) ==> Sound()
    {
      hide Orderly, OrderlyRequest, Accept, Later;
      Elapse();
      seen, accepted := w, false;
      log := log + [ControlPlaneRequest(t, w)];
      var rejected, lost: bool := *, *;
      if rejected || w.status != ClusterActive {
        Note(true);
        return Err, seen, accepted;
      }
      AcceptKeepsOrderly(ControlPlaneRequest(t, w));
      accepted := true;
      w := Accept(ControlPlaneRequest(t, w));
      history := history + [w];
      r := Answer(ControlPlaneChange(t), lost);
      Note(r.Err?);
    }

    /** UpdateNodegroupVersion behind the retry wrapper. */
    method UpdateNodegroupVersion(n: string, t: string)
      returns (r: Result<Option<nat>>, ghost seen: World, ghost accepted: bool)
      requires Valid()
      modifies this
      ensures Valid() && Later(old(w), seen) && patience <= old(patience) && old(history) <= history
      ensures told == old(told) && old(troubles) <= troubles && (r.Err? ==> troubles > old(troubles))
      ensures accepted ==> n in seen.nodes && seen.nodes[n].pending.None?
      ensures w == if accepted then Accept(RollRequest(n, t, seen)) else seen
      ensures log == old(log) + [RollRequest(n, t, seen)]
      ensures r.Ok? ==> accepted
      ensures old(issued) <= issued && Named(r, RollChange(n, t))
      ensures old(Sound()) && OrderlyRequest(RollRequest(n, t, seen)) ==> Sound()
    {
      hide Orderly, OrderlyRequest, Consistent, Accept, Later;
      Elapse();
      seen, accepted := w, false;
      log := log + [RollRequest(n, t, w)];
      var rejected, lost: bool := *, *;
      if rejected || n !in w.nodes || w.nodes[n].pending.Some? {
        Note(true);
        return Err, seen, accepted;
      }
      AcceptKeepsOrderly(RollRequest(n, t, w));
      accepted := true;
      w := Accept(RollRequest(n, t, w));
      history := history + [w];
      r := Answer(RollChange(n, t), lost);
      Note(r.Err?);
    }

    /** UpdateAddon behind the retry wrapper; its response carries nothing the caller uses. */
    method UpdateAddon(a: string, v: string) returns (ok: bool, ghost seen: World, ghost accepted: bool)
      requires Valid()
      modifies this
      ensures Valid() && Later(old(w), seen) && patience <= old(patience) && old(history) <= history
      ensures told == old(told) && old(troubles) <= troubles && (!ok ==> troubles > old(troubles))
      ensures accepted ==> a in seen.addons && seen.addons[a].pending.None?
      ensures w == if accepted then Accept(AddonRequest(a, v, seen)) else seen
      ensures log == old(log) + [AddonRequest(a, v, seen)]
      ensures ok ==> accepted
      ensures issued == old(issued)
      ensures old(Sound()) && OrderlyRequest(AddonRequest(a, v, seen)) ==> Sound()
    {
      hide Orderly, OrderlyRequest, Consistent, Accept, Later, MinorVersion, NodesLater, AddonsLater,
        ControlPlaneLater;
      Elapse();
      seen, accepted := w, false;
      log := log + [AddonRequest(a, v, w)];
      var rejected, lost: bool := *, *;
      if rejected || a !in w.addons || w.addons[a].pending.Some? {
        Note(true);
        return false, seen, accepted;
      }
      AcceptKeepsOrderly(AddonRequest(a, v, w));
      accepted := true;
      w := Accept(AddonRequest(a, v, w));
      history := history + [w];
      Note(lost);
      return !lost, seen, accepted;
    }

    /** An answer that carries an update ID names the change that was accepted. */
    ghost predicate Named(r: Result<Option<nat>>, c: Change)
      reads this`issued
    {
      r.Ok? ==>
        && (namesUpdates ==> r.value.Some?)
        && (r.value.Some? ==> r.value.value < |issued| && issued[r.value.value] == c)
    }

    method Answer(c: Change, lost: bool) returns (r: Result<Option<nat>>)
      modifies this`issued
      ensures issued == old(issued) + [c]
      ensures Named(r, c)
    {
      issued := issued + [c];
      var anonymous: bool := *;
      return if lost then Err else if anonymous && !namesUpdates then Ok(None) else Ok(Some(|issued| - 1));
    }
  }

  /** A listing: every name once, in any order. */
  ghost predicate Lists(names: seq<string>, keys: set<string>) {
    && (forall i, j :: 0 <= i < j < |names| ==> names[i] != names[j])
    && forall n :: n in names <==> n in keys
  }

  method Enumerate(keys: set<string>) returns (names: seq<string>)
    ensures Lists(names, keys)
  {
    names := [];
    var rest := keys;
    while rest != {}
      invariant rest <= keys && Lists(names, keys - rest)
      decreases rest
    {
      var n :| n in rest;
      names := names + [n];
      rest := rest - {n};
    }
  }
}
