/** The control-plane phase: attach to an update in flight or start one, then wait
    (internal/services/upgrade/controlplane.go, service.go). */
module ControlPlanePhase {
  import opened GoStrings
  import opened Versions
  import opened Eks
  import opened Progress

  /** An answer that leaves a wait for an ACTIVE cluster going. */
  predicate NotActiveYet(a: Answer) {
    a.ClusterAnswer? && a.cluster.Ok? && a.cluster.value.1 != ClusterActive && a.cluster.value.1 != ClusterFailed
  }

  predicate FailedAnswer(a: Answer) {
    a.ClusterAnswer? && (a.cluster.Ok? ==> a.cluster.value.1 == ClusterFailed)
  }

  /** An answer that leaves a wait for an update going: not over yet, nothing, or a failed poll. */
  predicate NotOverYet(a: Answer, id: nat) {
    a.UpdateAnswer? && a.id == id && (a.update.Ok? && a.update.value.Some? ==> a.update.value.value == InProgress)
  }

  /** waitForClusterActive: polls until ACTIVE; only FAILED, a failed call and a done context end the
      wait without it. */
  method WaitForClusterActive(eks: Client) returns (ok: bool)
    requires eks.Valid()
    modifies eks
    ensures eks.Waited() && |eks.told| > |old(eks.told)|
    ensures if ok then eks.w.status == ClusterActive else eks.troubles > old(eks.troubles)
    ensures forall k :: |old(eks.told)| <= k < |eks.told| - 1 ==> NotActiveYet(eks.told[k])
    ensures var last := eks.told[|eks.told| - 1];
      && (ok ==> last.ClusterAnswer? && last.cluster.Ok? && last.cluster.value.1 == ClusterActive)
      && (!ok ==> last.ContextEnded? || FailedAnswer(last))
  {
    while true
      invariant eks.Waited()
      invariant forall k :: |old(eks.told)| <= k < |eks.told| ==> NotActiveYet(eks.told[k])
      decreases eks.patience
    {
      ghost var before := eks.w;
      var r := eks.DescribeCluster();
      LaterTransitive(old(eks.w), before, eks.w);
      if r.Err? {
        return false;
      }
      match r.value.1 {
        case ClusterActive => return true;
        case ClusterFailed => return false;
        case _ =>
      }
      var more := eks.Tick();
      if !more {
        return false;
      }
    }
  }

  /** waitForUpdate: polls an update until it ends; failed polls are ignored, and only a failed or
      cancelled update and a done context end the wait without success. */
  method WaitForUpdate(eks: Client, id: nat) returns (ok: bool)
    requires eks.Valid() && id < |eks.issued|
    modifies eks
    ensures eks.Waited() && |eks.told| > |old(eks.told)|
    ensures if ok then Applied(eks.w, eks.issued[id]) else eks.troubles > old(eks.troubles)
    ensures forall k :: |old(eks.told)| <= k < |eks.told| - 1 ==> NotOverYet(eks.told[k], id)
    ensures var last := eks.told[|eks.told| - 1];
      && (ok ==> last == UpdateAnswer(id, Ok(Some(Successful))))
      && (!ok ==>
            || last.ContextEnded? || last == UpdateAnswer(id, Ok(Some(UpdateFailed)))
            || last == UpdateAnswer(id, Ok(Some(Cancelled))))
  {
    while true
      invariant eks.Waited()
      invariant forall k :: |old(eks.told)| <= k < |eks.told| ==> NotOverYet(eks.told[k], id)
      decreases eks.patience
    {
      var more := eks.Tick();
      if !more {
        return false;
      }
      ghost var before := eks.w;
      var r := eks.DescribeUpdate(id);
      LaterTransitive(old(eks.w), before, eks.w);
      if r.Ok? && r.value.Some? {
        match r.value.value {
          case Successful => return true;
          case UpdateFailed => return false;
          case Cancelled => return false;
          case InProgress =>
        }
      }
    }
  }

  /** The phase may run: the control plane is there, or exactly one minor short with every
      nodegroup within skew of the target. */
  predicate MayMove(w: World, target: string) {
    && Parses(target) && Parses(w.cp)
    && (|| Minor(w.cp) >= Minor(target)
        || (Minor(w.cp) + 1 == Minor(target) && SkewAt(w.nodes, Minor(target))))
  }

  /** The cluster was ACTIVE at some moment from index `from` on; when named, at the target with nothing
      in flight. */
  ghost predicate SeenActive(history: seq<World>, from: nat, target: string, named: bool) {
    exists i :: from <= i < |history| && history[i].status == ClusterActive
                && (named ==> history[i].cp == target && history[i].cpPending.None?)
  }

  lemma ActiveNow(history: seq<World>, from: nat, target: string, named: bool)
    requires from < |history| && history[|history| - 1].status == ClusterActive
    requires var w := history[|history| - 1]; named ==> w.cp == target && w.cpPending.None?
    ensures SeenActive(history, from, target, named)
  {}

  lemma ActiveStill(a: seq<World>, b: seq<World>, from: nat, earlier: nat, target: string, named: bool)
    requires SeenActive(a, from, target, named) && a <= b && earlier <= from
    ensures SeenActive(b, earlier, target, named)
  {
    var i :| from <= i < |a| && a[i].status == ClusterActive && (named ==> a[i].cp == target && a[i].cpPending.None?);
    assert b[i] == a[i];
  }

  lemma ActiveAtAll(history: seq<World>, from: nat, target: string)
    requires SeenActive(history, from, target, true)
    ensures SeenActive(history, from, target, false)
  {}

  /** The description says that the version is there. */
  predicate FoundAt(a: Answer, target: string) {
    a.ClusterAnswer? && a.cluster.Ok? && VersionAtLeast(a.cluster.value.0, target)
  }

  /** The description says that an update is in flight. */
  predicate FoundUpdating(a: Answer) { a.ClusterAnswer? && a.cluster.Ok? && a.cluster.value.1 == ClusterUpdating }

  /** Describes the cluster and attaches to an update in flight. None means that the cluster is
      below the target with nothing in flight, so an update has to be started. A cluster found UPDATING
      below the target is waited for until it is ACTIVE. */
  method Attach(eks: Client, target: string) returns (r: Option<bool>)
    requires eks.Valid()
    modifies eks
    ensures eks.Waited()
    ensures r == Some(true) ==> VersionAtLeast(eks.w.cp, target)
    ensures r == None ==> eks.w.cpPending.None? && !VersionAtLeast(eks.w.cp, target)
    ensures r == Some(false) ==> eks.troubles > old(eks.troubles)
    ensures |eks.told| > |old(eks.told)|
    ensures var first := eks.told[|old(eks.told)|];
      && (FoundAt(first, target) ==> r == Some(true))
      && (r != Some(false) && !FoundAt(first, target) && FoundUpdating(first) ==>
            SeenActive(eks.history, |old(eks.history)| - 1, target, false))
      && (r == Some(true) ==> FoundAt(first, target) || FoundUpdating(first))
  {
    hide SeenActive, MinorVersion, Orderly, NodesLater, AddonsLater, FailedAnswer, NotActiveYet;
    var cluster := eks.DescribeCluster();
    if cluster.Err? {
      return Some(false);
    }
    if VersionAtLeast(cluster.value.0, target) {
      return Some(true);
    }
    if cluster.value.1 == ClusterUpdating {
      ghost var w1 := eks.w;
      var active := WaitForClusterActive(eks);
      LaterTransitive(old(eks.w), w1, eks.w);
      if !active {
        return Some(false);
      }
      ActiveNow(eks.history, |old(eks.history)| - 1, target, false);
      ghost var w2, history := eks.w, eks.history;
      cluster := eks.DescribeCluster();
      LaterTransitive(old(eks.w), w2, eks.w);
      ActiveStill(history, eks.history, |old(eks.history)| - 1, |old(eks.history)| - 1, target, false);
      if cluster.Err? {
        return Some(false);
      }
      if VersionAtLeast(cluster.value.0, target) {
        return Some(true);
      }
    }
    return None;
  }

  /** Waits for the update and for an ACTIVE cluster, then checks the reported version. */
  method Confirm(eks: Client, target: string, id: Option<nat>) returns (ok: bool)
    requires eks.Valid() && (id.Some? ==> id.value < |eks.issued|)
    modifies eks
    ensures eks.Waited()
    ensures ok ==> VersionAtLeast(eks.w.cp, target)
    ensures id.Some? && old(eks.issued[id.value]) == ControlPlaneChange(target) ==>
      && (ok ==> eks.w.cp == target && eks.w.cpPending.None?)
      && (ok ==> SeenActive(eks.history, |old(eks.history)| - 1, target, true))
      && (!ok && Parses(target) ==> eks.troubles > old(eks.troubles))
    ensures ok ==> SeenActive(eks.history, |old(eks.history)| - 1, target, false)
  {
    hide SeenActive, MinorVersion, Orderly, NodesLater, AddonsLater, NotActiveYet, NotOverYet, FailedAnswer;
    LaterSame(eks.w);
    ghost var named := id.Some? && eks.issued[id.value] == ControlPlaneChange(target);
    if id.Some? {
      var done := WaitForUpdate(eks, id.value);
      if !done {
        return false;
      }
    }
    ghost var w1 := eks.w;
    var active := WaitForClusterActive(eks);
    LaterTransitive(old(eks.w), w1, eks.w);
    if !active {
      return false;
    }
    ActiveNow(eks.history, |old(eks.history)| - 1, target, named);
    ghost var w2, history := eks.w, eks.history;
    var cluster := eks.DescribeCluster();
    LaterTransitive(old(eks.w), w2, eks.w);
    ActiveStill(history, eks.history, |old(eks.history)| - 1, |old(eks.history)| - 1, target, named);
    if named { ActiveAtAll(eks.history, |old(eks.history)| - 1, target); }
    return cluster.Ok? && VersionAtLeast(cluster.value.0, target);
  }

  /** UpgradeControlPlane. Success means the control plane reports the target or newer, and an update
      the phase itself requested is over; at
      most one update is requested, and only towards the target while below it. After a request, success
      means that the cluster was seen ACTIVE, at the target when updates are named; without one, that it
      was found at the target or was seen ACTIVE after the update found in flight. On an
      orderly cluster that may move, everything stays orderly and every move within skew. */
  method UpgradeControlPlane(eks: Client, target: string) returns (ok: bool)
    requires eks.Valid()
    modifies eks
    ensures eks.Valid() && eks.patience <= old(eks.patience) && old(eks.history) <= eks.history
    ensures old(eks.troubles) <= eks.troubles
    ensures NodesLater(old(eks.w.nodes), eks.w.nodes) && AddonsLater(old(eks.w.addons), eks.w.addons)
    ensures ok ==> VersionAtLeast(eks.w.cp, target)
    ensures !ok && eks.namesUpdates && Parses(target) ==> eks.troubles > old(eks.troubles)
    ensures ok && eks.namesUpdates && eks.log != old(eks.log) ==> eks.w.cp == target && eks.w.cpPending.None?
    ensures || eks.log == old(eks.log)
            || exists seen ::
                 eks.log == old(eks.log) + [ControlPlaneRequest(target, seen)] && !VersionAtLeast(seen.cp, target)
    ensures old(eks.told) <= eks.told && |eks.told| > |old(eks.told)|
    ensures ok && eks.log == old(eks.log) ==>
      FoundAt(eks.told[|old(eks.told)|], target) || SeenActive(eks.history, |old(eks.history)| - 1, target, false)
    ensures ok && eks.log != old(eks.log) ==>
      exists m :: |old(eks.history)| <= m < |eks.history| && eks.history[m] == Accept(eks.log[|old(eks.log)|])
                  && SeenActive(eks.history, m, target, eks.namesUpdates)
    ensures old(eks.Sound()) && MayMove(old(eks.w), target) ==>
      && eks.Sound() && Forward(old(eks.w), eks.w) && Parses(eks.w.cp)
      && (Reach(eks.w) <= Reach(old(eks.w)) || Reach(eks.w) <= Minor(target))
  {
    hide SeenActive, MinorVersion, Orderly, NodesLater, AddonsLater, OrderlyRequest, Accept, FoundUpdating, FoundAt;
    ghost var w0 := eks.w;
    ghost var good := eks.Sound() && MayMove(w0, target);
    var attached := Attach(eks, target);
    ghost var w1 := eks.w;
    if good { LaterIsForward(w0, w1); }
    if attached.Some? {
      return attached.value;
    }
    var answer;
    ghost var seen, accepted;
    answer, seen, accepted := eks.UpdateClusterVersion(target);
    ghost var w2, history := eks.w, eks.history;
    Requested(w0, w1, seen, w2, target, accepted, good);
    assert eks.log == old(eks.log) + [ControlPlaneRequest(target, seen)];
    if answer.Err? {
      return false;
    }
    ok := Confirm(eks, target, answer.value);
    Settle(w0, w2, eks.w, seen, good);
    if ok {
      assert eks.history[|history| - 1] == w2 && eks.log[|old(eks.log)|] == ControlPlaneRequest(target, seen);
    }
  }

  /** The request goes out with the control plane exactly one minor below the target. */
  lemma Requested(w0: World, w1: World, seen: World, w2: World, target: string, accepted: bool, good: bool)
    requires Later(w0, w1) && Later(w1, seen)
    requires w1.cpPending.None? && !VersionAtLeast(w1.cp, target)
    requires w2 == if accepted then Accept(ControlPlaneRequest(target, seen)) else seen
    requires good ==> Orderly(w0) && MayMove(w0, target)
    ensures Later(w0, seen) && seen.cp == w1.cp && w2.nodes == seen.nodes && w2.addons == seen.addons
    ensures good ==> OrderlyRequest(ControlPlaneRequest(target, seen))
    ensures good ==> Forward(w0, w2) && Parses(w2.cp)
    ensures good ==> Reach(w2) <= Reach(w0) || Reach(w2) <= Minor(target)
  {
    LaterTransitive(w0, w1, seen);
    if good {
      LaterIsForward(w0, seen);
      SkewAtForward(w0, seen, Minor(target));
      AcceptIsForward(ControlPlaneRequest(target, seen));
      ForwardTransitive(w0, seen, w2);
    }
  }

  /** What holds right after the request still holds after waiting. */
  lemma Settle(w0: World, w1: World, w2: World, seen: World, good: bool)
    requires Later(w0, seen) && w1.nodes == seen.nodes && w1.addons == seen.addons && Later(w1, w2)
    requires good ==> Orderly(w1) && Forward(w0, w1) && Parses(w1.cp)
    ensures NodesLater(w0.nodes, w2.nodes) && AddonsLater(w0.addons, w2.addons)
    ensures good ==> Forward(w0, w2) && Parses(w2.cp) && Reach(w2) <= Reach(w1)
  {
    NodesLaterTransitive(w0.nodes, seen.nodes, w2.nodes);
    AddonsLaterTransitive(w0.addons, seen.addons, w2.addons);
    if good {
      LaterIsForward(w1, w2);
      ForwardTransitive(w0, w1, w2);
    }
  }
}
