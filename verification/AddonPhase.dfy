/** The addon phase: serial updates in dependency order, attaching to updates in flight
    (internal/services/upgrade/addons.go, internal/services/addons/service.go, health_check.go,
    version_analyzer.go). */
module AddonPhase {
  import opened GoStrings
  import opened Versions
  import opened AddonVersions
  import opened AddonOrder
  import opened Eks
  import opened Planner
  import opened Progress

  type Catalog = (string, string) -> seq<AddonInfo>

  predicate HasVersions(catalog: Catalog, a: string, k8s: string) { Flatten(catalog(a, k8s)) != [] }

  /** The newest version of an addon for a Kubernetes version. */
  function NewestFor(catalog: Catalog, a: string, k8s: string): string
    requires HasVersions(catalog, a, k8s)
  {
    Newest(Flatten(catalog(a, k8s)))
  }

  /** The addon runs a version not behind the newest one compatible with k8s. */
  predicate AtNewest(addons: map<string, Addon>, catalog: Catalog, a: string, k8s: string) {
    && a in addons && HasVersions(catalog, a, k8s)
    && CompareVersions(addons[a].version, NewestFor(catalog, a, k8s)) >= 0
  }

  lemma AtNewestForward(a: map<string, Addon>, b: map<string, Addon>, catalog: Catalog, n: string, k8s: string)
    requires AtNewest(a, catalog, n, k8s) && AddonsForward(a, b)
    ensures AtNewest(b, catalog, n, k8s)
  {
    CompareTransitive(b[n].version, a[n].version, NewestFor(catalog, n, k8s));
  }

  // ---- reading the addons ----

  /** The summary of one addon. */
  method Summarize(eks: Client, name: string) returns (a: AddonSummary)
    requires eks.Valid() && name in eks.w.addons
    modifies eks
    ensures eks.Waited() && a.name == name && name in eks.w.addons && eks.w.addons.Keys == old(eks.w.addons.Keys)
    ensures |eks.told| == |old(eks.told)| + 1
    ensures var answer := eks.told[|old(eks.told)|];
      && answer.AddonAnswer? && answer.name == name
      && a.version == if answer.addon.Ok? && answer.addon.value.Some? then answer.addon.value.value.version else ""
    ensures a.version == eks.w.addons[name].version || (a.version == "" && eks.troubles > old(eks.troubles))
  {
    var d := eks.DescribeAddon(name);
    return AddonSummary(name, if d.Ok? && d.value.Some? then d.value.value.version else "");
  }

  /** From index `from` on the addons were listed, once, and then described one by one. */
  ghost predicate AddonsTold(told: seq<Answer>, from: nat, failed: bool) {
    && from < |told| && told[from].AddonsAnswer? && told[from].addons.Err? == failed
    && (failed ==> |told| == from + 1)
    && forall k :: from < k < |told| ==> told[k].AddonAnswer?
  }

  predicate NamesTold(told: seq<Answer>, from: nat, names: seq<string>) {
    from < |told| && told[from] == AddonsAnswer(Ok(names))
  }

  lemma AddonsListed(told: seq<Answer>, from: nat, names: Result<seq<string>>)
    requires |told| == from + 1 && told[from] == AddonsAnswer(names)
    ensures AddonsTold(told, from, names.Err?)
  {}

  lemma OneMoreAddonTold(told: seq<Answer>, from: nat, more: seq<Answer>)
    requires AddonsTold(told, from, false) && told <= more && |more| == |told| + 1 && more[|told|].AddonAnswer?
    ensures AddonsTold(more, from, false)
  {}

  /** List: one summary per addon; an addon that cannot be described has no version. */
  method ListAddons(eks: Client) returns (r: Result<seq<AddonSummary>>)
    requires eks.Valid()
    modifies eks
    ensures eks.Waited()
    ensures r.Ok? ==> Distinct(Names(r.value)) && Installed(r.value) == eks.w.addons.Keys
    ensures r.Ok? && old(eks.Sound()) ==> AddonsSnapshot(r.value, eks.w.addons)
    ensures r.Ok? && old(eks.Sound()) ==> AddonsSince(r.value, old(eks.w.addons), eks.troubles == old(eks.troubles))
    ensures r.Err? ==> eks.troubles > old(eks.troubles)
    ensures AddonsTold(eks.told, |old(eks.told)|, r.Err?)
    ensures r.Ok? ==> NamesTold(eks.told, |old(eks.told)|, Names(r.value))
  {
    hide CompareVersions, Orderly, ControlPlaneLater, NodesLater, AddonLater, AddonsSince, MinorVersion,
      AddonsForward, AddonsSnapshot, AddonsTold, Later;
    var names := eks.ListAddons();
    AddonsListed(eks.told, |old(eks.told)|, names);
    if names.Err? {
      return Err;
    }
    ghost var w1, good := eks.w, old(eks.Sound());
    var summaries: seq<AddonSummary> := [];
    NoneListed(old(eks.w.addons), eks.troubles == old(eks.troubles));
    for i := 0 to |names.value|
      invariant eks.Waited() && eks.w.addons.Keys == w1.addons.Keys
      invariant |summaries| == i && forall j :: 0 <= j < i ==> summaries[j].name == names.value[j]
      invariant AddonsTold(eks.told, |old(eks.told)|, false)
      invariant NamesTold(eks.told, |old(eks.told)|, names.value)
      invariant good ==> NotAhead(summaries, eks.w.addons)
      invariant good ==> AddonsSince(summaries, old(eks.w.addons), eks.troubles == old(eks.troubles))
    {
      ghost var before, troubles, told := eks.w, eks.troubles, eks.told;
      assert names.value[i] in names.value;
      var a := Summarize(eks, names.value[i]);
      OneMoreAddonTold(told, |old(eks.told)|, eks.told);
      LaterTransitive(old(eks.w), before, eks.w);
      ListingStep(summaries, old(eks.w), before, eks.w, a, good);
      if good {
        ListedSince(summaries, old(eks.w), eks.w, a, troubles == old(eks.troubles), eks.troubles == old(eks.troubles));
      }
      summaries := summaries + [a];
    }
    SnapshotCovers(summaries, names.value, eks.w.addons);
    return Ok(summaries);
  }

  ghost predicate NotAhead(summaries: seq<AddonSummary>, addons: map<string, Addon>) {
    forall j :: 0 <= j < |summaries| ==>
      summaries[j].name in addons && CompareVersions(addons[summaries[j].name].version, summaries[j].version) >= 0
  }

  lemma NotAheadForward(summaries: seq<AddonSummary>, a: map<string, Addon>, b: map<string, Addon>)
    requires NotAhead(summaries, a) && AddonsForward(a, b)
    ensures NotAhead(summaries, b)
  {
    forall j | 0 <= j < |summaries| ensures CompareVersions(b[summaries[j].name].version, summaries[j].version) >= 0 {
      CompareTransitive(b[summaries[j].name].version, a[summaries[j].name].version, summaries[j].version);
    }
  }

  lemma ListingStep(summaries: seq<AddonSummary>, w0: World, before: World, after: World, a: AddonSummary, good: bool)
    requires Later(w0, before) && Later(before, after) && a.name in after.addons
    requires good ==> Orderly(w0) && NotAhead(summaries, before.addons)
    requires a.version == after.addons[a.name].version || a.version == ""
    ensures good ==> NotAhead(summaries + [a], after.addons)
  {
    hide CompareVersions, Orderly, AddonsForward;
    if good {
      LaterKeepsOrderly(w0, before);
      LaterIsForward(before, after);
      NotAheadForward(summaries, before.addons, after.addons);
      EmptyIsOldest(after.addons[a.name].version);
    }
  }

  lemma NoneListed(earlier: map<string, Addon>, described: bool)
    ensures AddonsSince([], earlier, described)
  {}

  /** One more addon was listed, with its live version or without one. */
  lemma ListedSince(summaries: seq<AddonSummary>, w0: World, w: World, a: AddonSummary, before: bool, described: bool)
    requires Orderly(w0) && Later(w0, w) && AddonsSince(summaries, w0.addons, before) && (described ==> before)
    requires a.name in w.addons && (a.version == w.addons[a.name].version || (!described && a.version == ""))
    ensures AddonsSince(summaries + [a], w0.addons, described)
  {
    hide CompareVersions, Orderly, Later;
    LaterIsForward(w0, w);
  }

  lemma EmptyIsOldest(v: string)
    ensures CompareVersions(v, "") >= 0 && CompareVersions(v, v) >= 0
  {
    assert Segments("") == [];
    CompareFlip(v, v);
  }

  lemma SnapshotCovers(summaries: seq<AddonSummary>, names: seq<string>, addons: map<string, Addon>)
    requires Lists(names, addons.Keys) && |summaries| == |names|
    requires forall j :: 0 <= j < |names| ==> summaries[j].name == names[j]
    ensures Names(summaries) == names && Distinct(names) && Installed(summaries) == addons.Keys
    ensures NotAhead(summaries, addons) ==> AddonsSnapshot(summaries, addons)
  {
    assert Names(summaries) == names;
    InstalledCount(summaries);
    forall a | a in addons ensures exists j :: 0 <= j < |summaries| && summaries[j].name == a {
      var j :| 0 <= j < |summaries| && Names(summaries)[j] == a;
      assert summaries[j].name == a;
    }
  }

  /** GetAvailableVersions against the client: the newest version, if any. */
  method LookUp(eks: Client, a: string, k8s: string) returns (r: Option<string>)
    requires eks.Valid()
    modifies eks
    ensures eks.Waited()
    ensures r.Some? ==> HasVersions(eks.catalog, a, k8s) && r.value == NewestFor(eks.catalog, a, k8s)
    ensures r.None? ==> eks.troubles > old(eks.troubles)
    ensures |eks.told| == |old(eks.told)| + 1
    ensures var answer := eks.told[|old(eks.told)|];
      && answer.AddonVersionsAnswer? && answer.name == a && answer.version == k8s
      && (r.Some? <==> answer.infos.Ok? && Flatten(answer.infos.value) != [])
      && (r.Some? ==> r.value == Newest(Flatten(answer.infos.value)))
  {
    var infos := eks.DescribeAddonVersions(a, k8s);
    if infos.Err? {
      return None;
    }
    var versions := GetAvailableVersions(infos.value);
    return if versions.Ok? then Some(versions.value[0].version) else None;
  }

  // ---- one update ----

  /** An answer that leaves a wait for an addon going: neither ACTIVE nor a failure, or none. */
  predicate AddonNotReadyYet(a: Answer, name: string) {
    a.AddonAnswer? && a.name == name
    && (a.addon.Ok? && a.addon.value.Some? ==> var status := a.addon.value.value.status;
          status != AddonActive && status != AddonDegraded && status != AddonCreateFailed
          && status != AddonUpdateFailed && status != AddonDeleteFailed)
  }

  predicate AddonFailed(a: Answer, name: string) {
    a.AddonAnswer? && a.name == name && a.addon.Ok? && a.addon.value.Some?
    && var status := a.addon.value.value.status;
       || status == AddonDegraded || status == AddonCreateFailed
       || status == AddonUpdateFailed || status == AddonDeleteFailed
  }

  /** waitForAddonUpdate under its own timeout: failed polls are ignored, and only a failure status, the
      timeout and a done context end the wait without an ACTIVE addon. */
  method WaitForAddon(eks: Client, a: string) returns (ok: bool)
    requires eks.Valid()
    modifies eks
    ensures eks.Waited()
    ensures if ok then a in eks.w.addons && eks.w.addons[a].status == AddonActive else eks.troubles > old(eks.troubles)
    ensures |eks.told| > |old(eks.told)|
    ensures !ok ==> var last := eks.told[|eks.told| - 1];
      last.ContextEnded? || last.DeadlinePassed? || AddonFailed(last, a)
    ensures forall k :: |old(eks.told)| <= k < |eks.told| - 1 ==>
      AddonNotReadyYet(eks.told[k], a) || (!ok && k == |eks.told| - 2 && eks.told[k].ContextEnded?)
  {
    hide Orderly, NodesLater, AddonsLater, ControlPlaneLater, MinorVersion;
    LaterSame(eks.w);
    while true
      invariant eks.Waited()
      invariant forall k :: |old(eks.told)| <= k < |eks.told| ==> AddonNotReadyYet(eks.told[k], a)
      decreases eks.patience
    {
      var more := eks.Tick();
      var timeout := eks.TimedOut();
      if !more || timeout {
        return false;
      }
      ghost var before := eks.w;
      var d := eks.DescribeAddon(a);
      LaterTransitive(old(eks.w), before, eks.w);
      if d.Ok? && d.value.Some? {
        match d.value.value.status {
          case AddonActive => return true;
          case AddonDegraded => return false;
          case AddonCreateFailed => return false;
          case AddonUpdateFailed => return false;
          case AddonDeleteFailed => return false;
          case _ =>
        }
      }
    }
  }

  /** Whether some version of a non-empty list is the one wanted. */
  predicate Offers(versions: seq<AddonVersionInfo>, version: string) {
    exists i :: 0 <= i < |versions| && versions[i].version == version
  }

  lemma OffersListed(versions: seq<AddonVersionInfo>, version: string)
    ensures Offers(StableSort(versions), version) <==> exists v :: v in versions && v.version == version
  {
    var s := StableSort(versions);
    StableSortSorts(versions);
    forall v ensures v in s <==> v in versions {
      assert v in s <==> v in multiset(s);
      assert v in versions <==> v in multiset(versions);
    }
    if i :| 0 <= i < |s| && s[i].version == version { assert s[i] in versions; }
    if v :| v in versions && v.version == version {
      var i :| 0 <= i < |s| && s[i] == v;
    }
  }

  /** The Kubernetes version is the one the description gave, if it gave one. */
  predicate KnownFrom(k8s: Option<string>, answer: Answer) {
    answer.ClusterAnswer? && k8s == if answer.cluster.Ok? then Some(answer.cluster.value.0) else None
  }

  /** The version was compared with the list for this Kubernetes version: refused exactly when the list is
      known, not empty and does not hold it. */
  ghost predicate ComparedWith(answer: Answer, ok: bool, a: string, version: string, k8s: string) {
    && answer.AddonVersionsAnswer? && answer.name == a && answer.version == k8s
    && (ok <==> answer.infos.Err? || Flatten(answer.infos.value) == []
                || exists v :: v in Flatten(answer.infos.value) && v.version == version)
  }

  /** The compatibility check: when the cluster's Kubernetes version and the versions compatible with it can
      be determined, the version must be among them. `memo` caches the Kubernetes version. */
  method CheckCompatible(eks: Client, a: string, version: string, memo: Option<string>)
    returns (ok: bool, k8s: Option<string>)
    requires eks.Valid()
    modifies eks
    ensures eks.Waited() && (memo.Some? ==> k8s == memo)
    ensures memo.None? ==> |eks.told| > |old(eks.told)| && KnownFrom(k8s, eks.told[|old(eks.told)|])
    ensures k8s.None? || k8s.value == "" ==> ok
    ensures k8s.Some? && k8s.value != "" ==>
      |eks.told| > |old(eks.told)| && ComparedWith(eks.told[|eks.told| - 1], ok, a, version, k8s.value)
    ensures !ok ==>
      k8s.Some? && HasVersions(eks.catalog, a, k8s.value)
        && !Offers(StableSort(Flatten(eks.catalog(a, k8s.value))), version)
    ensures memo.None? && k8s.Some? && old(eks.w.cpPending).None? ==> k8s.value == old(eks.w.cp)
  {
    hide Orderly;
    k8s := memo;
    if k8s.None? {
      var c := eks.DescribeCluster();
      if c.Ok? {
        k8s := Some(c.value.0);
      }
    }
    if k8s.None? || k8s.value == "" {
      return true, k8s;
    }
    ghost var w1 := eks.w;
    var infos := eks.DescribeAddonVersions(a, k8s.value);
    LaterTransitive(old(eks.w), w1, eks.w);
    if infos.Err? {
      return true, k8s;
    }
    var versions := GetAvailableVersions(infos.value);
    OffersListed(Flatten(infos.value), version);
    return versions.Err? || Offers(versions.value, version), k8s;
  }

  /** The addon is CREATING or UPDATING, or cannot be described. */
  predicate MidOperation(answer: Answer, a: string) {
    answer.AddonAnswer? && answer.name == a
    && (answer.addon.Ok? && answer.addon.value.Some? ==>
          answer.addon.value.value.status == AddonCreating || answer.addon.value.value.status == AddonUpdating)
  }

  /** The addon was found not mid-operation, and its version was not refused for the Kubernetes version. */
  ghost predicate Cleared(told: seq<Answer>, from: nat, a: string, version: string, k8s: Option<string>) {
    && (exists i :: from <= i < |told| && FoundIdle(told[i], a))
    && (k8s.Some? && k8s.value != "" ==>
          exists i :: from <= i < |told| && ComparedWith(told[i], true, a, version, k8s.value))
  }

  predicate FoundIdle(answer: Answer, a: string) {
    && answer.AddonAnswer? && answer.name == a && answer.addon.Ok? && answer.addon.value.Some?
    && answer.addon.value.value.status != AddonCreating && answer.addon.value.value.status != AddonUpdating
  }

  lemma StillCleared(told: seq<Answer>, more: seq<Answer>, from: nat, a: string, version: string, k8s: Option<string>)
    requires Cleared(told, from, a, version, k8s) && told <= more
    ensures Cleared(more, from, a, version, k8s)
  {
    hide FoundIdle, ComparedWith;
    var i :| from <= i < |told| && FoundIdle(told[i], a);
    assert more[i] == told[i];
    if k8s.Some? && k8s.value != "" {
      var j :| from <= j < |told| && ComparedWith(told[j], true, a, version, k8s.value);
      assert more[j] == told[j];
    }
  }

  lemma IsCleared(told: seq<Answer>, from: nat, compared: int, idle: nat, a: string, version: string,
                  k8s: Option<string>)
    requires from <= idle < |told| && FoundIdle(told[idle], a)
    requires k8s.Some? && k8s.value != "" ==>
      from <= compared < |told| && ComparedWith(told[compared], true, a, version, k8s.value)
    ensures Cleared(told, from, a, version, k8s)
  {}

  /** The checks before an update is submitted: compatibility, and the addon must not be mid-operation. */
  method MaySubmit(eks: Client, a: string, version: string, memo: Option<string>)
    returns (ok: bool, k8s: Option<string>)
    requires eks.Valid()
    modifies eks
    ensures eks.Waited() && (memo.Some? ==> k8s == memo)
    ensures ok ==>
      a in eks.w.addons && eks.w.addons[a].status != AddonCreating && eks.w.addons[a].status != AddonUpdating
    ensures !ok ==>
      || eks.troubles > old(eks.troubles)
      || (k8s.Some? && HasVersions(eks.catalog, a, k8s.value)
        && !Offers(StableSort(Flatten(eks.catalog(a, k8s.value))), version))
    ensures !ok ==>
      |eks.told| > |old(eks.told)| &&
      var last := eks.told[|eks.told| - 1];
      || MidOperation(last, a)
      || (k8s.Some? && ComparedWith(last, false, a, version, k8s.value))
    ensures ok ==> Cleared(eks.told, |old(eks.told)|, a, version, k8s)
    ensures memo.None? ==> |eks.told| > |old(eks.told)| && KnownFrom(k8s, eks.told[|old(eks.told)|])
    ensures memo.None? && k8s.Some? && old(eks.w.cpPending).None? ==> k8s.value == old(eks.w.cp)
  {
    hide Orderly, ComparedWith, MinorVersion, NodesLater, AddonsLater, ControlPlaneLater, HasVersions, Offers,
      StableSort, Flatten, KnownFrom, Cleared;
    ok, k8s := CheckCompatible(eks, a, version, memo);
    if !ok {
      return;
    }
    ghost var w1, compared := eks.w, |eks.told| - 1;
    var current := eks.DescribeAddon(a);
    LaterTransitive(old(eks.w), w1, eks.w);
    if current.Err? || current.value.None? {
      return false, k8s;
    }
    ghost var w2 := eks.w;
    var d := eks.DescribeAddon(a);
    LaterTransitive(old(eks.w), w2, eks.w);
    if d.Err? || d.value.None? {
      return false, k8s;
    }
    var status := d.value.value.status;
    if status != AddonCreating && status != AddonUpdating {
      IsCleared(eks.told, |old(eks.told)|, compared, |eks.told| - 1, a, version, k8s);
    }
    return status != AddonCreating && status != AddonUpdating, k8s;
  }

  /** The wait and the health gate after an accepted update. */
  method AwaitHealthy(eks: Client, a: string) returns (ok: bool)
    requires eks.Valid()
    modifies eks
    ensures eks.Waited()
    ensures ok ==> a in eks.w.addons && eks.w.addons[a].status == AddonActive && eks.w.addons[a].issues == 0
    ensures !ok ==> eks.troubles > old(eks.troubles)
  {
    var active := WaitForAddon(eks, a);
    if !active {
      return false;
    }
    ghost var w1 := eks.w;
    var d := eks.DescribeAddon(a);
    LaterTransitive(old(eks.w), w1, eks.w);
    return d.Ok? && d.value.Some? && d.value.value.status == AddonActive && d.value.value.issues == 0;
  }

  /** Update with HealthCheck and Wait: at most one request; success means the addon runs the
      requested version. */
  method Update(eks: Client, a: string, version: string, memo: Option<string>)
    returns (ok: bool, k8s: Option<string>, ghost seen: World)
    requires eks.Valid() && a in eks.w.addons && eks.w.addons[a].pending.None?
    modifies eks
    ensures eks.Valid() && eks.patience <= old(eks.patience) && old(eks.history) <= eks.history
    ensures old(eks.troubles) <= eks.troubles
    ensures ControlPlaneLater(old(eks.w), eks.w) && NodesLater(old(eks.w.nodes), eks.w.nodes)
    ensures eks.w.addons.Keys == old(eks.w.addons.Keys)
    ensures ok ==>
      a in eks.w.addons && eks.w.addons[a].version == version && eks.w.addons[a].status == AddonActive
        && eks.w.addons[a].issues == 0
    ensures eks.log == old(eks.log) || eks.log == old(eks.log) + [AddonRequest(a, version, seen)]
    ensures Later(old(eks.w), seen)
    ensures memo.Some? ==> k8s == memo
    ensures memo.None? && k8s.Some? && old(eks.w.cpPending).None? ==> k8s.value == old(eks.w.cp)
    ensures !ok ==>
      || eks.troubles > old(eks.troubles)
      || (k8s.Some? && HasVersions(eks.catalog, a, k8s.value)
        && !Offers(StableSort(Flatten(eks.catalog(a, k8s.value))), version))
    ensures old(eks.told) <= eks.told
    ensures eks.log != old(eks.log) ==> Cleared(eks.told, |old(eks.told)|, a, version, k8s)
    ensures memo.None? ==> |eks.told| > |old(eks.told)| && KnownFrom(k8s, eks.told[|old(eks.told)|])
    ensures old(eks.Sound()) && CompareVersions(version, old(eks.w.addons[a].version)) > 0 ==>
      eks.Sound() && AddonsForward(old(eks.w.addons), eks.w.addons)
  {
    hide CompareVersions, Orderly, ControlPlaneLater, NodesLater, AddonsForward, MinorVersion, HasVersions, Offers,
      StableSort, Flatten, Cleared, KnownFrom, ComparedWith, Accept, OrderlyRequest, AddonLater, SafeHistory;
    ghost var w0 := eks.w;
    ghost var good := eks.Sound() && CompareVersions(version, w0.addons[a].version) > 0;
    var allowed;
    allowed, k8s := MaySubmit(eks, a, version, memo);
    ghost var w1, told := eks.w, eks.told;
    seen := w1;
    if !allowed {
      if good { LaterIsForward(w0, w1); }
      return false, k8s, seen;
    }
    var accepted;
    ghost var acc;
    accepted, seen, acc := eks.UpdateAddon(a, version);
    ghost var w2 := eks.w;
    Submitted(w0, w1, seen, w2, a, version, acc, good);
    if !accepted {
      return false, k8s, seen;
    }
    ok := AwaitHealthy(eks, a);
    StillCleared(told, eks.told, |old(eks.told)|, a, version, k8s);
    Landed(w0, seen, w2, eks.w, a, version, good);
  }

  lemma Submitted(w0: World, w1: World, seen: World, w2: World, a: string, version: string, accepted: bool, good: bool)
    requires Later(w0, w1) && Later(w1, seen) && a in w0.addons && w0.addons[a].pending.None?
    requires w2 == if accepted then Accept(AddonRequest(a, version, seen)) else seen
    requires good ==> Orderly(w0) && CompareVersions(version, w0.addons[a].version) > 0
    ensures Later(w0, seen)
    ensures ControlPlaneLater(w0, w2) && NodesLater(w0.nodes, w2.nodes) && w2.addons.Keys == w0.addons.Keys
    ensures good ==> OrderlyRequest(AddonRequest(a, version, seen))
    ensures good ==> AddonsForward(w0.addons, w2.addons)
  {
    hide MinorVersion, CompareVersions;
    LaterTransitive(w0, w1, seen);
    assert AddonLater(w0.addons[a], seen.addons[a]);
    if good { LaterIsForward(w0, seen); }
  }

  lemma Landed(w0: World, seen: World, w2: World, w3: World, a: string, version: string, good: bool)
    requires Later(w0, seen) && a in seen.addons && w2 == Accept(AddonRequest(a, version, seen))
    requires Later(w2, w3) && Consistent(w3)
    requires good ==> Orderly(w2) && AddonsForward(w0.addons, w2.addons)
    ensures ControlPlaneLater(w0, w3) && NodesLater(w0.nodes, w3.nodes) && w3.addons.Keys == w0.addons.Keys
    ensures w3.addons[a].status == AddonActive ==> w3.addons[a].version == version
    ensures good ==> AddonsForward(w0.addons, w3.addons)
  {
    NodesLaterTransitive(w0.nodes, seen.nodes, w3.nodes);
    assert AddonLater(w2.addons[a], w3.addons[a]);
    if good {
      LaterIsForward(w2, w3);
      AddonsForwardTransitive(w0.addons, w2.addons, w3.addons);
    }
  }

  lemma AddonsForwardTransitive(a: map<string, Addon>, b: map<string, Addon>, c: map<string, Addon>)
    requires AddonsForward(a, b) && AddonsForward(b, c)
    ensures AddonsForward(a, c)
  {
    forall n | n in a ensures CompareVersions(c[n].version, a[n].version) >= 0 {
      CompareTransitive(c[n].version, b[n].version, a[n].version);
    }
  }

  // ---- the phase ----

  /** The control plane runs exactly the target, with nothing in flight. */
  predicate StaysAt(w: World, target: string) { w.cp == target && w.cpPending.None? }

  /** The Kubernetes version remembered, if any, is the target. */
  predicate Remembers(memo: Option<string>, target: string) { memo.Some? ==> memo.value == target }

  /** The newest version of a list is offered by it. */
  lemma NewestIsOffered(catalog: Catalog, a: string, k8s: string)
    requires HasVersions(catalog, a, k8s)
    ensures Offers(StableSort(Flatten(catalog(a, k8s))), NewestFor(catalog, a, k8s))
  {
    var vs := Flatten(catalog(a, k8s));
    assert Newest(vs) == StableSort(vs)[0].version;
  }

  /** Converging one addon on the newest version for the target: attach to an update in
      flight, skip when already there, update otherwise. */
  method Converge(eks: Client, a: string, target: string, memo: Option<string>)
    returns (ok: bool, k8s: Option<string>, ghost seen: World)
    requires eks.Valid() && a in eks.w.addons
    modifies eks
    ensures eks.Valid() && eks.patience <= old(eks.patience) && old(eks.history) <= eks.history
    ensures old(eks.troubles) <= eks.troubles
    ensures ControlPlaneLater(old(eks.w), eks.w) && NodesLater(old(eks.w.nodes), eks.w.nodes)
    ensures eks.w.addons.Keys == old(eks.w.addons.Keys)
    ensures old(eks.told) <= eks.told
    ensures ok ==> AtNewest(eks.w.addons, eks.catalog, a, target)
    ensures old(StaysAt(eks.w, target)) && Remembers(memo, target) ==>
      Remembers(k8s, target) && (!ok ==> eks.troubles > old(eks.troubles))
    ensures eks.log == old(eks.log)
      || (&& HasVersions(eks.catalog, a, target)
          && eks.log == old(eks.log) + [AddonRequest(a, NewestFor(eks.catalog, a, target), seen)]
          && a in seen.addons && seen.addons.Keys == old(eks.w.addons.Keys))
    ensures old(eks.Sound()) ==>
      && eks.Sound()
      && AddonsForward(old(eks.w.addons), eks.w.addons)
      && AddonsForward(old(eks.w.addons), seen.addons)
  {
    hide CompareVersions, Orderly, Offers, HasVersions, NewestFor, Flatten, StableSort, MinorVersion, AddonLater,
      NodegroupLater, AddonsForward, Accept, OrderlyRequest, Cleared, KnownFrom, ComparedWith;
    ghost var w0, good := eks.w, eks.Sound();
    k8s := memo;
    var chosen, current := ChooseAndSettle(eks, a, target);
    seen := eks.w;
    if good { LaterIsForward(w0, eks.w); }
    if chosen.None? || current.None? {
      return false, k8s, seen;
    }
    if CompareVersions(current.value, chosen.value) >= 0 {
      return true, k8s, seen;
    }
    CompareFlip(current.value, chosen.value);
    NewestIsOffered(eks.catalog, a, target);
    ghost var w2 := eks.w;
    ok, k8s, seen := Update(eks, a, chosen.value, memo);
    CompareFlip(chosen.value, chosen.value);
    Updated(w0, w2, eks.w, seen, good);
  }

  /** The newest version for the target and, if there is one, the installed version. */
  method ChooseAndSettle(eks: Client, a: string, target: string)
    returns (chosen: Option<string>, current: Option<string>)
    requires eks.Valid() && a in eks.w.addons
    modifies eks
    ensures eks.Waited()
    ensures chosen.Some? ==> HasVersions(eks.catalog, a, target) && chosen.value == NewestFor(eks.catalog, a, target)
    ensures current.Some? ==> chosen.Some?
    ensures current.Some? ==>
      a in eks.w.addons && eks.w.addons[a].version == current.value && eks.w.addons[a].pending.None?
    ensures chosen.None? || current.None? ==> eks.troubles > old(eks.troubles)
  {
    hide Orderly, HasVersions, NewestFor, Flatten, MinorVersion, ControlPlaneLater, NodesLater, AddonLater;
    chosen := LookUp(eks, a, target);
    if chosen.None? {
      return None, None;
    }
    ghost var w1 := eks.w;
    current := Settle(eks, a);
    LaterTransitive(old(eks.w), w1, eks.w);
  }

  /** Attaching to an update in flight: the addon as described once it is ACTIVE. */
  method AttachTo(eks: Client, a: string) returns (addon: Option<Addon>)
    requires eks.Valid() && a in eks.w.addons
    modifies eks
    ensures eks.Waited()
    ensures addon.Some? ==> a in eks.w.addons && eks.w.addons[a] == addon.value && addon.value.pending.None?
    ensures addon.None? ==> eks.troubles > old(eks.troubles)
  {
    hide MinorVersion, Orderly, NodesLater, ControlPlaneLater, Client.Sound, SafeHistory;
    var active := WaitForAddon(eks, a);
    if !active {
      return None;
    }
    ghost var w1 := eks.w;
    var d := eks.DescribeAddon(a);
    LaterTransitive(old(eks.w), w1, eks.w);
    assert AddonLater(w1.addons[a], eks.w.addons[a]);
    return if d.Ok? then d.value else None;
  }

  /** The installed version once nothing is in flight: an addon still CREATING or UPDATING is
      waited for and read again. */
  method Settle(eks: Client, a: string) returns (current: Option<string>)
    requires eks.Valid() && a in eks.w.addons
    modifies eks
    ensures eks.Waited()
    ensures current.Some? ==>
      a in eks.w.addons && eks.w.addons[a].version == current.value && eks.w.addons[a].pending.None?
    ensures current.None? ==> eks.troubles > old(eks.troubles)
  {
    hide MinorVersion, Orderly, NodesLater, Client.Sound, SafeHistory, ControlPlaneLater;
    var d := eks.DescribeAddon(a);
    if d.Err? || d.value.None? {
      return None;
    }
    var addon := d.value.value;
    if addon.status == AddonCreating || addon.status == AddonUpdating {
      ghost var w1 := eks.w;
      var settled := AttachTo(eks, a);
      LaterTransitive(old(eks.w), w1, eks.w);
      if settled.None? {
        return None;
      }
      addon := settled.value;
    }
    return Some(addon.version);
  }

  lemma Updated(w0: World, w1: World, w2: World, seen: World, good: bool)
    requires Later(w0, w1) && Later(w1, seen)
    requires ControlPlaneLater(w1, w2) && NodesLater(w1.nodes, w2.nodes)
    requires good ==> Orderly(w0) && AddonsForward(w1.addons, w2.addons)
    ensures ControlPlaneLater(w0, w2) && NodesLater(w0.nodes, w2.nodes)
    ensures good ==> AddonsForward(w0.addons, w2.addons) && AddonsForward(w0.addons, seen.addons)
  {
    NodesLaterTransitive(w0.nodes, w1.nodes, w2.nodes);
    if good {
      LaterTransitive(w0, w1, seen);
      LaterIsForward(w0, w1);
      LaterIsForward(w0, seen);
      AddonsForwardTransitive(w0.addons, w1.addons, w2.addons);
    }
  }

  /** The request is for the newest version of an addon that is not skipped, and every installed,
      non-skipped dependency already runs a version not behind its own newest. */
  ghost predicate DependencySafe(r: Request, catalog: Catalog, target: string, skip: seq<string>) {
    && r.AddonRequest? && !Matches(r.name, skip)
    && HasVersions(catalog, r.name, target) && r.version == NewestFor(catalog, r.name, target)
    && forall d :: d in DependsOn(ADDON_DEPENDENCIES, r.name) && d in r.seen.addons && !Matches(d, skip) ==>
         AtNewest(r.seen.addons, catalog, d, target)
  }

  /** Everything before it in the order that is not skipped was up to date when the request was submitted. */
  ghost predicate AfterAllBefore(r: Request, order: seq<string>, catalog: Catalog, target: string, skip: seq<string>)
    requires r.AddonRequest?
  {
    exists i :: 0 <= i < |order| && order[i] == r.name
                && forall j :: 0 <= j < i && !Matches(order[j], skip) ==>
                     AtNewest(r.seen.addons, catalog, order[j], target)
  }

  /** The order is the listing, sorted by dependency: whatever is free first comes first, and of what one
      addon frees, what was listed first. */
  ghost predicate IsSortedListing(order: seq<string>, told: seq<Answer>, heard: nat) {
    && heard < |told| && told[heard].AddonsAnswer? && told[heard].addons.Ok?
    && var names := told[heard].addons.value;
       && Distinct(names) && Distinct(order) && (forall x :: x in order <==> x in names)
       && InTurn(order, [], names, ADDON_DEPENDENCIES, SetOf(names))
       && DependenciesFirst(order, ADDON_DEPENDENCIES, SetOf(names))
  }

  /** The addons are updated one after the other in that order: the phase goes on only after one is up to date. */
  ghost predicate UpdatesInOrder(told: seq<Answer>, heard: nat, before: seq<Request>, log: seq<Request>,
                                 catalog: Catalog, target: string, skip: seq<string>)
  {
    exists order :: IsSortedListing(order, told, heard)
                    && forall k :: |before| <= k < |log| ==>
                         log[k].AddonRequest? && AfterAllBefore(log[k], order, catalog, target, skip)
  }

  /** Every earlier request of the phase had succeeded when the later one was submitted. */
  ghost predicate SerialRequests(before: seq<Request>, log: seq<Request>, catalog: Catalog, target: string) {
    forall k, l :: |before| <= k < l < |log| && log[k].AddonRequest? && log[l].AddonRequest? ==>
      log[k].name != log[l].name && AtNewest(log[l].seen.addons, catalog, log[k].name, target)
  }

  ghost predicate AllAtNewest(addons: map<string, Addon>, catalog: Catalog, target: string, skip: seq<string>) {
    forall a :: a in addons && !Matches(a, skip) ==> AtNewest(addons, catalog, a, target)
  }

  /** One run of the phase. */
  datatype AddonRun = AddonRun(w0: World, log0: seq<Request>, catalog: Catalog, target: string,
                               skip: seq<string>, good: bool, order: seq<string>)

  ghost predicate Moved(run: AddonRun, w: World) {
    && ControlPlaneLater(run.w0, w) && NodesLater(run.w0.nodes, w.nodes) && w.addons.Keys == run.w0.addons.Keys
    && (run.good ==> AddonsForward(run.w0.addons, w.addons))
  }

  /** The requests of the phase so far concern addons in `done`. */
  ghost predicate LogOk(run: AddonRun, log: seq<Request>, done: set<string>) {
    && run.log0 <= log
    && (forall k :: |run.log0| <= k < |log| ==>
      log[k].AddonRequest? && log[k].name in done && !Matches(log[k].name, run.skip))
    && (run.good ==> forall k :: |run.log0| <= k < |log| ==> DependencySafe(log[k], run.catalog, run.target, run.skip))
    && (run.good ==> SerialRequests(run.log0, log, run.catalog, run.target))
    && (run.good ==> forall k :: |run.log0| <= k < |log| ==>
          AfterAllBefore(log[k], run.order, run.catalog, run.target, run.skip))
  }

  ghost predicate DoneOk(run: AddonRun, w: World, done: set<string>) {
    forall n :: n in done && !Matches(n, run.skip) ==> AtNewest(w.addons, run.catalog, n, run.target)
  }

  lemma DoneForward(run: AddonRun, a: World, b: World, done: set<string>)
    requires DoneOk(run, a, done) && AddonsForward(a.addons, b.addons)
    ensures DoneOk(run, b, done)
  {
    forall n | n in done && !Matches(n, run.skip) ensures AtNewest(b.addons, run.catalog, n, run.target) {
      AtNewestForward(a.addons, b.addons, run.catalog, n, run.target);
    }
  }

  /** A request submitted while everything in `done`, which holds its installed dependencies,
      is up to date. */
  lemma RequestIsSafe(run: AddonRun, log: seq<Request>, done: set<string>, w1: World, r: Request, i: nat)
    requires r.AddonRequest? && i < |run.order| && run.order[i] == r.name && done == Before(run.order, i)
    requires run.good && LogOk(run, log, done) && DoneOk(run, w1, done)
    requires AddonsForward(w1.addons, r.seen.addons) && r.name !in done && !Matches(r.name, run.skip)
    requires HasVersions(run.catalog, r.name, run.target) && r.version == NewestFor(run.catalog, r.name, run.target)
    requires forall d :: d in DependsOn(ADDON_DEPENDENCIES, r.name) && d in r.seen.addons ==> d in done
    ensures LogOk(run, log + [r], done + {r.name})
  {
    DoneForward(run, w1, r.seen, done);
    var log2 := log + [r];
    forall k, l | |run.log0| <= k < l < |log2| && log2[k].AddonRequest? && log2[l].AddonRequest?
      ensures log2[k].name != log2[l].name && AtNewest(log2[l].seen.addons, run.catalog, log2[k].name, run.target)
    {
      if l < |log| { assert log[k].AddonRequest? && log[l].AddonRequest?; }
    }
    forall j | 0 <= j < i && !Matches(run.order[j], run.skip)
      ensures AtNewest(r.seen.addons, run.catalog, run.order[j], run.target)
    {
      assert run.order[j] in done;
    }
    assert AfterAllBefore(r, run.order, run.catalog, run.target, run.skip);
  }

  /** The outcome of one addon of the phase. */
  lemma Submission(run: AddonRun, w1: World, seen: World, w2: World, done: set<string>, log1: seq<Request>,
                   log2: seq<Request>, name: string, order: seq<string>, i: nat)
    requires order == run.order
    requires SafeOrder(order, run.w0.addons.Keys) && i < |order| && name == order[i] && done == Before(order, i)
    requires !Matches(name, run.skip)
    requires Moved(run, w1) && LogOk(run, log1, done) && (run.good ==> DoneOk(run, w1, done))
    requires ControlPlaneLater(w1, w2) && NodesLater(w1.nodes, w2.nodes) && w2.addons.Keys == w1.addons.Keys
    requires run.good ==> AddonsForward(w1.addons, w2.addons) && AddonsForward(w1.addons, seen.addons)
    requires || log2 == log1
             || (&& HasVersions(run.catalog, name, run.target)
                 && log2 == log1 + [AddonRequest(name, NewestFor(run.catalog, name, run.target), seen)]
                 && seen.addons.Keys == w1.addons.Keys)
    ensures Moved(run, w2) && LogOk(run, log2, done + {name})
    ensures run.good ==> DoneOk(run, w2, done)
  {
    NodesLaterTransitive(run.w0.nodes, w1.nodes, w2.nodes);
    BeforeStep(order, i);
    if run.good {
      AddonsForwardTransitive(run.w0.addons, w1.addons, w2.addons);
      DoneForward(run, w1, w2, done);
      if log2 != log1 {
        RequestIsSafe(run, log1, done, w1, AddonRequest(name, NewestFor(run.catalog, name, run.target), seen), i);
      }
    }
  }

  lemma RunStarts(run: AddonRun, w: World)
    requires Later(run.w0, w) && (run.good ==> Orderly(run.w0))
    ensures Moved(run, w) && LogOk(run, run.log0, {}) && DoneOk(run, w, {})
  {
    if run.good { LaterIsForward(run.w0, w); }
  }

  /** What the phase guarantees wherever it stops. */
  lemma RunSoFar(run: AddonRun, w: World, log: seq<Request>, done: set<string>)
    requires Moved(run, w) && LogOk(run, log, done)
    ensures ControlPlaneLater(run.w0, w) && NodesLater(run.w0.nodes, w.nodes) && w.addons.Keys == run.w0.addons.Keys
    ensures run.log0 <= log
    ensures forall k :: |run.log0| <= k < |log| ==> log[k].AddonRequest? && !Matches(log[k].name, run.skip)
    ensures run.good ==>
      && AddonsForward(run.w0.addons, w.addons)
      && (forall k :: |run.log0| <= k < |log| ==> DependencySafe(log[k], run.catalog, run.target, run.skip))
      && SerialRequests(run.log0, log, run.catalog, run.target)
      && forall k :: |run.log0| <= k < |log| ==> AfterAllBefore(log[k], run.order, run.catalog, run.target, run.skip)
  {}

  lemma RunDone(run: AddonRun, w: World, order: seq<string>)
    requires run.good && Moved(run, w) && SafeOrder(order, run.w0.addons.Keys) && DoneOk(run, w, Before(order, |order|))
    ensures AllAtNewest(w.addons, run.catalog, run.target, run.skip)
  {}

  lemma OrderInstalled(run: AddonRun, w: World, order: seq<string>, i: nat)
    requires SafeOrder(order, run.w0.addons.Keys) && i < |order| && Moved(run, w)
    ensures order[i] in w.addons
  {
    assert order[i] in Before(order, |order|);
  }

  lemma OneMoreDone(run: AddonRun, w: World, done: set<string>, name: string)
    requires DoneOk(run, w, done) && AtNewest(w.addons, run.catalog, name, run.target)
    ensures DoneOk(run, w, done + {name})
  {}

  lemma SkippedAddon(run: AddonRun, w: World, log: seq<Request>, done: set<string>, name: string)
    requires Matches(name, run.skip) && LogOk(run, log, done) && (run.good ==> DoneOk(run, w, done))
    ensures LogOk(run, log, done + {name}) && (run.good ==> DoneOk(run, w, done + {name}))
  {}

  /** One addon of the phase. */
  method UpgradeAddon(eks: Client, name: string, target: string, skip: seq<string>, memo: Option<string>,
                      ghost run: AddonRun, ghost order: seq<string>, ghost i: nat)
    returns (ok: bool, k8s: Option<string>)
    requires eks.Valid() && SafeOrder(order, run.w0.addons.Keys) && i < |order| && name == order[i]
    requires run.catalog == eks.catalog && run.target == target && run.skip == skip && run.order == order
    requires Moved(run, eks.w) && LogOk(run, eks.log, Before(order, i))
    requires run.good ==> eks.Sound() && DoneOk(run, eks.w, Before(order, i))
    modifies eks
    ensures eks.Valid() && eks.patience <= old(eks.patience) && old(eks.history) <= eks.history
    ensures old(eks.troubles) <= eks.troubles
    ensures old(eks.told) <= eks.told
    ensures Moved(run, eks.w) && LogOk(run, eks.log, Before(order, i + 1))
    ensures run.good ==> eks.Sound()
    ensures run.good && ok ==> DoneOk(run, eks.w, Before(order, i + 1))
    ensures old(StaysAt(eks.w, target)) && Remembers(memo, target) ==>
      StaysAt(eks.w, target) && Remembers(k8s, target) && (!ok ==> eks.troubles > old(eks.troubles))
  {
    hide Moved, LogOk, DoneOk, AddonsForward, AtNewest, SafeOrder, Orderly, Before;
    BeforeStep(order, i);
    ok, k8s := true, memo;
    var skipped := MatchesAny(name, skip);
    if skipped {
      SkippedAddon(run, eks.w, eks.log, Before(order, i), name);
      return;
    }
    OrderInstalled(run, eks.w, order, i);
    ghost var seen;
    ok, k8s, seen := Converge(eks, name, target, memo);
    Submission(run, old(eks.w), seen, eks.w, Before(order, i), old(eks.log), eks.log, name, order, i);
    if ok && run.good { OneMoreDone(run, eks.w, Before(order, i), name); }
  }

  /** UpgradeAddons. At the moment an update is submitted every installed, non-skipped dependency
      is already up to date and every earlier update of the phase has succeeded; success means
      that no non-skipped addon is behind the newest version for the target. */
  method UpgradeAddons(eks: Client, target: string, skip: seq<string>) returns (ok: bool)
    requires eks.Valid()
    modifies eks
    ensures eks.Valid() && eks.patience <= old(eks.patience) && old(eks.history) <= eks.history
    ensures old(eks.troubles) <= eks.troubles
    ensures ControlPlaneLater(old(eks.w), eks.w) && NodesLater(old(eks.w.nodes), eks.w.nodes)
    ensures eks.w.addons.Keys == old(eks.w.addons.Keys)
    ensures old(eks.log) <= eks.log && old(eks.told) <= eks.told
    ensures forall k :: |old(eks.log)| <= k < |eks.log| ==>
      eks.log[k].AddonRequest? && !Matches(eks.log[k].name, skip)
    ensures old(eks.Sound()) ==>
      && eks.Sound() && AddonsForward(old(eks.w.addons), eks.w.addons)
      && (forall k :: |old(eks.log)| <= k < |eks.log| ==> DependencySafe(eks.log[k], eks.catalog, target, skip))
      && SerialRequests(old(eks.log), eks.log, eks.catalog, target)
    ensures ok && old(eks.Sound()) ==> AllAtNewest(eks.w.addons, eks.catalog, target, skip)
    ensures old(eks.Sound()) && (ok || eks.log != old(eks.log)) ==>
      UpdatesInOrder(eks.told, |old(eks.told)|, old(eks.log), eks.log, eks.catalog, target, skip)
    ensures !ok && old(StaysAt(eks.w, target)) ==> eks.troubles > old(eks.troubles)
  {
    hide Moved, LogOk, DoneOk, AddonsForward, DependencySafe, SerialRequests, AllAtNewest, AtNewest, SafeOrder,
      Orderly, Before, InTurn, DependenciesFirst, Acyclic, Free, Ready, Others, IsSortedListing, UpdatesInOrder,
      AfterAllBefore, AddonsSnapshot, AddonsSince, AddonsTold, NamesTold, Distinct, MinorVersion, NodesLater,
      AddonsLater;
    ghost var run := AddonRun(eks.w, eks.log, eks.catalog, target, skip, eks.Sound(), []);
    var list := ListAddons(eks);
    RunStarts(run, eks.w);
    if list.Err? {
      RunSoFar(run, eks.w, eks.log, {});
      return false;
    }
    var addons;
    ghost var n;
    addons, n := SortByDependency(list.value, ADDON_DEPENDENCIES);
    OrderCovers(list.value, addons, n, run.w0.addons.Keys);
    ghost var order := Names(addons);
    run := run.(order := order);
    RunStarts(run, eks.w);
    SortedListing(list.value, addons, n, eks.told, |old(eks.told)|);
    var memo: Option<string> := None;
    BeforeNone(order);
    for i := 0 to |addons|
      invariant eks.Valid() && eks.patience <= old(eks.patience) && old(eks.history) <= eks.history
      invariant old(eks.troubles) <= eks.troubles && old(eks.told) <= eks.told
      invariant IsSortedListing(order, eks.told, |old(eks.told)|)
      invariant Moved(run, eks.w) && LogOk(run, eks.log, Before(order, i))
      invariant run.good ==> eks.Sound() && DoneOk(run, eks.w, Before(order, i))
      invariant old(StaysAt(eks.w, target)) ==> StaysAt(eks.w, target) && Remembers(memo, target)
    {
      var converged;
      ghost var told := eks.told;
      converged, memo := UpgradeAddon(eks, addons[i].name, target, skip, memo, run, order, i);
      StillSorted(order, told, eks.told, |old(eks.told)|);
      if !converged {
        RunSoFar(run, eks.w, eks.log, Before(order, i + 1));
        if run.good { InThatOrder(run, eks.told, |old(eks.told)|, eks.log); }
        return false;
      }
    }
    RunSoFar(run, eks.w, eks.log, Before(order, |addons|));
    if run.good {
      RunDone(run, eks.w, order);
      InThatOrder(run, eks.told, |old(eks.told)|, eks.log);
    }
    return true;
  }

  function Before(order: seq<string>, i: nat): set<string>
    requires i <= |order|
  {
    set j | 0 <= j < i :: order[j]
  }

  lemma BeforeNone(order: seq<string>)
    ensures Before(order, 0) == {}
  {}

  lemma BeforeStep(order: seq<string>, i: nat)
    requires i < |order|
    ensures Before(order, i + 1) == Before(order, i) + {order[i]}
    ensures Distinct(order) ==> order[i] !in Before(order, i)
  {}

  /** Every installed addon is in the order, after all its installed dependencies. */
  ghost predicate SafeOrder(order: seq<string>, installed: set<string>) {
    && Distinct(order) && Before(order, |order|) == installed
    && forall i, d :: 0 <= i < |order| && d in DependsOn(ADDON_DEPENDENCIES, order[i]) && d in installed ==>
         d in Before(order, i)
  }

  lemma SortedListing(list: seq<AddonSummary>, addons: seq<AddonSummary>, n: nat, told: seq<Answer>, heard: nat)
    requires Distinct(Names(list)) && NamesTold(told, heard, Names(list))
    requires multiset(addons) == multiset(list) && Distinct(Names(addons))
    requires n <= |addons| && DependenciesFirst(Names(addons)[..n], ADDON_DEPENDENCIES, Installed(list))
    requires n == |list| <==> Acyclic(ADDON_DEPENDENCIES, Installed(list))
    requires InTurn(Names(addons)[..n], [], Names(list), ADDON_DEPENDENCIES, Installed(list))
    ensures IsSortedListing(Names(addons), told, heard)
  {
    hide InTurn, DependenciesFirst, Acyclic, DependsOn;
    BuiltInIsAcyclic(Installed(list));
    assert |addons| == |multiset(addons)| == |list|;
    assert Names(addons)[..n] == Names(addons);
    InstalledCount(addons);
    InstalledCount(list);
    assert forall a :: (a in addons <==> a in multiset(addons)) && (a in list <==> a in multiset(list));
    assert Installed(addons) == Installed(list) == SetOf(Names(list));
  }

  lemma InThatOrder(run: AddonRun, told: seq<Answer>, heard: nat, log: seq<Request>)
    requires IsSortedListing(run.order, told, heard)
    requires forall k :: |run.log0| <= k < |log| ==>
      log[k].AddonRequest? && AfterAllBefore(log[k], run.order, run.catalog, run.target, run.skip)
    ensures UpdatesInOrder(told, heard, run.log0, log, run.catalog, run.target, run.skip)
  {}

  lemma StillSorted(order: seq<string>, told: seq<Answer>, more: seq<Answer>, heard: nat)
    requires IsSortedListing(order, told, heard) && told <= more
    ensures IsSortedListing(order, more, heard)
  {}

  lemma OrderCovers(list: seq<AddonSummary>, addons: seq<AddonSummary>, n: nat, installed: set<string>)
    requires Distinct(Names(list)) && Installed(list) == installed
    requires multiset(addons) == multiset(list) && Distinct(Names(addons))
    requires n <= |addons| && DependenciesFirst(Names(addons)[..n], ADDON_DEPENDENCIES, installed)
    requires n == |list| <==> Acyclic(ADDON_DEPENDENCIES, installed)
    ensures SafeOrder(Names(addons), installed)
  {
    BuiltInIsAcyclic(installed);
    assert |addons| == |multiset(addons)| == |list|;
    var order := Names(addons);
    assert order[..n] == order;
    InstalledCount(addons);
    assert forall a :: a in addons <==> a in multiset(addons);
    assert forall a :: a in list <==> a in multiset(list);
    assert Installed(addons) == Installed(list);
    forall i, d | 0 <= i < |order| && d in DependsOn(ADDON_DEPENDENCIES, order[i]) && d in installed
      ensures d in Before(order, i)
    {
      assert d in order[..i];
    }
  }
}
