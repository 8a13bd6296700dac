/** The dry-run preview and the real AMI update, two deciders that are meant to agree
    (internal/dryrun/dryrun.go, internal/commands/nodegroup/actions_update.go). */
module Preview {
  import opened GoStrings

  const CUSTOM := "CUSTOM"

  datatype Nodegroup = Nodegroup(amiType: string, updating: bool, resources: string)

  /** The answers of one account: a nodegroup's description, the newest AMI for a Kubernetes version and
      AMI type, and the AMI a nodegroup runs; empty when unknown. There is none for CUSTOM. */
  datatype Account = Account(describe: string -> Result<Option<Nodegroup>>, latest: (string, string) -> string,
                             current: Nodegroup -> string)

  ghost predicate Genuine(acc: Account) { forall v :: acc.latest(v, CUSTOM) == "" }

  predicate Described(acc: Account, name: string) {
    acc.describe(name).Ok? && acc.describe(name).value.Some?
  }

  // ---- the memo of newest AMIs ----

  /** The newest AMI per type, looked up once per run. */
  class LatestAmis {
    const acc: Account
    const version: string
    var latestByType: map<string, string>

    constructor (acc: Account, version: string)
      ensures this.acc == acc && this.version == version && Valid() && latestByType == map[]
    {
      this.acc, this.version, latestByType := acc, version, map[];
    }

    /** The memo agrees with the direct lookup. */
    ghost predicate Valid()
      reads this
    {
      forall t :: t in latestByType ==> latestByType[t] == acc.latest(version, t)
    }

    method LatestAmi(amiType: string) returns (r: string)
      requires Valid()
      modifies this
      ensures Valid() && r == acc.latest(version, amiType)
    {
      if amiType in latestByType {
        return latestByType[amiType];
      }
      r := acc.latest(version, amiType);
      latestByType := latestByType[amiType := r];
    }
  }

  // ---- the preview ----

  datatype Action = Update | ForceUpdate | SkipUpdating | SkipLatest

  predicate Updates(a: Action) { a == Update || a == ForceUpdate }

  /** What the preview says of a nodegroup whose description is not empty. */
  function ActionFor(acc: Account, version: string, force: bool, name: string): Action
    requires acc.describe(name).Ok? ==> acc.describe(name).value.Some?
  {
    if acc.describe(name).Err? then SkipUpdating
    else
      var ng := acc.describe(name).value.value;
      if ng.updating then SkipUpdating
      else if force then ForceUpdate
      else if acc.current(ng) == "" || acc.latest(version, ng.amiType) == "" then Update
      else if acc.current(ng) == acc.latest(version, ng.amiType) then SkipLatest
      else Update
  }

  function PickedBy(names: seq<string>, p: string -> bool): seq<string> {
    if names == [] then []
    else
      var before := PickedBy(names[..|names| - 1], p);
      if p(names[|names| - 1]) then before + [names[|names| - 1]] else before
  }

  lemma {:induction false} PickedSame(names: seq<string>, p: string -> bool, q: string -> bool)
    requires forall i :: 0 <= i < |names| ==> p(names[i]) == q(names[i])
    ensures PickedBy(names, p) == PickedBy(names, q)
  {
    if names != [] { PickedSame(names[..|names| - 1], p, q); }
  }

  lemma {:induction false} PickedIff(names: seq<string>, p: string -> bool)
    ensures forall n :: n in PickedBy(names, p) <==> n in names && p(n)
  {
    if names != [] {
      PickedIff(names[..|names| - 1], p);
      assert names == names[..|names| - 1] + [names[|names| - 1]];
    }
  }

  datatype Analysis = Analysis(needed: seq<string>, skipped: seq<string>, latest: seq<string>)

  ghost function AnalysisOf(acc: Account, version: string, force: bool, names: seq<string>): Analysis
    requires AllAnswered(acc, names)
  {
    Analysis(PickedBy(names, n => Answered(acc, n) && Updates(ActionFor(acc, version, force, n))),
             PickedBy(names, n => Answered(acc, n) && ActionFor(acc, version, force, n) == SkipUpdating),
             PickedBy(names, n => Answered(acc, n) && ActionFor(acc, version, force, n) == SkipLatest))
  }

  /** The description, when there is one, is not empty: the preview does not look. */
  predicate Answered(acc: Account, name: string) { acc.describe(name).Ok? ==> acc.describe(name).value.Some? }

  ghost predicate AllAnswered(acc: Account, names: seq<string>) {
    forall i :: 0 <= i < |names| ==> Answered(acc, names[i])
  }

  /** Both AMIs are known, and they are the same. */
  predicate OnLatest(acc: Account, version: string, ng: Nodegroup) {
    acc.current(ng) != "" && acc.current(ng) == acc.latest(version, ng.amiType)
  }

  /** analyzeNodegroup; None when it dereferences an empty description and the program ends. */
  method AnalyzeNodegroup(acc: Account, amis: LatestAmis, force: bool, name: string) returns (action: Option<Action>)
    requires amis.Valid() && amis.acc == acc
    modifies amis
    ensures amis.Valid() && (action.Some? <==> Answered(acc, name))
    ensures action.Some? ==> action.value == ActionFor(acc, amis.version, force, name)
    ensures action == Some(SkipUpdating) <==>
      acc.describe(name).Err? || (Described(acc, name) && acc.describe(name).value.value.updating)
    ensures action == Some(ForceUpdate) <==> Described(acc, name) && !acc.describe(name).value.value.updating && force
    ensures action == Some(SkipLatest) <==>
      && Described(acc, name) && !acc.describe(name).value.value.updating && !force
      && OnLatest(acc, amis.version, acc.describe(name).value.value)
  {
    var d := acc.describe(name);
    if d.Err? {
      return Some(SkipUpdating);
    }
    if d.value.None? {
      return None;
    }
    var ng := d.value.value;
    if ng.updating {
      return Some(SkipUpdating);
    }
    var current := acc.current(ng);
    var latest := amis.LatestAmi(ng.amiType);
    if force {
      return Some(ForceUpdate);
    }
    if current == "" || latest == "" {
      return Some(Update);
    }
    if current == latest {
      return Some(SkipLatest);
    }
    return Some(Update);
  }

  /** Analyze: every selected nodegroup in its category, in order; None exactly when one of the
      descriptions is empty. */
  method Analyze(acc: Account, version: string, force: bool, names: seq<string>) returns (r: Option<Analysis>)
    ensures r.Some? <==> AllAnswered(acc, names)
    ensures r.Some? ==> r.value == AnalysisOf(acc, version, force, names)
    ensures r.Some? ==> forall n :: n in r.value.skipped <==>
      n in names && (acc.describe(n).Err? || (Described(acc, n) && acc.describe(n).value.value.updating))
    ensures r.Some? ==> forall n :: n in r.value.latest <==>
      && n in names && Described(acc, n) && !acc.describe(n).value.value.updating && !force
      && OnLatest(acc, version, acc.describe(n).value.value)
    ensures r.Some? ==> forall n :: n in r.value.needed <==>
      && n in names && Described(acc, n) && !acc.describe(n).value.value.updating
      && (force || !OnLatest(acc, version, acc.describe(n).value.value))
  {
    var amis := new LatestAmis(acc, version);
    var analysis := Analysis([], [], []);
    for i := 0 to |names|
      invariant amis.Valid() && fresh(amis) && AllAnswered(acc, names[..i])
      invariant analysis == AnalysisOf(acc, version, force, names[..i])
    {
      assert names[..i + 1][..i] == names[..i];
      var action := AnalyzeNodegroup(acc, amis, force, names[i]);
      if action.None? {
        return None;
      }
      match action.value {
        case Update => analysis := analysis.(needed := analysis.needed + [names[i]]);
        case ForceUpdate => analysis := analysis.(needed := analysis.needed + [names[i]]);
        case SkipUpdating => analysis := analysis.(skipped := analysis.skipped + [names[i]]);
        case SkipLatest => analysis := analysis.(latest := analysis.latest + [names[i]]);
      }
    }
    assert names[..|names|] == names;
    PickedIff(names, n => Answered(acc, n) && Updates(ActionFor(acc, version, force, n)));
    PickedIff(names, n => Answered(acc, n) && ActionFor(acc, version, force, n) == SkipUpdating);
    PickedIff(names, n => Answered(acc, n) && ActionFor(acc, version, force, n) == SkipLatest);
    return Some(analysis);
  }

  // ---- the real run ----

  datatype Disposition = Started | Skipped | Custom | Failed

  /** What the server answers to an update request: an error, no update ID, or an ID. */
  datatype Response = Refused | NoId | Accepted(id: string)

  datatype Decision = DescribeFailed | CustomAmi | Skip | Submit

  /** Whether the real run skips a nodegroup as already on the newest AMI; the version is None when
      the cluster could not be described. */
  function SkipsLatest(acc: Account, version: Option<string>, force: bool, ng: Nodegroup): bool {
    !force && version.Some? && acc.latest(version.value, ng.amiType) != "" && acc.current(ng) != ""
    && acc.current(ng) == acc.latest(version.value, ng.amiType)
  }

  function Decide(acc: Account, version: Option<string>, force: bool, name: string): Decision {
    if !Described(acc, name) then DescribeFailed
    else
      var ng := acc.describe(name).value.value;
      if ng.amiType == CUSTOM then CustomAmi
      else if ng.updating || SkipsLatest(acc, version, force, ng) then Skip
      else Submit
  }

  function DispositionOf(d: Decision, r: Response): Disposition {
    match d
    case DescribeFailed => Failed
    case CustomAmi => Custom
    case Skip => Skipped
    case Submit => if r.Accepted? then Started else Failed
  }

  datatype Progress = Progress(nodegroup: string, id: string)

  datatype Outcomes = Outcomes(started: seq<string>, skipped: seq<string>, custom: seq<string>, failed: seq<string>)

  /** The nodegroups with a disposition, in selection order. */
  function With(names: seq<string>, ds: seq<Disposition>, d: Disposition): seq<string>
    requires |ds| == |names|
  {
    if names == [] then []
    else
      var n := |names| - 1;
      var before := With(names[..n], ds[..n], d);
      if ds[n] == d then before + [names[n]] else before
  }

  function Dispositions(acc: Account, version: Option<string>, force: bool, names: seq<string>,
                      responses: seq<Response>): (ds: seq<Disposition>)
    requires |responses| == |names|
    ensures |ds| == |names|
  {
    seq(|names|, i requires 0 <= i < |names| => DispositionOf(Decide(acc, version, force, names[i]), responses[i]))
  }

  lemma WithStep(names: seq<string>, ds: seq<Disposition>, i: nat, d: Disposition)
    requires |ds| == |names| && i < |names|
    ensures With(names[..i + 1], ds[..i + 1], d) ==
      if ds[i] == d then With(names[..i], ds[..i], d) + [names[i]] else With(names[..i], ds[..i], d)
  {
    assert names[..i + 1][..i] == names[..i] && ds[..i + 1][..i] == ds[..i];
  }

  /** The skip checker of one run: nothing is skipped with force or when the version is unknown. */
  method AlreadyLatest(acc: Account, amis: LatestAmis?, force: bool, ng: Nodegroup) returns (skip: bool)
    requires amis != null ==> amis.Valid() && amis.acc == acc
    modifies amis
    ensures amis != null ==> amis.Valid()
    ensures skip == SkipsLatest(acc, if amis == null then None else Some(amis.version), force, ng)
  {
    if force || amis == null {
      return false;
    }
    var latest := amis.LatestAmi(ng.amiType);
    if latest == "" {
      return false;
    }
    var current := acc.current(ng);
    return current != "" && current == latest;
  }

  /** One nodegroup of the real run; `submitted` says whether an update was requested. */
  method StartUpdate(acc: Account, amis: LatestAmis?, force: bool, name: string, response: Response)
    returns (d: Disposition, ghost submitted: bool)
    requires amis != null ==> amis.Valid() && amis.acc == acc
    modifies amis
    ensures amis != null ==> amis.Valid()
    ensures var decision := Decide(acc, if amis == null then None else Some(amis.version), force, name);
      d == DispositionOf(decision, response) && submitted == (decision == Submit)
    ensures d == Custom <==> Described(acc, name) && acc.describe(name).value.value.amiType == CUSTOM
    ensures d == Skipped <==>
      && Described(acc, name) && acc.describe(name).value.value.amiType != CUSTOM
      && (|| acc.describe(name).value.value.updating
          || (!force && amis != null && OnLatest(acc, amis.version, acc.describe(name).value.value)))
    ensures d == Started <==> submitted && response.Accepted?
    ensures d == Failed <==> !Described(acc, name) || (submitted && !response.Accepted?)
  {
    submitted := false;
    var desc := acc.describe(name);
    if desc.Err? || desc.value.None? {
      return Failed, submitted;
    }
    var ng := desc.value.value;
    if ng.amiType == CUSTOM {
      return Custom, submitted;
    }
    if ng.updating {
      return Skipped, submitted;
    }
    var skip := AlreadyLatest(acc, amis, force, ng);
    if skip {
      return Skipped, submitted;
    }
    submitted := true;
    return if response.Accepted? then Started else Failed, submitted;
  }

  /** The entry carries the update ID the server answered for its nodegroup. */
  ghost predicate IsStarted(u: Progress, names: seq<string>, responses: seq<Response>)
    requires |responses| == |names|
  {
    exists i :: 0 <= i < |names| && names[i] == u.nodegroup && responses[i] == Accepted(u.id)
  }

  /** startNodegroupUpdates. Every selected nodegroup has the disposition its description and the
      server's answer call for, the progress entries are those of the started ones in order, and
      updates were requested for exactly the nodegroups decided on. */
  method StartNodegroupUpdates(acc: Account, version: Option<string>, force: bool, names: seq<string>,
                      responses: seq<Response>)
    returns (updates: seq<Progress>, outcomes: Outcomes, ghost submitted: seq<string>)
    requires |responses| == |names|
    ensures var ds := Dispositions(acc, version, force, names, responses);
      outcomes == Outcomes(With(names, ds, Started), With(names, ds, Skipped),
                           With(names, ds, Custom), With(names, ds, Failed))
    ensures submitted == PickedBy(names, n => Decide(acc, version, force, n) == Submit)
    ensures |updates| == |outcomes.started|
    ensures forall i :: 0 <= i < |updates| ==>
      updates[i].nodegroup == outcomes.started[i] && IsStarted(updates[i], names, responses)
  {
    hide With, Decide;
    var amis: LatestAmis? := null;
    if !force && version.Some? {
      amis := new LatestAmis(acc, version.value);
    }
    updates, outcomes, submitted := [], Outcomes([], [], [], []), [];
    ghost var ds := Dispositions(acc, version, force, names, responses);
    WithNone();
    for i := 0 to |names|
      invariant amis != null ==> fresh(amis) && amis.Valid() && amis.acc == acc && version == Some(amis.version)
      invariant amis == null ==> force || version.None?
      invariant outcomes == Outcomes(With(names[..i], ds[..i], Started), With(names[..i], ds[..i], Skipped),
                                     With(names[..i], ds[..i], Custom), With(names[..i], ds[..i], Failed))
      invariant submitted == PickedBy(names[..i], n => Decide(acc, version, force, n) == Submit)
      invariant |updates| == |outcomes.started|
      invariant forall j :: 0 <= j < |updates| ==>
        updates[j].nodegroup == outcomes.started[j] && IsStarted(updates[j], names, responses)
    {
      assert names[..i + 1][..i] == names[..i];
      WithStep(names, ds, i, Started);
      WithStep(names, ds, i, Skipped);
      WithStep(names, ds, i, Custom);
      WithStep(names, ds, i, Failed);
      var name := names[i];
      var d;
      ghost var asked;
      SameWithoutVersion(acc, version, force, name);
      d, asked := StartUpdate(acc, amis, force, name, responses[i]);
      if asked { submitted := submitted + [name]; }
      match d {
        case Failed => outcomes := outcomes.(failed := outcomes.failed + [name]);
        case Custom => outcomes := outcomes.(custom := outcomes.custom + [name]);
        case Skipped => outcomes := outcomes.(skipped := outcomes.skipped + [name]);
        case Started =>
          updates := updates + [Progress(name, responses[i].id)];
          outcomes := outcomes.(started := outcomes.started + [name]);
      }
    }
    assert names[..|names|] == names && ds[..|names|] == ds;
  }

  lemma WithNone()
    ensures forall d :: With([], [], d) == []
  {}

  lemma SameWithoutVersion(acc: Account, version: Option<string>, force: bool, name: string)
    ensures force ==> Decide(acc, version, force, name) == Decide(acc, None, force, name)
  {}

  // ---- every nodegroup is accounted for ----

  /** Every selected nodegroup is in exactly one of the four lists, as often as it was selected. */
  lemma {:induction false} OutcomesPartition(names: seq<string>, ds: seq<Disposition>)
    requires |ds| == |names|
    ensures multiset(With(names, ds, Started)) + multiset(With(names, ds, Skipped))
          + multiset(With(names, ds, Custom)) + multiset(With(names, ds, Failed)) == multiset(names)
  {
    if names != [] {
      var n := |names| - 1;
      OutcomesPartition(names[..n], ds[..n]);
      assert names == names[..n] + [names[n]];
    }
  }

  // ---- the preview agrees with the run ----

  /** On a described nodegroup, with the same version and force flag, the preview announces an update
      exactly when the run requests one, except for a CUSTOM nodegroup that is not updating: the
      preview announces an update the run never requests. */
  lemma PreviewAgrees(acc: Account, version: string, force: bool, name: string)
    requires Genuine(acc) && Described(acc, name)
    ensures var ng := acc.describe(name).value.value;
      (Updates(ActionFor(acc, version, force, name)) == (Decide(acc, Some(version), force, name) == Submit))
      <==> !(ng.amiType == CUSTOM && !ng.updating)
  {
    var ng := acc.describe(name).value.value;
    assert acc.latest(version, CUSTOM) == "";
  }

  /** If no selected nodegroup is CUSTOM and all can be described, the preview lists exactly the
      nodegroups for which the run requests an update, in order. */
  lemma PreviewListsTheRun(acc: Account, version: string, force: bool, names: seq<string>)
    requires Genuine(acc)
    requires forall i :: 0 <= i < |names| ==>
      Described(acc, names[i]) && acc.describe(names[i]).value.value.amiType != CUSTOM
    ensures AllAnswered(acc, names)
    ensures AnalysisOf(acc, version, force, names).needed ==
      PickedBy(names, n => Decide(acc, Some(version), force, n) == Submit)
  {
    forall i | 0 <= i < |names|
      ensures (Answered(acc, names[i]) && Updates(ActionFor(acc, version, force, names[i])))
           == (Decide(acc, Some(version), force, names[i]) == Submit)
    {
      PreviewAgrees(acc, version, force, names[i]);
    }
    PickedSame(names, n => Answered(acc, n) && Updates(ActionFor(acc, version, force, n)),
               n => Decide(acc, Some(version), force, n) == Submit);
  }

  /** When the run cannot read the cluster version it skips nothing as already on the newest AMI, so it
      requests an update that the preview would not announce exactly for those nodegroups. */
  lemma UnknownVersionSkipsNothing(acc: Account, version: string, force: bool, name: string)
    ensures Decide(acc, None, force, name) != Decide(acc, Some(version), force, name) <==>
      && Described(acc, name) && acc.describe(name).value.value.amiType != CUSTOM
      && !acc.describe(name).value.value.updating
      && SkipsLatest(acc, Some(version), force, acc.describe(name).value.value)
  {}
}
