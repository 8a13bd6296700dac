/** The order in which addons are updated: Kahn's algorithm over the installed
    addons, with a fallback for cycles (internal/services/addons/addon_dependencies.go). */
module AddonOrder {

  datatype AddonSummary = AddonSummary(name: string, version: string)

  type Dependencies = map<string, seq<string>>

  const ADDON_DEPENDENCIES: Dependencies := map[
    "kube-proxy" := ["vpc-cni"],
    "coredns" := ["vpc-cni"],
    "aws-ebs-csi-driver" := ["vpc-cni", "coredns"],
    "aws-efs-csi-driver" := ["vpc-cni", "coredns"],
    "aws-fsx-csi-driver" := ["vpc-cni", "coredns"],
    "amazon-cloudwatch-observability" := ["coredns"],
    "adot" := ["coredns"],
    "aws-guardduty-agent" := ["vpc-cni"]
  ]

  function DependsOn(deps: Dependencies, a: string): seq<string> {
    if a in deps then deps[a] else []
  }

  function Names(addons: seq<AddonSummary>): (ns: seq<string>)
    ensures |ns| == |addons|
    ensures forall i :: 0 <= i < |ns| ==> ns[i] == addons[i].name
  {
    seq(|addons|, i requires 0 <= i < |addons| => addons[i].name)
  }

  lemma NamesSnoc(addons: seq<AddonSummary>, a: AddonSummary)
    ensures Names(addons + [a]) == Names(addons) + [a.name]
  {}

  function Installed(addons: seq<AddonSummary>): set<string> {
    set a | a in addons :: a.name
  }

  ghost predicate Distinct<T>(s: seq<T>) {
    forall i, j :: 0 <= i < j < |s| ==> s[i] != s[j]
  }

  // ---- what the order promises ----

  /** Every installed dependency of every listed addon is listed before it. */
  ghost predicate DependenciesFirst(names: seq<string>, deps: Dependencies, installed: set<string>) {
    forall i, d :: 0 <= i < |names| && d in DependsOn(deps, names[i]) && d in installed ==> d in names[..i]
  }

  /** Every installed dependency of x is out. */
  ghost predicate Free(out: seq<string>, deps: Dependencies, installed: set<string>, x: string) {
    forall d :: d in DependsOn(deps, x) && d in installed ==> d in out
  }

  /** How much of the list is out when x becomes free. */
  ghost function FreeAt(names: seq<string>, deps: Dependencies, installed: set<string>, x: string): nat {
    if names == [] || !Free(names[..|names| - 1], deps, installed, x) then |names|
    else FreeAt(names[..|names| - 1], deps, installed, x)
  }

  ghost predicate Before(listing: seq<string>, a: string, b: string) {
    exists i, j :: 0 <= i < j < |listing| && listing[i] == a && listing[j] == b
  }

  ghost predicate Earlier(names: seq<string>, listing: seq<string>, deps: Dependencies, installed: set<string>,
                          a: string, b: string)
  {
    var s, t := FreeAt(names, deps, installed, a), FreeAt(names, deps, installed, b);
    s < t || (s == t && Before(listing, a, b))
  }

  /** First come, first served: what is free earlier comes earlier, and of what one addon frees, what
      the listing has first. */
  ghost predicate InTurn(names: seq<string>, more: seq<string>, listing: seq<string>, deps: Dependencies,
                         installed: set<string>)
  {
    var all := names + more;
    forall i, j :: 0 <= i < j < |all| ==> Earlier(names, listing, deps, installed, all[i], all[j])
  }

  /** A rank that strictly grows from every installed dependency to its dependent. */
  ghost predicate Ranks(rank: map<string, nat>, deps: Dependencies, installed: set<string>) {
    && installed <= rank.Keys
    && forall a, d :: a in installed && d in DependsOn(deps, a) && d in installed ==> rank[d] < rank[a]
  }

  ghost predicate Acyclic(deps: Dependencies, installed: set<string>) {
    exists rank :: Ranks(rank, deps, installed)
  }

  /** The addons of the list whose names are not in `names`, in list order. */
  function Others(addons: seq<AddonSummary>, names: seq<string>): seq<AddonSummary> {
    if addons == [] then []
    else
      var init, last := addons[..|addons| - 1], addons[|addons| - 1];
      Others(init, names) + if last.name in names then [] else [last]
  }

  // ---- counting unmet dependencies ----

  ghost function Count(s: seq<string>, x: string): nat {
    if s == [] then 0
    else Count(s[..|s| - 1], x) + if s[|s| - 1] == x then 1 else 0
  }

  /** How many entries of ds lie in s. */
  ghost function Unmet(ds: seq<string>, s: set<string>): nat {
    if ds == [] then 0
    else Unmet(ds[..|ds| - 1], s) + if ds[|ds| - 1] in s then 1 else 0
  }

  lemma CountSnoc(s: seq<string>, last: string, x: string)
    ensures Count(s + [last], x) == Count(s, x) + if last == x then 1 else 0
  {
    assert (s + [last])[..|s|] == s;
  }

  lemma CountStep(s: seq<string>, i: nat)
    requires i < |s|
    ensures forall x :: Count(s[..i + 1], x) == Count(s[..i], x) + if s[i] == x then 1 else 0
  {
    assert s[..i + 1] == s[..i] + [s[i]];
    forall x { CountSnoc(s[..i], s[i], x); }
  }

  lemma {:induction false} CountZero(s: seq<string>, x: string)
    ensures Count(s, x) == 0 <==> x !in s
  {
    if s != [] {
      assert s == s[..|s| - 1] + [s[|s| - 1]];
      CountZero(s[..|s| - 1], x);
    }
  }

  lemma {:induction false} CountPrefix(s: seq<string>, i: nat, x: string)
    requires i <= |s|
    ensures Count(s[..i], x) <= Count(s, x)
  {
    if i < |s| {
      assert s[..|s| - 1][..i] == s[..i];
      CountPrefix(s[..|s| - 1], i, x);
    } else {
      assert s[..i] == s;
    }
  }

  lemma {:induction false} UnmetWithout(ds: seq<string>, s: set<string>, x: string)
    requires x in s
    ensures Unmet(ds, s) == Unmet(ds, s - {x}) + Count(ds, x)
  {
    if ds != [] { UnmetWithout(ds[..|ds| - 1], s, x); }
  }

  lemma {:induction false} UnmetZero(ds: seq<string>, s: set<string>)
    ensures Unmet(ds, s) == 0 <==> forall d :: d in ds ==> d !in s
  {
    if ds != [] {
      var init := ds[..|ds| - 1];
      assert ds == init + [ds[|ds| - 1]];
      UnmetZero(init, s);
    }
  }

  // ---- building the graph ----

  function Dependents(dependents: map<string, seq<string>>, d: string): seq<string> {
    if d in dependents then dependents[d] else []
  }

  /** In-degrees and dependents cover the addons processed so far. */
  ghost predicate GraphOf(inDegree: map<string, int>, dependents: map<string, seq<string>>,
                          deps: Dependencies, processed: set<string>, installed: set<string>)
  {
    && inDegree.Keys == processed
    && (forall a {:trigger inDegree[a]} :: a in processed ==> inDegree[a] == Unmet(DependsOn(deps, a), installed))
    && (forall d, a :: a !in processed ==> Count(Dependents(dependents, d), a) == 0)
    && (forall d, a :: d in installed && a in processed ==>
          Count(Dependents(dependents, d), a) == Count(DependsOn(deps, a), d))
  }

  /** The edges of addon a towards ds have been added to `before`. */
  ghost predicate EdgesAdded(before: map<string, seq<string>>, r: map<string, seq<string>>, a: string,
                             ds: seq<string>, installed: set<string>)
  {
    && (forall d :: d in installed ==> Count(Dependents(r, d), a) == Count(ds, d))
    && (forall d, b :: b != a ==> Count(Dependents(r, d), b) == Count(Dependents(before, d), b))
  }

  /** The edges of one addon: its in-degree is counted and it is filed under each
      installed dependency. */
  method AddEdges(a: string, ds: seq<string>, installed: set<string>,
                  dependents: map<string, seq<string>>) returns (degree: int, r: map<string, seq<string>>)
    requires forall d :: Count(Dependents(dependents, d), a) == 0
    ensures degree == Unmet(ds, installed) && EdgesAdded(dependents, r, a, ds, installed)
    ensures forall d :: Appended(Dependents(dependents, d), Dependents(r, d), a)
  {
    hide EdgesAdded, Count, Unmet;
    degree, r := 0, dependents;
    NoEdges(dependents, a, installed);
    for i := 0 to |ds|
      invariant degree == Unmet(ds[..i], installed) && EdgesAdded(dependents, r, a, ds[..i], installed)
      invariant forall d :: Appended(Dependents(dependents, d), Dependents(r, d), a)
    {
      var dep := ds[i];
      assert ds[..i + 1] == ds[..i] + [dep];
      EdgeAdded(dependents, r, a, ds[..i], dep, installed);
      if dep in installed {
        degree := degree + 1;
        r := r[dep := Dependents(r, dep) + [a]];
      }
    }
    assert ds[..|ds|] == ds;
  }

  lemma NoEdges(dependents: map<string, seq<string>>, a: string, installed: set<string>)
    requires forall d :: Count(Dependents(dependents, d), a) == 0
    ensures Unmet([], installed) == 0 && EdgesAdded(dependents, dependents, a, [], installed)
  {}

  lemma EdgeAdded(before: map<string, seq<string>>, r: map<string, seq<string>>, a: string, ds: seq<string>,
                  dep: string, installed: set<string>)
    requires EdgesAdded(before, r, a, ds, installed)
    ensures Unmet(ds + [dep], installed) == Unmet(ds, installed) + if dep in installed then 1 else 0
    ensures EdgesAdded(
      before, if dep in installed then r[dep := Dependents(r, dep) + [a]] else r, a, ds + [dep], installed)
  {
    hide Count;
    assert (ds + [dep])[..|ds|] == ds;
    forall d { CountSnoc(ds, dep, d); }
    forall b { CountSnoc(Dependents(r, dep), a, b); }
  }

  method BuildGraph(addons: seq<AddonSummary>, deps: Dependencies)
    returns (inDegree: map<string, int>, dependents: map<string, seq<string>>)
    requires Distinct(Names(addons))
    ensures GraphOf(inDegree, dependents, deps, Installed(addons), Installed(addons))
    ensures AllFiled(dependents, Names(addons))
  {
    hide GraphOf, EdgesAdded, AllFiled, Appended, Unmet, Distinct;
    inDegree, dependents := map[], map[];
    var installed := Installed(addons);
    EmptyGraph(deps, installed, Names(addons));
    assert Installed(addons[..0]) == {};
    for i := 0 to |addons|
      invariant GraphOf(inDegree, dependents, deps, Installed(addons[..i]), installed)
      invariant AllFiled(dependents, Names(addons))
    {
      var a := addons[i].name;
      ghost var before := dependents;
      NotYetFiled(addons, i, inDegree, before, deps, installed);
      var degree;
      degree, dependents := AddEdges(a, DependsOn(deps, a), installed, dependents);
      GraphGrows(inDegree, before, dependents, deps, Installed(addons[..i]), installed, a, degree);
      inDegree := inDegree[a := degree];
      StillFiled(before, dependents, Names(addons), i);
    }
    assert addons[..|addons|] == addons;
  }

  lemma EmptyGraph(deps: Dependencies, installed: set<string>, listing: seq<string>)
    ensures GraphOf(map[], map[], deps, {}, installed) && AllFiled(map[], listing)
  {}

  lemma NotYetFiled(addons: seq<AddonSummary>, i: nat, inDegree: map<string, int>,
                    dependents: map<string, seq<string>>, deps: Dependencies, installed: set<string>)
    requires i < |addons| && Distinct(Names(addons))
    requires GraphOf(inDegree, dependents, deps, Installed(addons[..i]), installed)
    ensures Installed(addons[..i + 1]) == Installed(addons[..i]) + {addons[i].name}
    ensures addons[i].name !in Installed(addons[..i])
    ensures forall d :: Count(Dependents(dependents, d), addons[i].name) == 0
    ensures forall d, x :: x !in Names(addons)[..i] ==> Count(Dependents(dependents, d), x) == 0
  {
    assert addons[..i + 1] == addons[..i] + [addons[i]];
    forall b | b in addons[..i] ensures b.name != addons[i].name && b.name in Names(addons)[..i] {
      var j :| 0 <= j < i && addons[j] == b;
      assert Names(addons)[..i][j] == b.name && Names(addons)[j] != Names(addons)[i];
    }
    assert forall x :: x in Installed(addons[..i]) ==> x in Names(addons)[..i];
  }

  lemma GraphGrows(inDegree: map<string, int>, before: map<string, seq<string>>, after: map<string, seq<string>>,
                   deps: Dependencies, processed: set<string>, installed: set<string>, a: string, degree: int)
    requires GraphOf(inDegree, before, deps, processed, installed) && a !in processed
    requires EdgesAdded(before, after, a, DependsOn(deps, a), installed)
    requires degree == Unmet(DependsOn(deps, a), installed)
    ensures GraphOf(inDegree[a := degree], after, deps, processed + {a}, installed)
  {
    hide Count, Unmet, Dependents, DependsOn;
  }

  /** Each name is filed under its dependencies in listing order. */
  ghost predicate Filed(ds: seq<string>, listing: seq<string>) {
    forall i, j :: 0 <= i < j < |ds| ==> ds[i] == ds[j] || Before(listing, ds[i], ds[j])
  }

  ghost predicate AllFiled(dependents: map<string, seq<string>>, listing: seq<string>) {
    forall d :: Filed(Dependents(dependents, d), listing)
  }

  /** Only a is added, and behind what was there. */
  ghost predicate Appended(before: seq<string>, after: seq<string>, a: string) {
    before <= after && forall i :: |before| <= i < |after| ==> after[i] == a
  }

  lemma StillFiled(before: map<string, seq<string>>, after: map<string, seq<string>>, listing: seq<string>, n: nat)
    requires n < |listing| && AllFiled(before, listing)
    requires forall d :: Appended(Dependents(before, d), Dependents(after, d), listing[n])
    requires forall d, x :: x !in listing[..n] ==> Count(Dependents(before, d), x) == 0
    ensures AllFiled(after, listing)
  {
    hide Count;
    forall d ensures Filed(Dependents(after, d), listing) {
      var s, t := Dependents(before, d), Dependents(after, d);
      assert Appended(s, t, listing[n]) && Filed(s, listing);
      forall i, j | 0 <= i < j < |t| ensures t[i] == t[j] || Before(listing, t[i], t[j]) {
        if j < |s| {
          assert t[i] == s[i] && t[j] == s[j];
        } else if i < |s| {
          CountZero(s, s[i]);
          assert s[i] in s && Count(Dependents(before, d), s[i]) != 0;
          assert s[i] in listing[..n];
          var k :| 0 <= k < n && listing[..n][k] == s[i];
          assert listing[k] == t[i] && t[j] == listing[n];
        }
      }
    }
  }

  // ---- the queue ----

  /** The queue holds, once each, the addons that are ready but not yet popped. */
  ghost predicate Waiting(queue: seq<string>, ready: set<string>, popped: set<string>) {
    && Distinct(queue)
    && popped <= ready
    && forall x :: x in queue <==> x in ready - popped
  }

  /** In-degrees count the dependencies not yet popped; ready means none is left. */
  ghost predicate Degrees(inDegree: map<string, int>, deps: Dependencies, installed: set<string>,
                          ready: set<string>, popped: set<string>)
  {
    && inDegree.Keys == installed && ready <= installed
    && forall a {:trigger inDegree[a]} :: a in installed ==>
         && inDegree[a] == Unmet(DependsOn(deps, a), installed - popped)
         && (inDegree[a] == 0 <==> a in ready)
  }

  /** The same while the first j dependents of a popped addon have lost their edge. */
  ghost predicate Releasing(inDegree: map<string, int>, deps: Dependencies, installed: set<string>,
                            ready: set<string>, left: set<string>, dependents: seq<string>, j: nat)
  {
    && j <= |dependents| && inDegree.Keys == installed && ready <= installed
    && forall a {:trigger inDegree[a]} :: a in installed ==>
         && inDegree[a] == Unmet(DependsOn(deps, a), left) - Count(dependents[..j], a)
         && (inDegree[a] == 0 <==> a in ready)
  }

  /** The dependents of a name, with multiplicity. */
  ghost predicate Edges(dependents: seq<string>, deps: Dependencies, installed: set<string>, name: string) {
    && (forall a :: a in dependents ==> a in installed)
    && forall a {:trigger Count(dependents, a)} :: a in installed ==>
         Count(dependents, a) == Count(DependsOn(deps, a), name)
  }

  lemma ReleaseStep(inDegree: map<string, int>, deps: Dependencies, installed: set<string>, ready: set<string>,
                    left: set<string>, dependents: seq<string>, j: nat, name: string)
    requires j < |dependents| && name in left
    requires Releasing(inDegree, deps, installed, ready, left, dependents, j)
    requires Edges(dependents, deps, installed, name)
    ensures var a := dependents[j];
      && a in installed && inDegree[a] > 0 && a !in ready
      && var after := inDegree[a := inDegree[a] - 1];
         Releasing(after, deps, installed, if after[a] == 0 then ready + {a} else ready, left, dependents, j + 1)
  {
    var a := dependents[j];
    CountStep(dependents, j);
    CountPrefix(dependents, j + 1, a);
    UnmetWithout(DependsOn(deps, a), left, name);
    assert Count(dependents, a) == Count(DependsOn(deps, a), name);
  }

  lemma Released(inDegree: map<string, int>, deps: Dependencies, installed: set<string>, ready: set<string>,
                 popped: set<string>, dependents: seq<string>, name: string)
    requires name in installed - popped
    requires Releasing(inDegree, deps, installed, ready, installed - popped, dependents, |dependents|)
    requires Edges(dependents, deps, installed, name)
    ensures Degrees(inDegree, deps, installed, ready, popped + {name})
  {
    assert dependents[..|dependents|] == dependents;
    assert (installed - popped) - {name} == installed - (popped + {name});
    forall a | a in installed
      ensures inDegree[a] == Unmet(DependsOn(deps, a), installed - (popped + {name}))
    {
      UnmetWithout(DependsOn(deps, a), installed - popped, name);
      assert Count(dependents, a) == Count(DependsOn(deps, a), name);
    }
  }

  /** Releasing the head of the queue: every dependent loses the edge, and those left
      without unmet dependencies join the queue. */
  method PopHead(queue: seq<string>, dependents: seq<string>, inDegree: map<string, int>,
                 ghost ready: set<string>, ghost popped: set<string>, ghost deps: Dependencies,
                 ghost installed: set<string>, ghost listing: seq<string>)
    returns (degrees: map<string, int>, next: seq<string>, ghost ready': set<string>)
    requires queue != [] && Waiting(queue, ready, popped)
    requires Degrees(inDegree, deps, installed, ready, popped)
    requires Edges(dependents, deps, installed, queue[0]) && Filed(dependents, listing)
    ensures Waiting(next, ready', popped + {queue[0]})
    ensures Degrees(degrees, deps, installed, ready', popped + {queue[0]})
    ensures exists joined :: next == queue[1..] + joined && Freed(joined, listing, ready)
  {
    hide Waiting, Count, Unmet, Edges, Filed, Freed, DependsOn, Before;
    ghost var joined: seq<string> := [];
    degrees, next, ready' := inDegree, queue[1..], ready;
    NoneFreed(listing, ready);
    StartRelease(inDegree, deps, installed, ready, popped, dependents);
    ghost var name := queue[0];
    HeadLeaves(queue, ready, popped);
    for j := 0 to |dependents|
      invariant next == queue[1..] + joined && Freed(joined, listing, ready)
      invariant ready <= ready' && forall x :: x in joined ==> x in dependents[..j] && x in ready'
      invariant Waiting(next, ready', popped + {name})
      invariant Releasing(degrees, deps, installed, ready', installed - popped, dependents, j)
    {
      var a := dependents[j];
      assert dependents[..j + 1] == dependents[..j] + [a];
      ReleaseStep(degrees, deps, installed, ready', installed - popped, dependents, j, name);
      degrees := degrees[a := degrees[a] - 1];
      if degrees[a] == 0 {
        Queued(next, ready', popped + {name}, a);
        FreedStep(joined, listing, ready, dependents, j);
        next, joined := next + [a], joined + [a];
        ready' := ready' + {a};
      }
    }
    Released(degrees, deps, installed, ready', popped, dependents, name);
  }

  /** New in the queue, in listing order. */
  ghost predicate Freed(joined: seq<string>, listing: seq<string>, ready: set<string>) {
    && (forall i :: 0 <= i < |joined| ==> joined[i] !in ready)
    && forall i, j :: 0 <= i < j < |joined| ==> Before(listing, joined[i], joined[j])
  }

  lemma NoneFreed(listing: seq<string>, ready: set<string>)
    ensures Freed([], listing, ready)
  {}

  lemma StartRelease(inDegree: map<string, int>, deps: Dependencies, installed: set<string>, ready: set<string>,
                     popped: set<string>, dependents: seq<string>)
    requires Degrees(inDegree, deps, installed, ready, popped)
    ensures Releasing(inDegree, deps, installed, ready, installed - popped, dependents, 0)
  {}

  lemma FreedStep(joined: seq<string>, listing: seq<string>, ready: set<string>, dependents: seq<string>, j: nat)
    requires Freed(joined, listing, ready) && Filed(dependents, listing) && j < |dependents|
    requires forall x :: x in joined ==> x in dependents[..j]
    requires dependents[j] !in ready && dependents[j] !in joined
    ensures Freed(joined + [dependents[j]], listing, ready)
  {
    forall i | 0 <= i < |joined| ensures Before(listing, joined[i], dependents[j]) {
      assert joined[i] in dependents[..j];
      var k :| 0 <= k < j && dependents[..j][k] == joined[i];
      assert dependents[k] == joined[i] && joined[i] in joined;
    }
  }

  lemma HeadLeaves(queue: seq<string>, ready: set<string>, popped: set<string>)
    requires queue != [] && Waiting(queue, ready, popped)
    ensures queue[0] in ready && queue[0] !in popped && Waiting(queue[1..], ready, popped + {queue[0]})
  {
    assert queue[0] in queue;
    assert queue == [queue[0]] + queue[1..] && forall x :: x in queue <==> x == queue[0] || x in queue[1..];
  }

  lemma Queued(queue: seq<string>, ready: set<string>, popped: set<string>, a: string)
    requires Waiting(queue, ready, popped) && a !in ready
    ensures Waiting(queue + [a], ready + {a}, popped)
  {
    DistinctJoin(queue, [a]);
  }

  /** The addons without installed dependencies, in list order. */
  function Ready(addons: seq<AddonSummary>, deps: Dependencies, installed: set<string>): seq<AddonSummary> {
    if addons == [] then []
    else
      var init, last := addons[..|addons| - 1], addons[|addons| - 1];
      Ready(init, deps, installed)
      + if forall d | d in DependsOn(deps, last.name) :: d !in installed then [last] else []
  }

  lemma ReadyStep(addons: seq<AddonSummary>, deps: Dependencies, installed: set<string>, i: nat)
    requires i < |addons|
    ensures Names(Ready(addons[..i + 1], deps, installed))
         == Names(Ready(addons[..i], deps, installed))
            + if Unmet(DependsOn(deps, addons[i].name), installed) == 0 then [addons[i].name] else []
  {
    assert addons[..i + 1][..i] == addons[..i];
    UnmetZero(DependsOn(deps, addons[i].name), installed);
    NamesSnoc(Ready(addons[..i], deps, installed), addons[i]);
  }

  method Seed(addons: seq<AddonSummary>, inDegree: map<string, int>, ghost deps: Dependencies)
    returns (queue: seq<string>)
    requires inDegree.Keys == Installed(addons)
    requires forall a :: a in inDegree ==> inDegree[a] == Unmet(DependsOn(deps, a), Installed(addons))
    ensures queue == Names(Ready(addons, deps, Installed(addons)))
  {
    queue := [];
    for i := 0 to |addons|
      invariant queue == Names(Ready(addons[..i], deps, Installed(addons)))
    {
      var a := addons[i].name;
      ReadyStep(addons, deps, Installed(addons), i);
      if inDegree[a] == 0 {
        queue := queue + [a];
      }
    }
    assert addons[..|addons|] == addons;
  }

  lemma {:induction false} ReadyAre(addons: seq<AddonSummary>, deps: Dependencies, installed: set<string>)
    requires Distinct(Names(addons))
    ensures Distinct(Names(Ready(addons, deps, installed)))
    ensures forall x :: x in Names(Ready(addons, deps, installed)) <==>
              x in Names(addons) && Unmet(DependsOn(deps, x), installed) == 0
  {
    hide Unmet, DependsOn;
    if addons != [] {
      var init, last := addons[..|addons| - 1], addons[|addons| - 1];
      assert addons == init + [last] && addons[..|addons|] == addons;
      NamesSnoc(init, last);
      LastIsNew(Names(init), last.name);
      ReadyAre(init, deps, installed);
      ReadyStep(addons, deps, installed, |addons| - 1);
      DistinctJoin(Names(Ready(init, deps, installed)), [last.name]);
    }
  }

  lemma LastIsNew(names: seq<string>, last: string)
    requires Distinct(names + [last])
    ensures Distinct(names) && last !in names
  {
    assert (names + [last])[..|names|] == names && (names + [last])[|names|] == last;
    forall i | 0 <= i < |names| ensures names[i] != last { assert (names + [last])[i] == names[i]; }
    forall i, j | 0 <= i < j < |names| ensures names[i] != names[j] {
      assert (names + [last])[i] == names[i] && (names + [last])[j] == names[j];
    }
  }

  lemma Seeded(addons: seq<AddonSummary>, inDegree: map<string, int>, deps: Dependencies)
    requires Distinct(Names(addons)) && inDegree.Keys == Installed(addons)
    requires forall a :: a in inDegree ==> inDegree[a] == Unmet(DependsOn(deps, a), Installed(addons))
    ensures var queue := Names(Ready(addons, deps, Installed(addons)));
      Waiting(queue, SetOf(queue), {}) && Degrees(inDegree, deps, Installed(addons), SetOf(queue), {})
  {
    InstalledCount(addons);
    ReadyAre(addons, deps, Installed(addons));
    assert Installed(addons) - {} == Installed(addons);
  }

  function SetOf(s: seq<string>): set<string> { set x | x in s }

  // ---- counting lemmas ----

  lemma DistinctJoin<T>(a: seq<T>, b: seq<T>)
    requires Distinct(a) && Distinct(b) && forall x :: x in b ==> x !in a
    ensures Distinct(a + b)
  {
    forall i, j | 0 <= i < j < |a + b| ensures (a + b)[i] != (a + b)[j] {
      if i < |a| <= j { assert b[j - |a|] in b; }
    }
  }

  lemma {:induction false} DistinctFits<T>(s: seq<T>, u: set<T>)
    requires Distinct(s) && forall x :: x in s ==> x in u
    ensures |s| <= |u|
    ensures |s| == |u| ==> forall x :: x in u ==> x in s
  {
    if s != [] {
      var last, init := s[|s| - 1], s[..|s| - 1];
      assert s == init + [last];
      DistinctFits(init, u - {last});
    }
  }

  lemma {:induction false} InstalledCount(addons: seq<AddonSummary>)
    requires Distinct(Names(addons))
    ensures |Installed(addons)| == |addons|
    ensures forall x :: x in Installed(addons) <==> x in Names(addons)
  {
    if addons != [] {
      var init, last := addons[..|addons| - 1], addons[|addons| - 1];
      assert Names(addons) == Names(init) + [last.name];
      InstalledCount(init);
      assert addons == init + [last];
      assert Installed(addons) == Installed(init) + {last.name};
    }
  }

  lemma {:induction false} DistinctMultiset<T>(s: seq<T>)
    requires Distinct(s)
    ensures forall x :: multiset(s)[x] == if x in s then 1 else 0
  {
    if s != [] {
      assert s == s[..|s| - 1] + [s[|s| - 1]];
      DistinctMultiset(s[..|s| - 1]);
    }
  }

  /** Two lists with distinct names, the same names and elements of one list are permutations. */
  lemma SameNamesPermute(r: seq<AddonSummary>, addons: seq<AddonSummary>)
    requires Distinct(Names(r)) && Distinct(Names(addons))
    requires forall a :: a in r ==> a in addons
    requires forall a :: a in addons ==> a.name in Names(r)
    ensures multiset(r) == multiset(addons)
  {
    DistinctElements(r);
    DistinctElements(addons);
    DistinctMultiset(r);
    DistinctMultiset(addons);
    forall e | e in addons ensures e in r {
      var i :| 0 <= i < |r| && Names(r)[i] == e.name;
      SameName(addons, r[i], e);
    }
  }

  lemma DistinctElements(addons: seq<AddonSummary>)
    requires Distinct(Names(addons))
    ensures Distinct(addons)
  {
    forall i, j | 0 <= i < j < |addons| ensures addons[i] != addons[j] {
      assert Names(addons)[i] != Names(addons)[j];
    }
  }

  lemma SameName(addons: seq<AddonSummary>, a: AddonSummary, b: AddonSummary)
    requires Distinct(Names(addons)) && a in addons && b in addons && a.name == b.name
    ensures a == b
  {
    var i :| 0 <= i < |addons| && addons[i] == a;
    var j :| 0 <= j < |addons| && addons[j] == b;
    assert Names(addons)[i] == Names(addons)[j];
  }

  // ---- cycles ----

  ghost predicate NeedsOneOf(deps: Dependencies, a: string, s: set<string>) {
    exists d :: d in DependsOn(deps, a) && d in s
  }

  /** If every member of a set needs another member, no rank exists. */
  lemma {:induction false} NoRank(rank: map<string, nat>, deps: Dependencies, installed: set<string>,
                                  undone: set<string>, a: string)
    requires Ranks(rank, deps, installed) && a in undone && undone <= installed
    requires forall b {:trigger NeedsOneOf(deps, b, undone)} :: b in undone ==> NeedsOneOf(deps, b, undone)
    ensures false
    decreases rank[a]
  {
    assert NeedsOneOf(deps, a, undone);
    var d :| d in DependsOn(deps, a) && d in undone;
    NoRank(rank, deps, installed, undone, d);
  }

  lemma CompleteIsAcyclic(deps: Dependencies, listed: seq<string>, installed: set<string>)
    requires DependenciesFirst(listed, deps, installed)
    requires forall x :: x in installed ==> x in listed
    ensures Acyclic(deps, installed)
  {
    var rank: map<string, nat> := map x | x in installed :: IndexOf(listed, x);
    forall a, d | a in installed && d in DependsOn(deps, a) && d in installed ensures rank[d] < rank[a] {
      var i := IndexOf(listed, a);
      assert d in listed[..i];
      IndexBefore(listed, d, i);
    }
    assert Ranks(rank, deps, installed);
  }

  lemma IndexBefore(s: seq<string>, x: string, i: nat)
    requires i <= |s| && x in s[..i]
    ensures IndexOf(s, x) < i
  {
    var j := IndexOf(s, x);
    assert forall k :: 0 <= k < j ==> s[..j][k] == s[k];
  }

  lemma UndoneIsCyclic(deps: Dependencies, inDegree: map<string, int>, installed: set<string>,
                       popped: set<string>, a: string)
    requires Degrees(inDegree, deps, installed, popped, popped)
    requires a in installed && a !in popped
    ensures !Acyclic(deps, installed)
  {
    var undone := installed - popped;
    forall b | b in undone ensures NeedsOneOf(deps, b, undone) {
      assert inDegree[b] != 0;
      UnmetZero(DependsOn(deps, b), undone);
    }
    if Acyclic(deps, installed) {
      var rank :| Ranks(rank, deps, installed);
      NoRank(rank, deps, installed, undone, a);
    }
  }

  /** The queue orders everything exactly when the installed dependencies have no cycle. */
  lemma CompleteIffAcyclic(addons: seq<AddonSummary>, deps: Dependencies, names: seq<string>,
                           inDegree: map<string, int>, popped: set<string>)
    requires Distinct(Names(addons)) && Distinct(names) && forall x :: x in names <==> x in popped
    requires Degrees(inDegree, deps, Installed(addons), popped, popped)
    requires DependenciesFirst(names, deps, Installed(addons))
    ensures |names| == |addons| <==> Acyclic(deps, Installed(addons))
    ensures |names| <= |addons|
    ensures |names| == |addons| ==> forall x :: x in Installed(addons) ==> x in names
  {
    var installed := Installed(addons);
    InstalledCount(addons);
    DistinctFits(names, installed);
    if forall x :: x in installed ==> x in popped {
      SetFits(names, installed);
      CompleteIsAcyclic(deps, names, installed);
    } else {
      var a :| a in installed && a !in popped;
      UndoneIsCyclic(deps, inDegree, installed, popped, a);
    }
  }

  function IndexOf(s: seq<string>, x: string): (i: nat)
    requires x in s
    ensures i < |s| && s[i] == x && x !in s[..i]
  {
    if s[0] == x then 0 else 1 + IndexOf(s[1..], x)
  }

  lemma {:induction false} SetFits<T>(s: seq<T>, u: set<T>)
    requires forall x :: x in u ==> x in s
    ensures |u| <= |s|
  {
    if s == [] {
      assert u == {};
    } else {
      SetFits(s[1..], u - {s[0]});
    }
  }

  // ---- the cycle fallback ----

  lemma {:induction false} OthersAre(addons: seq<AddonSummary>, names: seq<string>)
    requires Distinct(Names(addons))
    ensures forall a :: a in Others(addons, names) <==> a in addons && a.name !in names
    ensures Distinct(Names(Others(addons, names)))
  {
    if addons != [] {
      var init, last := addons[..|addons| - 1], addons[|addons| - 1];
      assert addons == init + [last];
      assert Names(addons) == Names(init) + [last.name];
      assert Distinct(Names(init));
      OthersAre(init, names);
      var o := Others(init, names);
      forall i | 0 <= i < |o| ensures Names(o)[i] != last.name {
        assert o[i] in init;
        var j :| 0 <= j < |init| && init[j] == o[i];
        assert Names(addons)[j] != Names(addons)[|init|];
      }
      assert Names(o + [last]) == Names(o) + [last.name];
    }
  }

  method AppendOthers(addons: seq<AddonSummary>, ordered: seq<AddonSummary>) returns (r: seq<AddonSummary>)
    ensures r == ordered + Others(addons, Names(ordered))
  {
    r := ordered;
    var seen := Installed(ordered);
    for i := 0 to |addons|
      invariant r == ordered + Others(addons[..i], Names(ordered))
    {
      assert addons[..i + 1][..i] == addons[..i];
      assert addons[i].name in seen <==> addons[i].name in Names(ordered) by {
        if addons[i].name in seen {
          var a :| a in ordered && a.name == addons[i].name;
          var j :| 0 <= j < |ordered| && ordered[j] == a;
          assert Names(ordered)[j] == addons[i].name;
        }
      }
      if addons[i].name !in seen {
        r := r + [addons[i]];
      }
    }
    assert addons[..|addons|] == addons;
  }

  lemma Completed(addons: seq<AddonSummary>, ordered: seq<AddonSummary>, r: seq<AddonSummary>)
    requires Distinct(Names(addons)) && Distinct(Names(ordered))
    requires forall a :: a in ordered ==> a in addons
    requires r == ordered + Others(addons, Names(ordered))
    ensures multiset(r) == multiset(addons) && Distinct(Names(r))
    ensures Names(r)[..|ordered|] == Names(ordered)
    ensures r[|ordered|..] == Others(addons, Names(ordered))
    ensures forall a :: a in r[|ordered|..] ==> a.name in Installed(addons) && a.name !in Names(ordered)
  {
    hide Others, Distinct;
    var o := Others(addons, Names(ordered));
    OthersAre(addons, Names(ordered));
    assert Names(r) == Names(ordered) + Names(o);
    forall x | x in Names(o) ensures x !in Names(ordered) {
      var j :| 0 <= j < |o| && Names(o)[j] == x;
      assert o[j] in o;
    }
    DistinctJoin(Names(ordered), Names(o));
    forall a | a in addons ensures a.name in Names(r) {
      Listed(addons, ordered, o, r, a);
    }
    SameNamesPermute(r, addons);
  }

  lemma Listed(addons: seq<AddonSummary>, ordered: seq<AddonSummary>, o: seq<AddonSummary>,
               r: seq<AddonSummary>, a: AddonSummary)
    requires r == ordered + o && a in addons
    requires a.name !in Names(ordered) ==> a in o
    ensures a.name in Names(r)
  {
    if a.name in Names(ordered) {
      var j :| 0 <= j < |ordered| && Names(ordered)[j] == a.name;
      assert Names(r)[j] == a.name;
    } else {
      var j :| 0 <= j < |o| && o[j] == a;
      assert Names(r)[|ordered| + j] == a.name;
    }
  }

  // ---- the algorithm ----

  /** What has been ordered so far: distinct listed addons, each after its dependencies. */
  ghost predicate Ordered(ordered: seq<AddonSummary>, addons: seq<AddonSummary>, deps: Dependencies,
                      popped: set<string>) {
    && (forall a :: a in ordered ==> a in addons)
    && Distinct(Names(ordered))
    && (forall x :: x in Names(ordered) <==> x in popped)
    && DependenciesFirst(Names(ordered), deps, Installed(addons))
  }

  lemma OrderedStep(ordered: seq<AddonSummary>, addons: seq<AddonSummary>, deps: Dependencies,
                    inDegree: map<string, int>, ready: set<string>, popped: set<string>, a: AddonSummary)
    requires Ordered(ordered, addons, deps, popped)
    requires Degrees(inDegree, deps, Installed(addons), ready, popped)
    requires a in addons && a.name in ready && a.name !in popped
    ensures Ordered(ordered + [a], addons, deps, popped + {a.name})
    ensures Names(ordered + [a]) == Names(ordered) + [a.name]
  {
    NamesSnoc(ordered, a);
    var names, installed := Names(ordered), Installed(addons);
    assert inDegree[a.name] == 0;
    UnmetZero(DependsOn(deps, a.name), installed - popped);
    var after := names + [a.name];
    forall i, d | 0 <= i < |after| && d in DependsOn(deps, after[i]) && d in installed ensures d in after[..i] {
      if i < |names| {
        assert d in names[..i];
        assert after[..i] == names[..i];
      } else {
        assert after[..i] == names;
      }
    }
  }

  lemma EdgesOf(inDegree: map<string, int>, dependents: map<string, seq<string>>, deps: Dependencies,
                installed: set<string>, listing: seq<string>, name: string)
    requires GraphOf(inDegree, dependents, deps, installed, installed) && name in installed
    requires AllFiled(dependents, listing)
    ensures Edges(Dependents(dependents, name), deps, installed, name)
    ensures Filed(Dependents(dependents, name), listing)
  {
    forall a | a in Dependents(dependents, name) ensures a in installed {
      CountZero(Dependents(dependents, name), a);
    }
  }

  /** What is ready is free, and nothing else is. */
  lemma ReadyIsFree(names: seq<string>, inDegree: map<string, int>, deps: Dependencies, installed: set<string>,
                    ready: set<string>, popped: set<string>)
    requires Degrees(inDegree, deps, installed, ready, popped) && forall x :: x in names <==> x in popped
    ensures forall x :: x in installed ==> (x in ready <==> Free(names, deps, installed, x))
  {
    forall x | x in installed ensures x in ready <==> Free(names, deps, installed, x) {
      UnmetZero(DependsOn(deps, x), installed - popped);
      assert inDegree[x] == 0 <==> x in ready;
    }
  }

  lemma TurnStep(names: seq<string>, queue: seq<string>, joined: seq<string>, listing: seq<string>,
                 deps: Dependencies, installed: set<string>)
    requires queue != [] && InTurn(names, queue, listing, deps, installed)
    requires forall x :: x in names || x in queue ==> Free(names, deps, installed, x)
    requires forall x :: x in joined ==> !Free(names, deps, installed, x)
    requires forall x :: x in joined ==> Free(names + [queue[0]], deps, installed, x)
    requires forall i, j :: 0 <= i < j < |joined| ==> Before(listing, joined[i], joined[j])
    ensures InTurn(names + [queue[0]], queue[1..] + joined, listing, deps, installed)
  {
    hide Free, Before;
    var was, now := names + queue, names + [queue[0]] + (queue[1..] + joined);
    assert now == was + joined;
    FreeAtMost(names, deps, installed);
    forall i | 0 <= i < |now|
      ensures FreeAt(names + [queue[0]], deps, installed, now[i])
           == if i < |was| then FreeAt(names, deps, installed, was[i]) else |names| + 1
    {
      assert (names + [queue[0]])[..|names|] == names;
      if i < |was| { assert was[i] in was; } else { assert now[i] == joined[i - |was|] && now[i] in joined; }
    }
    forall i, j | 0 <= i < j < |now|
      ensures Earlier(names + [queue[0]], listing, deps, installed, now[i], now[j])
    {
      if j < |was| {
        assert Earlier(names, listing, deps, installed, was[i], was[j]);
      } else if i >= |was| {
        assert now[i] == joined[i - |was|] && now[j] == joined[j - |was|];
      }
    }
  }

  lemma TurnStart(addons: seq<AddonSummary>, inDegree: map<string, int>, deps: Dependencies)
    requires Distinct(Names(addons))
    ensures var installed := Installed(addons);
      InTurn([], Names(Ready(addons, deps, installed)), Names(addons), deps, installed)
  {
    ReadyInOrder(addons, deps, Installed(addons));
  }

  lemma NextTurn(names: seq<string>, queue: seq<string>, next: seq<string>, listing: seq<string>,
                 deps: Dependencies, installed: set<string>, ready: set<string>, ready': set<string>,
                 popped: set<string>)
    requires queue != [] && InTurn(names, queue, listing, deps, installed)
    requires ready <= installed && ready' <= installed && popped <= ready
    requires forall x :: x in names || x in queue ==> x in ready
    requires forall x :: x in next ==> x in ready'
    requires forall x :: x in installed ==> (x in ready <==> Free(names, deps, installed, x))
    requires forall x :: x in installed ==> (x in ready' <==> Free(names + [queue[0]], deps, installed, x))
    requires exists joined :: next == queue[1..] + joined && Freed(joined, listing, ready)
    ensures InTurn(names + [queue[0]], next, listing, deps, installed)
  {
    hide InTurn, Free, Before;
    var joined :| next == queue[1..] + joined && Freed(joined, listing, ready);
    forall x | x in joined ensures x in ready' && x !in ready {
      assert x in next;
    }
    TurnStep(names, queue, joined, listing, deps, installed);
  }

  lemma {:induction false} ReadyInOrder(addons: seq<AddonSummary>, deps: Dependencies, installed: set<string>)
    ensures var names := Names(Ready(addons, deps, installed));
      && (forall x :: x in names ==> x in Names(addons))
      && forall i, j :: 0 <= i < j < |names| ==> Before(Names(addons), names[i], names[j])
  {
    if addons != [] {
      var init, last := addons[..|addons| - 1], addons[|addons| - 1];
      assert addons == init + [last] && addons[..|addons|] == addons;
      NamesSnoc(init, last);
      ReadyInOrder(init, deps, installed);
      ReadyStep(addons, deps, installed, |addons| - 1);
      forall a, b ensures Before(Names(init), a, b) ==> Before(Names(addons), a, b) {
        BehindAll(Names(init), last.name, a, b);
      }
      forall a | a in Names(init) ensures Before(Names(addons), a, last.name) {
        BehindAll(Names(init), last.name, a, a);
      }
    }
  }

  lemma BehindAll(listing: seq<string>, last: string, a: string, b: string)
    ensures Before(listing, a, b) ==> Before(listing + [last], a, b)
    ensures a in listing ==> Before(listing + [last], a, last)
  {
    var all := listing + [last];
    if Before(listing, a, b) {
      var i, j :| 0 <= i < j < |listing| && listing[i] == a && listing[j] == b;
      assert all[i] == a && all[j] == b;
    }
    if a in listing {
      var i :| 0 <= i < |listing| && listing[i] == a;
      assert all[i] == a && all[|listing|] == last;
    }
  }

  lemma FreeAtMost(names: seq<string>, deps: Dependencies, installed: set<string>)
    ensures forall x :: FreeAt(names, deps, installed, x) <= |names|
  {
    forall x { FreeAtBound(names, deps, installed, x); }
  }

  lemma {:induction false} FreeAtBound(names: seq<string>, deps: Dependencies, installed: set<string>, x: string)
    ensures FreeAt(names, deps, installed, x) <= |names|
  {
    if names != [] { FreeAtBound(names[..|names| - 1], deps, installed, x); }
  }

  lemma InQueue(queue: seq<string>, ready: set<string>, popped: set<string>, ordered: seq<AddonSummary>,
                addons: seq<AddonSummary>, deps: Dependencies, inDegree: map<string, int>)
    requires Waiting(queue, ready, popped) && Degrees(inDegree, deps, Installed(addons), ready, popped)
    requires Ordered(ordered, addons, deps, popped)
    ensures popped <= ready <= Installed(addons)
    ensures forall x :: x in Names(ordered) <==> x in popped
    ensures forall x :: x in Names(ordered) || x in queue ==> x in ready
    ensures queue != [] ==> queue[0] in Installed(addons) && queue[0] in ready && queue[0] !in popped
    ensures queue == [] ==> ready == popped
  {
    if queue != [] { assert queue[0] in queue; }
    forall x | x in ready && queue == [] ensures x in popped { assert x !in queue; }
    assert queue == [] ==> ready <= popped;
  }

  lemma NothingOrdered(addons: seq<AddonSummary>, deps: Dependencies)
    ensures Ordered([], addons, deps, {}) && Names([]) == []
  {}

  lemma PrefixMoves(seeds: seq<string>, done: seq<string>, queue: seq<string>)
    requires queue != [] && seeds <= done + queue
    ensures forall next :: queue[1..] <= next ==> seeds <= done + [queue[0]] + next
  {
    assert done + queue == done + [queue[0]] + queue[1..];
  }

  /** sortByDependency. `n` is how many addons the queue itself ordered; the rest, if any,
      come from the cycle fallback in list order. */
  method SortByDependency(addons: seq<AddonSummary>, deps: Dependencies)
    returns (r: seq<AddonSummary>, ghost n: nat)
    requires Distinct(Names(addons))
    ensures multiset(r) == multiset(addons) && Distinct(Names(r))
    ensures n <= |r| && DependenciesFirst(Names(r)[..n], deps, Installed(addons))
    ensures r[n..] == Others(addons, Names(r)[..n])
    ensures n == |addons| <==> Acyclic(deps, Installed(addons))
    ensures Names(Ready(addons, deps, Installed(addons))) <= Names(r)
    ensures InTurn(Names(r)[..n], [], Names(addons), deps, Installed(addons))
    ensures forall a :: a in r[n..] ==> !Free(Names(r)[..n], deps, Installed(addons), a.name)
  {
    hide Distinct, Waiting, Degrees, InTurn, Free, Count, Others, Ready, DependenciesFirst, Edges,
      AllFiled, Filed, Unmet, Freed, Before, Acyclic, DependsOn;
    ghost var installed := Installed(addons);
    var byName := ByName(addons);
    var inDegree, dependents := BuildGraph(addons, deps);
    ghost var built := inDegree;
    var queue := Seed(addons, inDegree, deps);
    Seeded(addons, inDegree, deps);
    ghost var seeds, ready, popped := queue, SetOf(queue), {};
    var ordered: seq<AddonSummary> := [];
    TurnStart(addons, inDegree, deps);
    NothingOrdered(addons, deps);
    while queue != []
      invariant InTurn(Names(ordered), queue, Names(addons), deps, installed)
      invariant GraphOf(built, dependents, deps, installed, installed)
      invariant Waiting(queue, ready, popped) && Degrees(inDegree, deps, installed, ready, popped)
      invariant Ordered(ordered, addons, deps, popped)
      invariant seeds <= Names(ordered) + queue
      decreases installed - popped
    {
      var name := queue[0];
      InQueue(queue, ready, popped, ordered, addons, deps, inDegree);
      EdgesOf(built, dependents, deps, installed, Names(addons), name);
      OrderedStep(ordered, addons, deps, inDegree, ready, popped, byName[name]);
      PrefixMoves(seeds, Names(ordered), queue);
      ReadyIsFree(Names(ordered), inDegree, deps, installed, ready, popped);
      ghost var before, waiting := ready, queue;
      inDegree, queue, ready := PopHead(queue, Dependents(dependents, name), inDegree, ready, popped, deps, installed,
                                         Names(addons));
      popped := popped + {name};
      ordered := ordered + [byName[name]];
      InQueue(queue, ready, popped, ordered, addons, deps, inDegree);
      ReadyIsFree(Names(ordered), inDegree, deps, installed, ready, popped);
      NextTurn(Names(ordered)[..|ordered| - 1], waiting, queue, Names(addons), deps, installed, before, ready, popped);
    }
    assert Names(ordered) + queue == Names(ordered);
    InQueue(queue, ready, popped, ordered, addons, deps, inDegree);
    ReadyIsFree(Names(ordered), inDegree, deps, installed, ready, popped);
    n := |ordered|;
    r := ordered;
    CompleteIffAcyclic(addons, deps, Names(ordered), inDegree, popped);
    if |ordered| < |addons| {
      r := AppendOthers(addons, ordered);
    } else {
      NoOthers(addons, ordered);
    }
    Completed(addons, ordered, r);
    assert Names(ordered) <= Names(r);
  }

  lemma NoOthers(addons: seq<AddonSummary>, ordered: seq<AddonSummary>)
    requires Distinct(Names(addons))
    requires forall x :: x in Installed(addons) ==> x in Names(ordered)
    ensures ordered == ordered + Others(addons, Names(ordered))
  {
    OthersAre(addons, Names(ordered));
    var o := Others(addons, Names(ordered));
    assert forall a :: a in addons ==> a.name in Installed(addons);
    assert forall a :: a !in o;
    assert o == [];
  }

  method ByName(addons: seq<AddonSummary>) returns (byName: map<string, AddonSummary>)
    ensures byName.Keys == Installed(addons)
    ensures forall x :: x in byName ==> byName[x] in addons && byName[x].name == x
  {
    byName := map[];
    for i := 0 to |addons|
      invariant byName.Keys == Installed(addons[..i])
      invariant forall x :: x in byName ==> byName[x] in addons && byName[x].name == x
    {
      assert addons[..i + 1] == addons[..i] + [addons[i]];
      byName := byName[addons[i].name := addons[i]];
    }
    assert addons[..|addons|] == addons;
  }

  // ---- the built-in dependencies ----

  const ADDON_RANKS: map<string, nat> := map[
    "vpc-cni" := 0, "kube-proxy" := 1, "coredns" := 1, "aws-guardduty-agent" := 1,
    "aws-ebs-csi-driver" := 2, "aws-efs-csi-driver" := 2, "aws-fsx-csi-driver" := 2,
    "amazon-cloudwatch-observability" := 2, "adot" := 2
  ]

  const STORAGE_DRIVERS := {"aws-ebs-csi-driver", "aws-efs-csi-driver", "aws-fsx-csi-driver"}
  const OBSERVABILITY := {"adot", "amazon-cloudwatch-observability"}

  /** What the built-in map promises of an order that heeds it: networking first, then DNS, then the
      storage drivers and observability. What needs DNS comes after networking too if both are there. */
  lemma FoundationFirst(names: seq<string>, installed: set<string>, i: nat)
    requires DependenciesFirst(names, ADDON_DEPENDENCIES, installed) && i < |names|
    ensures "vpc-cni" in installed && names[i] in {"kube-proxy", "coredns", "aws-guardduty-agent"}
            ==> "vpc-cni" in names[..i]
    ensures "vpc-cni" in installed && names[i] in STORAGE_DRIVERS ==> "vpc-cni" in names[..i]
    ensures "coredns" in installed && names[i] in STORAGE_DRIVERS + OBSERVABILITY ==> "coredns" in names[..i]
    ensures {"vpc-cni", "coredns"} <= installed && names[i] in OBSERVABILITY ==> "vpc-cni" in names[..i]
  {
    var ds := DependsOn(ADDON_DEPENDENCIES, names[i]);
    assert |ds| > 0 ==> ds[0] in ds;
    assert |ds| > 1 ==> ds[1] in ds;
    if names[i] in OBSERVABILITY && {"vpc-cni", "coredns"} <= installed {
      assert "coredns" in names[..i];
      var j :| 0 <= j < i && names[..i][j] == "coredns";
      assert names[j] == "coredns" && "vpc-cni" in DependsOn(ADDON_DEPENDENCIES, names[j]);
      assert "vpc-cni" in names[..j];
    }
  }

  /** The built-in dependencies are acyclic whatever else is installed, so the fallback
      never adds an addon. */
  lemma BuiltInIsAcyclic(installed: set<string>)
    ensures Acyclic(ADDON_DEPENDENCIES, installed)
  {
    var rank: map<string, nat> :=
      map x | x in installed :: if x in ADDON_RANKS then ADDON_RANKS[x] else 0;
    forall a, d | a in installed && d in DependsOn(ADDON_DEPENDENCIES, a) && d in installed
      ensures rank[d] < rank[a]
    {
      assert ADDON_RANKS["vpc-cni"] == 0;
    }
    assert Ranks(rank, ADDON_DEPENDENCIES, installed);
  }
}
