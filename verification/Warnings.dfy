/** The latest warning of each kind on a nodegroup's nodes (internal/noderoll/observer.go). */
module Warnings {
  import opened GoStrings

  /** The zero time, which no dated event carries. */
  const ZERO_TIME := 0

  datatype KubeEvent = KubeEvent(kind: string, objectKind: string, objectName: string, host: string,
                                 reason: string, message: string, lastTimestamp: nat, eventTime: nat)

  datatype Warning = Warning(node: string, subject: string, reason: string, message: string)

  datatype Key = Key(node: string, subject: string, reason: string)

  /** What the filter is given besides the events. */
  datatype Scope = Scope(nodes: set<string>, now: nat, window: int)

  /** warningNode: the node an event concerns, or the empty string. */
  function WarningNode(e: KubeEvent, nodes: set<string>): string {
    if e.objectKind == "Node" && e.objectName in nodes then e.objectName
    else if e.host in nodes then e.host
    else ""
  }

  /** warningTime. */
  function WarningTime(e: KubeEvent): nat {
    if e.lastTimestamp != ZERO_TIME then e.lastTimestamp else e.eventTime
  }

  /** A warning on one of the nodes, undated or recent enough. */
  predicate Relevant(e: KubeEvent, s: Scope) {
    && (e.kind == "" || e.kind == "Warning")
    && WarningNode(e, s.nodes) != ""
    && (WarningTime(e) == ZERO_TIME || s.now - WarningTime(e) <= s.window)
  }

  /** The event is dated: by its last timestamp, or else by its event time. */
  predicate DatedAt(e: KubeEvent, t: nat) {
    t > 0 && (e.lastTimestamp == t || (e.lastTimestamp == 0 && e.eventTime == t))
  }

  /** An event is relevant exactly when it is a warning, or of no kind, that concerns a node of the set, being
      about it or reported by it, and that is not dated before the window. */
  lemma RelevantIff(e: KubeEvent, s: Scope)
    ensures Relevant(e, s) <==>
      && (e.kind == "" || e.kind == "Warning")
      && (if e.objectKind == "Node" && e.objectName in s.nodes then e.objectName != ""
          else e.host in s.nodes && e.host != "")
      && (forall t: nat :: DatedAt(e, t) ==> t >= s.now - s.window)
  {
    if e.lastTimestamp > 0 { assert DatedAt(e, e.lastTimestamp); }
    if e.lastTimestamp == 0 && e.eventTime > 0 { assert DatedAt(e, e.eventTime); }
  }

  function KeyOf(e: KubeEvent, s: Scope): Key {
    Key(WarningNode(e, s.nodes), e.objectKind + "/" + e.objectName, e.reason)
  }

  function WarningOf(e: KubeEvent, s: Scope): Warning {
    Warning(WarningNode(e, s.nodes), e.objectKind + "/" + e.objectName, e.reason, e.message)
  }

  function KeyOfWarning(w: Warning): Key { Key(w.node, w.subject, w.reason) }

  predicate NoLater(events: seq<KubeEvent>, j: nat, i: nat)
    requires i < |events| && j < |events|
  {
    var a, b := WarningTime(events[j]), WarningTime(events[i]);
    a < b || (a == b && i <= j)
  }

  /** Of the relevant events with its key among the first n, event i is the latest, and the first
      of the latest. */
  ghost predicate Chosen(events: seq<KubeEvent>, s: Scope, i: nat, n: nat) {
    && i < n <= |events| && Relevant(events[i], s)
    && forall j :: 0 <= j < n && Relevant(events[j], s) && KeyOf(events[j], s) == KeyOf(events[i], s) ==>
         NoLater(events, j, i)
  }

  // ---- the events kept ----

  /** After n events: for every key with a relevant event, its chosen one. */
  ghost predicate Kept(events: seq<KubeEvent>, s: Scope, n: nat, latest: map<Key, KubeEvent>, at: map<Key, nat>) {
    && n <= |events| && latest.Keys == at.Keys
    && (forall k :: k in latest ==> KeptAt(events, s, n, k, latest[k], at[k]))
    && forall i :: 0 <= i < n && Relevant(events[i], s) ==> KeyOf(events[i], s) in latest
  }

  ghost predicate KeptAt(events: seq<KubeEvent>, s: Scope, n: nat, k: Key, e: KubeEvent, i: nat) {
    Chosen(events, s, i, n) && events[i] == e && KeyOf(e, s) == k
  }

  lemma Ignored(events: seq<KubeEvent>, s: Scope, n: nat, latest: map<Key, KubeEvent>, at: map<Key, nat>)
    requires n < |events| && Kept(events, s, n, latest, at) && !Relevant(events[n], s)
    ensures Kept(events, s, n + 1, latest, at)
  {
    forall k | k in latest ensures KeptAt(events, s, n + 1, k, latest[k], at[k]) {
      assert KeptAt(events, s, n, k, latest[k], at[k]);
    }
  }

  lemma Replaced(events: seq<KubeEvent>, s: Scope, n: nat, latest: map<Key, KubeEvent>, at: map<Key, nat>)
    requires n < |events| && Kept(events, s, n, latest, at) && Relevant(events[n], s)
    requires var k := KeyOf(events[n], s); k in latest ==> WarningTime(events[n]) > WarningTime(latest[k])
    ensures var k := KeyOf(events[n], s); Kept(events, s, n + 1, latest[k := events[n]], at[k := n])
  {
    var key := KeyOf(events[n], s);
    forall k | k in latest && k != key ensures KeptAt(events, s, n + 1, k, latest[k], at[k]) {
      assert KeptAt(events, s, n, k, latest[k], at[k]);
    }
    if key in latest { assert KeptAt(events, s, n, key, latest[key], at[key]); }
  }

  lemma Outdated(events: seq<KubeEvent>, s: Scope, n: nat, latest: map<Key, KubeEvent>, at: map<Key, nat>)
    requires n < |events| && Kept(events, s, n, latest, at) && Relevant(events[n], s)
    requires var k := KeyOf(events[n], s); k in latest && WarningTime(events[n]) <= WarningTime(latest[k])
    ensures Kept(events, s, n + 1, latest, at)
  {
    forall k | k in latest ensures KeptAt(events, s, n + 1, k, latest[k], at[k]) {
      assert KeptAt(events, s, n, k, latest[k], at[k]);
    }
  }

  // ---- the result ----

  ghost predicate Distinct(ws: seq<Warning>) {
    forall i, j :: 0 <= i < j < |ws| ==> KeyOfWarning(ws[i]) != KeyOfWarning(ws[j])
  }

  /** By node, then by reason. */
  predicate NotAfter(a: Warning, b: Warning) {
    LexCompare(a.node, b.node) < 0 || (a.node == b.node && LexCompare(a.reason, b.reason) <= 0)
  }

  ghost predicate Sorted(ws: seq<Warning>) {
    forall i, j :: 0 <= i < j < |ws| ==> NotAfter(ws[i], ws[j])
  }

  lemma NotAfterTransitive(a: Warning, b: Warning, c: Warning)
    requires NotAfter(a, b) && NotAfter(b, c)
    ensures NotAfter(a, c)
  {
    LexCompareFlip(a.node, b.node);
    LexCompareFlip(b.node, c.node);
    LexCompareFlip(a.node, c.node);
    LexCompareTransitive(c.node, b.node, a.node);
    if a.node == b.node == c.node {
      LexCompareFlip(a.reason, b.reason);
      LexCompareFlip(b.reason, c.reason);
      LexCompareFlip(a.reason, c.reason);
      LexCompareTransitive(c.reason, b.reason, a.reason);
    }
  }

  lemma NotAfterTotal(a: Warning, b: Warning)
    ensures NotAfter(a, b) || NotAfter(b, a)
  {
    LexCompareFlip(a.node, b.node);
    LexCompareFlip(a.reason, b.reason);
  }

  /** sort.Slice: some sorted permutation; nothing is said about the order of warnings that compare
      equal. */
  method Sort(ws: seq<Warning>) returns (r: seq<Warning>)
    ensures multiset(r) == multiset(ws) && Sorted(r)
    ensures Distinct(ws) ==> Distinct(r)
  {
    hide Sorted, Distinct;
    r := [];
    NothingSorted();
    for i := 0 to |ws|
      invariant multiset(r) == multiset(ws[..i]) && Sorted(r)
      invariant Distinct(ws) ==> Distinct(r)
    {
      assert ws[..i + 1] == ws[..i] + [ws[i]];
      if Distinct(ws) { NewKey(ws, i, r); }
      r := Insert(r, ws[i]);
    }
    assert ws[..|ws|] == ws;
  }

  lemma NothingSorted()
    ensures Sorted([]) && Distinct([])
  {}

  lemma NewKey(ws: seq<Warning>, i: nat, r: seq<Warning>)
    requires i < |ws| && Distinct(ws) && multiset(r) == multiset(ws[..i])
    ensures forall j :: 0 <= j < |r| ==> KeyOfWarning(r[j]) != KeyOfWarning(ws[i])
  {
    forall j | 0 <= j < |r| ensures KeyOfWarning(r[j]) != KeyOfWarning(ws[i]) {
      assert r[j] in multiset(r);
      assert r[j] in ws[..i];
    }
  }

  method Insert(sorted: seq<Warning>, w: Warning) returns (r: seq<Warning>)
    requires Sorted(sorted)
    ensures multiset(r) == multiset(sorted) + multiset{w} && Sorted(r)
    ensures Distinct(sorted) && (forall j :: 0 <= j < |sorted| ==> KeyOfWarning(sorted[j]) != KeyOfWarning(w)) ==>
      Distinct(r)
  {
    hide NotAfter, Spliced, KeyOfWarning;
    var i := |sorted|;
    while i > 0 && !NotAfter(sorted[i - 1], w)
      invariant 0 <= i <= |sorted|
      invariant forall j :: i <= j < |sorted| ==> NotAfter(w, sorted[j])
    {
      NotAfterTotal(sorted[i - 1], w);
      i := i - 1;
    }
    forall j | 0 <= j < i ensures NotAfter(sorted[j], w) {
      if j < i - 1 { NotAfterTransitive(sorted[j], sorted[i - 1], w); }
    }
    SplicedElements(sorted, i, w);
    SplicedSorted(sorted, i, w);
    if Distinct(sorted) && forall j :: 0 <= j < |sorted| ==> KeyOfWarning(sorted[j]) != KeyOfWarning(w) {
      SplicedDistinct(sorted, i, w);
    }
    return Spliced(sorted, i, w);
  }

  function Spliced(sorted: seq<Warning>, i: nat, w: Warning): (r: seq<Warning>)
    requires i <= |sorted|
    ensures |r| == |sorted| + 1
    ensures forall j :: 0 <= j < |r| ==> r[j] == if j < i then sorted[j] else if j == i then w else sorted[j - 1]
  {
    sorted[..i] + [w] + sorted[i..]
  }

  lemma SplicedElements(sorted: seq<Warning>, i: nat, w: Warning)
    requires i <= |sorted|
    ensures multiset(Spliced(sorted, i, w)) == multiset(sorted) + multiset{w}
  {
    assert sorted == sorted[..i] + sorted[i..];
  }

  lemma SplicedSorted(sorted: seq<Warning>, i: nat, w: Warning)
    requires Sorted(sorted) && i <= |sorted|
    requires forall j :: i <= j < |sorted| ==> NotAfter(w, sorted[j])
    requires forall j :: 0 <= j < i ==> NotAfter(sorted[j], w)
    ensures Sorted(Spliced(sorted, i, w))
  {
    hide NotAfter;
    var r := Spliced(sorted, i, w);
    assert |r| == |sorted| + 1;
  }

  lemma SplicedDistinct(sorted: seq<Warning>, i: nat, w: Warning)
    requires i <= |sorted| && Distinct(sorted)
    requires forall j :: 0 <= j < |sorted| ==> KeyOfWarning(sorted[j]) != KeyOfWarning(w)
    ensures Distinct(Spliced(sorted, i, w))
  {
    hide KeyOfWarning;
    var r := Spliced(sorted, i, w);
    assert |r| == |sorted| + 1;
  }

  /** The output for the keys in `order`. */
  ghost predicate Emitted(order: seq<Key>, latest: map<Key, KubeEvent>, s: Scope, out: seq<Warning>) {
    && |out| == |order|
    && forall i :: 0 <= i < |order| ==> order[i] in latest && out[i] == WarningOf(latest[order[i]], s)
  }

  ghost predicate InOrder(order: seq<Key>, keys: set<Key>) {
    && (forall i, j :: 0 <= i < j < |order| ==> order[i] != order[j])
    && forall k :: k in order <==> k in keys
  }

  /** The warnings are exactly those of the chosen events, one for each key. */
  ghost predicate IsFiltered(events: seq<KubeEvent>, s: Scope, out: seq<Warning>) {
    && Distinct(out)
    && (forall w :: w in out ==> FromChosen(events, s, w))
    && forall i :: 0 <= i < |events| && Chosen(events, s, i, |events|) ==> WarningOf(events[i], s) in out
  }

  ghost predicate FromChosen(events: seq<KubeEvent>, s: Scope, w: Warning) {
    exists i :: 0 <= i < |events| && Chosen(events, s, i, |events|) && w == WarningOf(events[i], s)
  }

  lemma EmittedIsFiltered(events: seq<KubeEvent>, s: Scope, latest: map<Key, KubeEvent>, at: map<Key, nat>,
                          order: seq<Key>, out: seq<Warning>)
    requires Kept(events, s, |events|, latest, at) && InOrder(order, latest.Keys) && Emitted(order, latest, s, out)
    ensures IsFiltered(events, s, out)
  {
    forall i | 0 <= i < |out| ensures FromChosen(events, s, out[i]) && KeyOfWarning(out[i]) == order[i] {
      assert KeptAt(events, s, |events|, order[i], latest[order[i]], at[order[i]]);
    }
    forall i | 0 <= i < |events| && Chosen(events, s, i, |events|) ensures WarningOf(events[i], s) in out {
      var k := KeyOf(events[i], s);
      assert k in latest && KeptAt(events, s, |events|, k, latest[k], at[k]);
      SameChosen(events, s, i, at[k]);
      assert k in order;
      var j :| 0 <= j < |order| && order[j] == k;
      assert out[j] == WarningOf(events[i], s);
    }
  }

  /** A key has at most one chosen event. */
  lemma SameChosen(events: seq<KubeEvent>, s: Scope, i: nat, j: nat)
    requires Chosen(events, s, i, |events|) && Chosen(events, s, j, |events|)
    requires KeyOf(events[i], s) == KeyOf(events[j], s)
    ensures i == j
  {}

  /** Every key with a relevant event has a chosen one, at least as late as that event. */
  lemma {:induction false} SomeChosen(events: seq<KubeEvent>, s: Scope, i: nat, n: nat) returns (c: nat)
    requires i < n <= |events| && Relevant(events[i], s)
    ensures Chosen(events, s, c, n) && KeyOf(events[c], s) == KeyOf(events[i], s)
    ensures WarningTime(events[c]) >= WarningTime(events[i])
  {
    if n == 1 {
      return 0;
    }
    var e := events[n - 1];
    if i == n - 1 && (forall j :: 0 <= j < n - 1 && Relevant(events[j], s) ==> KeyOf(events[j], s) != KeyOf(e, s)) {
      return i;
    }
    var other := i;
    if i == n - 1 {
      other :| 0 <= other < n - 1 && Relevant(events[other], s) && KeyOf(events[other], s) == KeyOf(e, s);
    }
    c := SomeChosen(events, s, other, n - 1);
    if Relevant(e, s) && KeyOf(e, s) == KeyOf(events[i], s) && WarningTime(e) > WarningTime(events[c]) {
      c := n - 1;
    }
  }

  lemma SortedIsFiltered(events: seq<KubeEvent>, s: Scope, out: seq<Warning>, sorted: seq<Warning>)
    requires IsFiltered(events, s, out) && multiset(sorted) == multiset(out) && Distinct(sorted)
    ensures IsFiltered(events, s, sorted)
  {
    forall w ensures w in sorted <==> w in out {
      assert w in sorted <==> w in multiset(sorted);
      assert w in out <==> w in multiset(out);
    }
  }

  /** scopeWarnings. */
  method ScopeWarnings(events: seq<KubeEvent>, nodes: set<string>, now: nat, window: int) returns (out: seq<Warning>)
    ensures IsFiltered(events, Scope(nodes, now, window), out) && Sorted(out)
    ensures forall w :: w in out ==> exists i :: 0 <= i < |events| && Tells(w, events[i], nodes)
  {
    hide Kept, IsFiltered, Sorted, Chosen;
    ghost var s := Scope(nodes, now, window);
    var latest: map<Key, KubeEvent>, order: seq<Key> := map[], [];
    ghost var at: map<Key, nat> := map[];
    NothingKept(events, s);
    for i := 0 to |events|
      invariant latest.Keys == at.Keys && Kept(events, s, i, latest, at) && InOrder(order, latest.Keys)
    {
      var e := events[i];
      if e.kind != "" && e.kind != "Warning" {
        Ignored(events, s, i, latest, at);
        continue;
      }
      var node := WarningNode(e, nodes);
      if node == "" {
        Ignored(events, s, i, latest, at);
        continue;
      }
      var ts := WarningTime(e);
      if ts != ZERO_TIME && now - ts > window {
        Ignored(events, s, i, latest, at);
        continue;
      }
      var k := Key(node, e.objectKind + "/" + e.objectName, e.reason);
      if k !in latest {
        Replaced(events, s, i, latest, at);
        order := order + [k];
        latest, at := latest[k := e], at[k := i];
      } else if ts > WarningTime(latest[k]) {
        Replaced(events, s, i, latest, at);
        latest, at := latest[k := e], at[k := i];
      } else {
        Outdated(events, s, i, latest, at);
      }
    }
    var unsorted := Emit(events, s, latest, at, order);
    EmittedIsFiltered(events, s, latest, at, order, unsorted);
    FilteredIsDistinct(events, s, unsorted);
    out := Sort(unsorted);
    SortedIsFiltered(events, s, unsorted, out);
    forall w | w in out ensures exists i :: 0 <= i < |events| && Tells(w, events[i], nodes) {
      WarningTells(events, s, out, w);
    }
  }

  /** The warning is the event's: about one of the nodes, with the object, reason and message of the event. */
  predicate Tells(w: Warning, e: KubeEvent, nodes: set<string>) {
    && w.subject == e.objectKind + "/" + e.objectName && w.reason == e.reason && w.message == e.message
    && w.node in nodes
    && (if e.objectKind == "Node" && e.objectName in nodes then w.node == e.objectName else w.node == e.host)
  }

  lemma WarningTells(events: seq<KubeEvent>, s: Scope, out: seq<Warning>, w: Warning)
    requires IsFiltered(events, s, out) && w in out
    ensures exists i :: 0 <= i < |events| && Tells(w, events[i], s.nodes)
  {
    assert FromChosen(events, s, w);
    var i :| 0 <= i < |events| && Chosen(events, s, i, |events|) && w == WarningOf(events[i], s);
    assert Tells(w, events[i], s.nodes);
  }

  lemma FilteredIsDistinct(events: seq<KubeEvent>, s: Scope, out: seq<Warning>)
    requires IsFiltered(events, s, out)
    ensures Distinct(out)
  {}

  lemma NothingKept(events: seq<KubeEvent>, s: Scope)
    ensures Kept(events, s, 0, map[], map[])
  {}

  method Emit(ghost events: seq<KubeEvent>, ghost s: Scope, latest: map<Key, KubeEvent>, ghost at: map<Key, nat>,
              order: seq<Key>)
    returns (out: seq<Warning>)
    requires Kept(events, s, |events|, latest, at) && InOrder(order, latest.Keys)
    ensures Emitted(order, latest, s, out)
  {
    out := [];
    for i := 0 to |order|
      invariant |out| == i && forall j :: 0 <= j < i ==> order[j] in latest && out[j] == WarningOf(latest[order[j]], s)
    {
      var k := order[i];
      assert k in order;
      var e := latest[k];
      assert KeptAt(events, s, |events|, k, e, at[k]);
      out := out + [Warning(k.node, k.subject, e.reason, e.message)];
    }
  }
}
