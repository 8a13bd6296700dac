/** Kubernetes versions: parsing, comparison and hop expansion
    (internal/services/upgrade/types.go). */
module Versions {
  import opened GoStrings

  /** Nodes may lag the control plane by at most this many minors. */
  const KUBELET_SKEW: int := 3

  predicate IsDot(c: char) { c == '.' }

  /** The text before the first dot. */
  function Before(s: string): string { s[..RunLength(s, IsDot)] }

  /** minorVersion: the minor of "1.<minor>", ignoring a further ".<patch>". */
  function MinorVersion(v: string): (r: Option<int>)
    ensures r.Some? ==> FitsInt64(r.value)
  {
    var t := TrimSpace(v);
    var n := RunLength(t, IsDot);
    if n == |t| || t[..n] != "1" then None else Atoi(Before(t[n + 1..]))
  }

  predicate Parses(v: string) { MinorVersion(v).Some? }

  function Minor(v: string): int
    requires Parses(v)
  { MinorVersion(v).value }

  /** versionAtLeast: false as soon as either side does not parse. */
  predicate VersionAtLeast(a: string, b: string) {
    Parses(a) && Parses(b) && Minor(a) >= Minor(b)
  }

  /** The printed form of a minor version. */
  function Release(m: int): string { "1." + Decimal(m) }

  lemma RunLengthNoDot(s: string)
    requires '.' !in s
    ensures RunLength(s, IsDot) == |s|
  {
    if s != [] { RunLengthNoDot(s[1..]); }
  }

  /** A printed release parses back to its minor. */
  lemma ReleaseMinor(m: int)
    requires FitsInt64(m)
    ensures MinorVersion(Release(m)) == Some(m)
  {
    var t, d := Release(m), Decimal(m);
    DecimalHasNoDot(m);
    TrimSpaceIdle(t);
    assert t[1..][0] == '.';
    assert RunLength(t[1..], IsDot) == 0;
    assert RunLength(t, IsDot) == 1;
    assert t[..1] == "1" && t[2..] == d;
    RunLengthNoDot(d);
    assert Before(d) == d;
    AtoiDecimal(m);
  }

  /** A patch number is ignored, and only major version 1 is readable. */
  lemma PatchIsIgnored(m: int, patch: string)
    requires FitsInt64(m) && (patch == [] || !IsSpace(patch[|patch| - 1]))
    ensures MinorVersion(Release(m) + "." + patch) == Some(m)
  {
    hide Decimal, TrimSpace;
    var d := Decimal(m);
    var t := Release(m) + "." + patch;
    DecimalHasNoDot(m);
    assert t[0] == '1' && t[|t| - 1] == if patch == [] then '.' else patch[|patch| - 1];
    TrimSpaceIdle(t);
    assert t[1..][0] == '.';
    assert RunLength(t[1..], IsDot) == 0;
    assert RunLength(t, IsDot) == 1;
    assert t[..1] == "1" && t[2..] == d + ("." + patch);
    RunOfWord(d, "." + patch, IsDot);
    assert (d + ("." + patch))[..|d|] == d;
    AtoiDecimal(m);
  }

  lemma OtherMajorsAreUnreadable(v: string)
    requires v != [] && !IsSpace(v[0]) && !IsSpace(v[|v| - 1])
    ensures Parses(v) ==> |v| > 1 && v[0] == '1' && v[1] == '.'
  {
    hide Atoi;
    TrimSpaceIdle(v);
    var n := RunLength(v, IsDot);
    if Parses(v) { assert |v[..n]| == 1 && v[..n][0] == v[0]; }
  }

  /** b never names an older version than a; an unreadable a is no obstacle. */
  predicate NoOlder(b: string, a: string) {
    b == a || (Parses(b) && (Parses(a) ==> Minor(b) >= Minor(a)))
  }

  lemma NoOlderTransitive(c: string, b: string, a: string)
    requires NoOlder(c, b) && NoOlder(b, a)
    ensures NoOlder(c, a)
  {}

  /** What expandHops returns when it returns hops at all. */
  ghost predicate IsHopChain(hops: seq<string>, from: int, to: int) {
    && from <= to
    && |hops| == to - from
    && forall i :: 0 <= i < |hops| ==> hops[i] == Release(from + 1 + i)
  }

  /** expandHops: every minor after from, up to and including to. */
  method ExpandHops(from: string, to: string) returns (r: Result<seq<string>>)
    ensures r.Ok? <==> Parses(from) && Parses(to) && Minor(from) <= Minor(to)
    ensures r.Ok? ==> IsHopChain(r.value, Minor(from), Minor(to))
  {
    hide MinorVersion, Release;
    var fromMinor, toMinor := MinorVersion(from), MinorVersion(to);
    if fromMinor.None? || toMinor.None? {
      return Err;
    }
    if toMinor.value < fromMinor.value {
      return Err;
    }
    var hops := [];
    var m := fromMinor.value + 1;
    while m <= toMinor.value
      invariant fromMinor.value + 1 <= m <= toMinor.value + 1
      invariant IsHopChain(hops, fromMinor.value, m - 1)
    {
      hops := hops + [Release(m)];
      m := m + 1;
    }
    return Ok(hops);
  }

  /** The hops climb one minor at a time from just above `from` and end at `to`:
      no minor is skipped and none is repeated. */
  lemma HopsAreConsecutive(hops: seq<string>, from: int, to: int, i: nat)
    requires IsHopChain(hops, from, to) && FitsInt64(from) && FitsInt64(to)
    requires i < |hops|
    ensures MinorVersion(hops[i]) == Some(from + 1 + i)
    ensures i > 0 ==> Parses(hops[i - 1]) && Minor(hops[i]) == Minor(hops[i - 1]) + 1
    ensures i == |hops| - 1 ==> Minor(hops[i]) == to
  {
    hide Release, MinorVersion;
    ReleaseMinor(from + 1 + i);
    if i > 0 { ReleaseMinor(from + i); }
  }
}
