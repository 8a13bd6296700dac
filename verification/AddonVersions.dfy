/** Addon version strings such as "v1.18.1-eksbuild.3": their order and the
    newest-first catalogue (internal/services/addons/version_analyzer.go). */
module AddonVersions {
  import opened GoStrings

  predicate IsSeparator(c: char) { c == '.' || c == '-' || c == '+' }

  /** The segments of a version, without the leading "v". */
  function Segments(v: string): (segs: seq<string>)
    ensures forall i :: 0 <= i < |segs| ==> Word(segs[i], IsSeparator)
  {
    var t := TrimSpace(v);
    FieldsFunc(if t != [] && t[0] == 'v' then t[1..] else t, IsSeparator)
  }

  /** Numeric segments compare as numbers, beat text, and text compares lexically. */
  function CompareSegment(a: string, b: string): int {
    match (Atoi(a), Atoi(b))
    case (Some(x), Some(y)) => x - y
    case (Some(_), None) => 1
    case (None, Some(_)) => -1
    case (None, None) => LexCompare(a, b)
  }

  function CompareSegments(a: seq<string>, b: seq<string>): int {
    if a == [] || b == [] then |a| - |b|
    else
      var c := CompareSegment(a[0], b[0]);
      if c != 0 then c else CompareSegments(a[1..], b[1..])
  }

  /** The order the program uses: positive when a is newer than b. */
  function CompareVersions(a: string, b: string): int {
    CompareSegments(Segments(a), Segments(b))
  }

  lemma CompareFrom(s: seq<string>, t: seq<string>, i: nat)
    requires i < |s| && i < |t|
    ensures CompareSegments(s[i..], t[i..])
         == if CompareSegment(s[i], t[i]) != 0 then CompareSegment(s[i], t[i])
            else CompareSegments(s[i + 1..], t[i + 1..])
  {
    assert s[i..][1..] == s[i + 1..] && t[i..][1..] == t[i + 1..];
  }

  /** compareAddonVersions. */
  method CompareAddonVersions(a: string, b: string) returns (c: int)
    ensures c == CompareVersions(a, b)
  {
    hide Segments, FieldsFunc, Atoi, LexCompare;
    var s, t := Segments(a), Segments(b);
    var i := 0;
    while i < |s| && i < |t|
      invariant 0 <= i <= |s| && i <= |t|
      invariant CompareSegments(s, t) == CompareSegments(s[i..], t[i..])
    {
      CompareFrom(s, t, i);
      var x, y := Atoi(s[i]), Atoi(t[i]);
      if x.Some? && y.Some? {
        if x.value != y.value {
          return x.value - y.value;
        }
      } else if x.Some? {
        return 1;
      } else if y.Some? {
        return -1;
      } else {
        var d := LexCompare(s[i], t[i]);
        if d != 0 {
          return d;
        }
      }
      i := i + 1;
    }
    return |s| - |t|;
  }

  // ---- what the order means ----

  /** The first position where two versions differ decides. */
  lemma {:induction false} FirstDifferenceDecides(s: seq<string>, t: seq<string>, i: nat)
    requires i < |s| && i < |t| && s[..i] == t[..i] && CompareSegment(s[i], t[i]) != 0
    ensures CompareSegments(s, t) == CompareSegment(s[i], t[i])
  {
    hide CompareSegment;
    if i > 0 {
      assert s[..i][0] == s[0] && t[..i][0] == t[0];
      SameSegment(s[0]);
      assert s[1..][..i - 1] == s[..i][1..] && t[1..][..i - 1] == t[..i][1..];
      FirstDifferenceDecides(s[1..], t[1..], i - 1);
    }
  }

  lemma SameSegment(a: string)
    ensures CompareSegment(a, a) == 0
  {
    LexCompareFlip(a, a);
  }

  /** Where numbers differ first, the larger number is the newer version: 10 comes after 9. */
  lemma NumbersCompareAsNumbers(s: seq<string>, t: seq<string>, i: nat, m: int, n: int)
    requires i < |s| && i < |t| && s[..i] == t[..i] && FitsInt64(m) && FitsInt64(n)
    requires s[i] == Decimal(m) && t[i] == Decimal(n) && m != n
    ensures CompareSegments(s, t) == m - n
  {
    hide Decimal;
    AtoiDecimal(m);
    AtoiDecimal(n);
    FirstDifferenceDecides(s, t, i);
  }

  /** A number is newer than text, and of two texts the later in byte order is the newer. */
  lemma TextComparesAsText(s: seq<string>, t: seq<string>, i: nat)
    requires i < |s| && i < |t| && s[..i] == t[..i] && Atoi(t[i]).None?
    ensures Atoi(s[i]).Some? ==> CompareSegments(s, t) > 0
    ensures Atoi(s[i]).None? && s[i] != t[i] ==> CompareSegments(s, t) == LexCompare(s[i], t[i]) != 0
  {
    LexCompareFlip(s[i], t[i]);
    if Atoi(s[i]).Some? || s[i] != t[i] { FirstDifferenceDecides(s, t, i); }
  }

  /** A version that goes on is newer than one that stops. */
  lemma {:induction false} LongerIsNewer(s: seq<string>, t: seq<string>)
    requires |s| < |t| && t[..|s|] == s
    ensures CompareSegments(t, s) > 0 > CompareSegments(s, t)
  {
    hide CompareSegment;
    if s != [] {
      assert t[..|s|][0] == t[0];
      SameSegment(s[0]);
      assert t[1..][..|s| - 1] == t[..|s|][1..] && s[1..] == t[..|s|][1..];
      LongerIsNewer(s[1..], t[1..]);
    }
  }

  /** A version as EKS writes them, with what follows the third number. */
  function EksVersion(x: nat, y: nat, z: nat, suffix: string): string {
    "v" + (Decimal(x) + ("." + (Decimal(y) + ("." + (Decimal(z) + suffix)))))
  }

  /** Nothing, or a separator and more, without a space at the end. */
  predicate IsSuffix(s: string) { s == [] || (s[0] in {'.', '-', '+'} && !IsSpace(s[|s| - 1])) }

  /** Nothing else separates: a suffix of one separator and a word is one more segment. */
  lemma SuffixSegment(c: char, word: string)
    requires c in {'.', '-', '+'} && word != "" && forall i :: 0 <= i < |word| ==> word[i] !in {'.', '-', '+'}
    ensures FieldsFunc([c] + word, IsSeparator) == [word]
  {
    FieldsAfter(c, word, IsSeparator);
    FieldsOfWord(word, "", IsSeparator);
    assert word + "" == word;
  }

  lemma DecimalIsWord(n: nat)
    ensures Word(Decimal(n), IsSeparator) && !IsSpace(Decimal(n)[|Decimal(n)| - 1])
  {
    var d := Decimal(n);
    assert AllDigits(d);
  }

  lemma EksSegments(x: nat, y: nat, z: nat, suffix: string)
    requires IsSuffix(suffix)
    ensures Segments(EksVersion(x, y, z, suffix))
         == [Decimal(x), Decimal(y), Decimal(z)] + FieldsFunc(suffix, IsSeparator)
  {
    hide Decimal, FieldsFunc;
    var afterY := Decimal(z) + suffix;
    var afterX := Decimal(y) + ("." + afterY);
    var body := Decimal(x) + ("." + afterX);
    DecimalIsWord(x);
    DecimalIsWord(y);
    DecimalIsWord(z);
    var v := "v" + body;
    assert v[|v| - 1] == if suffix == [] then Decimal(z)[|Decimal(z)| - 1] else suffix[|suffix| - 1];
    TrimSpaceIdle(v);
    assert v[1..] == body;
    FieldsOfWord(Decimal(x), "." + afterX, IsSeparator);
    FieldsAfter('.', afterX, IsSeparator);
    FieldsOfWord(Decimal(y), "." + afterY, IsSeparator);
    FieldsAfter('.', afterY, IsSeparator);
    FieldsOfWord(Decimal(z), suffix, IsSeparator);
  }

  /** On versions as EKS writes them the order is that of the three numbers, the first that differs
      deciding; versions with the same numbers compare as what follows them. */
  lemma EksVersionsCompare(x: nat, y: nat, z: nat, suffix: string, x2: nat, y2: nat, z2: nat, suffix2: string)
    requires IsSuffix(suffix) && IsSuffix(suffix2)
    requires FitsInt64(x) && FitsInt64(y) && FitsInt64(z) && FitsInt64(x2) && FitsInt64(y2) && FitsInt64(z2)
    ensures CompareVersions(EksVersion(x, y, z, suffix), EksVersion(x2, y2, z2, suffix2)) ==
      if x != x2 then x - x2 else if y != y2 then y - y2 else if z != z2 then z - z2
      else CompareSegments(FieldsFunc(suffix, IsSeparator), FieldsFunc(suffix2, IsSeparator))
  {
    hide Decimal, FieldsFunc, Segments, CompareSegments;
    EksSegments(x, y, z, suffix);
    EksSegments(x2, y2, z2, suffix2);
    var s := [Decimal(x), Decimal(y), Decimal(z)] + FieldsFunc(suffix, IsSeparator);
    var t := [Decimal(x2), Decimal(y2), Decimal(z2)] + FieldsFunc(suffix2, IsSeparator);
    if x != x2 {
      NumbersCompareAsNumbers(s, t, 0, x, x2);
    } else if y != y2 {
      assert s[..1] == [Decimal(x)] == t[..1];
      NumbersCompareAsNumbers(s, t, 1, y, y2);
    } else if z != z2 {
      assert s[..2] == [Decimal(x), Decimal(y)] == t[..2];
      NumbersCompareAsNumbers(s, t, 2, z, z2);
    } else {
      SameStart(s[..3], FieldsFunc(suffix, IsSeparator), FieldsFunc(suffix2, IsSeparator));
      assert s == s[..3] + FieldsFunc(suffix, IsSeparator) && t == s[..3] + FieldsFunc(suffix2, IsSeparator);
    }
  }

  lemma {:induction false} SameStart(start: seq<string>, s: seq<string>, t: seq<string>)
    ensures CompareSegments(start + s, start + t) == CompareSegments(s, t)
  {
    hide CompareSegment;
    if start == [] {
      assert start + s == s && start + t == t;
    } else {
      SameSegment(start[0]);
      assert (start + s)[1..] == start[1..] + s && (start + t)[1..] == start[1..] + t;
      SameStart(start[1..], s, t);
    }
  }

  /** Builds of one version: the larger build number is newer, and any build is newer than none. */
  lemma BuildsCompare(x: nat, y: nat, z: nat, m: nat, n: nat)
    requires FitsInt64(x) && FitsInt64(y) && FitsInt64(z) && FitsInt64(m) && FitsInt64(n)
    ensures CompareVersions(EksVersion(x, y, z, Build(m)), EksVersion(x, y, z, Build(n))) == m - n
    ensures CompareVersions(EksVersion(x, y, z, Build(m)), EksVersion(x, y, z, "")) > 0
  {
    hide CompareSegments, CompareVersions, FieldsFunc, EksVersion, Decimal, Build;
    BuildSegments(m);
    BuildSegments(n);
    EksVersionsCompare(x, y, z, Build(m), x, y, z, Build(n));
    EksVersionsCompare(x, y, z, Build(m), x, y, z, "");
    var s, t := ["eksbuild", Decimal(m)], ["eksbuild", Decimal(n)];
    assert s[..1] == t[..1];
    if m != n { NumbersCompareAsNumbers(s, t, 1, m, n); } else { SameStart(s, [], []); NoSegments(s); }
    NoSegments(s);
    LongerIsNewer([], s);
  }

  lemma NoSegments(s: seq<string>)
    ensures CompareSegments([], []) == 0 && FieldsFunc("", IsSeparator) == [] && s + [] == s && s[..0] == []
  {}

  function Build(n: nat): string { "-" + ("eksbuild" + ("." + Decimal(n))) }

  lemma BuildSegments(n: nat)
    ensures IsSuffix(Build(n)) && FieldsFunc(Build(n), IsSeparator) == ["eksbuild", Decimal(n)]
  {
    hide Decimal, FieldsFunc;
    DecimalIsWord(n);
    FieldsAfter('-', "eksbuild" + ("." + Decimal(n)), IsSeparator);
    FieldsOfWord("eksbuild", "." + Decimal(n), IsSeparator);
    FieldsAfter('.', Decimal(n), IsSeparator);
    FieldsOfWord(Decimal(n), "", IsSeparator);
    assert Decimal(n) + "" == Decimal(n);
    NoSegments([]);
  }

  // ---- no overflow ----

  /** Segments hold no sign character, so a numeric one is never negative. */
  lemma NumericSegmentsAreNatural(s: string)
    requires Word(s, IsSeparator) && Atoi(s).Some?
    ensures 0 <= Atoi(s).value <= MAX_INT64
  {
    assert !IsSeparator(s[0]);
  }

  /** The subtraction in the comparator stays within 64 bits for every pair of versions. */
  lemma DifferenceNeverOverflows(a: string, b: string, i: nat, j: nat)
    requires i < |Segments(a)| && j < |Segments(b)|
    ensures FitsInt64(CompareSegment(Segments(a)[i], Segments(b)[j]))
  {
    var s, t := Segments(a)[i], Segments(b)[j];
    if Atoi(s).Some? { NumericSegmentsAreNatural(s); }
    if Atoi(t).Some? { NumericSegmentsAreNatural(t); }
  }

  // ---- a total preorder ----

  function Sign(n: int): int { if n > 0 then 1 else if n < 0 then -1 else 0 }

  lemma CompareSegmentFlip(a: string, b: string)
    ensures Sign(CompareSegment(b, a)) == -Sign(CompareSegment(a, b))
  {
    LexCompareFlip(a, b);
  }

  lemma CompareSegmentTransitive(a: string, b: string, c: string)
    requires CompareSegment(a, b) >= 0 && CompareSegment(b, c) >= 0
    ensures CompareSegment(a, c) >= 0
    ensures CompareSegment(a, c) == 0 ==> CompareSegment(a, b) == 0 && CompareSegment(b, c) == 0
  {
    if Atoi(a).None? && Atoi(b).None? && Atoi(c).None? {
      LexCompareTransitive(a, b, c);
      LexCompareFlip(a, b);
      LexCompareFlip(b, c);
      LexCompareFlip(a, c);
      if a == c { LexCompareFlip(b, a); }
    }
  }

  lemma {:induction false} CompareSegmentsFlip(a: seq<string>, b: seq<string>)
    ensures Sign(CompareSegments(b, a)) == -Sign(CompareSegments(a, b))
  {
    if a != [] && b != [] {
      CompareSegmentFlip(a[0], b[0]);
      CompareSegmentsFlip(a[1..], b[1..]);
    }
  }

  lemma {:induction false} CompareSegmentsTransitive(a: seq<string>, b: seq<string>, c: seq<string>)
    requires CompareSegments(a, b) >= 0 && CompareSegments(b, c) >= 0
    ensures CompareSegments(a, c) >= 0
  {
    if a != [] && b != [] && c != [] {
      CompareSegmentTransitive(a[0], b[0], c[0]);
      if CompareSegment(a[0], c[0]) == 0 {
        CompareSegmentsTransitive(a[1..], b[1..], c[1..]);
      }
    }
  }

  /** Swapping the operands flips the sign: the comparator is total and antisymmetric in sign. */
  lemma CompareFlip(a: string, b: string)
    ensures Sign(CompareVersions(b, a)) == -Sign(CompareVersions(a, b))
    ensures CompareVersions(a, b) >= 0 || CompareVersions(b, a) >= 0
    ensures CompareVersions(a, a) == 0
  {
    CompareSegmentsFlip(Segments(a), Segments(b));
    CompareSegmentsFlip(Segments(a), Segments(a));
  }

  /** "At least as new as" is transitive, strictly so when either step is strict. */
  lemma CompareTransitive(a: string, b: string, c: string)
    requires CompareVersions(a, b) >= 0 && CompareVersions(b, c) >= 0
    ensures CompareVersions(a, c) >= 0
    ensures CompareVersions(a, b) > 0 || CompareVersions(b, c) > 0 ==> CompareVersions(a, c) > 0
  {
    CompareSegmentsTransitive(Segments(a), Segments(b), Segments(c));
    CompareFlip(a, b);
    CompareFlip(b, c);
    CompareFlip(a, c);
    if CompareVersions(c, a) >= 0 {
      CompareSegmentsTransitive(Segments(b), Segments(c), Segments(a));
      CompareSegmentsTransitive(Segments(c), Segments(a), Segments(b));
    }
  }

  // ---- newest first ----

  datatype AddonVersionInfo = AddonVersionInfo(version: string, compatibilities: seq<string>)

  /** Insertion before the first strictly older entry keeps equal entries in order. */
  function Insert(v: AddonVersionInfo, sorted: seq<AddonVersionInfo>): seq<AddonVersionInfo> {
    if sorted == [] || CompareVersions(v.version, sorted[0].version) > 0 then [v] + sorted
    else [sorted[0]] + Insert(v, sorted[1..])
  }

  /** sort.SliceStable with the newest-first comparator. */
  function StableSort(versions: seq<AddonVersionInfo>): seq<AddonVersionInfo> {
    if versions == [] then []
    else Insert(versions[|versions| - 1], StableSort(versions[..|versions| - 1]))
  }

  ghost predicate NewestFirst(vs: seq<AddonVersionInfo>) {
    forall i, j :: 0 <= i <= j < |vs| ==> CompareVersions(vs[i].version, vs[j].version) >= 0
  }

  /** The entries that compare equal to v, in sequence order. */
  ghost function EqualTo(vs: seq<AddonVersionInfo>, v: string): seq<AddonVersionInfo> {
    if vs == [] then []
    else (if CompareVersions(vs[0].version, v) == 0 then [vs[0]] else []) + EqualTo(vs[1..], v)
  }

  lemma {:induction false} InsertKeepsOrder(v: AddonVersionInfo, vs: seq<AddonVersionInfo>)
    requires NewestFirst(vs)
    ensures NewestFirst(Insert(v, vs))
  {
    hide CompareVersions;
    CompareFlip(v.version, v.version);
    if vs == [] {
    } else if CompareVersions(v.version, vs[0].version) > 0 {
      forall j | 0 <= j < |vs| ensures CompareVersions(v.version, vs[j].version) >= 0 {
        CompareTransitive(v.version, vs[0].version, vs[j].version);
      }
      Prepend(v, vs);
    } else {
      var rest := Insert(v, vs[1..]);
      InsertKeepsOrder(v, vs[1..]);
      CompareFlip(v.version, vs[0].version);
      forall j | 0 <= j < |rest| ensures CompareVersions(vs[0].version, rest[j].version) >= 0 {
        InsertPermutes(v, vs[1..]);
        assert rest[j] in multiset(rest);
      }
      Prepend(vs[0], rest);
    }
  }

  lemma Prepend(v: AddonVersionInfo, vs: seq<AddonVersionInfo>)
    requires NewestFirst(vs)
    requires forall j :: 0 <= j < |vs| ==> CompareVersions(v.version, vs[j].version) >= 0
    ensures NewestFirst([v] + vs)
  {
    CompareFlip(v.version, v.version);
  }

  lemma {:induction false} InsertPermutes(v: AddonVersionInfo, vs: seq<AddonVersionInfo>)
    ensures multiset(Insert(v, vs)) == multiset(vs) + multiset{v}
  {
    if vs != [] {
      assert vs == [vs[0]] + vs[1..];
      InsertPermutes(v, vs[1..]);
    }
  }

  lemma {:induction false} InsertIsStable(v: AddonVersionInfo, vs: seq<AddonVersionInfo>, w: string)
    requires NewestFirst(vs)
    ensures EqualTo(Insert(v, vs), w) == EqualTo(vs, w) + EqualTo([v], w)
  {
    hide Segments, CompareVersions;
    if vs == [] {
    } else if CompareVersions(v.version, vs[0].version) > 0 {
      assert Insert(v, vs)[1..] == vs;
      if CompareVersions(v.version, w) == 0 { OlderThanAll(v.version, vs, w); }
    } else {
      InsertIsStable(v, vs[1..], w);
      assert Insert(v, vs)[1..] == Insert(v, vs[1..]);
    }
  }

  /** Nothing in a newest-first list headed by something older than v equals v. */
  lemma {:induction false} OlderThanAll(v: string, vs: seq<AddonVersionInfo>, w: string)
    requires NewestFirst(vs) && CompareVersions(v, w) == 0
    requires vs != [] ==> CompareVersions(v, vs[0].version) > 0
    ensures EqualTo(vs, w) == []
  {
    if vs != [] {
      if CompareVersions(vs[0].version, w) == 0 {
        CompareFlip(v, w);
        CompareFlip(vs[0].version, w);
        CompareTransitive(w, v, vs[0].version);
      }
      if |vs| > 1 { CompareTransitive(v, vs[0].version, vs[1].version); }
      OlderThanAll(v, vs[1..], w);
    }
  }

  lemma {:induction false} EqualToAppend(a: seq<AddonVersionInfo>, b: seq<AddonVersionInfo>, w: string)
    ensures EqualTo(a + b, w) == EqualTo(a, w) + EqualTo(b, w)
  {
    hide CompareVersions;
    if a == [] {
      assert a + b == b;
    } else {
      assert (a + b)[1..] == a[1..] + b;
      EqualToAppend(a[1..], b, w);
    }
  }

  /** Sorting permutes the catalogue, orders it newest first and keeps entries that
      compare equal in their listing order. */
  lemma {:induction false} StableSortSorts(vs: seq<AddonVersionInfo>)
    ensures NewestFirst(StableSort(vs))
    ensures multiset(StableSort(vs)) == multiset(vs)
    ensures forall w :: EqualTo(StableSort(vs), w) == EqualTo(vs, w)
  {
    hide CompareVersions;
    if vs != [] {
      var init, last := vs[..|vs| - 1], vs[|vs| - 1];
      StableSortSorts(init);
      InsertKeepsOrder(last, StableSort(init));
      InsertPermutes(last, StableSort(init));
      assert vs == init + [last];
      forall w ensures EqualTo(StableSort(vs), w) == EqualTo(vs, w) {
        InsertIsStable(last, StableSort(init), w);
        EqualToAppend(init, [last], w);
      }
    }
  }

  /** The first entry of a catalogue in the order callers see it. */
  function Newest(versions: seq<AddonVersionInfo>): string
    requires versions != []
  {
    StableSortSorts(versions);
    assert |StableSort(versions)| == |versions| by {
      assert |multiset(StableSort(versions))| == |multiset(versions)|;
    }
    StableSort(versions)[0].version
  }

  /** The head of the sorted catalogue is a catalogue entry no other entry is newer than,
      and among equally new entries it is the one listed first. */
  lemma NewestIsNewest(versions: seq<AddonVersionInfo>, v: AddonVersionInfo)
    requires v in versions
    ensures exists u :: u in versions && u.version == Newest(versions)
    ensures CompareVersions(Newest(versions), v.version) >= 0
    ensures EqualTo(versions, Newest(versions)) != []
         && EqualTo(versions, Newest(versions))[0].version == Newest(versions)
  {
    var s := StableSort(versions);
    StableSortSorts(versions);
    assert v in multiset(s);
    assert s[0] in multiset(s);
    assert s[0] in versions;
    var j :| 0 <= j < |s| && s[j] == v;
    CompareFlip(s[0].version, s[0].version);
    assert EqualTo(s, s[0].version)[0] == s[0];
  }

  datatype AddonInfo = AddonInfo(versions: seq<AddonVersionInfo>)

  function Flatten(infos: seq<AddonInfo>): seq<AddonVersionInfo> {
    if infos == [] then [] else Flatten(infos[..|infos| - 1]) + infos[|infos| - 1].versions
  }

  /** Every version of every page counts. */
  lemma {:induction false} FlattenIff(infos: seq<AddonInfo>, v: AddonVersionInfo)
    ensures v in Flatten(infos) <==> exists i :: 0 <= i < |infos| && v in infos[i].versions
  {
    if infos != [] {
      var init, last := infos[..|infos| - 1], infos[|infos| - 1];
      FlattenIff(init, v);
      if i :| 0 <= i < |init| && v in init[i].versions { assert v in infos[i].versions; }
      if v in last.versions { assert v in infos[|infos| - 1].versions; }
      if i :| 0 <= i < |infos| && v in infos[i].versions { assert i < |init| ==> v in init[i].versions; }
    }
  }

  lemma {:induction false} FlattenEmptyIff(infos: seq<AddonInfo>)
    ensures Flatten(infos) == [] <==> forall i :: 0 <= i < |infos| ==> infos[i].versions == []
  {
    if infos != [] {
      var init := infos[..|infos| - 1];
      FlattenEmptyIff(init);
      assert forall i :: 0 <= i < |init| ==> init[i] == infos[i];
    }
  }

  lemma SortedHolds(versions: seq<AddonVersionInfo>)
    ensures |StableSort(versions)| == |versions|
    ensures forall v :: v in StableSort(versions) <==> v in versions
    ensures NewestFirst(StableSort(versions))
  {
    hide CompareVersions, StableSort, EqualTo;
    var sorted := StableSort(versions);
    StableSortSorts(versions);
    assert |multiset(sorted)| == |multiset(versions)|;
    assert forall v :: (v in sorted <==> v in multiset(sorted)) && (v in versions <==> v in multiset(versions));
  }

  /** GetAvailableVersions on the fetched pages: flattened, then sorted newest first. */
  method GetAvailableVersions(infos: seq<AddonInfo>) returns (r: Result<seq<AddonVersionInfo>>)
    ensures r.Err? <==> Flatten(infos) == []
    ensures r.Ok? ==> r.value == StableSort(Flatten(infos))
    ensures r.Ok? ==> r.value != [] && r.value[0].version == Newest(Flatten(infos))
    ensures r.Err? <==> forall i :: 0 <= i < |infos| ==> infos[i].versions == []
    ensures r.Ok? ==> forall v :: v in r.value <==> exists i :: 0 <= i < |infos| && v in infos[i].versions
    ensures r.Ok? ==> forall j :: 0 <= j < |r.value| ==> CompareVersions(r.value[0].version, r.value[j].version) >= 0
  {
    hide CompareVersions, StableSort;
    SortedHolds(Flatten(infos));
    FlattenEmptyIff(infos);
    forall v ensures v in Flatten(infos) <==> exists i :: 0 <= i < |infos| && v in infos[i].versions {
      FlattenIff(infos, v);
    }
    var versions := [];
    for i := 0 to |infos|
      invariant versions == Flatten(infos[..i])
    {
      assert infos[..i + 1][..i] == infos[..i];
      versions := versions + infos[i].versions;
    }
    assert infos[..|infos|] == infos;
    if versions == [] {
      return Err;
    }
    var newest := Newest(versions);
    return Ok(StableSort(versions));
  }
}
