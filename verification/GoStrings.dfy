/** The parts of Go's standard library that the program's algorithms lean on:
    string trimming and splitting, integer parsing and printing, ordering.
    A string is a sequence of Unicode scalar values. */
module GoStrings {

  datatype Option<+T> = None | Some(value: T)

  datatype Result<+T> = Ok(value: T) | Err

  const MAX_INT64: int := 0x7fff_ffff_ffff_ffff
  const MIN_INT64: int := -0x8000_0000_0000_0000

  predicate FitsInt64(n: int) { MIN_INT64 <= n <= MAX_INT64 }

  // ---- white space ----

  /** unicode.IsSpace. */
  predicate IsSpace(c: char) {
    || '\t' <= c <= '\r' || c == ' ' || c == '\U{85}' || c == '\U{A0}'
    || c == '\U{1680}' || '\U{2000}' <= c <= '\U{200A}' || c == '\U{2028}' || c == '\U{2029}'
    || c == '\U{202F}' || c == '\U{205F}' || c == '\U{3000}'
  }

  function TrimLeft(s: string): string {
    if s != [] && IsSpace(s[0]) then TrimLeft(s[1..]) else s
  }

  function TrimRight(s: string): string {
    if s != [] && IsSpace(s[|s| - 1]) then TrimRight(s[..|s| - 1]) else s
  }

  function TrimSpace(s: string): string { TrimRight(TrimLeft(s)) }

  lemma TrimSpaceIdle(s: string)
    requires s != [] && !IsSpace(s[0]) && !IsSpace(s[|s| - 1])
    ensures TrimSpace(s) == s
  {}

  predicate AllSpace(s: string) { forall i :: 0 <= i < |s| ==> IsSpace(s[i]) }

  /** White space at both ends goes, and nothing else. */
  lemma TrimSpaceIs(s: string)
    ensures exists u, v :: AllSpace(u) && AllSpace(v) && s == u + TrimSpace(s) + v
    ensures TrimSpace(s) != "" ==>
      !IsSpace(TrimSpace(s)[0]) && !IsSpace(TrimSpace(s)[|TrimSpace(s)| - 1])
  {
    TrimLeftIs(s);
    TrimRightIs(TrimLeft(s));
    var u, v := s[..|s| - |TrimLeft(s)|], TrimLeft(s)[|TrimSpace(s)|..];
    assert s == u + TrimSpace(s) + v;
  }

  lemma {:induction false} TrimLeftIs(s: string)
    ensures |TrimLeft(s)| <= |s| && s[|s| - |TrimLeft(s)|..] == TrimLeft(s)
    ensures AllSpace(s[..|s| - |TrimLeft(s)|]) && (TrimLeft(s) != "" ==> !IsSpace(TrimLeft(s)[0]))
  {
    if s != [] && IsSpace(s[0]) {
      TrimLeftIs(s[1..]);
      var n := |s| - |TrimLeft(s)|;
      assert s[..n] == [s[0]] + s[1..][..n - 1];
    }
  }

  lemma {:induction false} TrimRightIs(s: string)
    ensures |TrimRight(s)| <= |s| && s[..|TrimRight(s)|] == TrimRight(s)
    ensures AllSpace(s[|TrimRight(s)|..]) && (TrimRight(s) != "" ==> !IsSpace(TrimRight(s)[|TrimRight(s)| - 1]))
  {
    if s != [] && IsSpace(s[|s| - 1]) {
      var init := s[..|s| - 1];
      TrimRightIs(init);
      assert s[|TrimRight(s)|..] == init[|TrimRight(s)|..] + [s[|s| - 1]];
    }
  }

  // ---- splitting ----

  /** The length of the longest prefix of s without a separator. */
  function RunLength(s: string, sep: char -> bool): (n: nat)
    ensures n <= |s|
    ensures forall i :: 0 <= i < n ==> !sep(s[i])
    ensures n < |s| ==> sep(s[n])
  {
    if s == [] || sep(s[0]) then 0 else 1 + RunLength(s[1..], sep)
  }

  /** strings.FieldsFunc: the maximal runs of non-separators. */
  function FieldsFunc(s: string, sep: char -> bool): (fs: seq<string>)
    ensures forall i :: 0 <= i < |fs| ==> Word(fs[i], sep)
    decreases |s|
  {
    if s == [] then []
    else if sep(s[0]) then FieldsFunc(s[1..], sep)
    else var n := RunLength(s, sep); [s[..n]] + FieldsFunc(s[n..], sep)
  }

  predicate Word(w: string, sep: char -> bool) {
    w != [] && forall i :: 0 <= i < |w| ==> !sep(w[i])
  }

  lemma {:induction false} RunOfWord(w: string, rest: string, sep: char -> bool)
    requires forall i :: 0 <= i < |w| ==> !sep(w[i])
    requires rest == [] || sep(rest[0])
    ensures RunLength(w + rest, sep) == |w|
  {
    if w == [] {
      assert w + rest == rest;
    } else {
      assert (w + rest)[1..] == w[1..] + rest;
      RunOfWord(w[1..], rest, sep);
    }
  }

  /** A word before a separator is a field of its own. */
  lemma FieldsOfWord(w: string, rest: string, sep: char -> bool)
    requires Word(w, sep) && (rest == [] || sep(rest[0]))
    ensures FieldsFunc(w + rest, sep) == [w] + FieldsFunc(rest, sep)
  {
    RunOfWord(w, rest, sep);
    assert (w + rest)[..|w|] == w && (w + rest)[|w|..] == rest;
  }

  lemma FieldsAfter(c: char, rest: string, sep: char -> bool)
    requires sep(c)
    ensures FieldsFunc([c] + rest, sep) == FieldsFunc(rest, sep)
  {
    assert ([c] + rest)[1..] == rest;
  }

  /** A separator splits, wherever it stands. */
  lemma {:induction false} FieldsSplit(u: string, c: char, v: string, sep: char -> bool)
    requires sep(c)
    ensures FieldsFunc(u + [c] + v, sep) == FieldsFunc(u, sep) + FieldsFunc(v, sep)
    decreases |u|
  {
    hide FieldsFunc, RunLength;
    if u == [] {
      assert u + [c] + v == [c] + v;
      FieldsAfter(c, v, sep);
      NoFields(sep);
    } else if sep(u[0]) {
      assert u == [u[0]] + u[1..] && u + [c] + v == [u[0]] + (u[1..] + [c] + v);
      FieldsAfter(u[0], u[1..], sep);
      FieldsAfter(u[0], u[1..] + [c] + v, sep);
      FieldsSplit(u[1..], c, v, sep);
    } else {
      var n := RunLength(u, sep);
      RunStarts(u, sep);
      var word, rest := u[..n], u[n..];
      assert u == word + rest && u + [c] + v == word + (rest + [c] + v);
      assert n < |u| ==> rest[0] == u[n] && (rest + [c] + v)[0] == u[n];
      FieldsOfWord(word, rest, sep);
      FieldsOfWord(word, rest + [c] + v, sep);
      FieldsSplit(rest, c, v, sep);
    }
  }

  lemma NoFields(sep: char -> bool)
    ensures FieldsFunc([], sep) == []
  {}

  lemma RunStarts(s: string, sep: char -> bool)
    requires s != [] && !sep(s[0])
    ensures RunLength(s, sep) > 0
  {}

  /** strings.Contains. */
  predicate Contains(s: string, p: string) {
    exists i :: 0 <= i <= |s| && OccursAt(s, p, i)
  }

  predicate OccursAt(s: string, p: string, i: nat) {
    i + |p| <= |s| && s[i..i + |p|] == p
  }

  lemma ContainsIff(s: string, p: string)
    ensures Contains(s, p) <==> exists u, v :: s == u + p + v
  {
    if i :| 0 <= i <= |s| && OccursAt(s, p, i) { assert s == s[..i] + p + s[i + |p|..]; }
    if u, v :| s == u + p + v { assert OccursAt(s, p, |u|); }
  }

  // ---- decimal integers ----

  predicate IsDigit(c: char) { '0' <= c <= '9' }

  function DigitValue(c: char): (d: nat)
    requires IsDigit(c)
    ensures d < 10
  { c as int - '0' as int }

  predicate AllDigits(s: string) { forall i :: 0 <= i < |s| ==> IsDigit(s[i]) }

  function ParseNat(s: string): nat
    requires AllDigits(s)
  {
    if s == [] then 0 else ParseNat(s[..|s| - 1]) * 10 + DigitValue(s[|s| - 1])
  }

  /** strconv.Atoi: an optional sign and at least one digit, within 64 bits. */
  function Atoi(s: string): (r: Option<int>)
    ensures r.Some? ==> FitsInt64(r.value)
  {
    var signed := s != [] && (s[0] == '-' || s[0] == '+');
    var digits := if signed then s[1..] else s;
    if digits == [] || !AllDigits(digits) then None
    else
      var n: int := if signed && s[0] == '-' then -(ParseNat(digits) as int) else ParseNat(digits);
      if FitsInt64(n) then Some(n) else None
  }

  function Digits(n: nat): (s: string)
    ensures s != [] && AllDigits(s)
  {
    if n < 10 then ['0' + n as char] else Digits(n / 10) + ['0' + (n % 10) as char]
  }

  /** The %d verb. */
  function Decimal(n: int): string {
    if n < 0 then "-" + Digits(-n) else Digits(n)
  }

  lemma {:induction false} ParseDigits(n: nat)
    ensures ParseNat(Digits(n)) == n
  {
    if n < 10 {
      assert Digits(n)[..0] == [];
    } else {
      ParseDigits(n / 10);
      assert Digits(n)[..|Digits(n)| - 1] == Digits(n / 10);
    }
  }

  /** Printing and parsing are inverse on every 64-bit integer. */
  lemma AtoiDecimal(n: int)
    requires FitsInt64(n)
    ensures Atoi(Decimal(n)) == Some(n)
  {
    if n < 0 {
      ParseDigits(-n);
      assert Decimal(n)[1..] == Digits(-n);
    } else {
      ParseDigits(n);
      assert IsDigit(Decimal(n)[0]);
    }
  }

  /** A plus sign is read too, numbers past 64 bits are refused, and so is whatever is no digit. */
  lemma AtoiAccepts(n: nat)
    ensures Atoi("+" + Digits(n)) == Atoi(Digits(n)) == if n <= 9223372036854775807 then Some(n) else None
    ensures Atoi("-" + Digits(n)) == if n <= 9223372036854775808 then Some(-(n as int)) else None
  {
    hide ParseNat, Digits;
    ParseDigits(n);
    var plus, minus := "+" + Digits(n), "-" + Digits(n);
    assert plus[1..] == Digits(n) == minus[1..];
    assert IsDigit(Digits(n)[0]);
  }

  lemma AtoiRefuses(s: string, i: nat)
    requires s in {"", "+", "-"} || (i < |s| && !('0' <= s[i] <= '9') && (i == 0 ==> s[0] !in {'+', '-'}))
    ensures Atoi(s) == None
  {
    if 0 < i < |s| { assert s[1..][i - 1] == s[i]; }
  }

  lemma DecimalHasNoDot(n: int)
    ensures '.' !in Decimal(n)
    ensures |Decimal(n)| > 0 && IsDigit(Decimal(n)[|Decimal(n)| - 1])
  {
    var d := Digits(if n < 0 then -n else n);
    assert forall c :: c in d ==> IsDigit(c);
  }

  // ---- ordering ----

  /** strings.Compare: byte order of valid UTF-8, which is scalar-value order. */
  function LexCompare(a: string, b: string): (c: int)
    ensures -1 <= c <= 1
  {
    if a == [] then (if b == [] then 0 else -1)
    else if b == [] then 1
    else if a[0] < b[0] then -1
    else if a[0] > b[0] then 1
    else LexCompare(a[1..], b[1..])
  }

  lemma {:induction false} LexCompareFlip(a: string, b: string)
    ensures LexCompare(b, a) == -LexCompare(a, b)
    ensures LexCompare(a, b) == 0 <==> a == b
  {
    if a != [] && b != [] {
      LexCompareFlip(a[1..], b[1..]);
      assert a == [a[0]] + a[1..] && b == [b[0]] + b[1..];
    }
  }

  /** The first difference decides, and a proper prefix comes first. */
  lemma {:induction false} LexCompareIs(a: string, b: string, i: nat)
    requires i <= |a| && i <= |b| && a[..i] == b[..i]
    ensures i == |a| < |b| ==> LexCompare(a, b) == -1
    ensures i < |a| && i < |b| && a[i] < b[i] ==> LexCompare(a, b) == -1
  {
    if i > 0 {
      assert a[..i][0] == a[0] && b[..i][0] == b[0];
      assert a[1..][..i - 1] == a[..i][1..] && b[1..][..i - 1] == b[..i][1..];
      LexCompareIs(a[1..], b[1..], i - 1);
    }
  }

  lemma {:induction false} LexCompareTransitive(a: string, b: string, c: string)
    requires LexCompare(a, b) >= 0 && LexCompare(b, c) >= 0
    ensures LexCompare(a, c) >= 0
  {
    if a != [] && b != [] && c != [] && a[0] == b[0] == c[0] {
      LexCompareTransitive(a[1..], b[1..], c[1..]);
    }
  }
}
