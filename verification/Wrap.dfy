/** Greedy word wrap (internal/commands/clusterview/insights_render.go). */
module Wrap {
  import opened GoStrings

  /** len of the UTF-8 encoding. */
  function ByteLen(s: string): nat {
    if s == [] then 0 else ByteLen(s[..|s| - 1]) + RuneLen(s[|s| - 1])
  }

  function RuneLen(c: char): (n: nat)
    ensures 1 <= n <= 4
  {
    if c < '\U{80}' then 1 else if c < '\U{800}' then 2 else if c < '\U{10000}' then 3 else 4
  }

  lemma {:induction false} ByteLenAppend(a: string, b: string)
    ensures ByteLen(a + b) == ByteLen(a) + ByteLen(b)
  {
    if b == [] {
      assert a + b == a;
    } else {
      assert (a + b)[..|a + b| - 1] == a + b[..|b| - 1];
      ByteLenAppend(a, b[..|b| - 1]);
    }
  }

  /** One byte for ASCII, two, three or four beyond. */
  lemma {:induction false} BytesOfRunes(s: string)
    ensures |s| <= ByteLen(s) <= 4 * |s|
    ensures ByteLen(s) == |s| <==> forall i :: 0 <= i < |s| ==> s[i] < '\U{80}'
    ensures ByteLen("\U{E9}") == 2 && ByteLen("\U{20AC}") == 3 && ByteLen("\U{1F600}") == 4
  {
    assert "\U{E9}"[..0] == "" && "\U{20AC}"[..0] == "" && "\U{1F600}"[..0] == "";
    if s != [] {
      var init := s[..|s| - 1];
      BytesOfRunes(init);
      assert s == init + [s[|s| - 1]];
    }
  }

  // ---- words and lines ----

  const Space: char -> bool := c => IsSpace(c)

  function Words(s: string): seq<string> { FieldsFunc(s, Space) }

  /** White space splits words, whichever it is. */
  lemma WordsSplit(u: string, c: char, v: string)
    requires c in {' ', '\t', '\n', '\U{b}', '\U{c}', '\r', '\U{85}', '\U{a0}', '\U{2003}', '\U{3000}'}
    ensures Words(u + [c] + v) == Words(u) + Words(v)
  {
    FieldsSplit(u, c, v, Space);
  }

  /** Nothing else does: what is printed without white space is one word. */
  lemma OneWord(s: string)
    requires s != "" && forall i :: 0 <= i < |s| ==> '!' <= s[i] <= '~' || s[i] > '\U{3000}'
    ensures Words(s) == [s]
  {
    assert s + [] == s;
    FieldsOfWord(s, [], Space);
  }

  lemma WordsAreWords(s: string)
    ensures AllWords(Words(s))
  {}

  predicate AllWords(ws: seq<string>) { forall i :: 0 <= i < |ws| ==> Word(ws[i], Space) }

  function Line(ws: seq<string>): string {
    if ws == [] then [] else if |ws| == 1 then ws[0]
    else Line(ws[..|ws| - 1]) + " " + ws[|ws| - 1]
  }

  lemma {:induction false} LineCons(ws: seq<string>)
    requires |ws| > 1
    ensures Line(ws) == ws[0] + " " + Line(ws[1..])
  {
    if |ws| == 2 {
      assert ws[..1] == [ws[0]] && ws[1..] == [ws[1]];
    } else {
      LineCons(ws[..|ws| - 1]);
      assert ws[..|ws| - 1][1..] == ws[1..][..|ws| - 2];
    }
  }

  /** A line is made of exactly its words. */
  lemma {:induction false} WordsOfLine(ws: seq<string>)
    requires AllWords(ws)
    ensures Words(Line(ws)) == ws
  {
    if |ws| == 1 {
      FieldsOfWord(ws[0], [], Space);
      assert ws[0] + [] == ws[0];
    } else if |ws| > 1 {
      var rest := " " + Line(ws[1..]);
      LineCons(ws);
      assert Line(ws) == ws[0] + rest;
      FieldsOfWord(ws[0], rest, Space);
      assert rest[1..] == Line(ws[1..]);
      WordsOfLine(ws[1..]);
    }
  }

  // ---- splits into lines ----

  /** The bytes of the first k words, each with a space. */
  function Total(ws: seq<string>, k: nat): nat
    requires k <= |ws|
  {
    if k == 0 then 0 else Total(ws, k - 1) + ByteLen(ws[k - 1]) + 1
  }

  lemma {:induction false} LineLen(ws: seq<string>, a: nat, b: nat)
    requires a < b <= |ws|
    ensures ByteLen(Line(ws[a..b])) == Total(ws, b) - Total(ws, a) - 1
  {
    if b == a + 1 {
      assert ws[a..b] == [ws[a]];
    } else {
      var last := ws[a..b][..b - a - 1];
      assert last == ws[a..b - 1];
      LineLen(ws, a, b - 1);
      ByteLenAppend(Line(last), " ");
      ByteLenAppend(Line(last) + " ", ws[b - 1]);
    }
  }

  lemma {:induction false} TotalGrows(ws: seq<string>, a: nat, b: nat)
    requires a <= b <= |ws|
    ensures Total(ws, a) <= Total(ws, b)
  {
    if a < b { TotalGrows(ws, a, b - 1); }
  }

  /** Where each line starts, and the end: a split of n words into non-empty lines. */
  predicate IsSplit(cuts: seq<nat>, n: nat) {
    && |cuts| > 0 && cuts[0] == 0 && cuts[|cuts| - 1] == n
    && forall j :: 0 <= j < |cuts| - 1 ==> cuts[j] < cuts[j + 1]
  }

  /** Every line is a single word or fits the width. */
  predicate Fits(ws: seq<string>, cuts: seq<nat>, width: int)
    requires IsSplit(cuts, |ws|)
  {
    forall j :: 0 <= j < |cuts| - 1 ==> LineFits(ws, cuts[j], cuts[j + 1], width)
  }

  predicate LineFits(ws: seq<string>, a: nat, b: nat, width: int) {
    a < b <= |ws| && (b == a + 1 || ByteLen(Line(ws[a..b])) <= width)
  }

  /** No line has room for the first word of the next one. */
  predicate Greedy(ws: seq<string>, cuts: seq<nat>, width: int)
    requires IsSplit(cuts, |ws|)
  {
    forall j :: 0 <= j < |cuts| - 2 ==> Full(ws, cuts[j], cuts[j + 1], width)
  }

  predicate Full(ws: seq<string>, a: nat, b: nat, width: int) {
    a < b < |ws| && ByteLen(Line(ws[a..b + 1])) > width
  }

  lemma {:induction false} Increasing(cuts: seq<nat>, n: nat, i: nat, j: nat)
    requires IsSplit(cuts, n) && i <= j < |cuts|
    ensures cuts[i] + (j - i) <= cuts[j] <= n
    decreases |cuts| - i
  {
    if i < j { Increasing(cuts, n, i + 1, j); } else if j < |cuts| - 1 { Increasing(cuts, n, j + 1, |cuts| - 1); }
  }

  /** The greedy split stays ahead of any other. */
  lemma {:induction false} StaysAhead(ws: seq<string>, greedy: seq<nat>, other: seq<nat>, width: int, j: nat)
    requires IsSplit(greedy, |ws|) && Greedy(ws, greedy, width) && IsSplit(other, |ws|) && Fits(ws, other, width)
    requires j < |greedy| && j < |other|
    ensures greedy[j] >= other[j]
  {
    hide Line, ByteLen;
    if j > 0 {
      StaysAhead(ws, greedy, other, width, j - 1);
      Increasing(greedy, |ws|, j, j);
      Increasing(other, |ws|, j - 1, j);
      if greedy[j] < other[j] {
        assert Full(ws, greedy[j - 1], greedy[j], width);
        assert LineFits(ws, other[j - 1], other[j], width);
        LineLen(ws, greedy[j - 1], greedy[j] + 1);
        LineLen(ws, other[j - 1], other[j]);
        TotalGrows(ws, other[j - 1], greedy[j - 1]);
        TotalGrows(ws, greedy[j] + 1, other[j]);
      }
    }
  }

  /** No other split into lines that are single words or fit the width has fewer lines. */
  lemma GreedyIsOptimal(ws: seq<string>, greedy: seq<nat>, other: seq<nat>, width: int)
    requires IsSplit(greedy, |ws|) && Greedy(ws, greedy, width) && IsSplit(other, |ws|) && Fits(ws, other, width)
    ensures |greedy| <= |other|
  {
    if |other| < |greedy| {
      StaysAhead(ws, greedy, other, width, |other| - 1);
      Increasing(greedy, |ws|, |other| - 1, |greedy| - 1);
    }
  }

  /** The lines are those of a split. */
  ghost predicate LinesOf(lines: seq<string>, ws: seq<string>, cuts: seq<nat>)
    requires IsSplit(cuts, |ws|)
  {
    |lines| == |cuts| - 1 && forall j {:trigger lines[j]} :: 0 <= j < |lines| ==> LineIs(lines, ws, cuts, j)
  }

  predicate LineIs(lines: seq<string>, ws: seq<string>, cuts: seq<nat>, j: nat)
    requires j < |lines| == |cuts| - 1
  {
    cuts[j] < cuts[j + 1] <= |ws| && lines[j] == Line(ws[cuts[j]..cuts[j + 1]])
  }

  /** A finished line: its words, within the width, with no room for the next one. */
  ghost predicate Placed(ws: seq<string>, a: nat, b: nat, line: string, i: nat, width: int) {
    b < i <= |ws| && LineFits(ws, a, b, width) && Full(ws, a, b, width) && line == Line(ws[a..b])
  }

  /** wrapText. The lines hold exactly the words of the text in order; a line of several words fits
      the width; and no other such split has fewer lines. */
  method WrapText(s: string, width: int) returns (lines: seq<string>, ghost cuts: seq<nat>)
    ensures IsSplit(cuts, |Words(s)|) && LinesOf(lines, Words(s), cuts)
    ensures Fits(Words(s), cuts, width) && Greedy(Words(s), cuts, width)
    ensures forall other :: IsSplit(other, |Words(s)|) && Fits(Words(s), other, width) ==> |lines| <= |other| - 1
  {
    hide Words, Line, ByteLen, FieldsFunc;
    var words := Words(s);
    if |words| == 0 {
      return [], [0];
    }
    lines := [];
    var cur := words[0];
    cuts := [0];
    assert words[0..1] == [words[0]];
    SingleWord(words[0]);
    for i := 1 to |words|
      invariant |cuts| == |lines| + 1 && cuts[0] == 0 && cuts[|lines|] < i
      invariant forall j {:trigger lines[j]} :: 0 <= j < |lines| ==>
        Placed(words, cuts[j], cuts[j + 1], lines[j], i, width)
      invariant cur == Line(words[cuts[|lines|]..i]) && LineFits(words, cuts[|lines|], i, width)
    {
      var w := words[i];
      ghost var a := cuts[|lines|];
      OneMoreWord(words, a, i);
      if ByteLen(cur) + 1 + ByteLen(w) > width {
        lines := lines + [cur];
        cuts := cuts + [i];
        cur := w;
        continue;
      }
      cur := cur + " " + w;
    }
    LastLine(words, lines, cuts, cur, width);
    lines, cuts := lines + [cur], cuts + [|words|];
  }

  /** Line j once the last one has been placed as well. */
  lemma LineAt(ws: seq<string>, lines: seq<string>, cuts: seq<nat>, cur: string, width: int, j: nat)
    requires |cuts| == |lines| + 1 && cuts[|lines|] < |ws| && j <= |lines|
    requires j < |lines| ==> Placed(ws, cuts[j], cuts[j + 1], lines[j], |ws|, width)
    requires cur == Line(ws[cuts[|lines|]..|ws|]) && LineFits(ws, cuts[|lines|], |ws|, width)
    ensures var all, ends := lines + [cur], cuts + [|ws|];
      && ends[j] < ends[j + 1] && LineFits(ws, ends[j], ends[j + 1], width) && LineIs(all, ws, ends, j)
      && (j < |lines| ==> Full(ws, ends[j], ends[j + 1], width))
  {
    hide Line, ByteLen;
  }

  /** The last line closes the split. */
  lemma LastLine(ws: seq<string>, lines: seq<string>, cuts: seq<nat>, cur: string, width: int)
    requires |cuts| == |lines| + 1 && cuts[0] == 0 && cuts[|lines|] < |ws|
    requires forall j {:trigger lines[j]} :: 0 <= j < |lines| ==>
      Placed(ws, cuts[j], cuts[j + 1], lines[j], |ws|, width)
    requires cur == Line(ws[cuts[|lines|]..|ws|]) && LineFits(ws, cuts[|lines|], |ws|, width)
    ensures var all, ends := lines + [cur], cuts + [|ws|];
      && IsSplit(ends, |ws|) && LinesOf(all, ws, ends) && Fits(ws, ends, width) && Greedy(ws, ends, width)
      && forall other :: IsSplit(other, |ws|) && Fits(ws, other, width) ==> |all| <= |other| - 1
  {
    hide Line, LineFits, LineIs, Full, Placed;
    var all, ends := lines + [cur], cuts + [|ws|];
    forall j | 0 <= j < |ends| - 1 ensures ends[j] < ends[j + 1] { LineAt(ws, lines, cuts, cur, width, j); }
    forall j | 0 <= j < |ends| - 1 ensures LineFits(ws, ends[j], ends[j + 1], width) {
      LineAt(ws, lines, cuts, cur, width, j);
    }
    forall j | 0 <= j < |all| ensures LineIs(all, ws, ends, j) { LineAt(ws, lines, cuts, cur, width, j); }
    forall j | 0 <= j < |ends| - 2 ensures Full(ws, ends[j], ends[j + 1], width) {
      LineAt(ws, lines, cuts, cur, width, j);
    }
    forall other | IsSplit(other, |ws|) && Fits(ws, other, width) ensures |all| <= |other| - 1 {
      GreedyIsOptimal(ws, ends, other, width);
    }
  }

  lemma SingleWord(w: string)
    ensures Line([w]) == w
  {}

  lemma OneMoreWord(ws: seq<string>, a: nat, i: nat)
    requires a < i < |ws|
    ensures Line(ws[a..i + 1]) == Line(ws[a..i]) + " " + ws[i]
    ensures ByteLen(Line(ws[a..i + 1])) == ByteLen(Line(ws[a..i])) + 1 + ByteLen(ws[i])
    ensures Line(ws[i..i + 1]) == ws[i]
  {
    assert ws[a..i + 1][..i - a] == ws[a..i] && ws[i..i + 1] == [ws[i]];
    ByteLenAppend(Line(ws[a..i]), " ");
    ByteLenAppend(Line(ws[a..i]) + " ", ws[i]);
  }

  /** Reading a wrapped text back gives the words of the text: nothing is lost, split or added. */
  lemma WrappedWords(s: string, lines: seq<string>, cuts: seq<nat>, j: nat)
    requires IsSplit(cuts, |Words(s)|) && LinesOf(lines, Words(s), cuts) && j < |lines|
    ensures cuts[j] < cuts[j + 1] <= |Words(s)| && Words(lines[j]) == Words(s)[cuts[j]..cuts[j + 1]]
  {
    hide Words, Line;
    WordsAreWords(s);
    var line := lines[j];
    assert cuts[j] < cuts[j + 1] && line == Line(Words(s)[cuts[j]..cuts[j + 1]]);
    WordsOfLine(Words(s)[cuts[j]..cuts[j + 1]]);
  }
}
