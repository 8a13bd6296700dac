/** Measuring, stripping, padding and truncating text with ANSI escapes (internal/ui/ansi.go).
    The escapes are a simplification of the control sequences of section 5.4 of ECMA-48: ESC
    up to the next letter, given up after 32 runes. */
module Ansi {
  const ESC: char := '\U{1b}'
  const MAX_ESCAPE := 32
  const RESET: string := [ESC, '[', '0', 'm']

  /** The display width of a rune. */
  type RuneWidth = f: char -> nat | (forall c :: f(c) <= 2) && f(' ') == 1 && f('.') == 1
    witness (c: char) => 1

  datatype Alignment = AlignLeft | AlignRight

  predicate IsLetter(r: char) { 'A' <= r <= 'Z' || 'a' <= r <= 'z' }

  // ---- the automaton ----

  /** Outside an escape, or that many runes into one. */
  datatype Scan = Text | Escape(runes: nat)

  function Next(st: Scan, r: char): Scan {
    if r == ESC then Escape(0)
    else if st.Text? then Text
    else if st.runes + 1 > MAX_ESCAPE || IsLetter(r) then Text
    else Escape(st.runes + 1)
  }

  predicate Visible(st: Scan, r: char) { r != ESC && st.Text? }

  function ScanFrom(st: Scan, s: string): Scan {
    if s == [] then st else Next(ScanFrom(st, s[..|s| - 1]), s[|s| - 1])
  }

  /** What remains of s read in state st. */
  function StripFrom(st: Scan, s: string): string {
    if s == [] then []
    else
      var init, r := s[..|s| - 1], s[|s| - 1];
      if Visible(ScanFrom(st, init), r) then StripFrom(st, init) + [r] else StripFrom(st, init)
  }

  function Stripped(s: string): string { StripFrom(Text, s) }

  function WidthOf(w: RuneWidth, s: string): nat {
    if s == [] then 0 else WidthOf(w, s[..|s| - 1]) + w(s[|s| - 1])
  }

  /** The printable width: that of the runes outside escapes. */
  function Width(w: RuneWidth, s: string): nat { WidthOf(w, Stripped(s)) }

  predicate Plain(s: string) { ESC !in s }

  /** No escape runs past the bound. */
  predicate Bounded(s: string) {
    s == [] || (Bounded(s[..|s| - 1]) && (ScanFrom(Text, s[..|s| - 1]) == Escape(MAX_ESCAPE) ==> s[|s| - 1] == ESC))
  }

  /** Inside an escape as the truncation loop has it: one that is never given up. */
  predicate Open(s: string) {
    s != [] && (s[|s| - 1] == ESC || (Open(s[..|s| - 1]) && !IsLetter(s[|s| - 1])))
  }

  /** The rune takes up cells behind an escape that the scanner has given up and the truncation loop
      has not. */
  predicate Misses(w: RuneWidth, s: string, r: char) {
    Open(s) && Visible(ScanFrom(Text, s), r) && w(r) > 0
  }

  /** The truncation loop misses some cell. */
  predicate Missed(w: RuneWidth, s: string) {
    s != [] && (Missed(w, s[..|s| - 1]) || Misses(w, s[..|s| - 1], s[|s| - 1]))
  }

  /** The cells before the first one missed: all of them if none is. */
  function Seen(w: RuneWidth, s: string): nat {
    if Missed(w, s) then Seen(w, s[..|s| - 1]) else Width(w, s)
  }

  // ---- the scanner ----

  lemma {:induction false} ScanAppend(st: Scan, a: string, b: string)
    ensures ScanFrom(st, a + b) == ScanFrom(ScanFrom(st, a), b)
    ensures StripFrom(st, a + b) == StripFrom(st, a) + StripFrom(ScanFrom(st, a), b)
  {
    if b == [] {
      assert a + b == a;
    } else {
      var init := b[..|b| - 1];
      assert (a + b)[..|a + b| - 1] == a + init;
      ScanAppend(st, a, init);
    }
  }

  lemma {:induction false} WidthAppend(w: RuneWidth, a: string, b: string)
    ensures WidthOf(w, a + b) == WidthOf(w, a) + WidthOf(w, b)
  {
    if b == [] {
      assert a + b == a;
    } else {
      assert (a + b)[..|a + b| - 1] == a + b[..|b| - 1];
      WidthAppend(w, a, b[..|b| - 1]);
    }
  }

  /** Stripping leaves no escape, whatever the state the text is read in. */
  lemma {:induction false} StrippedIsPlain(st: Scan, s: string)
    ensures Plain(StripFrom(st, s))
  {
    if s != [] { StrippedIsPlain(st, s[..|s| - 1]); }
  }

  lemma {:induction false} PlainIsText(s: string)
    requires Plain(s)
    ensures ScanFrom(Text, s) == Text && Stripped(s) == s && Bounded(s)
  {
    if s != [] {
      PlainIsText(s[..|s| - 1]);
      assert s == s[..|s| - 1] + [s[|s| - 1]];
    }
  }

  /** Stripping is idempotent and keeps the printable width, for every string. */
  lemma StripIdempotent(w: RuneWidth, s: string)
    ensures Plain(Stripped(s)) && Stripped(Stripped(s)) == Stripped(s)
    ensures Width(w, Stripped(s)) == Width(w, s)
    ensures Plain(s) ==> Stripped(s) == s && Width(w, s) == WidthOf(w, s)
  {
    StrippedIsPlain(Text, s);
    PlainIsText(Stripped(s));
    if Plain(s) { PlainIsText(s); }
  }

  lemma StripStep(s: string, i: nat)
    requires i < |s|
    ensures ScanFrom(Text, s[..i + 1]) == Next(ScanFrom(Text, s[..i]), s[i])
    ensures Stripped(s[..i + 1]) ==
      if Visible(ScanFrom(Text, s[..i]), s[i]) then Stripped(s[..i]) + [s[i]] else Stripped(s[..i])
  {
    assert s[..i + 1][..i] == s[..i];
  }

  /** VisibleWidth. */
  method VisibleWidth(w: RuneWidth, s: string) returns (count: nat)
    ensures count == Width(w, s)
  {
    count := 0;
    var inEscape, escapeLen := false, 0;
    for i := 0 to |s|
      invariant ScanFrom(Text, s[..i]) == if inEscape then Escape(escapeLen) else Text
      invariant 0 <= escapeLen && count == Width(w, s[..i])
    {
      StripStep(s, i);
      var r := s[i];
      if r == ESC {
        inEscape, escapeLen := true, 0;
        continue;
      }
      if inEscape {
        escapeLen := escapeLen + 1;
        if escapeLen > MAX_ESCAPE {
          inEscape, escapeLen := false, 0;
          continue;
        }
        if IsLetter(r) {
          inEscape, escapeLen := false, 0;
        }
        continue;
      }
      WidthAppend(w, Stripped(s[..i]), [r]);
      count := count + w(r);
    }
    assert s[..|s|] == s;
  }

  /** StripANSI. */
  method StripANSI(s: string) returns (out: string)
    ensures out == Stripped(s)
  {
    if ESC !in s {
      PlainIsText(s);
      return s;
    }
    out := [];
    var inEscape, escapeLen := false, 0;
    for i := 0 to |s|
      invariant ScanFrom(Text, s[..i]) == if inEscape then Escape(escapeLen) else Text
      invariant 0 <= escapeLen && out == Stripped(s[..i])
    {
      StripStep(s, i);
      var r := s[i];
      if r == ESC {
        inEscape, escapeLen := true, 0;
        continue;
      }
      if inEscape {
        escapeLen := escapeLen + 1;
        if escapeLen > MAX_ESCAPE {
          inEscape, escapeLen := false, 0;
          continue;
        }
        if IsLetter(r) {
          inEscape, escapeLen := false, 0;
        }
        continue;
      }
      out := out + [r];
    }
    assert s[..|s|] == s;
  }

  /** An escape with at most 32 runes before its letter is invisible, and over with the letter. */
  lemma {:induction false} EscapeIsInvisible(body: string, letter: char)
    requires |body| <= 32 && ('A' <= letter <= 'Z' || 'a' <= letter <= 'z')
    requires forall i :: 0 <= i < |body| ==> !('A' <= body[i] <= 'Z' || 'a' <= body[i] <= 'z') && body[i] != ESC
    ensures Stripped([ESC] + body + [letter]) == "" && ScanFrom(Text, [ESC] + body + [letter]) == Text
  {
    hide StripFrom, ScanFrom;
    InEscape(body);
    var s := [ESC] + body;
    assert (s + [letter])[..|s|] == s;
    StripLast(s, letter);
  }

  lemma {:induction false} InEscape(body: string)
    requires |body| <= MAX_ESCAPE && forall i :: 0 <= i < |body| ==> !IsLetter(body[i]) && body[i] != ESC
    ensures Stripped([ESC] + body) == "" && ScanFrom(Text, [ESC] + body) == Escape(|body|)
  {
    hide StripFrom, ScanFrom;
    if body == [] {
      StripLast([], ESC);
      assert [] + [ESC] == [ESC] + body;
      NothingStripped();
    } else {
      var init := body[..|body| - 1];
      InEscape(init);
      StripLast([ESC] + init, body[|body| - 1]);
      assert [ESC] + init + [body[|body| - 1]] == [ESC] + body;
    }
  }

  lemma NothingStripped()
    ensures Stripped("") == "" && ScanFrom(Text, "") == Text
  {}

  lemma StripLast(s: string, r: char)
    ensures ScanFrom(Text, s + [r]) == Next(ScanFrom(Text, s), r)
    ensures Stripped(s + [r]) == if Visible(ScanFrom(Text, s), r) then Stripped(s) + [r] else Stripped(s)
  {
    assert (s + [r])[..|s|] == s;
  }

  // ---- padding ----

  function Spaces(n: nat): string { seq(n, _ => ' ') }

  function Padded(w: RuneWidth, s: string, width: int, align: Alignment): string {
    if Width(w, s) >= width then s
    else if align == AlignRight then Spaces(width - Width(w, s)) + s
    else s + Spaces(width - Width(w, s))
  }

  lemma {:induction false} SpacesWidth(w: RuneWidth, n: nat)
    ensures WidthOf(w, Spaces(n)) == n && Plain(Spaces(n))
  {
    if n > 0 {
      assert Spaces(n)[..n - 1] == Spaces(n - 1);
      SpacesWidth(w, n - 1);
    }
  }

  predicate AllBlank(s: string) { forall i :: 0 <= i < |s| ==> s[i] == ' ' }

  /** Spaces after an escape that is still open are swallowed up to the bound. */
  lemma {:induction false} SpacesInEscape(n: nat, k: nat)
    requires n <= MAX_ESCAPE
    ensures var room := MAX_ESCAPE + 1 - n;
      && ScanFrom(Escape(n), Spaces(k)) == (if k < room then Escape(n + k) else Text)
      && |StripFrom(Escape(n), Spaces(k))| == if k <= room then 0 else k - room
    ensures AllBlank(StripFrom(Escape(n), Spaces(k)))
  {
    if k > 0 {
      assert Spaces(k)[..k - 1] == Spaces(k - 1);
      SpacesInEscape(n, k - 1);
    }
  }

  lemma {:induction false} AllSpaces(w: RuneWidth, s: string)
    requires AllBlank(s)
    ensures WidthOf(w, s) == |s|
  {
    if s != [] { AllSpaces(w, s[..|s| - 1]); }
  }

  lemma {:induction false} ScanIsBounded(s: string)
    ensures var st := ScanFrom(Text, s); st.Text? || st.runes <= MAX_ESCAPE
  {
    if s != [] { ScanIsBounded(s[..|s| - 1]); }
  }

  /** Padding reaches exactly the wanted width, unless spaces are put behind an open escape. */
  lemma PadWidth(w: RuneWidth, s: string, width: int, align: Alignment)
    ensures Width(w, Padded(w, s, width, align)) == (if Width(w, s) >= width then Width(w, s) else width)
        <==> Width(w, s) >= width || align == AlignRight || ScanFrom(Text, s).Text?
  {
    hide StripFrom, ScanFrom, WidthOf, Spaces;
    if Width(w, s) < width {
      var n: nat := width - Width(w, s);
      var pad := Spaces(n);
      SpacesWidth(w, n);
      PlainIsText(pad);
      if align == AlignRight {
        ScanAppend(Text, pad, s);
        WidthAppend(w, pad, Stripped(s));
      } else {
        var st := ScanFrom(Text, s);
        ScanAppend(Text, s, pad);
        WidthAppend(w, Stripped(s), StripFrom(st, pad));
        if st.Escape? {
          ScanIsBounded(s);
          SpacesInEscape(st.runes, n);
          AllSpaces(w, StripFrom(st, pad));
        }
      }
    }
  }

  /** What padding adds is blank, on the side that the alignment says. */
  lemma PadIsBlank(w: RuneWidth, s: string, width: int, align: Alignment)
    ensures var r := Padded(w, s, width, align);
      && |s| <= |r|
      && (align == AlignLeft ==> r[..|s|] == s && AllBlank(r[|s|..]))
      && (align == AlignRight ==> r[|r| - |s|..] == s && AllBlank(r[..|r| - |s|]))
  {
    hide StripFrom, ScanFrom, WidthOf;
  }

  /** PadANSI. The text is kept and only spaces are added, on the side that the alignment says; the
      result has the wanted width, or the text's own if that is larger, exactly when no space is put
      behind an escape that is still open. */
  method PadANSI(w: RuneWidth, s: string, width: int, align: Alignment) returns (r: string)
    ensures r == Padded(w, s, width, align)
    ensures Width(w, r) == (if Width(w, s) >= width then Width(w, s) else width)
        <==> Width(w, s) >= width || align == AlignRight || ScanFrom(Text, s).Text?
    ensures |s| <= |r| && (if align == AlignLeft then r[..|s|] == s && AllBlank(r[|s|..])
                           else r[|r| - |s|..] == s && AllBlank(r[..|r| - |s|]))
  {
    hide StripFrom, ScanFrom, WidthOf;
    PadWidth(w, s, width, align);
    PadIsBlank(w, s, width, align);
    var vis := VisibleWidth(w, s);
    if vis >= width {
      return s;
    }
    var pad := Spaces(width - vis);
    return if align == AlignRight then pad + s else s + pad;
  }

  // ---- truncating ----

  /** The truncation loop: what it has written, how wide that is, whether it is inside an escape
      (however long), has seen one, and has stopped. */
  datatype Cut = Cut(out: string, width: nat, inEscape: bool, sawEscape: bool, stopped: bool)

  function CutStep(w: RuneWidth, target: int, c: Cut, r: char): Cut {
    if c.stopped then c
    else if r == ESC then c.(out := c.out + [r], inEscape := true, sawEscape := true)
    else if c.inEscape then c.(out := c.out + [r], inEscape := !IsLetter(r))
    else if c.width + w(r) > target then c.(stopped := true)
    else c.(out := c.out + [r], width := c.width + w(r))
  }

  function CutAt(w: RuneWidth, target: int, s: string): Cut {
    if s == [] then Cut([], 0, false, false, false)
    else CutStep(w, target, CutAt(w, target, s[..|s| - 1]), s[|s| - 1])
  }

  /** The cut text, with the reset and the ellipsis. */
  function Truncated(w: RuneWidth, s: string, width: int): string {
    if Width(w, s) <= width then s
    else if width <= 0 then []
    else
      var c := CutAt(w, if width >= 3 then width - 3 else width, s);
      c.out + (if c.sawEscape then RESET else []) + if width >= 3 then "..." else []
  }

  lemma CutAtStart(w: RuneWidth, target: int, s: string)
    ensures CutAt(w, target, s[..0]) == Cut([], 0, false, false, false)
  {}

  lemma CutAtStep(w: RuneWidth, target: int, s: string, i: nat)
    requires i < |s|
    ensures CutAt(w, target, s[..i + 1]) == CutStep(w, target, CutAt(w, target, s[..i]), s[i])
  {
    assert s[..i + 1][..i] == s[..i];
  }

  lemma {:induction false} StoppedStays(w: RuneWidth, target: int, s: string, i: nat)
    requires i <= |s| && CutAt(w, target, s[..i]).stopped
    ensures CutAt(w, target, s) == CutAt(w, target, s[..i])
  {
    if i == |s| {
      assert s[..i] == s;
    } else {
      assert s[..|s| - 1][..i] == s[..i];
      StoppedStays(w, target, s[..|s| - 1], i);
    }
  }

  /** The first k runes, the reset if there is an escape among them, and the ellipsis if there is room. */
  predicate IsCutAt(s: string, k: nat, width: int, r: string) {
    k <= |s| && r == s[..k] + (if ESC in s[..k] then [ESC, '[', '0', 'm'] else "") + (if width >= 3 then "..." else "")
  }

  lemma {:induction false} EscapeIsSeen(w: RuneWidth, target: int, s: string)
    ensures CutAt(w, target, s).sawEscape <==> ESC in CutAt(w, target, s).out
  {
    if s != [] { EscapeIsSeen(w, target, s[..|s| - 1]); }
  }

  lemma CutIsAt(w: RuneWidth, s: string, width: int)
    requires Width(w, s) > width > 0
    ensures exists k :: 0 <= k <= |s| && IsCutAt(s, k, width, Truncated(w, s, width))
  {
    hide WidthOf, StripFrom, CutAt;
    var target := if width >= 3 then width - 3 else width;
    EscapeIsSeen(w, target, s);
    CutIsPrefix(w, target, s);
    var out := CutAt(w, target, s).out;
    assert out == s[..|out|];
    assert IsCutAt(s, |out|, width, Truncated(w, s, width));
  }

  /** TruncateANSI. The text as it is when it fits; otherwise its start, with a reset behind it when the start
      holds an escape, closed or not, and an ellipsis when the width has room for one. */
  method TruncateANSI(w: RuneWidth, s: string, width: int) returns (r: string)
    ensures r == Truncated(w, s, width)
    ensures Width(w, s) <= width ==> r == s
    ensures Width(w, s) > width && width <= 0 ==> r == ""
    ensures Width(w, s) > width > 0 ==> exists k :: 0 <= k <= |s| && IsCutAt(s, k, width, r)
  {
    hide Width, WidthOf, StripFrom, ScanFrom, CutAt;
    var vis := VisibleWidth(w, s);
    if vis <= width {
      return s;
    }
    if width <= 0 {
      return [];
    }
    var target, ellipsis := width, "";
    if width >= 3 {
      target, ellipsis := width - 3, "...";
    }
    var out, sawEscape, visibleCount, inEscape := "", false, 0, false;
    var i := 0;
    ghost var stopped := false;
    CutAtStart(w, target, s);
    CutIsAt(w, s, width);
    while i < |s|
      invariant 0 <= i <= |s| && 0 <= visibleCount && !stopped
      invariant CutAt(w, target, s[..i]) == Cut(out, visibleCount, inEscape, sawEscape, false)
    {
      CutAtStep(w, target, s, i);
      var c := s[i];
      i := i + 1;
      if c == ESC {
        inEscape, sawEscape := true, true;
        out := out + [c];
        continue;
      }
      if inEscape {
        out := out + [c];
        if IsLetter(c) {
          inEscape := false;
        }
        continue;
      }
      if visibleCount + w(c) > target {
        stopped := true;
        break;
      }
      out := out + [c];
      visibleCount := visibleCount + w(c);
    }
    assert CutAt(w, target, s[..i]) == Cut(out, visibleCount, inEscape, sawEscape, stopped);
    if stopped { StoppedStays(w, target, s, i); } else { assert s[..i] == s; }
    if sawEscape {
      out := out + RESET;
    }
    return out + ellipsis;
  }

  /** The scanner is inside an escape only where the loop is. */
  lemma {:induction false} EscapeIsOpen(s: string)
    ensures ScanFrom(Text, s).Escape? ==> Open(s)
  {
    if s != [] { EscapeIsOpen(s[..|s| - 1]); }
  }

  /** While escapes stay within the bound nothing is missed. */
  lemma {:induction false} BoundedMissesNothing(w: RuneWidth, s: string)
    requires Bounded(s)
    ensures Open(s) == ScanFrom(Text, s).Escape? && !Missed(w, s)
  {
    if s != [] {
      BoundedMissesNothing(w, s[..|s| - 1]);
      ScanIsBounded(s[..|s| - 1]);
    }
  }

  /** The cut of a styled text and the cut of what is left of it when stripped keep pace: same
      width, same moment of stopping, the same visible runes kept. */
  ghost predicate InPace(w: RuneWidth, target: nat, s: string, a: Cut, b: Cut) {
    && b.out == Stripped(a.out) && a.width == b.width == WidthOf(w, b.out) <= target && a.stopped == b.stopped
    && !b.inEscape && !b.sawEscape
    && (!a.stopped ==> a.out == s && a.inEscape == Open(s))
    && (a.stopped ==> ScanFrom(Text, a.out).Text?)
  }

  lemma PaceVisible(w: RuneWidth, target: nat, init: string, r: char, a: Cut, b: Cut)
    requires InPace(w, target, init, a, b) && Visible(ScanFrom(Text, init), r) && !Misses(w, init, r)
    ensures InPace(w, target, init + [r], CutStep(w, target, a, r), CutStep(w, target, b, r))
  {
    hide WidthOf, Width;
    assert (init + [r])[..|init|] == init;
    OneMoreRune(w, b.out, r);
  }

  lemma PaceHidden(w: RuneWidth, target: nat, init: string, r: char, a: Cut, b: Cut)
    requires InPace(w, target, init, a, b) && !Visible(ScanFrom(Text, init), r)
    ensures InPace(w, target, init + [r], CutStep(w, target, a, r), b)
  {
    hide WidthOf;
    assert (init + [r])[..|init|] == init;
    EscapeIsOpen(init);
  }

  lemma PaceStart(w: RuneWidth, target: nat)
    ensures InPace(w, target, [], CutAt(w, target, []), CutAt(w, target, Stripped([])))
  {}

  lemma {:induction false} CutKeepsPace(w: RuneWidth, target: nat, s: string)
    requires !Missed(w, s)
    ensures InPace(w, target, s, CutAt(w, target, s), CutAt(w, target, Stripped(s)))
  {
    hide WidthOf, InPace;
    if s == [] {
      PaceStart(w, target);
    } else {
      var init, r := s[..|s| - 1], s[|s| - 1];
      var a, b := CutAt(w, target, init), CutAt(w, target, Stripped(init));
      CutKeepsPace(w, target, init);
      assert s == init + [r];
      if Visible(ScanFrom(Text, init), r) {
        assert (Stripped(init) + [r])[..|Stripped(init)|] == Stripped(init);
        PaceVisible(w, target, init, r, a, b);
      } else {
        PaceHidden(w, target, init, r, a, b);
      }
    }
  }

  lemma {:induction false} CutFits(w: RuneWidth, target: nat, s: string)
    ensures CutAt(w, target, s).width <= target
    ensures CutAt(w, target, s).stopped ==> !CutAt(w, target, s).inEscape
  {
    if s != [] { CutFits(w, target, s[..|s| - 1]); }
  }

  /** The cut keeps a prefix, escapes included. */
  lemma {:induction false} CutIsPrefix(w: RuneWidth, target: nat, s: string)
    ensures var c := CutAt(w, target, s);
      c.out <= s && (!c.stopped ==> c.out == s) && (c.stopped ==> |c.out| < |s|)
  {
    if s != [] {
      var init := s[..|s| - 1];
      CutIsPrefix(w, target, init);
      assert s == init + [s[|s| - 1]];
    }
  }

  /** What was written is the longest prefix of s that fits the target, or all of s so far. */
  ghost predicate Longest(w: RuneWidth, target: nat, s: string, c: Cut) {
    && !c.inEscape && !c.sawEscape && c.out <= s && c.width == WidthOf(w, c.out) <= target
    && if c.stopped then |c.out| < |s| && WidthOf(w, s[..|c.out| + 1]) > target else c.out == s
  }

  lemma LongestStep(w: RuneWidth, target: nat, s: string, r: char, c: Cut)
    requires Longest(w, target, s, c) && r != ESC
    ensures Longest(w, target, s + [r], CutStep(w, target, c, r))
  {
    hide WidthOf;
    if c.stopped {
      assert (s + [r])[..|c.out| + 1] == s[..|c.out| + 1];
    } else {
      assert (s + [r])[..|c.out| + 1] == s + [r];
      OneMoreRune(w, s, r);
    }
  }

  lemma OneMoreRune(w: RuneWidth, s: string, r: char)
    ensures WidthOf(w, s + [r]) == WidthOf(w, s) + w(r)
  {
    assert (s + [r])[..|s|] == s;
  }

  /** Of plain text the cut keeps the longest prefix that fits. */
  lemma {:induction false} CutIsLongestPrefix(w: RuneWidth, target: nat, s: string)
    requires Plain(s)
    ensures Longest(w, target, s, CutAt(w, target, s))
  {
    if s != [] {
      var init, r := s[..|s| - 1], s[|s| - 1];
      CutIsLongestPrefix(w, target, init);
      LongestStep(w, target, init, r, CutAt(w, target, init));
      assert s == init + [r];
    }
  }

  /** A reset ends any escape and shows nothing. */
  lemma ResetIsInvisible(st: Scan)
    ensures ScanFrom(st, RESET) == Text && StripFrom(st, RESET) == []
  {
    assert RESET == [ESC] + ['['] + ['0'] + ['m'];
    ScanAppend(st, [ESC], ['[']);
    ScanAppend(st, [ESC] + ['['], ['0']);
    ScanAppend(st, [ESC] + ['['] + ['0'], ['m']);
  }

  lemma EllipsisIsPlain(w: RuneWidth)
    ensures Plain("...") && WidthOf(w, "...") == 3
  {
    assert "..." == "." + "." + ".";
    OneMoreRune(w, "", '.');
    OneMoreRune(w, ".", '.');
    OneMoreRune(w, "." + ".", '.');
  }

  /** A reset and an ellipsis behind a text add the ellipsis only and leave no escape open. */
  lemma TailIsEllipsis(w: RuneWidth, out: string, reset: string, tail: string)
    requires reset == RESET || (reset == [] && ScanFrom(Text, out).Text?)
    requires tail == [] || tail == "..."
    ensures Stripped(out + reset + tail) == Stripped(out) + tail && ScanFrom(Text, out + reset + tail).Text?
    ensures WidthOf(w, Stripped(out) + tail) == WidthOf(w, Stripped(out)) + |tail|
  {
    hide StripFrom, ScanFrom, WidthOf;
    var st := ScanFrom(Text, out);
    assert ScanFrom(st, reset) == Text && StripFrom(st, reset) == [] by { ResetIsInvisible(st); EmptyText(w, st); }
    assert ScanFrom(Text, tail) == Text && Stripped(tail) == tail && WidthOf(w, tail) == |tail| by {
      EllipsisIsPlain(w);
      EmptyText(w, Text);
      PlainIsText(tail);
    }
    ScanAppend(Text, out, reset);
    ScanAppend(Text, out + reset, tail);
    WidthAppend(w, Stripped(out), tail);
    assert Stripped(out) + [] == Stripped(out);
  }

  lemma EmptyText(w: RuneWidth, st: Scan)
    ensures ScanFrom(st, []) == st && StripFrom(st, []) == [] && WidthOf(w, []) == 0
  {}

  // ---- what is left after a cut ----

  /** How many cells of text a cut may keep. */
  function Target(width: int): int { if width >= 3 then width - 3 else width }

  /** The cells that the truncation loop keeps. */
  function Kept(w: RuneWidth, s: string, target: nat): nat { Width(w, CutAt(w, target, s).out) }

  lemma {:induction false} WidthMonotone(w: RuneWidth, a: string, b: string)
    requires a <= b
    ensures Stripped(a) <= Stripped(b) && Width(w, a) <= Width(w, b)
  {
    assert b == a + b[|a|..];
    ScanAppend(Text, a, b[|a|..]);
    WidthAppend(w, Stripped(a), StripFrom(ScanFrom(Text, a), b[|a|..]));
  }

  /** The loop stops outside escapes, remembers every escape it passed, and counts at most what is
      visible. */
  ghost predicate Counts(w: RuneWidth, target: nat, s: string, c: Cut) {
    && c.out <= s && c.width <= target && c.width <= Width(w, c.out)
    && (c.stopped ==> ScanFrom(Text, c.out).Text?)
    && (!c.stopped ==> c.out == s && c.inEscape == Open(s))
    && (ScanFrom(Text, c.out).Escape? ==> c.sawEscape)
    && (c.stopped ==> |c.out| < |s| && Visible(ScanFrom(Text, c.out), s[|c.out|]) && c.width + w(s[|c.out|]) > target)
  }

  lemma WidthStep(w: RuneWidth, s: string, r: char)
    ensures ScanFrom(Text, s + [r]) == Next(ScanFrom(Text, s), r)
    ensures Stripped(s + [r]) == if Visible(ScanFrom(Text, s), r) then Stripped(s) + [r] else Stripped(s)
    ensures Width(w, s + [r]) == Width(w, s) + if Visible(ScanFrom(Text, s), r) then w(r) else 0
    ensures Open(s + [r]) == (r == ESC || (Open(s) && !IsLetter(r)))
    ensures Missed(w, s + [r]) == (Missed(w, s) || Misses(w, s, r))
  {
    hide WidthOf;
    assert (s + [r])[..|s|] == s;
    OneMoreRune(w, Stripped(s), r);
  }

  lemma CountsStep(w: RuneWidth, target: nat, s: string, r: char, c: Cut)
    requires Counts(w, target, s, c)
    ensures Counts(w, target, s + [r], CutStep(w, target, c, r))
  {
    hide WidthOf, ScanFrom, StripFrom, Open, Missed;
    WidthStep(w, s, r);
    EscapeIsOpen(s);
  }

  lemma {:induction false} LoopCounts(w: RuneWidth, target: nat, s: string)
    ensures Counts(w, target, s, CutAt(w, target, s))
  {
    hide Counts, WidthOf, ScanFrom, StripFrom;
    if s == [] {
      NothingCounted(w, target);
    } else {
      var init, r := s[..|s| - 1], s[|s| - 1];
      LoopCounts(w, target, init);
      CountsStep(w, target, init, r, CutAt(w, target, init));
      assert s == init + [r];
    }
  }

  lemma NothingCounted(w: RuneWidth, target: nat)
    ensures Counts(w, target, [], CutAt(w, target, []))
  {}

  /** Truncating, when it cuts, leaves the kept text and the ellipsis. */
  lemma CutLeaves(w: RuneWidth, s: string, width: int)
    requires Width(w, s) > width > 0
    ensures var out := CutAt(w, Target(width), s).out;
      Stripped(Truncated(w, s, width)) == Stripped(out) + if width >= 3 then "..." else []
    ensures Width(w, Truncated(w, s, width)) == Kept(w, s, Target(width)) + width - Target(width)
    ensures ScanFrom(Text, Truncated(w, s, width)).Text?
  {
    hide CutAt, WidthOf, ScanFrom, StripFrom;
    var c := CutAt(w, Target(width), s);
    LoopCounts(w, Target(width), s);
    TailIsEllipsis(w, c.out, if c.sawEscape then RESET else [], if width >= 3 then "..." else []);
  }

  lemma LongestIsUnique(w: RuneWidth, target: nat, z: string, x: string, y: string)
    requires x <= z && y <= z && |x| < |z| && |y| < |z| && WidthOf(w, x) <= target && WidthOf(w, y) <= target
    requires WidthOf(w, z[..|x| + 1]) > target && WidthOf(w, z[..|y| + 1]) > target
    ensures x == y
  {
    hide WidthOf;
    if |x| < |y| {
      PrefixWidth(w, z[..|x| + 1], y);
    } else if |y| < |x| {
      PrefixWidth(w, z[..|y| + 1], x);
    }
  }

  lemma PrefixWidth(w: RuneWidth, a: string, b: string)
    requires a <= b
    ensures WidthOf(w, a) <= WidthOf(w, b)
  {
    assert b == a + b[|a|..];
    WidthAppend(w, a, b[|a|..]);
  }

  /** If what the loop keeps fits, it is the longest prefix of the visible text that fits. */
  lemma KeptIsLongest(w: RuneWidth, s: string, target: nat)
    requires Width(w, s) > target
    ensures Kept(w, s, target) <= target <==> Stripped(CutAt(w, target, s).out) == CutAt(w, target, Stripped(s)).out
  {
    hide CutAt, WidthOf, ScanFrom, StripFrom, Open;
    var c, b, t := CutAt(w, target, s), CutAt(w, target, Stripped(s)), Stripped(s);
    LoopCounts(w, target, s);
    StrippedIsPlain(Text, s);
    CutIsLongestPrefix(w, target, t);
    assert b.stopped;
    if Kept(w, s, target) <= target {
      var r, x := s[|c.out|], Stripped(c.out);
      WidthStep(w, c.out, r);
      assert c.out + [r] <= s;
      WidthMonotone(w, c.out + [r], s);
      assert t[..|x| + 1] == x + [r];
      LongestIsUnique(w, target, t, x, b.out);
    }
  }

  /** Cutting a styled text amounts to cutting what it shows. */
  predicate Refines(w: RuneWidth, s: string, width: int) {
    Stripped(Truncated(w, s, width)) == Truncated(w, Stripped(s), width)
  }

  predicate Fits(w: RuneWidth, s: string, width: int) {
    Width(w, Truncated(w, s, width)) <= if width > 0 then width else 0
  }

  /** For every text and width: truncation refines plain truncation exactly when its result fits,
      which is when nothing is cut or the cells kept leave room for the ellipsis. */
  lemma RefinesIffFits(w: RuneWidth, s: string, width: int)
    ensures Refines(w, s, width) <==> Fits(w, s, width)
    ensures Fits(w, s, width) <==> Width(w, s) <= width || width <= 0 || Kept(w, s, Target(width)) <= Target(width)
  {
    hide CutAt, WidthOf, ScanFrom, StripFrom;
    StripIdempotent(w, s);
    EmptyText(w, Text);
    if Width(w, s) > width > 0 {
      var target := Target(width);
      CutLeaves(w, s, width);
      KeptIsLongest(w, s, target);
      CutIsLongestPrefix(w, target, Stripped(s));
      var tail := if width >= 3 then "..." else [];
      assert Truncated(w, Stripped(s), width) == CutAt(w, target, Stripped(s)).out + tail;
      SameTail(Stripped(CutAt(w, target, s).out), CutAt(w, target, Stripped(s)).out, tail);
    }
  }

  lemma SameTail(a: string, b: string, tail: string)
    ensures a + tail == b + tail <==> a == b
  {
    if a + tail == b + tail {
      assert a == (a + tail)[..|a|] && b == (b + tail)[..|b|];
    }
  }

  // ---- which texts are cut well ----

  lemma {:induction false} MissedStays(w: RuneWidth, a: string, b: string)
    requires a <= b && Missed(w, a)
    ensures Missed(w, b) && Seen(w, b) == Seen(w, a)
  {
    if |a| < |b| {
      MissedStays(w, a, b[..|b| - 1]);
    } else {
      assert a == b;
    }
  }

  /** Without a cell missed the loop counts exactly what it keeps; and what it misses lies within the
      target. */
  ghost predicate Within(w: RuneWidth, target: nat, s: string, c: Cut) {
    if Missed(w, c.out) then Missed(w, s) && Seen(w, s) <= target else c.width == Width(w, c.out)
  }

  lemma WithinStep(w: RuneWidth, target: nat, s: string, r: char, c: Cut)
    requires Within(w, target, s, c) && Counts(w, target, s, c)
    ensures Within(w, target, s + [r], CutStep(w, target, c, r))
  {
    hide WidthOf, ScanFrom, StripFrom, Width, Missed, Seen, Open;
    var t := s + [r];
    WidthStep(w, s, r);
    EscapeIsOpen(s);
    if Missed(w, s) {
      MissedStays(w, s, t);
    } else {
      FirstMissed(w, s, r);
    }
  }

  lemma FirstMissed(w: RuneWidth, s: string, r: char)
    requires !Missed(w, s)
    ensures Seen(w, s + [r]) == if Misses(w, s, r) then Width(w, s) else Width(w, s + [r])
  {
    hide WidthOf, StripFrom, ScanFrom;
    assert (s + [r])[..|s|] == s;
  }

  lemma {:induction false} MissedWithin(w: RuneWidth, target: nat, s: string)
    ensures Within(w, target, s, CutAt(w, target, s))
  {
    hide Within, WidthOf, ScanFrom, StripFrom;
    if s == [] {
      NothingWithin(w, target);
    } else {
      var init, r := s[..|s| - 1], s[|s| - 1];
      MissedWithin(w, target, init);
      LoopCounts(w, target, init);
      WithinStep(w, target, init, r, CutAt(w, target, init));
      assert s == init + [r];
    }
  }

  lemma NothingWithin(w: RuneWidth, target: nat)
    ensures Within(w, target, [], CutAt(w, target, []))
  {}

  /** A text that shows no more than the target does not stop the loop. */
  lemma RunsPast(w: RuneWidth, target: nat, s: string)
    requires Width(w, s) <= target
    ensures !CutAt(w, target, s).stopped
  {
    hide CutAt, WidthOf, ScanFrom, StripFrom, Open;
    var c := CutAt(w, target, s);
    LoopCounts(w, target, s);
    if c.stopped {
      var r := s[|c.out|];
      WidthStep(w, c.out, r);
      assert c.out + [r] <= s;
      WidthMonotone(w, c.out + [r], s);
    }
  }

  /** With the target just where the first cell is missed, the loop passes over it and keeps too
      much. */
  lemma {:induction false} MissedIsKept(w: RuneWidth, s: string)
    requires Missed(w, s)
    ensures Kept(w, s, Seen(w, s)) > Seen(w, s)
  {
    hide WidthOf, ScanFrom, StripFrom, Width;
    var init, r, target := s[..|s| - 1], s[|s| - 1], Seen(w, s);
    assert s == init + [r];
    WidthStep(w, init, r);
    LoopCounts(w, target, init);
    LoopCounts(w, target, s);
    if Missed(w, init) {
      MissedIsKept(w, init);
      assert CutAt(w, target, init).out <= CutAt(w, target, s).out;
      WidthMonotone(w, CutAt(w, target, init).out, CutAt(w, target, s).out);
    } else {
      RunsPast(w, target, init);
    }
  }

  /** Styled truncation refines plain truncation, and its result fits, whenever the loop misses no
      cell; in particular when every escape ends within the bound. */
  lemma TruncateRefines(w: RuneWidth, s: string, width: int)
    requires !Missed(w, s)
    ensures Refines(w, s, width) && Fits(w, s, width)
    ensures ScanFrom(Text, s).Text? ==> ScanFrom(Text, Truncated(w, s, width)).Text?
  {
    hide CutAt, WidthOf, ScanFrom, StripFrom, Missed;
    RefinesIffFits(w, s, width);
    EmptyText(w, Text);
    if Width(w, s) > width > 0 {
      CutLeaves(w, s, width);
      CutKeepsPace(w, Target(width), s);
    }
  }

  /** The exact condition over all widths with an ellipsis: a text is always cut well if and only if at
      most three cells lie behind what is seen before the first one missed. */
  lemma CutWellIff(w: RuneWidth, s: string)
    ensures (forall width :: width >= 3 ==> Refines(w, s, width) && Fits(w, s, width)) <==>
      Width(w, s) <= Seen(w, s) + 3
  {
    hide CutAt, WidthOf, ScanFrom, StripFrom, Refines, Fits;
    if Width(w, s) > Seen(w, s) + 3 {
      assert Missed(w, s);
      MissedIsKept(w, s);
      RefinesIffFits(w, s, Seen(w, s) + 3);
      assert !Fits(w, s, Seen(w, s) + 3);
    } else {
      forall width | width >= 3 ensures Refines(w, s, width) && Fits(w, s, width) {
        RefinesIffFits(w, s, width);
        if Width(w, s) > width {
          MissedWithin(w, Target(width), s);
          LoopCounts(w, Target(width), s);
        }
      }
    }
  }

  /** Over all widths, for texts with at least four cells from the first one missed on: a text is
      always cut well if and only if none is missed. */
  lemma CutWellIffNothingMissed(w: RuneWidth, s: string)
    requires Missed(w, s) ==> Width(w, s) >= Seen(w, s) + 4
    ensures (forall width :: Refines(w, s, width) && Fits(w, s, width)) <==> !Missed(w, s)
  {
    hide Missed, Seen, Refines, Fits, Width;
    CutWellIff(w, s);
    if !Missed(w, s) {
      forall width ensures Refines(w, s, width) && Fits(w, s, width) { TruncateRefines(w, s, width); }
    }
  }

  /** A table cell is exactly as wide as its column, and leaves no escape open. */
  lemma CellWidth(w: RuneWidth, s: string, width: nat, align: Alignment)
    requires !Missed(w, s) && ScanFrom(Text, s).Text?
    ensures Width(w, Padded(w, Truncated(w, s, width), width, align)) == width
    ensures ScanFrom(Text, Padded(w, Truncated(w, s, width), width, align)).Text?
  {
    hide Truncated, Missed, Refines;
    var cut := Truncated(w, s, width);
    TruncateRefines(w, s, width);
    PadWidth(w, cut, width, align);
    PadClosed(w, cut, width, align);
  }

  lemma PadClosed(w: RuneWidth, s: string, width: int, align: Alignment)
    requires ScanFrom(Text, s).Text?
    ensures ScanFrom(Text, Padded(w, s, width, align)).Text?
  {
    hide WidthOf, StripFrom;
    var pad := Spaces(if Width(w, s) < width then width - Width(w, s) else 0);
    SpacesWidth(w, |pad|);
    PlainIsText(pad);
    ScanAppend(Text, s, pad);
    ScanAppend(Text, pad, s);
  }

  // ---- escapes past the bound ----

  lemma {:induction false} OpenSpaces(w: RuneWidth, n: nat)
    ensures var s := [ESC] + Spaces(n);
      && Open(s) && (Bounded(s) <==> n <= MAX_ESCAPE) && (Missed(w, s) <==> n > MAX_ESCAPE + 1)
      && Seen(w, s) == 0 && Width(w, s) == if n <= MAX_ESCAPE + 1 then 0 else n - (MAX_ESCAPE + 1)
  {
    hide ScanFrom, StripFrom, WidthOf, Open, Missed;
    var s := [ESC] + Spaces(n);
    OpenEscape(w);
    if n == 0 {
      assert s == [ESC];
    } else {
      var init := [ESC] + Spaces(n - 1);
      assert s == init + [' '] && s[..|s| - 1] == init;
      OpenSpaces(w, n - 1);
      ScanAppend(Text, [ESC], Spaces(n - 1));
      SpacesInEscape(0, n - 1);
      WidthStep(w, init, ' ');
    }
  }

  lemma OpenEscape(w: RuneWidth)
    ensures var s := [ESC];
      && Open(s) && Bounded(s) && !Missed(w, s) && Seen(w, s) == 0 && Width(w, s) == 0
      && ScanFrom(Text, s) == Escape(0)
  {
    hide StripFrom, WidthOf;
    assert [ESC] == [] + [ESC];
    WidthStep(w, [], ESC);
    EmptyText(w, Text);
  }

  /** The bound matters: behind an escape that runs past it, truncation, which has no bound, still
      sees an escape. Fifty cells cut to three leave more than three; but an escape past the bound
      with nothing behind it does no harm. */
  lemma OverlongEscapeIsKept(w: RuneWidth)
    ensures var s := [ESC] + Spaces(83);
      !Bounded(s) && Width(w, s) == 50 && !Fits(w, s, 3) && Width(w, Truncated(w, s, 3)) > 50
    ensures var s := [ESC] + Spaces(33);
      !Bounded(s) && forall width :: Refines(w, s, width) && Fits(w, s, width)
  {
    hide CutAt, WidthOf, ScanFrom, StripFrom, Missed, Refines, Open;
    var long, harmless := [ESC] + Spaces(MAX_ESCAPE + 51), [ESC] + Spaces(MAX_ESCAPE + 1);
    OpenSpaces(w, MAX_ESCAPE + 51);
    OpenSpaces(w, MAX_ESCAPE + 1);
    AllKept(w, 0, MAX_ESCAPE + 51);
    CutLeaves(w, long, 3);
    EllipsisIsPlain(w);
    forall width { TruncateRefines(w, harmless, width); }
  }

  lemma {:induction false} AllKept(w: RuneWidth, target: nat, n: nat)
    ensures var s := [ESC] + Spaces(n);
      var c := CutAt(w, target, s); c.out == s && c.inEscape && !c.stopped
  {
    var s := [ESC] + Spaces(n);
    if n > 0 {
      assert s[..|s| - 1] == [ESC] + Spaces(n - 1);
      AllKept(w, target, n - 1);
    } else {
      assert s[..0] == [] && s == [ESC];
    }
  }
}
