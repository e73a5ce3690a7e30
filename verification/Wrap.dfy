/**
 The greedy line wrap and the warning box of the startup banner, with the proof
 that no layout of the same words uses fewer lines.
 */
module Wrap {
  import opened Prelude

  const WARNING_INNER_WIDTH := 72
  const LABEL := " WARNING "

  type Line = seq<string>   // the words of one line

  /** The characters matched by \s. */
  predicate IsSpace(c: char) {
    || '\U{0009}' <= c <= '\U{000D}' || c == ' ' || c == '\U{00A0}' || c == '\U{1680}'
    || '\U{2000}' <= c <= '\U{200A}' || c == '\U{2028}' || c == '\U{2029}' || c == '\U{202F}'
    || c == '\U{205F}' || c == '\U{3000}' || c == '\U{FEFF}'
  }

  /** ECMAScript's WhiteSpace and LineTerminator, one by one. */
  const SPACES: set<char> := {
    '\U{0009}', '\U{000A}', '\U{000B}', '\U{000C}', '\U{000D}', '\U{0020}', '\U{00A0}', '\U{1680}', '\U{2000}',
    '\U{2001}', '\U{2002}', '\U{2003}', '\U{2004}', '\U{2005}', '\U{2006}', '\U{2007}', '\U{2008}', '\U{2009}',
    '\U{200A}', '\U{2028}', '\U{2029}', '\U{202F}', '\U{205F}', '\U{3000}', '\U{FEFF}'
  }

  lemma SpacesAreListed(c: char)
    ensures IsSpace(c) <==> c in SPACES
  {
  }

  predicate IsWord(w: string) {
    w != "" && forall i :: 0 <= i < |w| ==> !IsSpace(w[i])
  }

  /** text.split(/\s+/) without the empty pieces: the maximal runs of non-space characters. */
  function Words(text: string): (words: seq<string>)
    ensures forall w :: w in words ==> IsWord(w)
  {
    if text == "" then []
    else if IsSpace(text[0]) then Words(text[1..])
    else
      var n := WordLength(text);
      [text[..n]] + Words(text[n..])
  }

  function WordLength(text: string): (n: nat)
    ensures n <= |text| && forall i :: 0 <= i < n ==> !IsSpace(text[i])
    ensures n < |text| ==> IsSpace(text[n])
  {
    if text == "" || IsSpace(text[0]) then 0 else 1 + WordLength(text[1..])
  }

  function Join(words: Line): string {
    if words == [] then ""
    else if |words| == 1 then words[0]
    else Join(words[..|words| - 1]) + " " + words[|words| - 1]
  }

  /** A line fits the width, or it is one oversized word. */
  predicate Fits(line: Line, width: int) {
    |line| == 1 || (line != [] && |Join(line)| <= width)
  }

  function Flatten(layout: seq<Line>): seq<string> {
    if layout == [] then [] else layout[0] + Flatten(layout[1..])
  }

  /** An order-preserving division of the words into lines that obey the width rule. */
  predicate IsLayout(layout: seq<Line>, words: seq<string>, width: int) {
    && Flatten(layout) == words
    && forall i :: 0 <= i < |layout| ==> Fits(layout[i], width)
  }

  // ---------------------------------------------------------------- greedy layout

  function Extend(words: seq<string>, width: int, k: nat): (n: nat)
    requires 1 <= k <= |words|
    ensures k <= n <= |words|
    decreases |words| - k
  {
    if k < |words| && Fits(words[..k + 1], width) then Extend(words, width, k + 1) else k
  }

  lemma {:induction false} ExtendIsMaximal(words: seq<string>, width: int, k: nat)
    requires 1 <= k <= |words| && Fits(words[..k], width)
    ensures var n := Extend(words, width, k);
      Fits(words[..n], width) && (n < |words| ==> !Fits(words[..n + 1], width))
    decreases |words| - k
  {
    hide Fits;
    if k == |words| || !Fits(words[..k + 1], width) {
    } else {
      ExtendIsMaximal(words, width, k + 1);
    }
  }

  /** The longest first line. */
  function FirstLine(words: seq<string>, width: int): (n: nat)
    requires words != []
    ensures 1 <= n <= |words| && Fits(words[..n], width)
    ensures n < |words| ==> !Fits(words[..n + 1], width)
  {
    ExtendIsMaximal(words, width, 1);
    Extend(words, width, 1)
  }

  function Greedy(words: seq<string>, width: int): seq<Line> {
    if words == [] then []
    else
      var n := FirstLine(words, width);
      [words[..n]] + Greedy(words[n..], width)
  }

  lemma {:induction false} JoinLength(a: Line, b: Line)
    requires a != [] && b != []
    ensures |Join(a + b)| == |Join(a)| + 1 + |Join(b)|
  {
    var init := b[..|b| - 1];
    assert (a + b)[..|a + b| - 1] == a + init;
    if init != [] {
      JoinLength(a, init);
    } else {
      assert a + init == a;
    }
  }

  lemma StretchIsShorter(a: Line, b: Line, c: Line)
    requires b != []
    ensures |Join(b)| <= |Join(a + b + c)|
  {
    if a != [] {
      JoinLength(a, b);
    } else {
      assert a + b == b;
    }
    if c != [] {
      JoinLength(a + b, c);
    } else {
      assert a + b + c == a + b;
    }
  }

  /** Any stretch of a fitting line fits. */
  lemma PartFits(line: Line, i: nat, j: nat, width: int)
    requires i < j <= |line| && Fits(line, width)
    ensures Fits(line[i..j], width)
  {
    StretchIsShorter(line[..i], line[i..j], line[j..]);
    assert line == line[..i] + line[i..j] + line[j..];
  }

  lemma PrefixFits(words: seq<string>, width: int, n: nat, k: nat)
    requires 1 <= k <= n <= |words| && Fits(words[..n], width)
    ensures Fits(words[..k], width)
  {
    PartFits(words[..n], 0, k, width);
    assert words[..n][0..k] == words[..k];
  }

  /** The greedy first line is the longest one that fits. */
  lemma FirstLineIsLongest(words: seq<string>, width: int, n: nat)
    requires 1 <= n <= |words| && Fits(words[..n], width)
    ensures n <= FirstLine(words, width)
  {
    hide Fits, Join, Extend, FirstLine;
    var m := FirstLine(words, width);
    if m < n {
      PrefixFits(words, width, n, m + 1);
    }
  }

  lemma {:induction false} GreedyIsLayout(words: seq<string>, width: int)
    ensures IsLayout(Greedy(words, width), words, width)
    decreases |words|
  {
    hide Fits, Join, Extend, FirstLine;
    if words == [] {
    } else {
      var n := FirstLine(words, width);
      GreedyIsLayout(words[n..], width);
      assert Greedy(words, width)[1..] == Greedy(words[n..], width);
    }
  }

  /** A first line that starts later ends no earlier. */
  lemma FirstLineMonotone(words: seq<string>, d: nat, width: int)
    requires words != [] && d < FirstLine(words, width)
    ensures FirstLine(words, width) <= d + FirstLine(words[d..], width)
  {
    var n := FirstLine(words, width);
    PartFits(words[..n], d, n, width);
    assert words[..n][d..n] == words[d..][..n - d];
    FirstLineIsLongest(words[d..], width, n - d);
  }

  /** Starting later never needs more lines. */
  lemma {:induction false} GreedyMonotone(words: seq<string>, d: nat, width: int)
    requires d <= |words|
    ensures |Greedy(words[d..], width)| <= |Greedy(words, width)|
    decreases |words|
  {
    hide Fits, Join, Extend, FirstLine;
    if d == |words| {
    } else {
      var n := FirstLine(words, width);
      if n <= d {
        GreedyMonotone(words[n..], d - n, width);
        assert words[n..][d - n..] == words[d..];
      } else {
        FirstLineMonotone(words, d, width);
        var m := FirstLine(words[d..], width);
        GreedyMonotone(words[n..], d + m - n, width);
        assert words[n..][d + m - n..] == words[d..][m..];
      }
    }
  }

  /** No order-preserving layout with the same width rule has fewer lines. */
  lemma {:induction false} GreedyIsOptimal(words: seq<string>, width: int, layout: seq<Line>)
    requires IsLayout(layout, words, width)
    ensures |Greedy(words, width)| <= |layout|
    decreases |layout|
  {
    hide Join, Extend, FirstLine;
    if words == [] {
    } else {
      assert layout != [];
      var first, rest := layout[0], layout[1..];
      assert Fits(first, width) && words[..|first|] == first && words[|first|..] == Flatten(rest);
      forall i | 0 <= i < |rest| ensures Fits(rest[i], width) {
        assert rest[i] == layout[i + 1];
      }
      GreedyIsOptimal(words[|first|..], width, rest);
      FirstLineIsLongest(words, width, |first|);
      var n := FirstLine(words, width);
      GreedyMonotone(words[|first|..], n - |first|, width);
      assert words[|first|..][n - |first|..] == words[n..];
    }
  }

  // ---------------------------------------------------------------- the loop

  function Lines(layout: seq<Line>): seq<string> {
    seq(|layout|, i requires 0 <= i < |layout| => Join(layout[i]))
  }

  lemma FirstLineStops(line: Line, rest: seq<string>, width: int)
    requires Fits(line, width) && (rest != [] ==> !Fits(line + [rest[0]], width))
    ensures line != [] && FirstLine(line + rest, width) == |line|
  {
    hide Join, Extend, FirstLine;
    var words := line + rest;
    assert words[..|line|] == line;
    assert rest != [] ==> words[..|line| + 1] == line + [rest[0]];
    FirstLineIsLongest(words, width, |line|);
    if FirstLine(words, width) > |line| {
      PrefixFits(words, width, FirstLine(words, width), |line| + 1);
    }
  }

  /** A line is broken exactly where the next word no longer fits. */
  lemma GreedyBreak(line: Line, rest: seq<string>, width: int)
    requires Fits(line, width) && (rest != [] ==> !Fits(line + [rest[0]], width))
    ensures Greedy(line + rest, width) == [line] + Greedy(rest, width)
  {
    hide Fits, Join, FirstLine;
    FirstLineStops(line, rest, width);
    assert (line + rest)[..|line|] == line && (line + rest)[|line|..] == rest;
  }

  lemma JoinSnoc(line: Line, w: string)
    requires line != []
    ensures Join(line + [w]) == Join(line) + " " + w
  {
    assert (line + [w])[..|line|] == line;
  }

  /** The lines of the greedy layout, as strings. */
  function Wrapped(words: seq<string>, width: int): seq<string> {
    Lines(Greedy(words, width))
  }

  lemma WrappedBreak(line: Line, rest: seq<string>, width: int)
    requires Fits(line, width) && (rest != [] ==> !Fits(line + [rest[0]], width))
    ensures Wrapped(line + rest, width) == [Join(line)] + Wrapped(rest, width)
  {
    hide Fits, Join, Greedy;
    GreedyBreak(line, rest, width);
  }

  /** The final result, when `lines` are out, `line` is being filled and `rest` is to come. */
  function Pending(lines: seq<string>, line: Line, rest: seq<string>, width: int): seq<string> {
    lines + Wrapped(line + rest, width)
  }

  lemma Break(lines: seq<string>, line: Line, rest: seq<string>, width: int)
    requires Fits(line, width) && (rest != [] ==> !Fits(line + [rest[0]], width))
    ensures Pending(lines, line, rest, width) == Pending(lines + [Join(line)], [], rest, width)
  {
    hide Wrapped, Fits, Join;
    WrappedBreak(line, rest, width);
    assert [] + rest == rest;
    assert lines + ([Join(line)] + Wrapped(rest, width)) == lines + [Join(line)] + Wrapped(rest, width);
  }

  lemma BreakOversized(lines: seq<string>, word: string, rest: seq<string>, width: int)
    requires |word| > width
    ensures Pending(lines, [], [word] + rest, width) == Pending(lines + [word], [], rest, width)
  {
    if rest != [] {
      JoinSnoc([word], rest[0]);
    }
    assert [] + ([word] + rest) == [word] + rest;
    Break(lines, [word], rest, width);
  }

  lemma Grow(lines: seq<string>, line: Line, word: string, rest: seq<string>, width: int)
    ensures Pending(lines, line, [word] + rest, width) == Pending(lines, line + [word], rest, width)
  {
    assert line + ([word] + rest) == line + [word] + rest;
  }

  /** `line` is the current line, held as the string `current`. */
  ghost predicate Current(line: Line, current: string, width: int) {
    current == Join(line) && |current| <= Max(width, 0) && (current == "" <==> line == [])
  }

  lemma OneWord(word: string, width: int)
    requires IsWord(word) && |word| <= width
    ensures Current([word], word, width)
  {
  }

  lemma OverlongLine(line: Line, current: string, word: string, width: int)
    requires Current(line, current, width) && line != [] && width > 0
    ensures Fits(line, width) && (Fits(line + [word], width) <==> |current + " " + word| <= width)
    ensures |current + " " + word| <= width ==> Current(line + [word], current + " " + word, width)
  {
    JoinSnoc(line, word);
  }

  lemma CurrentFits(line: Line, current: string, width: int)
    requires Current(line, current, width)
    ensures current == Join(line) && (current != "" ==> Fits(line, width)) && (current == "" ==> line == [])
  {
  }

  lemma PendingEnds(lines: seq<string>, words: seq<string>, width: int)
    ensures Current([], "", width)
    ensures Pending([], [], words, width) == Wrapped(words, width)
    ensures Pending(lines, [], [], width) == lines
  {
    assert [] + words == words;
  }

  /** The loop body: the new current line, and the lines that `word` completed. */
  method Place(word: string, current: string, width: int, ghost lines: seq<string>, ghost line: Line,
               ghost rest: seq<string>)
    returns (out: seq<string>, current': string, ghost line': Line)
    requires IsWord(word) && Current(line, current, width)
    ensures Current(line', current', width)
    ensures Pending(lines, line, [word] + rest, width) == Pending(lines + out, line', rest, width)
  {
    PendingEnds(lines, [], width);
    hide Pending, Join, IsWord;
    if |current| == 0 {
      if |word| > width {
        BreakOversized(lines, word, rest, width);
        out, current', line' := [word], "", [];
      } else {
        OneWord(word, width);
        Grow(lines, [], word, rest, width);
        assert [] + [word] == [word] && lines + [] == lines;
        out, current', line' := [], word, [word];
      }
    } else {
      var next := current + " " + word;
      OverlongLine(line, current, word, width);
      hide Fits;
      if |next| <= width {
        Grow(lines, line, word, rest, width);
        assert lines + [] == lines;
        out, current', line' := [], next, line + [word];
      } else {
        Break(lines, line, [word] + rest, width);
        if |word| > width {
          BreakOversized(lines + [current], word, rest, width);
          assert lines + [current] + [word] == lines + [current, word];
          out, current', line' := [current, word], "", [];
        } else {
          OneWord(word, width);
          Grow(lines + [current], [], word, rest, width);
          assert [] + [word] == [word];
          out, current', line' := [current], word, [word];
        }
      }
    }
  }

  method WrapText(text: string, width: int) returns (lines: seq<string>)
    ensures lines == Wrapped(Words(text), width)
  {
    hide Wrapped, Pending, IsWord, Words, Current, Join, Fits;
    var words := Words(text);
    PendingEnds([], words, width);
    lines := [];
    var current := "";
    ghost var line: Line := [];
    var i := 0;
    assert words[i..] == words;
    while i < |words|
      invariant i <= |words| && Current(line, current, width)
      invariant Wrapped(words, width) == Pending(lines, line, words[i..], width)
    {
      assert words[i] in words && words[i..] == [words[i]] + words[i + 1..];
      var out;
      out, current, line := Place(words[i], current, width, lines, line, words[i + 1..]);
      lines := lines + out;
      i := i + 1;
    }
    assert words[i..] == [];
    if |current| > 0 {
      CurrentFits(line, current, width);
      Break(lines, line, [], width);
      lines := lines + [current];
    }
    PendingEnds(lines, words, width);
    CurrentFits(line, current, width);
  }

  // ---------------------------------------------------------------- splitting inverts wrapping

  lemma WordLengthSame(a: string, c: char, b: string)
    requires IsSpace(c)
    ensures WordLength(a + [c] + b) == WordLength(a)
  {
    hide IsSpace;
    var n := WordLength(a);
    assert (a + [c] + b)[n] == if n < |a| then a[n] else c;
  }

  lemma WordsAfterFirst(text: string, n: nat)
    requires text != "" && !IsSpace(text[0]) && n == WordLength(text)
    ensures 0 < n <= |text| && Words(text) == [text[..n]] + Words(text[n..])
  {
    hide IsSpace;
  }

  lemma {:induction false} WordsSplitAtSpace(a: string, c: char, b: string)
    requires IsSpace(c)
    ensures Words(a + [c] + b) == Words(a) + Words(b)
    decreases |a|
  {
    hide IsSpace, WordLength;
    var text := a + [c] + b;
    if a == "" {
      assert text[1..] == b;
    } else if IsSpace(a[0]) {
      assert text[1..] == a[1..] + [c] + b;
      WordsSplitAtSpace(a[1..], c, b);
    } else {
      WordsSplitAfterWord(a, c, b);
      WordsSplitAtSpace(a[WordLength(a)..], c, b);
    }
  }

  lemma WordsSplitAfterWord(a: string, c: char, b: string)
    requires IsSpace(c) && a != "" && !IsSpace(a[0])
    ensures var n := WordLength(a);
      && 0 < n <= |a|
      && Words(a) == [a[..n]] + Words(a[n..])
      && Words(a + [c] + b) == [a[..n]] + Words(a[n..] + [c] + b)
  {
    hide IsSpace, WordLength, Words;
    var text, n := a + [c] + b, WordLength(a);
    WordLengthSame(a, c, b);
    WordsAfterFirst(a, n);
    WordsAfterFirst(text, n);
    assert text[..n] == a[..n] && text[n..] == a[n..] + [c] + b;
  }

  lemma {:induction false} WordsOfLine(line: Line)
    requires forall w :: w in line ==> IsWord(w)
    ensures Words(Join(line)) == line
  {
    if line == [] {
    } else {
      var init, w := line[..|line| - 1], line[|line| - 1];
      assert w in line && IsWord(w) && WordLength(w) == |w| && w[..|w|] == w && Words(w) == [w];
      WordsOfLine(init);
      if init != [] {
        assert Join(line) == Join(init) + [' '] + w;
        WordsSplitAtSpace(Join(init), ' ', w);
      }
    }
  }

  function AllWords(lines: seq<string>): seq<string> {
    if lines == [] then [] else Words(lines[0]) + AllWords(lines[1..])
  }

  lemma {:induction false} WordsOfLines(layout: seq<Line>)
    requires forall w :: w in Flatten(layout) ==> IsWord(w)
    ensures AllWords(Lines(layout)) == Flatten(layout)
  {
    if layout == [] {
    } else {
      WordsOfLine(layout[0]);
      assert Lines(layout)[1..] == Lines(layout[1..]);
      WordsOfLines(layout[1..]);
    }
  }

  /** No order-preserving layout of the text's words by the same rule has fewer lines than the wrapped text. */
  lemma WrapIsOptimal(text: string, width: int, layout: seq<Line>)
    requires IsLayout(layout, Words(text), width)
    ensures |Wrapped(Words(text), width)| <= |layout|
  {
    GreedyIsOptimal(Words(text), width, layout);
  }

  /** Splitting the wrapped lines again gives the words of the text, in order. */
  lemma WrapKeepsWords(text: string, width: int)
    ensures AllWords(Wrapped(Words(text), width)) == Words(text)
    ensures forall i :: 0 <= i < |Wrapped(Words(text), width)| ==>
      |Wrapped(Words(text), width)[i]| <= width || |Words(Wrapped(Words(text), width)[i])| == 1
  {
    var layout := Greedy(Words(text), width);
    GreedyIsLayout(Words(text), width);
    WordsOfLines(layout);
    forall i | 0 <= i < |layout| ensures |Join(layout[i])| <= width || |Words(Join(layout[i]))| == 1 {
      LineWords(layout, i);
      WordsOfLine(layout[i]);
      assert Fits(layout[i], width);
    }
  }

  lemma {:induction false} LineWords(layout: seq<Line>, i: nat)
    requires i < |layout|
    ensures forall w :: w in layout[i] ==> w in Flatten(layout)
  {
    if i == 0 {
    } else {
      LineWords(layout[1..], i - 1);
    }
  }

  // ---------------------------------------------------------------- the box

  function Repeat(c: char, n: nat): string { seq(n, _ => c) }

  function PadEnd(s: string, width: nat): (r: string)
    ensures |r| == Max(|s|, width) && r[..|s|] == s
  {
    if |s| >= width then s else s + Repeat(' ', width - |s|)
  }

  function Longest(lines: seq<string>, least: nat): (n: nat)
    ensures n >= least && forall l :: l in lines ==> |l| <= n
  {
    if lines == [] then least else Max(|lines[0]|, Longest(lines[1..], least))
  }

  function TopRow(width: nat): (r: string)
    requires width >= |LABEL|
    ensures |r| == width + 4
  {
    ['\U{250C}', '\U{2500}'] + LABEL + Repeat('\U{2500}', width + 1 - |LABEL|) + ['\U{2510}']
  }

  function BodyRow(line: string, width: nat): (r: string)
    requires |line| <= width
    ensures |r| == width + 4 && r[2..2 + |line|] == line
  {
    ['\U{2502}', ' '] + PadEnd(line, width) + [' ', '\U{2502}']
  }

  function BottomRow(width: nat): (r: string)
    ensures |r| == width + 4
  {
    ['\U{2514}'] + Repeat('\U{2500}', width + 2) + ['\U{2518}']
  }

  function BodyRows(inner: seq<string>, width: nat): (rows: seq<string>)
    requires forall l :: l in inner ==> |l| <= width
    ensures |rows| == |inner|
    ensures forall i :: 0 <= i < |rows| ==> |rows[i]| == width + 4 && rows[i][2..2 + |inner[i]|] == inner[i]
  {
    seq(|inner|, i requires 0 <= i < |inner| => assert inner[i] in inner; BodyRow(inner[i], width))
  }

  function BoxWidth(inner: seq<string>): nat {
    Longest(inner, Max(WARNING_INNER_WIDTH, |LABEL|))
  }

  /** The rows of the box around already wrapped lines. */
  function BoxRows(inner: seq<string>): seq<string> {
    [TopRow(BoxWidth(inner))] + BodyRows(inner, BoxWidth(inner)) + [BottomRow(BoxWidth(inner))]
  }

  /** Every row has the same length, and each inner line is intact in its row. */
  lemma BoxIsRectangle(inner: seq<string>)
    ensures var rows := BoxRows(inner);
      && |rows| == |inner| + 2
      && (forall i :: 0 <= i < |rows| ==> |rows[i]| == BoxWidth(inner) + 4)
      && (forall i :: 0 <= i < |inner| ==> rows[i + 1][2..2 + |inner[i]|] == inner[i])
  {
    hide TopRow, BodyRows, BottomRow, BoxWidth;
  }

  lemma TopRowDrawn(n: nat)
    requires n >= |LABEL|
    ensures var top := TopRow(n);
      && top[0] == '\U{250C}' && top[n + 3] == '\U{2510}' && top[2..2 + |LABEL|] == LABEL
      && top[1] == '\U{2500}' && (forall k :: 2 + |LABEL| <= k < n + 3 ==> top[k] == '\U{2500}')
  {
  }

  lemma BodyRowDrawn(line: string, n: nat)
    requires |line| <= n
    ensures var row := BodyRow(line, n);
      && row[0] == row[n + 3] == '\U{2502}' && row[1] == row[n + 2] == ' '
      && (forall k :: 2 + |line| <= k < n + 2 ==> row[k] == ' ')
  {
    assert forall k :: 2 + |line| <= k < n + 2 ==> BodyRow(line, n)[k] == PadEnd(line, n)[k - 2];
  }

  lemma BottomRowDrawn(n: nat)
    ensures var bottom := BottomRow(n);
      && bottom[0] == '\U{2514}' && bottom[n + 3] == '\U{2518}'
      && (forall k :: 1 <= k < n + 3 ==> bottom[k] == '\U{2500}')
  {
  }

  /** The frame and the padding around the lines: corners, the label in the top row, and blanks up to the right edge. */
  lemma BoxIsDrawn(inner: seq<string>, i: nat)
    requires i < |inner|
    ensures var rows, n := BoxRows(inner), BoxWidth(inner);
      var top, row, bottom := rows[0], rows[i + 1], rows[|inner| + 1];
      && |top| == |row| == |bottom| == n + 4
      && top[0] == '\U{250C}' && top[n + 3] == '\U{2510}' && top[2..2 + |LABEL|] == LABEL
      && top[1] == '\U{2500}' && (forall k :: 2 + |LABEL| <= k < n + 3 ==> top[k] == '\U{2500}')
      && bottom[0] == '\U{2514}' && bottom[n + 3] == '\U{2518}'
      && (forall k :: 1 <= k < n + 3 ==> bottom[k] == '\U{2500}')
      && row[0] == row[n + 3] == '\U{2502}' && row[1] == row[n + 2] == ' '
      && (forall k :: 2 + |inner[i]| <= k < n + 2 ==> row[k] == ' ')
  {
    hide TopRow, BodyRow, BottomRow;
    var n := BoxWidth(inner);
    assert inner[i] in inner;
    TopRowDrawn(n);
    BodyRowDrawn(inner[i], n);
    BottomRowDrawn(n);
  }

  lemma {:induction false} LongestIsReached(lines: seq<string>, least: nat)
    ensures Longest(lines, least) == least || exists l :: l in lines && |l| == Longest(lines, least)
  {
    if lines == [] {
    } else {
      LongestIsReached(lines[1..], least);
      assert lines[0] in lines;
    }
  }

  /** The inner width is 72, unless a single word of the message is longer, and then that word fills a row. */
  lemma BoxIsTight(message: string)
    ensures var inner := Wrapped(Words(message), WARNING_INNER_WIDTH);
      && BoxWidth(inner) >= 72
      && (BoxWidth(inner) > 72 ==> exists w :: w in Words(message) && |w| == BoxWidth(inner))
  {
    var inner := Wrapped(Words(message), WARNING_INNER_WIDTH);
    LongestIsReached(inner, Max(WARNING_INNER_WIDTH, |LABEL|));
    var layout := Greedy(Words(message), WARNING_INNER_WIDTH);
    GreedyIsLayout(Words(message), WARNING_INNER_WIDTH);
    if BoxWidth(inner) > 72 {
      var i :| 0 <= i < |inner| && |inner[i]| == BoxWidth(inner);
      assert Fits(layout[i], WARNING_INNER_WIDTH) && inner[i] == Join(layout[i]);
      LineWords(layout, i);
      assert layout[i][0] in Words(message) && Join(layout[i]) == layout[i][0];
    }
  }

  method WarningBox(message: string) returns (rows: seq<string>)
    ensures rows == BoxRows(Wrapped(Words(message), WARNING_INNER_WIDTH))
  {
    var inner := WrapText(message, WARNING_INNER_WIDTH);
    rows := BoxRows(inner);
  }
}
